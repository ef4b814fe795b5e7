/**
 * The records of the marketplace (users, product listings, inquiries, messages and
 * contact submissions). A stored record is its insert payload spread together with the
 * id and the creation time the store assigns. Nullable text columns are strings, with ""
 * standing for null: exact for the columns the code tests by truthiness, while a null
 * `headline` or `age`, on which the code calls string methods directly, has no model.
 */
module Schema {

  /** `{ ...insert, id, createdAt: now }`: a payload as stored under an id. */
  datatype Row<T> = Row(id: nat, createdAt: int, fields: T)

  /** The payload of createUser. `role` is "buyer" or "seller". */
  datatype InsertUser = InsertUser(
    email: string, password: string, role: string,
    businessName: string, firstName: string, lastName: string)

  /** The payload of createProduct: the listing columns the search and filter code reads. */
  datatype InsertProduct = InsertProduct(
    sellerId: int, headline: string, description: string, industry: string, features: string,
    age: string, arr: string, totalUsers: string, activeUsers: string, techStack: string,
    growthOpportunities: string)

  /** The payload of createInquiry: a buyer's inquiry about a seller's product. */
  datatype InsertInquiry = InsertInquiry(productId: int, buyerId: int, sellerId: int, isActive: bool)

  /** The payload of createMessage: one message within an inquiry. */
  datatype InsertMessage = InsertMessage(inquiryId: int, senderId: int, content: string)

  /** The payload of createContactSubmission. */
  datatype InsertContactSubmission = InsertContactSubmission(
    name: string, email: string, subject: string, message: string)

  type User = Row<InsertUser>
  type Product = Row<InsertProduct>
  type Inquiry = Row<InsertInquiry>
  type Message = Row<InsertMessage>
  type ContactSubmission = Row<InsertContactSubmission>
}
