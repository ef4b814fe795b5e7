/**
 * The in-memory store of the marketplace server (server/storage.ts). Each of the five
 * tables is a map from id to record with its own id counter. A create call takes the
 * counter's value as the new id, bumps the counter and stores the record under that id;
 * nothing is ever deleted. A JavaScript Map iterates in insertion order, and the ids are
 * inserted in increasing order, so "the values of the map" are the rows with ids
 * 1 .. counter - 1 in that order; `Rows` is that sequence.
 */
module Storage {
  import opened Wrappers
  import opened Seqs
  import opened Text
  import opened Schema

  /** The table holds exactly the ids 1 .. next - 1, each row stored under its own id. */
  ghost predicate Numbered<T>(table: map<nat, Row<T>>, next: nat)
  {
    && next >= 1
    && (forall id :: id in table <==> 1 <= id < next)
    && (forall id :: id in table ==> table[id].id == id)
  }

  /** `Array.from(table.values())`: the rows with ids 1 .. next - 1, in insertion order. */
  function Rows<T>(table: map<nat, Row<T>>, next: nat): (r: seq<Row<T>>)
    requires forall id :: 1 <= id < next ==> id in table
    ensures |r| == if next == 0 then 0 else next - 1
    ensures forall i :: 0 <= i < |r| ==> r[i] == table[i + 1]
    decreases next
  {
    if next <= 1 then [] else Rows(table, next - 1) + [table[next - 1]]
  }

  /** Rows only looks at the ids below next. */
  lemma {:induction false} RowsFrame<T>(t1: map<nat, Row<T>>, t2: map<nat, Row<T>>, next: nat)
    requires forall id :: 1 <= id < next ==> id in t1 && id in t2 && t1[id] == t2[id]
    ensures Rows(t1, next) == Rows(t2, next)
    decreases next
  {
    if next > 1 {
      RowsFrame(t1, t2, next - 1);
    }
  }

  /** Storing the row with the next id appends it to the rows and keeps the table numbered. */
  lemma RowsStore<T>(table: map<nat, Row<T>>, next: nat, row: Row<T>)
    requires Numbered(table, next) && row.id == next
    ensures Numbered(table[next := row], next + 1)
    ensures Rows(table[next := row], next + 1) == Rows(table, next) + [row]
  {
    RowsFrame(table[next := row], table, next);
  }

  /** The rows of a numbered table are its values, in ascending id order. */
  lemma RowsOfNumbered<T>(table: map<nat, Row<T>>, next: nat)
    requires Numbered(table, next)
    ensures forall i :: 0 <= i < |Rows(table, next)| ==> Rows(table, next)[i].id == i + 1
    ensures forall row :: row in Rows(table, next) <==> row in table.Values
  {
    var r := Rows(table, next);
    forall row | row in table.Values
      ensures row in r
    {
      var id :| id in table && table[id] == row;
      assert r[id - 1] == row;
    }
  }

  /** The optional second argument of searchProducts. "" is an absent field. */
  datatype SearchFilters = SearchFilters(industry: string, age: string)

  /** The industry filter applies unless it is absent or "All Industries". */
  predicate IndustryFilterOn(filters: Option<SearchFilters>)
  {
    filters.Some? && filters.value.industry != "" && filters.value.industry != "All Industries"
  }

  /** The age filter applies unless it is absent or "Any Age". */
  predicate AgeFilterOn(filters: Option<SearchFilters>)
  {
    filters.Some? && filters.value.age != "" && filters.value.age != "Any Age"
  }

  /** The whole lower-cased query occurs in one of the four searchable columns, lower-cased. */
  predicate MentionsQuery(p: Product, lowerQuery: string)
  {
    || Contains(Lower(p.fields.headline), lowerQuery)
    || Contains(Lower(p.fields.description), lowerQuery)
    || Contains(Lower(p.fields.industry), lowerQuery)
    || Contains(Lower(p.fields.features), lowerQuery)
  }

  /** Whether a product survives searchProducts(query, filters), stated product by product. */
  predicate PassesSearch(p: Product, query: string, filters: Option<SearchFilters>)
  {
    && (query != "" ==> MentionsQuery(p, Lower(query)))
    && (IndustryFilterOn(filters) ==> p.fields.industry == filters.value.industry)
    && (AgeFilterOn(filters) ==> p.fields.age == filters.value.age)
  }

  function MentionsQueryFn(lowerQuery: string): Product -> bool
  {
    p => MentionsQuery(p, lowerQuery)
  }

  function IndustryIs(industry: string): Product -> bool
  {
    (p: Product) => p.fields.industry == industry
  }

  function AgeIs(age: string): Product -> bool
  {
    (p: Product) => p.fields.age == age
  }

  function SellerIs(sellerId: int): Product -> bool
  {
    (p: Product) => p.fields.sellerId == sellerId
  }

  function BuyerOf(buyerId: int): Inquiry -> bool
  {
    (q: Inquiry) => q.fields.buyerId == buyerId
  }

  function SellerOf(sellerId: int): Inquiry -> bool
  {
    (q: Inquiry) => q.fields.sellerId == sellerId
  }

  function AboutProduct(productId: int): Inquiry -> bool
  {
    (q: Inquiry) => q.fields.productId == productId
  }

  function InInquiry(inquiryId: int): Message -> bool
  {
    (m: Message) => m.fields.inquiryId == inquiryId
  }

  function EmailIs(email: string): User -> bool
  {
    (u: User) => u.fields.email == email
  }

  /** The first user of `all` with the given email (Array.prototype.find). */
  function FirstWithEmail(all: seq<User>, email: string): (r: Option<User>)
    ensures r.None? <==> forall u :: u in all ==> u.fields.email != email
    ensures r.Some? ==> r.value == all[FirstIndex(all, EmailIs(email))]
  {
    var k := FirstIndex(all, EmailIs(email));
    if k < |all| then Some(all[k])
    else
      assert forall u :: u in all ==> u.fields.email != email by {
        forall u | u in all ensures u.fields.email != email {
          var i :| 0 <= i < |all| && all[i] == u;
          assert !EmailIs(email)(all[i]);
        }
      }
      None
  }

  /** Among users numbered by position, the first one found has the smallest id with that email. */
  lemma FirstWithEmailIsEarliest(all: seq<User>, email: string)
    requires forall i :: 0 <= i < |all| ==> all[i].id == i + 1
    ensures FirstWithEmail(all, email).Some? ==>
      forall u :: u in all && u.fields.email == email ==> FirstWithEmail(all, email).value.id <= u.id
  {
    var k := FirstIndex(all, EmailIs(email));
    forall u | u in all && u.fields.email == email
      ensures k + 1 <= u.id
    {
      var i :| 0 <= i < |all| && all[i] == u;
      assert EmailIs(email)(all[i]);
    }
  }

  /** A user appended after the list is found only when no earlier user has the email. */
  lemma FirstWithEmailAppend(all: seq<User>, u: User)
    ensures FirstWithEmail(all + [u], u.fields.email) ==
      if FirstWithEmail(all, u.fields.email).Some? then FirstWithEmail(all, u.fields.email) else Some(u)
  {
    var p := EmailIs(u.fields.email);
    FirstIndexAppend(all, u, p);
    var k := FirstIndex(all, p);
    if k < |all| {
      assert (all + [u])[k] == all[k];
    }
  }

  /** `createdAt.getTime()`, the key getMessagesByInquiryId sorts by. */
  function CreatedAt(m: Message): int
  {
    m.createdAt
  }

  /** A filter keeps exactly the elements satisfying p, in their order. */
  lemma FilterExactly<T(!new)>(s: seq<T>, p: T -> bool)
    ensures IsSubsequence(Filter(s, p), s)
    ensures forall x :: x in Filter(s, p) <==> x in s && p(x)
  {
    FilterIsSubsequence(s, p);
    FilterMultiset(s, p);
  }

  class MemStorage {
    var users: map<nat, User>
    var products: map<nat, Product>
    var inquiries: map<nat, Inquiry>
    var messages: map<nat, Message>
    var contactSubmissions: map<nat, ContactSubmission>

    var userIdCounter: nat
    var productIdCounter: nat
    var inquiryIdCounter: nat
    var messageIdCounter: nat
    var contactSubmissionIdCounter: nat

    /** Every table holds ids 1 .. counter - 1 of its own counter. */
    ghost predicate Valid()
      reads this
    {
      && Numbered(users, userIdCounter)
      && Numbered(products, productIdCounter)
      && Numbered(inquiries, inquiryIdCounter)
      && Numbered(messages, messageIdCounter)
      && Numbered(contactSubmissions, contactSubmissionIdCounter)
    }

    /** Empty tables, every counter at 1 (the sample data is not part of this model). */
    constructor ()
      ensures Valid()
      ensures users == map[] && products == map[] && inquiries == map[]
      ensures messages == map[] && contactSubmissions == map[]
      ensures userIdCounter == 1 && productIdCounter == 1 && inquiryIdCounter == 1
      ensures messageIdCounter == 1 && contactSubmissionIdCounter == 1
    {
      users := map[];
      products := map[];
      inquiries := map[];
      messages := map[];
      contactSubmissions := map[];
      userIdCounter := 1;
      productIdCounter := 1;
      inquiryIdCounter := 1;
      messageIdCounter := 1;
      contactSubmissionIdCounter := 1;
    }

    function AllUsers(): seq<User>
      reads this
      requires Valid()
    {
      Rows(users, userIdCounter)
    }

    /** getAllProducts: every stored product once, in insertion order, which is ascending id order. */
    function GetAllProducts(): (r: seq<Product>)
      reads this
      requires Valid()
      ensures |r| == productIdCounter - 1
      ensures forall i :: 0 <= i < |r| ==> r[i].id == i + 1
      ensures forall i, j :: 0 <= i < j < |r| ==> r[i].id < r[j].id
      ensures forall p :: p in r <==> p in products.Values
    {
      RowsOfNumbered(products, productIdCounter);
      Rows(products, productIdCounter)
    }

    function AllInquiries(): seq<Inquiry>
      reads this
      requires Valid()
    {
      Rows(inquiries, inquiryIdCounter)
    }

    function AllMessages(): seq<Message>
      reads this
      requires Valid()
    {
      Rows(messages, messageIdCounter)
    }

    /** getUser: the user stored under id, if there is one. */
    function GetUser(id: int): (r: Option<User>)
      reads this
      requires Valid()
      ensures r.Some? <==> 1 <= id < userIdCounter
      ensures r.Some? ==> r.value.id == id && r.value in AllUsers()
    {
      if 0 <= id && id in users then
        RowsOfNumbered(users, userIdCounter);
        Some(users[id])
      else None
    }

    /** getUserByEmail: the earliest-inserted user with exactly that email, or none. */
    function GetUserByEmail(email: string): (r: Option<User>)
      reads this
      requires Valid()
      ensures r.None? <==> forall u :: u in AllUsers() ==> u.fields.email != email
      ensures r.Some? ==> r.value in AllUsers() && r.value.fields.email == email
      ensures r.Some? ==> forall u :: u in AllUsers() && u.fields.email == email ==> r.value.id <= u.id
    {
      RowsOfNumbered(users, userIdCounter);
      FirstWithEmailIsEarliest(AllUsers(), email);
      FirstWithEmail(AllUsers(), email)
    }

    /** getProduct: the product stored under id, if there is one. */
    function GetProduct(id: int): (r: Option<Product>)
      reads this
      requires Valid()
      ensures r.Some? <==> 1 <= id < productIdCounter
      ensures r.Some? ==> r.value.id == id && r.value in GetAllProducts()
    {
      if 0 <= id && id in products then Some(products[id]) else None
    }

    /** getProductsBySellerId: exactly the seller's products, in insertion order. */
    function GetProductsBySellerId(sellerId: int): (r: seq<Product>)
      reads this
      requires Valid()
      ensures IsSubsequence(r, GetAllProducts())
      ensures forall p :: p in r <==> p in GetAllProducts() && p.fields.sellerId == sellerId
    {
      FilterExactly(GetAllProducts(), SellerIs(sellerId));
      Filter(GetAllProducts(), SellerIs(sellerId))
    }

    /**
     * searchProducts: a non-empty query keeps the products mentioning it; then the industry
     * and the age filter each keep exact matches when they apply.
     */
    function SearchProducts(query: string, filters: Option<SearchFilters>): (r: seq<Product>)
      reads this
      requires Valid()
      ensures IsSubsequence(r, GetAllProducts())
      ensures forall p :: p in r <==> p in GetAllProducts() && PassesSearch(p, query, filters)
    {
      var all := GetAllProducts();
      var byQuery := if query != "" then Filter(all, MentionsQueryFn(Lower(query))) else all;
      var byIndustry := if IndustryFilterOn(filters) then Filter(byQuery, IndustryIs(filters.value.industry)) else byQuery;
      var byAge := if AgeFilterOn(filters) then Filter(byIndustry, AgeIs(filters.value.age)) else byIndustry;
      SearchSteps(all, byQuery, byIndustry, byAge, query, filters);
      byAge
    }

    /** getInquiry: the inquiry stored under id, if there is one. */
    function GetInquiry(id: int): (r: Option<Inquiry>)
      reads this
      requires Valid()
      ensures r.Some? <==> 1 <= id < inquiryIdCounter
      ensures r.Some? ==> r.value.id == id && r.value in AllInquiries()
    {
      if 0 <= id && id in inquiries then
        RowsOfNumbered(inquiries, inquiryIdCounter);
        Some(inquiries[id])
      else None
    }

    /** getInquiriesByBuyerId: exactly the buyer's inquiries, in insertion order. */
    function GetInquiriesByBuyerId(buyerId: int): (r: seq<Inquiry>)
      reads this
      requires Valid()
      ensures IsSubsequence(r, AllInquiries())
      ensures forall q :: q in r <==> q in AllInquiries() && q.fields.buyerId == buyerId
    {
      FilterExactly(AllInquiries(), BuyerOf(buyerId));
      Filter(AllInquiries(), BuyerOf(buyerId))
    }

    /** getInquiriesBySellerId: exactly the inquiries addressed to the seller, in insertion order. */
    function GetInquiriesBySellerId(sellerId: int): (r: seq<Inquiry>)
      reads this
      requires Valid()
      ensures IsSubsequence(r, AllInquiries())
      ensures forall q :: q in r <==> q in AllInquiries() && q.fields.sellerId == sellerId
    {
      FilterExactly(AllInquiries(), SellerOf(sellerId));
      Filter(AllInquiries(), SellerOf(sellerId))
    }

    /** getInquiriesByProductId: exactly the inquiries about the product, in insertion order. */
    function GetInquiriesByProductId(productId: int): (r: seq<Inquiry>)
      reads this
      requires Valid()
      ensures IsSubsequence(r, AllInquiries())
      ensures forall q :: q in r <==> q in AllInquiries() && q.fields.productId == productId
    {
      FilterExactly(AllInquiries(), AboutProduct(productId));
      Filter(AllInquiries(), AboutProduct(productId))
    }

    /**
     * getMessagesByInquiryId: exactly the messages of the inquiry, each once, ordered by
     * ascending creation time (a stable sort of the insertion order).
     */
    function GetMessagesByInquiryId(inquiryId: int): (r: seq<Message>)
      reads this
      requires Valid()
      ensures forall m :: m in r <==> m in AllMessages() && m.fields.inquiryId == inquiryId
      ensures multiset(r) == multiset(Filter(AllMessages(), InInquiry(inquiryId)))
      ensures SortedByKey(r, CreatedAt)
    {
      var mine := Filter(AllMessages(), InInquiry(inquiryId));
      FilterMultiset(AllMessages(), InInquiry(inquiryId));
      SortByKeySorted(mine, CreatedAt);
      SortByKey(mine, CreatedAt)
    }

    /** Messages of one inquiry created at the same instant come back in insertion order. */
    lemma MessageTiesInInsertionOrder(inquiryId: int, time: int)
      requires Valid()
      ensures IsSubsequence(Filter(GetMessagesByInquiryId(inquiryId), KeyIs(CreatedAt, time)), AllMessages())
    {
      var mine := Filter(AllMessages(), InInquiry(inquiryId));
      SortByKeyStable(mine, CreatedAt, time);
      FilterIsSubsequence(mine, KeyIs(CreatedAt, time));
      FilterIsSubsequence(AllMessages(), InInquiry(inquiryId));
      SubsequenceTransitive(Filter(mine, KeyIs(CreatedAt, time)), mine, AllMessages());
    }

    /** createUser: stores the payload under the next user id; a duplicate email is accepted. */
    method CreateUser(insertUser: InsertUser, now: int) returns (user: User)
      requires Valid()
      modifies this
      ensures Valid()
      ensures user == Row(old(userIdCounter), now, insertUser)
      ensures userIdCounter == old(userIdCounter) + 1
      ensures users == old(users)[user.id := user]
      ensures AllUsers() == old(AllUsers()) + [user]
      ensures GetUser(user.id) == Some(user)
      ensures GetUserByEmail(insertUser.email) ==
        if old(GetUserByEmail(insertUser.email)).Some? then old(GetUserByEmail(insertUser.email)) else Some(user)
      ensures products == old(products) && inquiries == old(inquiries)
      ensures messages == old(messages) && contactSubmissions == old(contactSubmissions)
      ensures productIdCounter == old(productIdCounter) && inquiryIdCounter == old(inquiryIdCounter)
      ensures messageIdCounter == old(messageIdCounter)
      ensures contactSubmissionIdCounter == old(contactSubmissionIdCounter)
    {
      ghost var before := AllUsers();
      var id := userIdCounter;
      userIdCounter := userIdCounter + 1;
      user := Row(id, now, insertUser);
      RowsStore(users, id, user);
      users := users[id := user];
      FirstWithEmailAppend(before, user);
      assert AllUsers() == before + [user];
    }

    /** createProduct: stores the payload under the next product id. */
    method CreateProduct(insertProduct: InsertProduct, now: int) returns (product: Product)
      requires Valid()
      modifies this
      ensures Valid()
      ensures product == Row(old(productIdCounter), now, insertProduct)
      ensures productIdCounter == old(productIdCounter) + 1
      ensures products == old(products)[product.id := product]
      ensures GetAllProducts() == old(GetAllProducts()) + [product]
      ensures GetProduct(product.id) == Some(product)
      ensures users == old(users) && inquiries == old(inquiries)
      ensures messages == old(messages) && contactSubmissions == old(contactSubmissions)
      ensures userIdCounter == old(userIdCounter) && inquiryIdCounter == old(inquiryIdCounter)
      ensures messageIdCounter == old(messageIdCounter)
      ensures contactSubmissionIdCounter == old(contactSubmissionIdCounter)
    {
      var id := productIdCounter;
      productIdCounter := productIdCounter + 1;
      product := Row(id, now, insertProduct);
      RowsStore(products, id, product);
      products := products[id := product];
    }

    /** createInquiry: stores the payload under the next inquiry id. */
    method CreateInquiry(insertInquiry: InsertInquiry, now: int) returns (inquiry: Inquiry)
      requires Valid()
      modifies this
      ensures Valid()
      ensures inquiry == Row(old(inquiryIdCounter), now, insertInquiry)
      ensures inquiryIdCounter == old(inquiryIdCounter) + 1
      ensures inquiries == old(inquiries)[inquiry.id := inquiry]
      ensures AllInquiries() == old(AllInquiries()) + [inquiry]
      ensures GetInquiry(inquiry.id) == Some(inquiry)
      ensures users == old(users) && products == old(products)
      ensures messages == old(messages) && contactSubmissions == old(contactSubmissions)
      ensures userIdCounter == old(userIdCounter) && productIdCounter == old(productIdCounter)
      ensures messageIdCounter == old(messageIdCounter)
      ensures contactSubmissionIdCounter == old(contactSubmissionIdCounter)
    {
      var id := inquiryIdCounter;
      inquiryIdCounter := inquiryIdCounter + 1;
      inquiry := Row(id, now, insertInquiry);
      RowsStore(inquiries, id, inquiry);
      inquiries := inquiries[id := inquiry];
    }

    /** createMessage: stores the payload under the next message id. */
    method CreateMessage(insertMessage: InsertMessage, now: int) returns (message: Message)
      requires Valid()
      modifies this
      ensures Valid()
      ensures message == Row(old(messageIdCounter), now, insertMessage)
      ensures messageIdCounter == old(messageIdCounter) + 1
      ensures messages == old(messages)[message.id := message]
      ensures AllMessages() == old(AllMessages()) + [message]
      ensures users == old(users) && products == old(products)
      ensures inquiries == old(inquiries) && contactSubmissions == old(contactSubmissions)
      ensures userIdCounter == old(userIdCounter) && productIdCounter == old(productIdCounter)
      ensures inquiryIdCounter == old(inquiryIdCounter)
      ensures contactSubmissionIdCounter == old(contactSubmissionIdCounter)
    {
      var id := messageIdCounter;
      messageIdCounter := messageIdCounter + 1;
      message := Row(id, now, insertMessage);
      RowsStore(messages, id, message);
      messages := messages[id := message];
    }

    /** createContactSubmission: stores the payload under the next submission id. */
    method CreateContactSubmission(insertSubmission: InsertContactSubmission, now: int)
      returns (submission: ContactSubmission)
      requires Valid()
      modifies this
      ensures Valid()
      ensures submission == Row(old(contactSubmissionIdCounter), now, insertSubmission)
      ensures contactSubmissionIdCounter == old(contactSubmissionIdCounter) + 1
      ensures contactSubmissions == old(contactSubmissions)[submission.id := submission]
      ensures users == old(users) && products == old(products)
      ensures inquiries == old(inquiries) && messages == old(messages)
      ensures userIdCounter == old(userIdCounter) && productIdCounter == old(productIdCounter)
      ensures inquiryIdCounter == old(inquiryIdCounter) && messageIdCounter == old(messageIdCounter)
    {
      var id := contactSubmissionIdCounter;
      contactSubmissionIdCounter := contactSubmissionIdCounter + 1;
      submission := Row(id, now, insertSubmission);
      RowsStore(contactSubmissions, id, submission);
      contactSubmissions := contactSubmissions[id := submission];
    }
  }

  /** The three filter stages of searchProducts keep, in order, the products passing the search. */
  lemma SearchSteps(all: seq<Product>, byQuery: seq<Product>, byIndustry: seq<Product>, byAge: seq<Product>,
                    query: string, filters: Option<SearchFilters>)
    requires byQuery == if query != "" then Filter(all, MentionsQueryFn(Lower(query))) else all
    requires byIndustry == if IndustryFilterOn(filters) then Filter(byQuery, IndustryIs(filters.value.industry)) else byQuery
    requires byAge == if AgeFilterOn(filters) then Filter(byIndustry, AgeIs(filters.value.age)) else byIndustry
    ensures IsSubsequence(byAge, all)
    ensures forall p :: p in byAge <==> p in all && PassesSearch(p, query, filters)
  {
    SubsequenceRefl(all);
    if query != "" {
      FilterExactly(all, MentionsQueryFn(Lower(query)));
    }
    if IndustryFilterOn(filters) {
      FilterExactly(byQuery, IndustryIs(filters.value.industry));
      SubsequenceTransitive(byIndustry, byQuery, all);
    }
    if AgeFilterOn(filters) {
      FilterExactly(byIndustry, AgeIs(filters.value.age));
      SubsequenceTransitive(byAge, byIndustry, all);
    }
  }
}
