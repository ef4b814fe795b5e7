# Phoenix marketplace: search, storage and buyer pages in Dafny

Phoenix is a marketplace where sellers list tech products and buyers search them. This
project models its core and proves properties of the model:

- the rule-based natural-language search, covering key-term extraction, intent
  detection, relevance scoring, stable ranking and the sentence that explains a search
  (`nl_search.dfy`);
- the server's in-memory store `MemStorage`: five tables, five id counters, the create
  calls and the lookups and filters over them (`storage.dfy`);
- the search results page, with its four filters and the revenue buckets
  (`search_results_page.dfy`);
- the buyers' product listings, with the two-step natural-language search, clear-all and
  the filtered list (`product_listings.dfy`);
- pagination of the results, six to a page (`pagination.dfy`);
- the buyer/seller chat, with its send handler (`messaging.dfy`).

Supporting modules:

- `seqs.dfy` holds `Array.prototype.filter`, `map` and `find`, and a stable sort by an
  integer key. The sort is stable because ECMAScript 2019 requires it of
  `Array.prototype.sort`. It also holds the facts the other modules need about these.
- `text.dfy` holds the JavaScript string operations the code uses: ASCII `toLowerCase`,
  `includes`, `trim`, `split(/\s+/)`, `join`, the `\b...\b` whole-word count, the
  digits-only `parseInt`, and decimal rendering.
- `schema.dfy` holds the record shapes.
- `product_filters.dfy` holds the per-product tests that the two pages share.

The code works by changing state step by step in three places: the store, the page
components and the chat. There the model uses classes with `modifies` clauses. The
search's loops are methods with loop invariants, and its in-place sort runs on an array.
Each of these is proved equal to a specification function. The lemmas state what the
code promises about those functions.

Nullable product text columns are plain strings, with `""` standing for null. For the
columns the code tests by truthiness (`arr`, `totalUsers`, `activeUsers`, `techStack`,
`growthOpportunities`) that is exact. `headline` and `age` are never tested that way: the code
calls string methods on them directly, and "## Left out" says what a null there does.
Timestamps (`new Date()`, `Date.now()`) are parameters `now` in milliseconds.

## Model

| member | source | states |
|---|---|---|
| NaturalLanguageSearch.Clean | client/src/lib/naturalLanguageSearch.ts:29 | the query lower-cased, with every character of ``.,/#!$%^&*;:{}=-_`~()`` deleted |
| NaturalLanguageSearch.Tokens | client/src/lib/naturalLanguageSearch.ts:32 | the cleaned query split at whitespace runs |
| NaturalLanguageSearch.ExtractKeyTerms | client/src/lib/naturalLanguageSearch.ts:27-36 | extractKeyTerms as a value: the query lower-cased, with the punctuation ``.,/#!$%^&*;:{}=-_`~()`` deleted, split at whitespace runs, keeping the tokens longer than two characters that are not stop words; the three lemmas below state what that guarantees |
| NaturalLanguageSearch.KeyTermsWellFormed | client/src/lib/naturalLanguageSearch.ts:27-36 | every key term is lower-case, has no stripped punctuation and no whitespace, is longer than two characters and is not a stop word |
| NaturalLanguageSearch.KeyTermsAreTokens | client/src/lib/naturalLanguageSearch.ts:32-35 | the key terms are the surviving whitespace tokens in query order, each exactly as often as it occurs among the tokens |
| NaturalLanguageSearch.KeyTermChar | client/src/lib/naturalLanguageSearch.ts:29 | every character of a key term comes from the lower-cased query and is neither punctuation nor whitespace |
| NaturalLanguageSearch.KeyTermsAreRegexLiteral | client/src/lib/naturalLanguageSearch.ts:29-35 | a query without regular-expression metacharacters meets `LiteralKeyTerms`: its key terms have none, so the `\b` pattern at line 63 matches them literally |
| NaturalLanguageSearch.LowerRegexLiteral | client/src/lib/naturalLanguageSearch.ts:29 | lower-casing introduces no regular-expression metacharacter |
| NaturalLanguageSearch.DetectedIntents | client/src/lib/naturalLanguageSearch.ts:39-54 | detectIntents as a value: the intents of the table, in table order, one of whose keywords occurs in the lower-cased query |
| NaturalLanguageSearch.DetectIntents | client/src/lib/naturalLanguageSearch.ts:39-54 | the loop over the intent table, with its early `break`, reports exactly the intents of the specification `DetectedIntents` |
| NaturalLanguageSearch.KeywordOccurs | client/src/lib/naturalLanguageSearch.ts:45-50 | the keyword scan answers true iff some keyword of the list occurs in the lower-cased query |
| NaturalLanguageSearch.DetectedIntentsProperties | client/src/lib/naturalLanguageSearch.ts:39-54 | the detected intents have no duplicates, keep the table order, and include an intent iff one of its keywords occurs in the lower-cased query |
| NaturalLanguageSearch.IntentListed | client/src/lib/naturalLanguageSearch.ts:14-24 | the intent table lists all five intents |
| NaturalLanguageSearch.KeywordsStartWithLetter | client/src/lib/naturalLanguageSearch.ts:14-24 | every trigger keyword is non-empty and starts with a lower-case letter |
| NaturalLanguageSearch.BlankTriggersNothing | client/src/lib/naturalLanguageSearch.ts:44-50 | a whitespace-only lower-cased query triggers no intent |
| NaturalLanguageSearch.LowerBlank | client/src/lib/naturalLanguageSearch.ts:40 | lower-casing keeps a whitespace-only query whitespace-only |
| NaturalLanguageSearch.BlankQueryIsMeaningless | client/src/lib/naturalLanguageSearch.ts:123-138 | a whitespace-only query has no key terms and no intents |
| NaturalLanguageSearch.BlankQueryHasNoTerms | client/src/lib/naturalLanguageSearch.ts:29-35 | a query that is blank after lower-casing yields no key terms |
| NaturalLanguageSearch.BlankQueryHasNoIntents | client/src/lib/naturalLanguageSearch.ts:39-54 | a query that is blank after lower-casing yields no intents |
| NaturalLanguageSearch.ProductText | client/src/lib/naturalLanguageSearch.ts:59 | the headline, description, industry, features, tech stack and growth opportunities joined by single spaces and lower-cased |
| NaturalLanguageSearch.TermScore | client/src/lib/naturalLanguageSearch.ts:62-73 | one key term's contribution: 2 per whole-word match of `\bterm\b` (case ignored), plus 1 when the text `includes` the term |
| NaturalLanguageSearch.TermsScore | client/src/lib/naturalLanguageSearch.ts:62-73 | the `keyTerms.forEach` total: the sum of the term scores, each occurrence of a term in the list counted |
| NaturalLanguageSearch.IntentBonus | client/src/lib/naturalLanguageSearch.ts:76-112 | the intent switch: revenue 3 for a non-empty `arr`, 2 more for "million" or digits above 500; growth 3 when the lower-cased opportunities mention growth, expanding or scale; age 2 by the test on the intent's own name; users 3 for a user count; industry 0 |
| NaturalLanguageSearch.IntentsBonus | client/src/lib/naturalLanguageSearch.ts:76-112 | the `intents.forEach` total: the sum of the intent bonuses |
| NaturalLanguageSearch.RelevanceScore | client/src/lib/naturalLanguageSearch.ts:57-115 | calculateRelevanceScore as a value: the term scores of the key terms against the product text plus the bonuses of the intents |
| NaturalLanguageSearch.CalculateRelevanceScore | client/src/lib/naturalLanguageSearch.ts:57-115 | for key terms that are regex-literal, the two accumulation loops compute the specification score: term scores (whole-word matches ignoring ASCII case as the `i` flag does, the `includes` test case-sensitive), then intent bonuses |
| NaturalLanguageSearch.TermScoreCases | client/src/lib/naturalLanguageSearch.ts:62-73 | for lower-case text and term, as the search passes them (lines 29 and 59), a term scores 0 iff it does not occur in the product text; otherwise it scores 2k+1 for k whole-word matches |
| NaturalLanguageSearch.TermsScoreAppend | client/src/lib/naturalLanguageSearch.ts:62-73 | term scores add up over concatenated term lists, so a repeated key term counts again |
| NaturalLanguageSearch.IntentBonusValues | client/src/lib/naturalLanguageSearch.ts:76-112 | each bonus lies between 0 and its maximum. Revenue adds something iff `arr` is non-empty, and 5 iff `arr` also mentions "million" or its digits exceed 500. Age adds 2 iff `age` contains "5+", whatever the query says. Users adds 3 iff a user count is present |
| NaturalLanguageSearch.RevenueWithoutDigits | client/src/lib/naturalLanguageSearch.ts:79-85 | an `arr` without digits parses to NaN, so it earns 5 only through "million", and 3 otherwise |
| NaturalLanguageSearch.AllBonusesAtMost13 | client/src/lib/naturalLanguageSearch.ts:76-112 | every bonus is non-negative and the five together add at most 13 |
| NaturalLanguageSearch.MaxBonusTotal | client/src/lib/naturalLanguageSearch.ts:76-112 | the highest bonuses of the five intents (5, 3, 2, 3 and 0) add up to 13 |
| NaturalLanguageSearch.ScoreBounds | client/src/lib/naturalLanguageSearch.ts:57-115 | scores are non-negative and the intents of any query add at most 13 |
| NaturalLanguageSearch.NaturalLanguageSearch | client/src/lib/naturalLanguageSearch.ts:118-163 | for a query whose key terms are regex-literal, the search returns exactly the specification `RankedProducts`: the input for a query without content, the ranking otherwise |
| NaturalLanguageSearch.Meaningful | client/src/lib/naturalLanguageSearch.ts:123-138 | the query is ranked exactly when it is not blank after `trim()` and yields some key term or some intent; otherwise both early returns give the products back |
| NaturalLanguageSearch.RankedProducts | client/src/lib/naturalLanguageSearch.ts:118-163 | naturalLanguageSearch as a value, for a query whose key terms are regex-literal: the products themselves when the query is blank or yields neither key terms nor intents, otherwise `RankBy` with the query's relevance score |
| NaturalLanguageSearch.RankBy | client/src/lib/naturalLanguageSearch.ts:141-162 | the products paired with their scores, stably sorted by descending score, pairs with a score of 0 or less dropped, and unpaired; the Rank lemmas below state its properties |
| NaturalLanguageSearch.RankByScore | client/src/lib/naturalLanguageSearch.ts:141-162 | scoring, the in-place sort and the filtering produce the ranking `RankBy` of the products by the query's score |
| NaturalLanguageSearch.ScoreProducts | client/src/lib/naturalLanguageSearch.ts:141-147 | a fresh array pairs each product, in order, with its score |
| NaturalLanguageSearch.RelevantProducts | client/src/lib/naturalLanguageSearch.ts:153-162 | the products of the sorted pairs whose score is positive, in order |
| NaturalLanguageSearch.ScoredProductsAgree | client/src/lib/naturalLanguageSearch.ts:141-147 | every pair carries its own product's score, and unpairing gives back the products |
| NaturalLanguageSearch.SortKeepsAgreement | client/src/lib/naturalLanguageSearch.ts:150 | sorting the pairs keeps each pair's score equal to its product's score |
| NaturalLanguageSearch.RankShape | client/src/lib/naturalLanguageSearch.ts:141-162 | ranking is the stable sort of the products by descending score with zero scores dropped |
| NaturalLanguageSearch.RankMembers | client/src/lib/naturalLanguageSearch.ts:153-162 | the ranking holds exactly the products with a positive score, as often as in the input, and is never longer than the input |
| NaturalLanguageSearch.RankOrdering | client/src/lib/naturalLanguageSearch.ts:150 | the ranking is ordered by non-increasing score |
| NaturalLanguageSearch.RankKeepsTiesInOrder | client/src/lib/naturalLanguageSearch.ts:150-153 | products with the same positive score keep their input order |
| NaturalLanguageSearch.UnrankedQueries | client/src/lib/naturalLanguageSearch.ts:123-138 | a query that is blank, or that yields neither key terms nor intents, has regex-literal key terms (it has none) and returns the products unchanged |
| NaturalLanguageSearch.GenerateSearchExplanation | client/src/lib/naturalLanguageSearch.ts:166-176 | generateSearchExplanation: "" for an empty query or no results, otherwise the explanation of the result count, key terms and intents |
| NaturalLanguageSearch.Explanation | client/src/lib/naturalLanguageSearch.ts:174-197 | "Showing all available products." without key terms and intents; otherwise "Found n products matching your search", then ` for "..."` with the comma-joined terms when there are terms, then `, prioritizing ...` with the comma-joined intent labels when there are intents, then a full stop |
| NaturalLanguageSearch.ExplanationForBlankQuery | client/src/lib/naturalLanguageSearch.ts:171-176 | a non-empty whitespace-only query with results gives "Showing all available products." |
| NaturalLanguageSearch.ExplanationCountsResults | client/src/lib/naturalLanguageSearch.ts:178-197 | with terms or intents, the explanation starts "Found n products matching your search", where n reads back as the result count, and ends with a full stop |
| NaturalLanguageSearch.LabelsDistinguishIntents | client/src/lib/naturalLanguageSearch.ts:185-193 | no intent label contains a comma, and different intents have different labels |
| NaturalLanguageSearch.TermListReadsBack | client/src/lib/naturalLanguageSearch.ts:180-182 | the quoted, comma-joined term list splits back into exactly the key terms |
| NaturalLanguageSearch.LabelListReadsBack | client/src/lib/naturalLanguageSearch.ts:184-195 | the comma-joined intent labels split back into the labels of the intents, in order |
| Storage.Rows | server/storage.ts:457-459 | the values of a table, read in insertion order, are the rows with ids 1 .. counter-1, in that order |
| Storage.RowsFrame | server/storage.ts:457-459 | the rows read depend only on the ids below the counter |
| Storage.RowsStore | server/storage.ts:404-410 | storing a row under the counter's value appends it to the rows read and keeps the table numbered |
| Storage.RowsOfNumbered | server/storage.ts:457-459 | the rows read are exactly the table's values, and the i-th has id i+1 |
| Storage.FilterExactly | server/storage.ts:417-419 | a filter keeps exactly the elements that pass, in their order |
| Storage.MentionsQuery | server/storage.ts:424-431 | the lower-cased query occurs in the lower-cased headline, description, industry or features |
| Storage.IndustryFilterOn | server/storage.ts:434-435 | the industry stage runs only when filters are given and their industry is non-empty and not "All Industries" |
| Storage.AgeFilterOn | server/storage.ts:434-439 | the age stage runs only when filters are given and their age is non-empty and not "Any Age" |
| Storage.PassesSearch | server/storage.ts:424-443 | a product survives `searchProducts` when it mentions a non-empty query and has exactly the industry and the age of each stage that runs |
| Storage.SearchSteps | server/storage.ts:421-447 | the three filter stages keep, in order, exactly the products passing the query, industry and age tests |
| Storage.MemStorage.constructor | server/storage.ts:51-66 | empty tables and all five counters at 1 |
| Storage.MemStorage.GetAllProducts | server/storage.ts:457-459 | every stored product once, in ascending id order, which is insertion order |
| Storage.MemStorage.GetUser | server/storage.ts:396-398 | a user is found iff 1 <= id < counter, and it carries that id |
| Storage.MemStorage.GetUserByEmail | server/storage.ts:400-402 | none iff no user has the email; otherwise a user with that email whose id is the smallest among them, i.e. the earliest inserted |
| Storage.MemStorage.GetProduct | server/storage.ts:413-415 | a product is found iff 1 <= id < counter, and it carries that id |
| Storage.MemStorage.GetProductsBySellerId | server/storage.ts:417-419 | exactly the seller's products, in insertion order |
| Storage.MemStorage.SearchProducts | server/storage.ts:421-447 | an order-preserving subsequence of all products, holding a product iff it mentions the lower-cased query in one of four columns (when the query is non-empty), matches the industry exactly (unless absent or "All Industries") and matches the age exactly (unless absent or "Any Age") |
| Storage.MemStorage.GetInquiry | server/storage.ts:462-464 | an inquiry is found iff 1 <= id < counter, and it carries that id |
| Storage.MemStorage.GetInquiriesByBuyerId | server/storage.ts:466-468 | exactly the buyer's inquiries, in insertion order |
| Storage.MemStorage.GetInquiriesBySellerId | server/storage.ts:470-472 | exactly the seller's inquiries, in insertion order |
| Storage.MemStorage.GetInquiriesByProductId | server/storage.ts:474-476 | exactly the inquiries about the product, in insertion order |
| Storage.MemStorage.GetMessagesByInquiryId | server/storage.ts:487-491 | exactly the inquiry's messages, each once, sorted by ascending creation time |
| Storage.MemStorage.MessageTiesInInsertionOrder | server/storage.ts:487-491 | messages of an inquiry created at the same instant come back in insertion order |
| Storage.MemStorage.CreateUser | server/storage.ts:404-410 | the new user gets the counter's old value as id; the counter grows by 1; `getUser` finds the user; the users read back gain it at the end; `getUserByEmail` keeps an earlier user with the same email (duplicates are accepted); nothing else changes |
| Storage.MemStorage.CreateProduct | server/storage.ts:449-455 | the new product gets the counter's old value as id; the counter grows by 1; `getProduct` returns it with all payload fields; `getAllProducts` gains it at the end; nothing else changes |
| Storage.MemStorage.CreateInquiry | server/storage.ts:478-484 | the new inquiry gets the counter's old value as id; the counter grows by 1; `getInquiry` returns it; the inquiries read back gain it at the end; nothing else changes |
| Storage.MemStorage.CreateMessage | server/storage.ts:493-499 | the new message gets the counter's old value as id; the counter grows by 1; the messages read back gain it at the end; nothing else changes |
| Storage.MemStorage.CreateContactSubmission | server/storage.ts:502-508 | the new submission gets the counter's old value as id; the counter grows by 1; only the submissions table and its counter change |
| ProductFilters.IndustryMatches | client/src/components/buyers/ProductListings.tsx:109 | "All Industries" passes every product; any other value passes the products whose industry equals it |
| ProductFilters.AgeMatches | client/src/components/buyers/ProductListings.tsx:110 | "Any Age" passes every product; any other value passes the products whose age equals it |
| ProductFilters.TextMatches | client/src/components/buyers/ProductListings.tsx:113-116 | an empty quick search passes every product; otherwise the lower-cased text must occur in the lower-cased headline or description |
| ProductFilters.ListingMatches | client/src/components/buyers/ProductListings.tsx:108-121 | a product passes when it passes the quick search, the industry select and the age select |
| ProductFilters.ListingFilter | client/src/components/buyers/ProductListings.tsx:108-121 | the callback given to `filter`: `ListingMatches` for the current three values |
| ProductFilters.ListingFilterExact | client/src/components/buyers/ProductListings.tsx:125-139 | the filter keeps, in order, exactly the products passing the quick search and both selects |
| ProductFilters.DefaultListingFilterKeepsAll | client/src/components/buyers/ProductListings.tsx:125-139 | with an empty text, "All Industries" and "Any Age" every product passes |
| SearchPage.RevenueMatches | client/src/pages/SearchResultsPage.tsx:54-59 | "Any Revenue" passes every product; each specific entry needs a non-empty `arr` whose digits, read as one number, fall in its range (at most 50000; above 50000 up to 250000; above 250000 up to 1000000; above 1000000); any other value passes nothing |
| SearchPage.PagePasses | client/src/pages/SearchResultsPage.tsx:46-61 | a product is shown when it passes the text box, the industry select, the age select and the revenue select |
| SearchPage.PageFilter | client/src/pages/SearchResultsPage.tsx:46-61 | the callback given to `filter`: `PagePasses` for the current four values |
| SearchPage.RevenueBucketsPartition | client/src/pages/SearchResultsPage.tsx:55-59 | a product with digits in `arr` passes exactly one of the four specific revenue buckets; one with no digits (or an empty `arr`) passes none |
| SearchPage.MillionWordedArrIsSmall | client/src/pages/SearchResultsPage.tsx:56-59 | "$1.2 million" strips to 12, so it passes "$0-50K ARR" and fails "$1M+ ARR" |
| SearchPage.SearchResultsPage.constructor | client/src/pages/SearchResultsPage.tsx:15-18 | the query comes from the URL parameter; industry, age and revenue default to "All Industries", "Any Age" and "Any Revenue" when their parameter is missing or empty |
| SearchPage.SearchResultsPage.HandleFilterChange | client/src/pages/SearchResultsPage.tsx:24-41 | only the field named by the filter type takes the value; any other filter type changes nothing |
| SearchPage.SearchResultsPage.FilteredProducts | client/src/pages/SearchResultsPage.tsx:43-63 | nothing while the products are not loaded; otherwise an order-preserving subsequence holding a product iff it passes the text, industry, age and revenue tests |
| SearchPage.SearchResultsPage.DefaultsShowEverything | client/src/pages/SearchResultsPage.tsx:43-63 | with all four filters at their defaults every loaded product is shown |
| Listings.ProductListings.constructor | client/src/components/buyers/ProductListings.tsx:48-58 | the initial filter and search state |
| Listings.ProductListings.HandleNaturalLanguageSearch | client/src/components/buyers/ProductListings.tsx:66-70 | a blank term changes nothing and schedules nothing; otherwise `isSearching` becomes true and the delayed step is scheduled with the current term |
| Listings.ProductListings.ShowsSearchResults | client/src/components/buyers/ProductListings.tsx:103 | the list shows the natural-language ranking exactly when a search has completed and the term is not blank after trimming |
| Listings.ProductListings.CompleteNaturalLanguageSearch | client/src/components/buyers/ProductListings.tsx:72-83 | for a term whose key terms are regex-literal: searching ends, a search counts as done, and the explanation is the explanation of the ranked results for the captured term ("" for an empty term) |
| Listings.ProductListings.ClearAllFilters | client/src/components/buyers/ProductListings.tsx:87-94 | both boxes empty, both selects on "any", no search shown, explanation empty; `isSearching` unchanged |
| Listings.ProductListings.FilteredProducts | client/src/components/buyers/ProductListings.tsx:97-140 | nothing for no products. After a search with a non-blank term whose key terms are regex-literal it is an order-preserving subsequence of the ranked results; otherwise of the products. Either way a product is kept iff it passes the quick search and both selects |
| Listings.ProductListings.DefaultFiltersShowSource | client/src/components/buyers/ProductListings.tsx:97-140 | with default filters the list is exactly the ranked results after a search, and all products otherwise |
| Listings.RankedProductsOfNothing | client/src/components/buyers/ProductListings.tsx:98-100 | ranking no products gives none, so the early `[]` return agrees with the search branch |
| Pagination.SliceIndex | client/src/components/search/SearchResults.tsx:45 | how `slice` reads an index: clamped to the length, and the index itself when it lies in range |
| Pagination.Slice | client/src/components/search/SearchResults.tsx:45 | `slice(start, end)`: never longer than the list; for non-negative indices the elements from start to end, each clamped to the length, and nothing when end does not pass start; a negative start counts back from the end |
| Pagination.TotalPages | client/src/components/search/SearchResults.tsx:46 | the least number of six-product pages that holds all the products |
| Pagination.Page | client/src/components/search/SearchResults.tsx:43-45 | for a page number p >= 1, the window of products from (p-1)*6 to p*6, clamped; at most six products, and non-empty iff p <= TotalPages |
| Pagination.PagesArePrefix | client/src/components/search/SearchResults.tsx:43-46 | pages 1 .. k together are the first 6k products in order |
| Pagination.AllPagesGiveBackProducts | client/src/components/search/SearchResults.tsx:43-46 | concatenating pages 1 .. TotalPages gives back the products in order |
| Pagination.ResultsLabel | client/src/components/search/SearchResults.tsx:53-55 | the count shown reads back as the full list length, not the page length |
| Pagination.ControlsShown | client/src/components/search/SearchResults.tsx:99 | the Previous, page-number and Next controls are drawn only when there is more than one page |
| Pagination.SearchResults.constructor | client/src/components/search/SearchResults.tsx:15 | the first page is current |
| Pagination.SearchResults.CurrentProducts | client/src/components/search/SearchResults.tsx:43-45 | from a page p of at least 1, exactly the products from (p-1)*6 to p*6, each index clamped to the length: at most six of them, non-empty exactly while p is at most `totalPages` |
| Pagination.SearchResults.PreviousDisabled | client/src/components/search/SearchResults.tsx:105 | Previous is disabled exactly on page 1 |
| Pagination.SearchResults.NextDisabled | client/src/components/search/SearchResults.tsx:125 | Next is disabled exactly when the current page equals `totalPages`, so a page past the end leaves it enabled |
| Pagination.SearchResults.DisabledButtonsLeadNowhere | client/src/components/search/SearchResults.tsx:102-129 | on a page in range, Previous is disabled iff the page before it would be empty, and Next iff the page after it would be empty |
| Pagination.SearchResults.Paginate | client/src/components/search/SearchResults.tsx:48 | the current page becomes the number given, without clamping |
| Pagination.SearchResults.ClickPrevious | client/src/components/search/SearchResults.tsx:102-109 | disabled on page 1, otherwise one page back; the page never drops below 1 |
| Pagination.SearchResults.ClickPageNumber | client/src/components/search/SearchResults.tsx:111-120 | the button of page k, for k in 1 .. TotalPages, makes k current |
| Pagination.SearchResults.ClickNext | client/src/components/search/SearchResults.tsx:122-129 | disabled on the last page, otherwise one page on; from a page in range it stays in range |
| Messaging.DemoMessages | client/src/components/messaging/MessagingInterface.tsx:33-52 | three messages numbered 1, 2, 3 by position, from seller, buyer and seller, in increasing time before now |
| Messaging.MessagingInterface.constructor | client/src/components/messaging/MessagingInterface.tsx:24-52 | empty draft, the three demonstration messages |
| Messaging.MessagingInterface.HandleSendMessage | client/src/components/messaging/MessagingInterface.tsx:54-72 | a blank draft changes nothing. Otherwise exactly one buyer message is appended, with id = old length + 1 and the trimmed draft as content; earlier messages are unchanged and the draft is cleared. Every message's id remains its 1-based position |
| Seqs.SortInPlace | client/src/lib/naturalLanguageSearch.ts:150 | the in-place sort leaves the array equal to the stable sort by key of its old contents |
| Seqs.InsertInPlace | client/src/lib/naturalLanguageSearch.ts:150 | one pass of the in-place sort leaves the prefix up to i equal to the stable insertion of the old a[i] into the old sorted prefix, and the rest of the array untouched |
| Seqs.InsertAt | client/src/lib/naturalLanguageSearch.ts:150 | the stable insertion puts an element right after the last element whose key is at most its own, when every later element has a larger key |
| Seqs.SortByKeySorted | client/src/lib/naturalLanguageSearch.ts:150 | the stable sort orders by non-decreasing key |
| Seqs.SortByKeyStable | client/src/lib/naturalLanguageSearch.ts:150 | elements with equal keys keep their relative order |
| Seqs.FirstIndex | server/storage.ts:401 | the position `find` stops at: no earlier element passes, and the element there passes unless it is the end |
| Storage.FirstWithEmail | server/storage.ts:400-402 | `find` by email gives nothing iff no user has the email, and otherwise the user at the first matching position |
| Storage.FirstWithEmailIsEarliest | server/storage.ts:400-402 | when users are numbered by position, the user found has the smallest id among those with the email |
| Storage.FirstWithEmailAppend | server/storage.ts:400-410 | after a user is appended, `find` by that user's email still gives an earlier user with it, and gives the new user otherwise |
| Seqs.FirstIndexAppend | server/storage.ts:400-410 | appending an element keeps an earlier match |
| Seqs.FilterMultiset | server/storage.ts:417-419 | `filter` keeps each passing element as often as it occurs, and nothing else |
| Seqs.FilterIsSubsequence | server/storage.ts:417-419 | `filter` keeps the order of what it keeps |
| Text.Lower | client/src/lib/naturalLanguageSearch.ts:29 | `toLowerCase` keeps the length, turns each upper-case ASCII letter into its lower-case letter (32 code points on) and keeps every other character |
| Text.TrimStart | client/src/lib/naturalLanguageSearch.ts:123 | `trimStart`: a suffix of the string, after a whitespace-only prefix, that is empty or starts with a non-whitespace character |
| Text.TrimEnd | client/src/lib/naturalLanguageSearch.ts:123 | `trimEnd`: a prefix of the string, before a whitespace-only suffix, that is empty or ends with a non-whitespace character |
| Text.Trim | client/src/lib/naturalLanguageSearch.ts:123 | `trim()`: both whitespace runs removed; `TrimEmptyIff` states when it is empty |
| Text.TrimEmptyIff | client/src/lib/naturalLanguageSearch.ts:123 | `trim()` gives "" iff the string is all whitespace |
| Text.SplitOnWhitespace | client/src/lib/naturalLanguageSearch.ts:32 | `split(/\s+/)` gives at least one piece, and no piece contains whitespace |
| Text.SplitJoinedWords | client/src/lib/naturalLanguageSearch.ts:32 | `split(/\s+/)` undoes `join(" ")`: non-empty whitespace-free words joined by single spaces split back into exactly those words |
| Text.SplitOnWhitespaceChars | client/src/lib/naturalLanguageSearch.ts:32 | every character of a piece comes from the split string |
| Text.Contains | client/src/lib/naturalLanguageSearch.ts:70 | `includes`: the second string occurs somewhere in the first, case-sensitively |
| Text.IsWordBoundary | client/src/lib/naturalLanguageSearch.ts:63 | `\b` at a position: exactly one of the characters before and after it is a word character `[A-Za-z0-9_]` |
| Text.WholeWordAt | client/src/lib/naturalLanguageSearch.ts:63 | `/\bterm\b/i` matches at a position: the text there equals the term up to ASCII case, with a word boundary at both ends |
| Text.WholeWordMatchesFrom | client/src/lib/naturalLanguageSearch.ts:63-65 | the number of matches a global search finds from a position: after a match it resumes at the match's end (one step on for an empty term), otherwise one character on |
| Text.WholeWordMatches | client/src/lib/naturalLanguageSearch.ts:63-65 | `productText.match(regex)` with the g flag: the number of matches from the start, 0 when `match` returns null |
| Text.WholeWordMatchIsOccurrence | client/src/lib/naturalLanguageSearch.ts:63-64 | a whole-word match of a term, which ignores ASCII case, is an occurrence of the lower-cased term in the lower-cased text |
| Text.WholeWordMatchesIgnoreCase | client/src/lib/naturalLanguageSearch.ts:63-64 | the `i` flag: a term has as many whole-word matches as its lower-cased form |
| Text.ParseDigits | client/src/pages/SearchResultsPage.tsx:56 | the digits-only `parseInt` is NaN iff the string has no digit |
| Text.Join | client/src/lib/naturalLanguageSearch.ts:181-193 | `join(sep)`: the parts with the separator between neighbours, "" for none; `SplitListJoin` and `SplitJoinedWords` give it its inverses |
| Text.SplitListJoin | client/src/lib/naturalLanguageSearch.ts:181 | joining comma-free pieces with ", " and splitting at the commas gives back the pieces |
| Text.DecimalString | client/src/lib/naturalLanguageSearch.ts:178 | a count as `${results.length}` renders it: non-empty decimal digits; `DecimalStringRoundTrip` reads it back |
| Text.DecimalStringRoundTrip | client/src/lib/naturalLanguageSearch.ts:178 | a number rendered in decimal reads back as the number, with no leading zero |

## Left out

- Regular-expression construction: the key term goes into `new RegExp` unescaped
  (naturalLanguageSearch.ts:63). A key term with `+ ? [ ] | \` (the cleaner keeps these) would
  change the pattern's meaning or throw. So `RankedProducts`, `NaturalLanguageSearch`,
  `RankByScore`, `ScoreProducts`, `CalculateRelevanceScore`, `CompleteNaturalLanguageSearch`
  and, while a search is shown, the listings' `FilteredProducts` require the key terms of the
  query (`LiteralKeyTerms`) to be free of them; the rest of the query may hold anything. The
  term is counted as a literal whole word, ignoring ASCII case as the `i` flag does, with
  JavaScript's word characters `[A-Za-z0-9_]`.
- NaturalLanguageSearch.TermScoreCases: stated for lower-case text and terms, which is what
  the search passes (the product text is lower-cased at line 59, the key terms at line 29). For
  a term with capitals the whole-word count still ignores case but `includes` does not, so a
  matching term could score 2k without the 1.
- The `console.log` calls of the search (naturalLanguageSearch.ts:120-159) are debugging
  output and are not modelled.
- Case mapping is ASCII only. Unicode case mapping and UTF-16 code units are not modelled.
- The nullable columns `headline` and `age` (shared/schema.ts:74-75) are strings in the model,
  with "" for null. Where the code calls `toLowerCase` or `includes` on them (storage.ts:427,
  ProductListings.tsx:115 and 133, SearchResultsPage.tsx:48, naturalLanguageSearch.ts:98) a null
  value throws a TypeError; the model has no such error path. `description`, `industry` and
  `features` are declared not null (shared/schema.ts:50-55). A null `techStack` or
  `growthOpportunities` renders as "" through `|| ''` (naturalLanguageSearch.ts:59), as modelled.
- NaturalLanguageSearch.ProductText: the template literal at naturalLanguageSearch.ts:59 renders
  a null `headline` as the four letters "null", so for such a product the key term "null"
  scores 3 in the code; the model cannot tell a null headline from "" and renders nothing, so
  that term scores 0 there.
- Numbers: `parseInt` results are exact integers. Precision loss above 2^53 is not
  modelled, and neither is the floating-point `Math.ceil(n / 6)` (exact for every
  realistic n).
- Storage.MemStorage.constructor: the sample data seeded by the constructor (storage.ts:68-392)
  is bulk data whose un-awaited `createUser` promises leave seller ids undefined; the model
  starts from empty tables.
- The `async`/`Promise` wrappers of `MemStorage` never await, so the model's calls are synchronous.
- Timestamps: `new Date()` and `Date.now()` are the parameter `now`. The 800 ms `setTimeout`
  (ProductListings.tsx:72) becomes two transitions, `HandleNaturalLanguageSearch` and
  `CompleteNaturalLanguageSearch`. The second receives the term and products captured at
  the click. Interleavings with other state updates are not modelled.
- The `onChange` handlers that copy one input box into one state field, React rendering,
  `toast`, react-query fetching, `isLoading`/`error` screens and navigation are UI plumbing
  and are not modelled.
- Product columns that no core function reads (name, category, logo and the rest) are left
  out. The schema names a `revenue` column, but the code reads `arr`, and the model
  follows the code.
- URL parsing for the search results page is not modelled: the constructor receives
  the parameter values, with "" for a missing one.
- Pagination.SearchResults.ClickPrevious: the buttons exist only while there is more than one
  page, so the click transitions require that; `Paginate` itself takes any number.
- Messaging.MessagingInterface.HandleSendMessage: the `productId` prop and the product fetch
  do not affect the messages and are not modelled.
- Authentication, access control, the database-backed storage, zod validation schemas,
  forms, the HTTP query client and the product detail page's MRR computation are not part
  of this model.
