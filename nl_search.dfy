/**
 * The rule-based natural-language product search: key-term extraction, intent
 * detection, relevance scoring, ranking, and the sentence that explains a search.
 */
module NaturalLanguageSearch {
  import opened Wrappers
  import opened Seqs
  import opened Text
  import opened Schema

  // ---------------------------------------------------------------------------
  // Vocabulary

  /** Common words dropped from queries. */
  const StopWords: seq<string> := [
    "a", "an", "the", "and", "or", "but", "is", "are", "was", "were", "be", "been", "being",
    "in", "on", "at", "to", "for", "with", "by", "about", "like", "through", "over", "before",
    "after", "between", "under", "above", "of", "during", "would", "could", "should", "can",
    "will", "i", "you", "he", "she", "it", "we", "they", "this", "that", "these", "those",
    "look", "looking", "find", "finding", "search", "searching", "want", "wanting", "need",
    "needing", "interested", "seeking", "show", "showing", "display", "displaying"
  ]

  /** The five intent categories, in the order the intent table lists them. */
  datatype Intent = Revenue | Growth | Age | Users | Industry

  const AllIntents: seq<Intent> := [Revenue, Growth, Age, Users, Industry]

  /** The key of an intent in the intent table. */
  function Name(intent: Intent): string
  {
    match intent
    case Revenue => "revenue"
    case Growth => "growth"
    case Age => "age"
    case Users => "users"
    case Industry => "industry"
  }

  /** The trigger keywords of an intent. */
  function Keywords(intent: Intent): seq<string>
  {
    match intent
    case Revenue => ["revenue", "arr", "sales", "income", "profitable", "profit", "money", "earning",
                     "cash flow", "making money"]
    case Growth => ["growing", "growth", "scaling", "scale", "expanding", "expand", "increase",
                    "increasing", "opportunity", "opportunities"]
    case Age => ["old", "new", "established", "startup", "start-up", "mature", "young", "early stage",
                 "late stage", "years", "months", "year old"]
    case Users => ["users", "customers", "user base", "customer base", "audience", "subscribers",
                   "active users", "monthly active"]
    case Industry => ["saas", "software", "tech", "technology", "health", "healthcare", "education",
                      "e-commerce", "ecommerce", "fintech", "financial", "marketplace", "platform", "app",
                      "application", "mobile", "web", "b2b", "b2c", "content", "media", "entertainment",
                      "gaming"]
  }

  /** How an explanation names an intent. */
  function Label(intent: Intent): string
  {
    match intent
    case Revenue => "revenue performance"
    case Growth => "growth potential"
    case Age => "business age"
    case Users => "user base"
    case Industry => "industry sector"
  }

  // ---------------------------------------------------------------------------
  // Key terms

  /** The punctuation the query cleaner deletes. */
  predicate IsStripped(c: char)
  {
    c in ".,/#!$%^&*;:{}=-_`~()"
  }

  predicate IsKept(c: char)
  {
    !IsStripped(c)
  }

  /** The lower-cased query with its punctuation deleted. */
  function Clean(query: string): string
  {
    Filter(Lower(query), IsKept)
  }

  /** A token survives when it is not a stop word and is longer than two characters. */
  predicate IsKeyTerm(word: string)
  {
    word !in StopWords && |word| > 2
  }

  /** The whitespace-separated tokens of the cleaned query. */
  function Tokens(query: string): seq<string>
  {
    SplitOnWhitespace(Clean(query))
  }

  /** extractKeyTerms: the tokens that are key terms, in query order. */
  function ExtractKeyTerms(query: string): seq<string>
  {
    Filter(Tokens(query), IsKeyTerm)
  }

  /** A character that keeps its literal meaning when a term is put into a regular expression. */
  predicate IsRegexLiteral(c: char)
  {
    c !in "+?[]|\\"
  }

  predicate RegexLiteral(s: string)
  {
    forall i :: 0 <= i < |s| ==> IsRegexLiteral(s[i])
  }

  /** Every key term of the query is matched literally by its `\b` pattern. */
  predicate LiteralKeyTerms(query: string)
  {
    forall t :: t in ExtractKeyTerms(query) ==> RegexLiteral(t)
  }

  /** Each character of a key term comes, lower-cased, from the query and was not stripped. */
  lemma KeyTermChar(query: string, t: string, c: char)
    requires t in ExtractKeyTerms(query) && c in t
    ensures c in Lower(query) && IsKept(c) && !IsUpper(c) && !IsWhitespace(c)
  {
    FilterMultiset(Tokens(query), IsKeyTerm);
    SplitOnWhitespaceChars(Clean(query), t, c);
    FilterMultiset(Lower(query), IsKept);
    var i :| 0 <= i < |t| && t[i] == c;
  }

  /**
   * Every key term is lower-case, free of the stripped punctuation and of whitespace, longer
   * than two characters and not a stop word.
   */
  lemma KeyTermsWellFormed(query: string)
    ensures forall t :: t in ExtractKeyTerms(query) ==>
      |t| > 2 && t !in StopWords &&
      forall i :: 0 <= i < |t| ==> !IsUpper(t[i]) && !IsStripped(t[i]) && !IsWhitespace(t[i])
  {
    FilterMultiset(Tokens(query), IsKeyTerm);
    forall t, i | t in ExtractKeyTerms(query) && 0 <= i < |t|
      ensures !IsUpper(t[i]) && !IsStripped(t[i]) && !IsWhitespace(t[i])
    {
      KeyTermChar(query, t, t[i]);
    }
  }

  /**
   * The key terms are the surviving tokens in query order, each as often as it occurs
   * among the tokens.
   */
  lemma KeyTermsAreTokens(query: string)
    ensures IsSubsequence(ExtractKeyTerms(query), Tokens(query))
    ensures forall w :: multiset(ExtractKeyTerms(query))[w] ==
                        if IsKeyTerm(w) then multiset(Tokens(query))[w] else 0
  {
    FilterMultiset(Tokens(query), IsKeyTerm);
    FilterIsSubsequence(Tokens(query), IsKeyTerm);
  }

  /** Lower-casing adds no regular-expression metacharacter. */
  lemma LowerRegexLiteral(query: string, k: nat)
    requires RegexLiteral(query) && k < |query|
    ensures IsRegexLiteral(Lower(query)[k])
  {
    if !IsUpper(query[k]) {
      assert IsRegexLiteral(query[k]);
    }
  }

  /** A query without regular-expression metacharacters yields terms without them. */
  lemma KeyTermsAreRegexLiteral(query: string)
    requires RegexLiteral(query)
    ensures LiteralKeyTerms(query)
  {
    forall t, i | t in ExtractKeyTerms(query) && 0 <= i < |t|
      ensures IsRegexLiteral(t[i])
    {
      KeyTermChar(query, t, t[i]);
      var k :| 0 <= k < |Lower(query)| && Lower(query)[k] == t[i];
      LowerRegexLiteral(query, k);
    }
  }

  // ---------------------------------------------------------------------------
  // Intents

  /** Some keyword of the intent occurs (as a substring) in the lower-cased query. */
  predicate Triggered(intent: Intent, lowerQuery: string)
  {
    exists k :: k in Keywords(intent) && Contains(lowerQuery, k)
  }

  function TriggeredBy(lowerQuery: string): Intent -> bool
  {
    intent => Triggered(intent, lowerQuery)
  }

  /** The intents detectIntents reports for a query. */
  function DetectedIntents(query: string): seq<Intent>
  {
    Filter(AllIntents, TriggeredBy(Lower(query)))
  }

  /** detectIntents: for each intent in table order, reports it when one of its keywords occurs. */
  method DetectIntents(query: string) returns (detected: seq<Intent>)
    ensures detected == DetectedIntents(query)
  {
    var lowerQuery := Lower(query);
    detected := [];
    var n := 0;
    while n < |AllIntents|
      invariant 0 <= n <= |AllIntents|
      invariant detected == Filter(AllIntents[..n], TriggeredBy(lowerQuery))
    {
      var intent := AllIntents[n];
      var found := KeywordOccurs(lowerQuery, Keywords(intent));
      FilterPrefixStep(AllIntents, n, TriggeredBy(lowerQuery));
      if found {
        detected := detected + [intent];
      }
      n := n + 1;
    }
    assert AllIntents[..n] == AllIntents;
  }

  /** The keyword scan of one intent: stops at the first keyword that occurs in the query. */
  method KeywordOccurs(lowerQuery: string, keywords: seq<string>) returns (found: bool)
    ensures found <==> exists k :: k in keywords && Contains(lowerQuery, k)
  {
    found := false;
    var j := 0;
    while j < |keywords|
      invariant 0 <= j <= |keywords|
      invariant forall m :: 0 <= m < j ==> !Contains(lowerQuery, keywords[m])
    {
      if Contains(lowerQuery, keywords[j]) {
        found := true;
        assert keywords[j] in keywords;
        break;
      }
      j := j + 1;
    }
  }

  /**
   * The detected intents carry no duplicates, keep table order, and hold an intent exactly
   * when one of its keywords occurs in the lower-cased query.
   */
  lemma DetectedIntentsProperties(query: string)
    ensures Distinct(DetectedIntents(query))
    ensures IsSubsequence(DetectedIntents(query), AllIntents)
    ensures forall i :: i in DetectedIntents(query) <==> Triggered(i, Lower(query))
  {
    var triggered := TriggeredBy(Lower(query));
    FilterDistinct(AllIntents, triggered);
    FilterIsSubsequence(AllIntents, triggered);
    FilterMultiset(AllIntents, triggered);
    forall i | Triggered(i, Lower(query)) ensures i in DetectedIntents(query) {
      IntentListed(i);
      assert triggered(i);
    }
  }

  /** The intent table lists every intent. */
  lemma IntentListed(intent: Intent)
    ensures intent in AllIntents
  {
  }

  /** Every keyword starts with a letter. */
  lemma KeywordsStartWithLetter(intent: Intent, i: nat)
    requires i < |Keywords(intent)|
    ensures |Keywords(intent)[i]| > 0 && 'a' <= Keywords(intent)[i][0] <= 'z'
  {
    match intent
    case Revenue =>
    case Growth =>
    case Age =>
    case Users =>
    case Industry =>
  }

  /** A blank query triggers no intent. */
  lemma BlankTriggersNothing(lowerQuery: string, intent: Intent)
    requires AllWhitespace(lowerQuery)
    ensures !Triggered(intent, lowerQuery)
  {
    forall k | k in Keywords(intent) ensures !Contains(lowerQuery, k) {
      var i :| 0 <= i < |Keywords(intent)| && Keywords(intent)[i] == k;
      KeywordsStartWithLetter(intent, i);
      if Contains(lowerQuery, k) {
        ContainsChars(lowerQuery, k, k[0]);
      }
    }
  }

  /** Lower-casing keeps a blank string blank. */
  lemma LowerBlank(query: string)
    requires AllWhitespace(query)
    ensures AllWhitespace(Lower(query))
  {
    var lq := Lower(query);
    forall i | 0 <= i < |lq| ensures IsWhitespace(lq[i]) {
      assert IsWhitespace(query[i]);
    }
  }

  /** A blank query has no key terms and triggers no intent. */
  lemma BlankQueryIsMeaningless(query: string)
    requires AllWhitespace(query)
    ensures ExtractKeyTerms(query) == [] && DetectedIntents(query) == []
  {
    LowerBlank(query);
    BlankQueryHasNoTerms(query);
    BlankQueryHasNoIntents(query);
  }

  lemma BlankQueryHasNoTerms(query: string)
    requires AllWhitespace(Lower(query))
    ensures ExtractKeyTerms(query) == []
  {
    if ExtractKeyTerms(query) != [] {
      var t := ExtractKeyTerms(query)[0];
      FilterMultiset(Tokens(query), IsKeyTerm);
      assert t in ExtractKeyTerms(query);
      KeyTermChar(query, t, t[0]);
    }
  }

  lemma BlankQueryHasNoIntents(query: string)
    requires AllWhitespace(Lower(query))
    ensures DetectedIntents(query) == []
  {
    if DetectedIntents(query) != [] {
      var triggered := TriggeredBy(Lower(query));
      var intent := DetectedIntents(query)[0];
      FilterMultiset(AllIntents, triggered);
      assert intent in DetectedIntents(query) && triggered(intent);
      BlankTriggersNothing(Lower(query), intent);
    }
  }

  // ---------------------------------------------------------------------------
  // Relevance scores

  /** The lower-cased composite text a product is scored against. */
  function ProductText(product: Product): string
  {
    var f := product.fields;
    Lower(f.headline + " " + f.description + " " + f.industry + " " + f.features + " " +
          f.techStack + " " + f.growthOpportunities)
  }

  /** A term adds 2 per whole-word match, plus 1 when it occurs anywhere. */
  function TermScore(text: string, term: string): int
  {
    2 * WholeWordMatches(text, term) + (if Contains(text, term) then 1 else 0)
  }

  function TermScoreIn(text: string): string -> int
  {
    term => TermScore(text, term)
  }

  function TermsScore(text: string, terms: seq<string>): int
  {
    Sum(terms, TermScoreIn(text))
  }

  /** The bonus one intent adds to a product's score. */
  function IntentBonus(product: Product, intent: Intent): int
  {
    var f := product.fields;
    match intent
    case Revenue =>
      if f.arr != "" then
        3 + (if Contains(f.arr, "million") || NumberAbove(ParseDigits(f.arr), 500) then 2 else 0)
      else 0
    case Growth =>
      var g := Lower(f.growthOpportunities);
      if f.growthOpportunities != "" && (Contains(g, "growth") || Contains(g, "expanding") || Contains(g, "scale"))
      then 3 else 0
    case Age =>
      // The preference test reads the intent's own name, not the query.
      var name := Lower(Name(intent));
      var ageMatch :=
        if Contains(name, "new") || Contains(name, "startup") then !Contains(f.age, "5+")
        else Contains(f.age, "5+");
      if ageMatch then 2 else 0
    case Users =>
      if f.totalUsers != "" || f.activeUsers != "" then 3 else 0
    case Industry => 0
  }

  function BonusFor(product: Product): Intent -> int
  {
    intent => IntentBonus(product, intent)
  }

  function IntentsBonus(product: Product, intents: seq<Intent>): int
  {
    Sum(intents, BonusFor(product))
  }

  /** calculateRelevanceScore as a value. */
  function RelevanceScore(product: Product, terms: seq<string>, intents: seq<Intent>): int
  {
    TermsScore(ProductText(product), terms) + IntentsBonus(product, intents)
  }

  /** calculateRelevanceScore: accumulates the term scores, then the intent bonuses. */
  method CalculateRelevanceScore(product: Product, keyTerms: seq<string>, intents: seq<Intent>)
    returns (score: int)
    requires forall t :: t in keyTerms ==> RegexLiteral(t)
    ensures score == RelevanceScore(product, keyTerms, intents)
  {
    score := 0;
    var productText := ProductText(product);
    for i := 0 to |keyTerms|
      invariant score == TermsScore(productText, keyTerms[..i])
    {
      var term := keyTerms[i];
      var matches := WholeWordMatches(productText, term);
      if matches > 0 {
        score := score + matches * 2;
      }
      if Contains(productText, term) {
        score := score + 1;
      }
      assert keyTerms[..i + 1][..i] == keyTerms[..i];
    }
    assert keyTerms[..|keyTerms|] == keyTerms;
    ghost var termScore := score;
    for i := 0 to |intents|
      invariant score == termScore + IntentsBonus(product, intents[..i])
    {
      score := score + IntentBonus(product, intents[i]);
      assert intents[..i + 1][..i] == intents[..i];
    }
    assert intents[..|intents|] == intents;
  }

  /**
   * A term scores 0 exactly when it does not occur in the text; otherwise it scores
   * 2k+1 for k whole-word matches.
   */
  lemma TermScoreCases(text: string, term: string)
    requires NoUpper(text) && NoUpper(term)
    ensures TermScore(text, term) == 0 <==> !Contains(text, term)
    ensures !Contains(text, term) ==> WholeWordMatches(text, term) == 0
    ensures Contains(text, term) ==> TermScore(text, term) == 2 * WholeWordMatches(text, term) + 1
  {
    if WholeWordMatches(text, term) > 0 {
      WholeWordMatchIsOccurrence(text, term, 0);
      LowerOfNoUpper(text);
      LowerOfNoUpper(term);
    }
  }

  /** Term scores add up over a concatenation of term lists, so repeated terms count again. */
  lemma TermsScoreAppend(text: string, a: seq<string>, b: seq<string>)
    ensures TermsScore(text, a + b) == TermsScore(text, a) + TermsScore(text, b)
  {
    SumAppend(a, b, TermScoreIn(text));
  }

  /** The highest bonus each intent can add. */
  function MaxBonus(intent: Intent): int
  {
    match intent
    case Revenue => 5
    case Growth => 3
    case Age => 2
    case Users => 3
    case Industry => 0
  }

  /** Exact conditions of the bonuses, including the age bonus ignoring the query. */
  lemma IntentBonusValues(product: Product, intent: Intent)
    ensures 0 <= IntentBonus(product, intent) <= MaxBonus(intent)
    ensures intent == Revenue ==>
      (IntentBonus(product, intent) > 0 <==> product.fields.arr != "") &&
      (IntentBonus(product, intent) == 5 <==>
        product.fields.arr != "" &&
        (Contains(product.fields.arr, "million") || NumberAbove(ParseDigits(product.fields.arr), 500)))
    ensures intent == Age ==>
      (IntentBonus(product, intent) == 2 <==> Contains(product.fields.age, "5+"))
    ensures intent == Users ==>
      (IntentBonus(product, intent) == 3 <==> product.fields.totalUsers != "" || product.fields.activeUsers != "")
  {
    if intent == Age {
      assert Lower("age") == "age";
      NotContainsLonger("age", "startup");
      NotContainsLonger("ge", "new");
      assert "age"[0] == 'a' && "new"[0] == 'n';
    }
  }

  /** A revenue figure without digits reads as NaN, so it earns the extra 2 only through "million". */
  lemma RevenueWithoutDigits(product: Product)
    requires product.fields.arr != ""
    requires forall i :: 0 <= i < |product.fields.arr| ==> !IsDigit(product.fields.arr[i])
    ensures IntentBonus(product, Revenue) == if Contains(product.fields.arr, "million") then 5 else 3
  {
  }

  /** All five bonuses together come to at most 13. */
  lemma AllBonusesAtMost13(product: Product)
    ensures forall i :: BonusFor(product)(i) >= 0
    ensures Sum(AllIntents, BonusFor(product)) <= 13
  {
    var f := BonusFor(product);
    forall i ensures 0 <= f(i) <= MaxBonus(i) {
      IntentBonusValues(product, i);
    }
    SumMonotone(AllIntents, f, MaxBonus);
    MaxBonusTotal();
  }

  /** The highest bonuses of the five intents add up to 13. */
  lemma MaxBonusTotal()
    ensures Sum(AllIntents, MaxBonus) == 13
  {
    var s4 := [Revenue, Growth, Age, Users];
    assert AllIntents[..4] == s4 && s4[..3] == [Revenue, Growth, Age];
    assert [Revenue, Growth, Age][..2] == [Revenue, Growth] && [Revenue, Growth][..1] == [Revenue];
    assert [Revenue][..0] == [];
  }

  /** Every score is non-negative, and the intents of any query add at most 13. */
  lemma ScoreBounds(product: Product, terms: seq<string>, query: string)
    ensures 0 <= IntentsBonus(product, DetectedIntents(query)) <= 13
    ensures RelevanceScore(product, terms, DetectedIntents(query)) >= 0
  {
    var f := BonusFor(product);
    AllBonusesAtMost13(product);
    SumFilterLe(AllIntents, TriggeredBy(Lower(query)), f);
    SumNonNegative(DetectedIntents(query), f);
    SumNonNegative(terms, TermScoreIn(ProductText(product)));
  }

  // ---------------------------------------------------------------------------
  // Ranking

  /** A product paired with its relevance score. */
  datatype Scored = Scored(product: Product, score: int)

  /** The relevance score for given key terms and intents, as a function of the product. */
  function ScoreOf(terms: seq<string>, intents: seq<Intent>): Product -> int
  {
    p => RelevanceScore(p, terms, intents)
  }

  function ScoredBy(score: Product -> int): Product -> Scored
  {
    p => Scored(p, score(p))
  }

  /** Sorting ascending by the negated score is the descending comparator `b.score - a.score`. */
  function NegatedScore(s: Scored): int
  {
    -s.score
  }

  predicate IsRelevant(s: Scored)
  {
    s.score > 0
  }

  function ProductOf(s: Scored): Product
  {
    s.product
  }

  /** Pairs every product with its score, sorts by descending score (stably) and keeps the positive ones. */
  function RankBy(products: seq<Product>, score: Product -> int): seq<Product>
  {
    Map(Filter(SortByKey(Map(products, ScoredBy(score)), NegatedScore), IsRelevant), ProductOf)
  }

  /** A query that gets ranked: not blank, and with some key term or intent. */
  predicate Meaningful(query: string)
  {
    Trim(query) != "" && (ExtractKeyTerms(query) != [] || DetectedIntents(query) != [])
  }

  /** naturalLanguageSearch as a value. */
  function RankedProducts(products: seq<Product>, query: string): seq<Product>
    requires LiteralKeyTerms(query)
  {
    if !Meaningful(query) then products
    else RankBy(products, ScoreOf(ExtractKeyTerms(query), DetectedIntents(query)))
  }

  /** naturalLanguageSearch: returns the input for a query without content, and ranks otherwise. */
  method NaturalLanguageSearch(products: seq<Product>, query: string) returns (result: seq<Product>)
    requires LiteralKeyTerms(query)
    ensures result == RankedProducts(products, query)
  {
    if Trim(query) == "" {
      assert !Meaningful(query);
      return products;
    }
    var keyTerms := ExtractKeyTerms(query);
    var intents := DetectIntents(query);
    if |keyTerms| == 0 && |intents| == 0 {
      assert !Meaningful(query);
      return products;
    }
    assert Meaningful(query);
    result := RankByScore(products, keyTerms, intents);
  }

  /** The scoring, in-place sorting and filtering steps of naturalLanguageSearch. */
  method RankByScore(products: seq<Product>, keyTerms: seq<string>, intents: seq<Intent>)
    returns (result: seq<Product>)
    requires forall t :: t in keyTerms ==> RegexLiteral(t)
    ensures result == RankBy(products, ScoreOf(keyTerms, intents))
  {
    var scoredProducts := ScoreProducts(products, keyTerms, intents);
    SortInPlace(scoredProducts, NegatedScore);
    result := RelevantProducts(scoredProducts);
  }

  /** `products.map(...)`: a fresh array pairing each product with its score. */
  method ScoreProducts(products: seq<Product>, keyTerms: seq<string>, intents: seq<Intent>)
    returns (scoredProducts: array<Scored>)
    requires forall t :: t in keyTerms ==> RegexLiteral(t)
    ensures fresh(scoredProducts)
    ensures scoredProducts[..] == Map(products, ScoredBy(ScoreOf(keyTerms, intents)))
  {
    scoredProducts := new Scored[|products|];
    for i := 0 to |products|
      invariant forall k :: 0 <= k < i ==> scoredProducts[k] == ScoredBy(ScoreOf(keyTerms, intents))(products[k])
    {
      var score := CalculateRelevanceScore(products[i], keyTerms, intents);
      scoredProducts[i] := Scored(products[i], score);
    }
  }

  /** `.filter(item => item.score > 0).map(item => item.product)` over the sorted pairs. */
  method RelevantProducts(scoredProducts: array<Scored>) returns (result: seq<Product>)
    ensures result == Map(Filter(scoredProducts[..], IsRelevant), ProductOf)
  {
    result := [];
    for i := 0 to scoredProducts.Length
      invariant result == Map(Filter(scoredProducts[..i], IsRelevant), ProductOf)
    {
      assert scoredProducts[..i + 1][..i] == scoredProducts[..i];
      if scoredProducts[i].score > 0 {
        result := result + [scoredProducts[i].product];
      }
    }
    assert scoredProducts[..scoredProducts.Length] == scoredProducts[..];
  }

  function Negated(score: Product -> int): Product -> int
  {
    p => -score(p)
  }

  function Positive(score: Product -> int): Product -> bool
  {
    p => score(p) > 0
  }

  /** Every pair carries its product's score. */
  predicate ScoresAgree(xs: seq<Scored>, score: Product -> int)
  {
    forall x :: x in xs ==> x.score == score(x.product)
  }

  lemma ScoredProductsAgree(products: seq<Product>, score: Product -> int)
    ensures ScoresAgree(Map(products, ScoredBy(score)), score)
    ensures Map(Map(products, ScoredBy(score)), ProductOf) == products
  {
    var scored := Map(products, ScoredBy(score));
    forall x | x in scored ensures x.score == score(x.product) {
      var i :| 0 <= i < |scored| && scored[i] == x;
    }
  }

  lemma SortKeepsAgreement(xs: seq<Scored>, score: Product -> int)
    requires ScoresAgree(xs, score)
    ensures ScoresAgree(SortByKey(xs, NegatedScore), score)
  {
    var sorted := SortByKey(xs, NegatedScore);
    forall x | x in sorted ensures x.score == score(x.product) {
      assert multiset(sorted)[x] > 0;
    }
  }

  /** Ranking is the stable sort of the products by descending score, zero scores dropped. */
  lemma RankShape(products: seq<Product>, score: Product -> int)
    ensures RankBy(products, score) == Filter(SortByKey(products, Negated(score)), Positive(score))
  {
    var scored := Map(products, ScoredBy(score));
    ScoredProductsAgree(products, score);
    MapSortByKey(scored, NegatedScore, ProductOf, Negated(score));
    SortKeepsAgreement(scored, score);
    MapFilter(SortByKey(scored, NegatedScore), ProductOf, IsRelevant, Positive(score));
  }

  /** Ranking returns exactly the products with a positive score, as often as they occur in the input. */
  lemma RankMembers(products: seq<Product>, score: Product -> int)
    ensures var r := RankBy(products, score);
      && |r| <= |products|
      && multiset(r) == multiset(Filter(products, Positive(score)))
      && (forall p :: p in r <==> p in products && score(p) > 0)
  {
    var key, keep := Negated(score), Positive(score);
    RankShape(products, score);
    var sorted := SortByKey(products, key);
    FilterMultiset(sorted, keep);
    FilterMultiset(products, keep);
    assert multiset(sorted) == multiset(products);
  }

  /** Ranking orders the products by non-increasing score. */
  lemma RankOrdering(products: seq<Product>, score: Product -> int)
    ensures var r := RankBy(products, score);
      forall i, j :: 0 <= i < j < |r| ==> score(r[i]) >= score(r[j])
  {
    var key, keep := Negated(score), Positive(score);
    RankShape(products, score);
    SortByKeySorted(products, key);
    FilterSorted(SortByKey(products, key), keep, key);
  }

  /** Products with the same positive score come out in their input order. */
  lemma RankKeepsTiesInOrder(products: seq<Product>, score: Product -> int, v: int)
    requires v > 0
    ensures Filter(RankBy(products, score), KeyIs(Negated(score), -v)) == Filter(products, KeyIs(Negated(score), -v))
  {
    var key, keep := Negated(score), Positive(score);
    RankShape(products, score);
    FilterOfFilter(SortByKey(products, key), keep, KeyIs(key, -v));
    SortByKeyStable(products, key, -v);
  }

  /**
   * The search returns its input when the query is blank or yields neither terms nor
   * intents, in particular for every whitespace-only query.
   */
  lemma UnrankedQueries(products: seq<Product>, query: string)
    ensures !Meaningful(query) ==> LiteralKeyTerms(query) && RankedProducts(products, query) == products
    ensures AllWhitespace(query) ==> LiteralKeyTerms(query) && RankedProducts(products, query) == products
  {
    TrimEmptyIff(query);
    if AllWhitespace(query) {
      BlankQueryIsMeaningless(query);
    }
  }

  // ---------------------------------------------------------------------------
  // Explanation

  /** generateSearchExplanation. */
  function GenerateSearchExplanation(query: string, results: seq<Product>): string
  {
    if query == "" || |results| == 0 then ""
    else Explanation(|results|, ExtractKeyTerms(query), DetectedIntents(query))
  }

  /** The sentence for a number of results and the query's key terms and intents. */
  function Explanation(count: nat, keyTerms: seq<string>, intents: seq<Intent>): string
  {
    if |keyTerms| == 0 && |intents| == 0 then "Showing all available products."
    else
      var explanation := "Found " + DecimalString(count) + " products matching your search";
      var explanation := explanation + if |keyTerms| > 0 then " for \"" + Join(keyTerms, ", ") + "\"" else "";
      var explanation := explanation +
        if |intents| > 0 then ", prioritizing " + Join(Map(intents, Label), ", ") else "";
      explanation + "."
  }

  /** A non-empty blank query with results explains that everything is shown. */
  lemma ExplanationForBlankQuery(query: string, results: seq<Product>)
    requires query != "" && results != [] && AllWhitespace(query)
    ensures GenerateSearchExplanation(query, results) == "Showing all available products."
  {
    BlankQueryIsMeaningless(query);
  }

  /** Otherwise the explanation opens with the result count and closes with a full stop. */
  lemma ExplanationCountsResults(count: nat, keyTerms: seq<string>, intents: seq<Intent>)
    requires keyTerms != [] || intents != []
    ensures var e := Explanation(count, keyTerms, intents);
      var head := "Found " + DecimalString(count) + " products matching your search";
      head <= e && e[|e| - 1] == '.' && DigitsValue(DecimalString(count)) == count
  {
    DecimalStringRoundTrip(count);
  }

  /** No label contains a comma, and different intents have different labels. */
  lemma LabelsDistinguishIntents(a: Intent, b: Intent)
    ensures ',' !in Label(a)
    ensures Label(a) == Label(b) ==> a == b
  {
  }

  /** The quoted term list of an explanation reads back, through SplitList, as the key terms. */
  lemma TermListReadsBack(query: string)
    requires ExtractKeyTerms(query) != []
    ensures SplitList(Join(ExtractKeyTerms(query), ", ")) == ExtractKeyTerms(query)
  {
    KeyTermsWellFormed(query);
    UnstrippedListReadsBack(ExtractKeyTerms(query));
  }

  /** A list of words free of punctuation reads back from its ", "-joined form. */
  lemma UnstrippedListReadsBack(terms: seq<string>)
    requires terms != []
    requires forall t :: t in terms ==> forall i :: 0 <= i < |t| ==> !IsStripped(t[i])
    ensures SplitList(Join(terms, ", ")) == terms
  {
    assert IsStripped(',');
    SplitListJoin(terms);
  }

  /** The prioritised list of an explanation reads back as the labels of the intents, in order. */
  lemma LabelListReadsBack(intents: seq<Intent>)
    requires intents != []
    ensures SplitList(Join(Map(intents, Label), ", ")) == Map(intents, Label)
  {
    var labels := Map(intents, Label);
    forall l | l in labels ensures ',' !in l {
      var i :| 0 <= i < |labels| && labels[i] == l;
      LabelsDistinguishIntents(intents[i], intents[i]);
    }
    SplitListJoin(labels);
  }
}
