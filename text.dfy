/**
 * The JavaScript string operations the search code relies on: toLowerCase, includes,
 * trim, split(/\s+/), join, the `\bterm\b` global match count, and the
 * `parseInt(s.replace(/[^0-9]/g, ''))` idiom used to read revenue figures.
 */
module Text {
  import opened Wrappers
  import Seqs

  // ---------------------------------------------------------------------------
  // Case

  predicate IsUpper(c: char) { 'A' <= c <= 'Z' }

  function LowerChar(c: char): char
  {
    if IsUpper(c) then (c as int + 32) as char else c
  }

  /** String.prototype.toLowerCase on the ASCII letters; every other character is kept. */
  function Lower(s: string): (r: string)
    ensures |r| == |s|
    ensures forall i :: 0 <= i < |r| ==> !IsUpper(r[i])
    ensures forall i :: 0 <= i < |s| && !IsUpper(s[i]) ==> r[i] == s[i]
    ensures forall i :: 0 <= i < |s| && IsUpper(s[i]) ==> r[i] as int == s[i] as int + 32 && 'a' <= r[i] <= 'z'
  {
    seq(|s|, i requires 0 <= i < |s| => LowerChar(s[i]))
  }

  /** A string without capitals. */
  predicate NoUpper(s: string)
  {
    forall i :: 0 <= i < |s| ==> !IsUpper(s[i])
  }

  /** Lower-casing leaves a string without capitals as it is. */
  lemma LowerOfNoUpper(s: string)
    requires NoUpper(s)
    ensures Lower(s) == s
  {
  }

  /** Lower-casing commutes with taking a slice. */
  lemma LowerSlice(s: string, i: nat, j: nat)
    requires i <= j <= |s|
    ensures Lower(s)[i..j] == Lower(s[i..j])
  {
  }

  // ---------------------------------------------------------------------------
  // Substrings

  /** String.prototype.includes. */
  predicate Contains(s: string, sub: string)
    decreases |s|
  {
    sub <= s || (s != [] && Contains(s[1..], sub))
  }

  /** sub occurs in s at position i. */
  predicate OccursAt(s: string, sub: string, i: int)
  {
    0 <= i && i + |sub| <= |s| && s[i..i + |sub|] == sub
  }

  /** An occurrence of sub at position i makes Contains true. */
  lemma {:induction false} ContainsAt(s: string, sub: string, i: nat)
    requires OccursAt(s, sub, i)
    ensures Contains(s, sub)
    decreases i
  {
    if i > 0 {
      assert s[1..][i - 1..i - 1 + |sub|] == s[i..i + |sub|];
      ContainsAt(s[1..], sub, i - 1);
    }
  }

  /** Contains is true only when sub occurs at some position of s. */
  lemma {:induction false} ContainsWitness(s: string, sub: string)
    requires Contains(s, sub)
    ensures exists i :: OccursAt(s, sub, i)
    decreases |s|
  {
    if sub <= s {
      assert OccursAt(s, sub, 0);
    } else {
      ContainsWitness(s[1..], sub);
      var i :| OccursAt(s[1..], sub, i);
      assert s[1..][i..i + |sub|] == s[i + 1..i + 1 + |sub|];
      assert OccursAt(s, sub, i + 1);
    }
  }

  /** A string never contains a longer one. */
  lemma {:induction false} NotContainsLonger(s: string, sub: string)
    requires |sub| > |s|
    ensures !Contains(s, sub)
    decreases |s|
  {
    if s != [] {
      NotContainsLonger(s[1..], sub);
    }
  }

  /** Every character of a contained string occurs in the containing one. */
  lemma ContainsChars(s: string, sub: string, c: char)
    requires Contains(s, sub) && c in sub
    ensures c in s
  {
    ContainsWitness(s, sub);
    var i :| OccursAt(s, sub, i);
    var k :| 0 <= k < |sub| && sub[k] == c;
    assert s[i + k] == s[i..i + |sub|][k];
  }

  // ---------------------------------------------------------------------------
  // Whitespace, trim and split

  /** The characters of `\s` in a JavaScript regular expression (and those trim removes). */
  predicate IsWhitespace(c: char)
  {
    || c == ' ' || c == '\t' || c == '\n' || c == '\r' || c == '\U{000B}' || c == '\U{000C}'
    || c == '\U{00A0}' || c == '\U{1680}' || ('\U{2000}' <= c <= '\U{200A}')
    || c == '\U{2028}' || c == '\U{2029}' || c == '\U{202F}' || c == '\U{205F}'
    || c == '\U{3000}' || c == '\U{FEFF}'
  }

  predicate AllWhitespace(s: string)
  {
    forall i :: 0 <= i < |s| ==> IsWhitespace(s[i])
  }

  /** String.prototype.trimStart: drops the leading whitespace run. */
  function TrimStart(s: string): (r: string)
    ensures |r| <= |s| && r == s[|s| - |r|..]
    ensures AllWhitespace(s[..|s| - |r|])
    ensures r == [] || !IsWhitespace(r[0])
    decreases |s|
  {
    if s != [] && IsWhitespace(s[0]) then
      var r := TrimStart(s[1..]);
      assert s[1..][..|s| - 1 - |r|] == s[1..|s| - |r|];
      r
    else s
  }

  /** String.prototype.trimEnd: drops the trailing whitespace run. */
  function TrimEnd(s: string): (r: string)
    ensures |r| <= |s| && r == s[..|r|]
    ensures AllWhitespace(s[|r|..])
    ensures r == [] || !IsWhitespace(r[|r| - 1])
    decreases |s|
  {
    if s != [] && IsWhitespace(s[|s| - 1]) then
      var r := TrimEnd(s[..|s| - 1]);
      assert s[..|s| - 1][..|r|] == s[..|r|];
      assert s[|r|..] == s[..|s| - 1][|r|..] + [s[|s| - 1]];
      r
    else s
  }

  /** String.prototype.trim. */
  function Trim(s: string): string
  {
    TrimEnd(TrimStart(s))
  }

  /** A string trims to "" exactly when it is all whitespace. */
  lemma TrimEmptyIff(s: string)
    ensures Trim(s) == "" <==> AllWhitespace(s)
  {
    var t := TrimStart(s);
    assert s == s[..|s| - |t|] + t;
    if t != [] {
      assert !IsWhitespace(t[0]);
      assert TrimEnd(t) != [];
      assert !IsWhitespace(s[|s| - |t|]);
    } else {
      assert TrimEnd(t) == [];
    }
  }

  /** The index of the first whitespace character of s, or |s| when there is none. */
  function FirstWhitespace(s: string): (k: nat)
    ensures k <= |s|
    ensures forall i :: 0 <= i < k ==> !IsWhitespace(s[i])
    ensures k < |s| ==> IsWhitespace(s[k])
    decreases |s|
  {
    if s == [] || IsWhitespace(s[0]) then 0 else 1 + FirstWhitespace(s[1..])
  }

  /**
   * String.prototype.split(/\s+/): the pieces between maximal whitespace runs. A leading
   * or trailing run yields an empty first or last piece, and "" splits into [""].
   */
  function SplitOnWhitespace(s: string): (r: seq<string>)
    ensures |r| >= 1
    ensures forall w :: w in r ==> forall i :: 0 <= i < |w| ==> !IsWhitespace(w[i])
    decreases |s|
  {
    var k := FirstWhitespace(s);
    if k == |s| then [s]
    else [s[..k]] + SplitOnWhitespace(TrimStart(s[k..]))
  }

  /** Every character of every piece occurs in the split string. */
  lemma {:induction false} SplitOnWhitespaceChars(s: string, w: string, c: char)
    requires w in SplitOnWhitespace(s) && c in w
    ensures c in s
    decreases |s|
  {
    var k := FirstWhitespace(s);
    if k == |s| {
      assert w == s;
    } else {
      var rest := TrimStart(s[k..]);
      assert SplitOnWhitespace(s) == [s[..k]] + SplitOnWhitespace(rest);
      if w == s[..k] {
        var i :| 0 <= i < |w| && w[i] == c;
        assert s[i] == c;
      } else {
        SplitOnWhitespaceChars(rest, w, c);
        InSuffix(s, |s| - |rest|, c);
      }
    }
  }

  /** A character of a suffix of s is a character of s. */
  lemma InSuffix(s: string, k: nat, c: char)
    requires k <= |s| && c in s[k..]
    ensures c in s
  {
    var i :| 0 <= i < |s| - k && s[k..][i] == c;
    assert s[k + i] == c;
  }

  /** Array.prototype.join. */
  function Join(parts: seq<string>, sep: string): string
    decreases |parts|
  {
    if parts == [] then ""
    else if |parts| == 1 then parts[0]
    else Join(parts[..|parts| - 1], sep) + sep + parts[|parts| - 1]
  }

  /** The position of the last comma of s. */
  function LastComma(s: string): (r: Option<nat>)
    ensures r.None? <==> ',' !in s
    ensures r.Some? ==> r.value < |s| && s[r.value] == ',' && ',' !in s[r.value + 1..]
    decreases |s|
  {
    if s == [] then None
    else if s[|s| - 1] == ',' then Some(|s| - 1)
    else
      var r := LastComma(s[..|s| - 1]);
      assert s == s[..|s| - 1] + [s[|s| - 1]];
      if r.Some? then
        assert s[r.value + 1..] == s[..|s| - 1][r.value + 1..] + [s[|s| - 1]];
        r
      else r
  }

  /** Reads back a ", "-separated list (the inverse of Join(parts, ", ") when no part holds a comma). */
  function SplitList(s: string): seq<string>
    decreases |s|
  {
    match LastComma(s)
    case None => [s]
    case Some(k) => SplitList(s[..k]) + [s[if k + 2 <= |s| then k + 2 else |s|..]]
  }

  /** In a list joined with ", ", the last comma is the one before the last part. */
  lemma LastCommaOfJoin(j: string, last: string)
    requires ',' !in last
    ensures LastComma(j + ", " + last) == Some(|j|)
  {
    var s := j + ", " + last;
    assert s[|j|] == ',';
    var k := LastComma(s).value;
    if k < |j| {
      assert false;
    } else if k > |j| {
      assert false;
    }
  }

  lemma {:induction false} SplitListJoin(parts: seq<string>)
    requires parts != []
    requires forall p :: p in parts ==> ',' !in p
    ensures SplitList(Join(parts, ", ")) == parts
    decreases |parts|
  {
    if |parts| > 1 {
      var init, last := parts[..|parts| - 1], parts[|parts| - 1];
      var j := Join(init, ", ");
      var s := j + ", " + last;
      assert Join(parts, ", ") == s;
      LastCommaOfJoin(j, last);
      assert s[..|j|] == j;
      assert s[|j| + 2..] == last;
      SplitListJoin(init);
      assert parts == init + [last];
    } else {
      assert parts[0] in parts;
    }
  }

  /** Join seen from the front: the first part, then the separator and the rest. */
  lemma {:induction false} JoinCons(w: string, rest: seq<string>, sep: string)
    ensures Join([w] + rest, sep) == if rest == [] then w else w + sep + Join(rest, sep)
    decreases |rest|
  {
    if |rest| > 1 {
      var init := rest[..|rest| - 1];
      assert ([w] + rest)[..|rest|] == [w] + init;
      JoinCons(w, init, sep);
    } else if |rest| == 1 {
      assert ([w] + rest)[..1] == [w];
    }
  }

  /** A word with no whitespace in it. */
  predicate IsWord(w: string)
  {
    w != [] && forall i :: 0 <= i < |w| ==> !IsWhitespace(w[i])
  }

  /** In a word followed by whitespace, the first whitespace is the one after the word. */
  lemma FirstWhitespaceAfterWord(w: string, t: string)
    requires IsWord(w) && t != [] && IsWhitespace(t[0])
    ensures FirstWhitespace(w + t) == |w|
  {
    assert (w + t)[|w|] == t[0];
    assert forall i :: 0 <= i < |w| ==> (w + t)[i] == w[i];
  }

  /** A single space before a non-blank string is all that trimStart removes. */
  lemma TrimStartOneSpace(j: string)
    requires j != [] && !IsWhitespace(j[0])
    ensures TrimStart(" " + j) == j
  {
    assert (" " + j)[1..] == j;
  }

  /** A word followed by a separator splits off as the first piece. */
  lemma SplitAfterWord(w: string, j: string)
    requires IsWord(w) && j != [] && !IsWhitespace(j[0])
    ensures SplitOnWhitespace(w + " " + j) == [w] + SplitOnWhitespace(j)
  {
    var s := w + (" " + j);
    assert w + " " + j == s;
    FirstWhitespaceAfterWord(w, " " + j);
    TrimStartOneSpace(j);
    assert s[..|w|] == w;
    assert s[|w|..] == " " + j;
  }

  /** Words joined by single spaces start with the first word's first character. */
  lemma JoinedWordsStart(ws: seq<string>)
    requires ws != [] && IsWord(ws[0])
    ensures Join(ws, " ") != [] && Join(ws, " ")[0] == ws[0][0]
  {
    JoinCons(ws[0], ws[1..], " ");
    assert [ws[0]] + ws[1..] == ws;
  }

  /** Splitting words joined by single spaces gives the words back. */
  lemma {:induction false} SplitJoinedWords(ws: seq<string>)
    requires ws != [] && forall w :: w in ws ==> IsWord(w)
    ensures SplitOnWhitespace(Join(ws, " ")) == ws
    decreases |ws|
  {
    var w, rest := ws[0], ws[1..];
    assert ws == [w] + rest;
    assert w in ws;
    JoinCons(w, rest, " ");
    if rest == [] {
      assert FirstWhitespace(w) == |w|;
    } else {
      assert rest[0] in ws;
      JoinedWordsStart(rest);
      SplitAfterWord(w, Join(rest, " "));
      SplitJoinedWords(rest);
    }
  }

  // ---------------------------------------------------------------------------
  // Whole-word matches: the global regular expression /\bterm\b/gi

  /** `\w` in a JavaScript regular expression without the u flag. */
  predicate IsWordChar(c: char)
  {
    'a' <= c <= 'z' || 'A' <= c <= 'Z' || '0' <= c <= '9' || c == '_'
  }

  /** `\b` holds at position i of s. */
  predicate IsWordBoundary(s: string, i: nat)
    requires i <= |s|
  {
    (i > 0 && IsWordChar(s[i - 1])) != (i < |s| && IsWordChar(s[i]))
  }

  /**
   * /\bterm\b/i matches s at position i: the text there equals the term up to ASCII case
   * (the i flag), and both ends are word boundaries.
   */
  predicate WholeWordAt(s: string, term: string, i: nat)
    requires i <= |s|
  {
    && i + |term| <= |s| && Lower(s[i..i + |term|]) == Lower(term)
    && IsWordBoundary(s, i) && IsWordBoundary(s, i + |term|)
  }

  /**
   * The number of matches String.prototype.match returns for /\bterm\b/g from position i
   * on: the scan tries each position left to right, resumes after a match, and steps one
   * character past an empty match.
   */
  function WholeWordMatchesFrom(s: string, term: string, i: nat): nat
    requires i <= |s|
    decreases |s| - i
  {
    if i + |term| > |s| then 0
    else if WholeWordAt(s, term, i) then
      1 + (if term != [] then WholeWordMatchesFrom(s, term, i + |term|)
           else if i < |s| then WholeWordMatchesFrom(s, term, i + 1)
           else 0)
    else if i < |s| then WholeWordMatchesFrom(s, term, i + 1)
    else 0
  }

  function WholeWordMatches(s: string, term: string): nat
  {
    WholeWordMatchesFrom(s, term, 0)
  }

  /** A whole-word match is in particular an occurrence, once both sides are lower-cased. */
  lemma {:induction false} WholeWordMatchIsOccurrence(s: string, term: string, i: nat)
    requires i <= |s| && WholeWordMatchesFrom(s, term, i) > 0
    ensures Contains(Lower(s), Lower(term))
    decreases |s| - i
  {
    if WholeWordAt(s, term, i) {
      LowerSlice(s, i, i + |term|);
      ContainsAt(Lower(s), Lower(term), i);
    } else {
      WholeWordMatchIsOccurrence(s, term, i + 1);
    }
  }

  /** The i flag: a term counts as many matches as its lower-cased form. */
  lemma {:induction false} WholeWordMatchesIgnoreCase(s: string, term: string, i: nat)
    requires i <= |s|
    ensures WholeWordMatchesFrom(s, term, i) == WholeWordMatchesFrom(s, Lower(term), i)
    decreases |s| - i
  {
    LowerOfNoUpper(Lower(term));
    if i + |term| <= |s| && i < |s| {
      if WholeWordAt(s, term, i) && term != [] {
        WholeWordMatchesIgnoreCase(s, term, i + |term|);
      } else {
        WholeWordMatchesIgnoreCase(s, term, i + 1);
      }
    }
  }

  // ---------------------------------------------------------------------------
  // Numbers

  predicate IsDigit(c: char) { '0' <= c <= '9' }

  predicate AllDigits(s: string)
  {
    forall i :: 0 <= i < |s| ==> IsDigit(s[i])
  }

  /** The value of a string of decimal digits (leading zeros allowed). */
  function DigitsValue(d: string): nat
    requires AllDigits(d)
    decreases |d|
  {
    if d == [] then 0 else DigitsValue(d[..|d| - 1]) * 10 + (d[|d| - 1] as int - '0' as int)
  }

  /**
   * parseInt(s.replace(/[^0-9]/g, '')): the number formed by the digits of s, or None
   * (NaN) when s has no digit.
   */
  function ParseDigits(s: string): (r: Option<nat>)
    ensures r.None? <==> forall i :: 0 <= i < |s| ==> !IsDigit(s[i])
  {
    var d := Seqs.Filter(s, IsDigit);
    Seqs.FilterMultiset(s, IsDigit);
    if d == [] then
      assert forall i :: 0 <= i < |s| ==> !IsDigit(s[i]) by {
        forall i | 0 <= i < |s| ensures !IsDigit(s[i]) {
          assert s[i] in s;
        }
      }
      None
    else
      assert AllDigits(d) by {
        forall i | 0 <= i < |d| ensures IsDigit(d[i]) {
          assert d[i] in d;
        }
      }
      Some(DigitsValue(d))
  }

  /** `x > n` in JavaScript, where NaN compares false. */
  predicate NumberAbove(x: Option<nat>, n: int)
  {
    x.Some? && x.value > n
  }

  /** `x <= n` in JavaScript, where NaN compares false. */
  predicate NumberAtMost(x: Option<nat>, n: int)
  {
    x.Some? && x.value <= n
  }

  function DigitChar(d: nat): char
    requires d < 10
  {
    ('0' as int + d) as char
  }

  /** The decimal rendering of n, as a template literal `${n}` produces it. */
  function DecimalString(n: nat): (r: string)
    ensures r != [] && AllDigits(r)
    decreases n
  {
    if n < 10 then [DigitChar(n)] else DecimalString(n / 10) + [DigitChar(n % 10)]
  }

  /** Reading a rendered number back gives the number, and there is no leading zero. */
  lemma {:induction false} DecimalStringRoundTrip(n: nat)
    ensures DigitsValue(DecimalString(n)) == n
    ensures n > 0 ==> DecimalString(n)[0] != '0'
    decreases n
  {
    if n >= 10 {
      DecimalStringRoundTrip(n / 10);
      var r := DecimalString(n);
      assert r[..|r| - 1] == DecimalString(n / 10);
    }
  }
}
