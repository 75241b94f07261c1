/** Text helpers with the meaning of the Python string operations the
    program uses: `str.lower`, `str.split()`, `str.strip()`, `str.replace`,
    `str.find`/`rfind`, `sep.join`, `str.split(sep)`, `re.sub(r'\s+', ' ', t)`
    and the regular expression `\d+\.?\d*` used by every price scanner.
    Characters are ASCII-classified: see README for what that leaves out. */
module Strings {
  import opened Wrappers

  // ---------------------------------------------------------------------
  // Character classes

  /** The ASCII characters Python's `\s`, `str.split()` and `str.strip()` treat
      as whitespace: space, tab, the line and form feeds, carriage return and
      the four information separators U+001C to U+001F. */
  predicate IsSpace(c: char) {
    c == ' ' || c == '\t' || c == '\n' || c == '\r' || c == '\U{000B}' || c == '\U{000C}'
    || ('\U{001C}' <= c <= '\U{001F}')
  }

  predicate IsDigit(c: char) { '0' <= c <= '9' }

  predicate IsUpper(c: char) { 'A' <= c <= 'Z' }

  predicate IsLower(c: char) { 'a' <= c <= 'z' }

  predicate IsLetter(c: char) { IsUpper(c) || IsLower(c) }

  function LowerChar(c: char): (r: char)
    ensures !IsUpper(r)
    ensures IsLetter(c) <==> IsLetter(r)
  {
    if IsUpper(c) then (c as int - 'A' as int + 'a' as int) as char else c
  }

  function UpperChar(c: char): (r: char)
    ensures !IsLower(r)
    ensures IsLetter(c) <==> IsLetter(r)
  {
    if IsLower(c) then (c as int - 'a' as int + 'A' as int) as char else c
  }

  /** `s.lower()` */
  function Lower(s: string): (r: string)
    ensures |r| == |s|
    ensures forall i :: 0 <= i < |s| ==> r[i] == LowerChar(s[i])
  {
    seq(|s|, i requires 0 <= i < |s| => LowerChar(s[i]))
  }

  /** Lower-casing text without upper-case letters changes nothing. */
  lemma LowerOfLower(s: string)
    requires forall i :: 0 <= i < |s| ==> !IsUpper(s[i])
    ensures Lower(s) == s
  {
  }

  predicate NoSpace(s: string) {
    forall i :: 0 <= i < |s| ==> !IsSpace(s[i])
  }

  predicate IsBlank(s: string) {
    forall i :: 0 <= i < |s| ==> IsSpace(s[i])
  }

  /** Every character of `s` is a decimal digit. */
  predicate AllDigits(s: string) {
    forall i :: 0 <= i < |s| ==> IsDigit(s[i])
  }

  /** `''.join(c for c in s if c not in cs)`: the regular-expression
      substitution `re.sub('[...]', '', s)` with a character class. */
  function RemoveChars(s: string, cs: set<char>): (r: string)
    ensures |r| <= |s|
    ensures forall i :: 0 <= i < |r| ==> r[i] !in cs
  {
    if s == [] then []
    else if s[0] in cs then RemoveChars(s[1..], cs)
    else [s[0]] + RemoveChars(s[1..], cs)
  }

  /** Deleting distributes over concatenation. */
  lemma {:induction false} RemoveCharsAppend(a: string, b: string, cs: set<char>)
    ensures RemoveChars(a + b, cs) == RemoveChars(a, cs) + RemoveChars(b, cs)
  {
    if a == [] {
      assert a + b == b;
    } else {
      assert (a + b)[1..] == a[1..] + b;
      RemoveCharsAppend(a[1..], b, cs);
    }
  }

  /** Text with none of the characters is left as it is. */
  lemma {:induction false} RemoveCharsNone(s: string, cs: set<char>)
    requires forall i :: 0 <= i < |s| ==> s[i] !in cs
    ensures RemoveChars(s, cs) == s
  {
    if s != [] {
      RemoveCharsNone(s[1..], cs);
    }
  }

  // ---------------------------------------------------------------------
  // Prefixes, suffixes and searching

  predicate StartsWith(s: string, p: string) {
    |p| <= |s| && s[..|p|] == p
  }

  predicate EndsWith(s: string, p: string) {
    |p| <= |s| && s[|s| - |p|..] == p
  }

  /** `s[:n]`: the first `min(n, |s|)` elements. */
  function Prefix<T>(s: seq<T>, n: nat): (r: seq<T>)
    ensures |r| <= n && |r| <= |s| && r == s[..|r|]
    ensures |r| == if |s| <= n then |s| else n
    ensures |s| <= n ==> r == s
  {
    if |s| <= n then s else s[..n]
  }

  /** `pat` occurs in `s` at index `i`. */
  predicate MatchAt(s: string, pat: string, i: int) {
    0 <= i && i + |pat| <= |s| && s[i..i + |pat|] == pat
  }

  /** `s.find(pat, from)`, with `None` for Python's -1: the leftmost
      occurrence at or after `from`. */
  function Find(s: string, pat: string, from: nat): (r: Option<nat>)
    ensures r.Some? ==> from <= r.value && MatchAt(s, pat, r.value)
    ensures r.Some? ==> forall j :: from <= j < r.value ==> !MatchAt(s, pat, j)
    ensures r.None? ==> forall j :: from <= j ==> !MatchAt(s, pat, j)
    decreases |s| - from
  {
    if from + |pat| > |s| then None
    else if MatchAt(s, pat, from) then Some(from)
    else Find(s, pat, from + 1)
  }

  /** `pat in s` */
  predicate Contains(s: string, pat: string) {
    Find(s, pat, 0).Some?
  }

  lemma ContainsAt(s: string, pat: string, i: int)
    requires MatchAt(s, pat, i)
    ensures Contains(s, pat)
  {
  }

  /** `s.rfind(c)` for one character, with `None` for -1. */
  function RFindChar(s: string, c: char): (r: Option<nat>)
    ensures r.Some? ==> r.value < |s| && s[r.value] == c
    ensures r.Some? ==> forall j :: r.value < j < |s| ==> s[j] != c
    ensures r.None? ==> forall j :: 0 <= j < |s| ==> s[j] != c
  {
    if s == [] then None
    else if s[|s| - 1] == c then Some(|s| - 1)
    else RFindChar(s[..|s| - 1], c)
  }

  /** `s.replace(pat, rep)`: every leftmost non-overlapping occurrence. */
  function Replace(s: string, pat: string, rep: string): string
    requires pat != []
    decreases |s|
  {
    if |s| < |pat| then s
    else if s[..|pat|] == pat then rep + Replace(s[|pat|..], pat, rep)
    else [s[0]] + Replace(s[1..], pat, rep)
  }

  /** Replacing one character by another keeps the length and changes only
      the occurrences of that character. */
  lemma {:induction false} ReplaceCharAt(s: string, a: char, b: char)
    ensures |Replace(s, [a], [b])| == |s|
    ensures forall i :: 0 <= i < |s| ==> Replace(s, [a], [b])[i] == if s[i] == a then b else s[i]
    decreases |s|
  {
    if |s| >= 1 {
      ReplaceCharAt(s[1..], a, b);
      var r := Replace(s, [a], [b]);
      assert r == [if s[0] == a then b else s[0]] + Replace(s[1..], [a], [b]);
    }
  }

  // ---------------------------------------------------------------------
  // Whitespace: split(), strip() and re.sub(r'\s+', ' ', ...)

  /** Drops the leading whitespace. */
  function DropSpaces(s: string): (r: string)
    ensures |r| <= |s| && r == s[|s| - |r|..]
    ensures r == [] || !IsSpace(r[0])
    ensures forall i :: 0 <= i < |s| - |r| ==> IsSpace(s[i])
  {
    if s != [] && IsSpace(s[0]) then
      var r := DropSpaces(s[1..]);
      assert forall i :: 1 <= i < |s| - |r| ==> s[i] == s[1..][i - 1];
      assert s[1..][|s| - 1 - |r|..] == s[|s| - |r|..];
      r
    else s
  }

  /** Length of the longest prefix without whitespace. */
  function WordEnd(s: string): (n: nat)
    ensures n <= |s|
    ensures NoSpace(s[..n])
    ensures n == |s| || IsSpace(s[n])
  {
    if s == [] || IsSpace(s[0]) then 0
    else
      var n := 1 + WordEnd(s[1..]);
      assert s[..n] == [s[0]] + s[1..][..n - 1];
      n
  }

  /** `s.split()`: the maximal runs of non-whitespace, in order. */
  function Words(s: string): (ws: seq<string>)
    ensures forall k :: 0 <= k < |ws| ==> ws[k] != [] && NoSpace(ws[k])
    decreases |s|
  {
    var t := DropSpaces(s);
    if t == [] then []
    else
      var n := WordEnd(t);
      [t[..n]] + Words(t[n..])
  }

  /** `s.split()[0]` when there is a word. */
  function FirstWord(s: string): Option<string> {
    var ws := Words(s);
    if ws == [] then None else Some(ws[0])
  }

  /** Number of leading whitespace characters. */
  function LeadingSpaces(s: string): (i: nat)
    ensures i <= |s| && IsBlank(s[..i])
    ensures i == |s| || !IsSpace(s[i])
  {
    var t := DropSpaces(s);
    assert t == s[|s| - |t|..];
    |s| - |t|
  }

  /** There is a first word exactly when `s` is not blank. */
  lemma FirstWordExists(s: string)
    ensures FirstWord(s).None? <==> IsBlank(s)
  {
    var t := DropSpaces(s);
    if t != [] {
      assert s[|s| - |t|] == t[0];
    }
  }

  /** The first word is what follows the leading whitespace, up to the next
      whitespace or the end. */
  lemma FirstWordShape(s: string)
    requires FirstWord(s).Some?
    ensures var w := FirstWord(s).value;
      var i := LeadingSpaces(s);
      && w != [] && NoSpace(w)
      && i + |w| <= |s| && s[i..i + |w|] == w
      && (i + |w| == |s| || IsSpace(s[i + |w|]))
  {
    var t := DropSpaces(s);
    FirstWordIsWord(s);
    FirstWordIsFirstRun(s);
    SuffixSlice(s, t, |s| - |t|, WordEnd(t));
  }

  lemma FirstWordIsWord(s: string)
    requires FirstWord(s).Some?
    ensures FirstWord(s).value != [] && NoSpace(FirstWord(s).value)
  {
    assert FirstWord(s).value == Words(s)[0];
  }

  lemma SuffixSlice(s: string, t: string, i: nat, n: nat)
    requires i <= |s| && t == s[i..] && n <= |t|
    ensures t[..n] == s[i..i + n]
    ensures n < |t| ==> s[i + n] == t[n]
  {
  }

  /** The first word is the leading run of non-whitespace once the leading
      whitespace is dropped. */
  lemma FirstWordIsFirstRun(s: string)
    requires FirstWord(s).Some?
    ensures DropSpaces(s) != [] && FirstWord(s).value == DropSpaces(s)[..WordEnd(DropSpaces(s))]
  {
    var t := DropSpaces(s);
    assert Words(s) == [t[..WordEnd(t)]] + Words(t[WordEnd(t)..]);
  }

  /** A non-empty string without whitespace is its own first word. */
  lemma FirstWordOfWord(w: string)
    requires w != [] && NoSpace(w)
    ensures FirstWord(w) == Some(w)
  {
    assert DropSpaces(w) == w;
    assert WordEnd(w) == |w|;
    assert Words(w[|w|..]) == [];
    assert w[..|w|] == w;
    assert Words(w) == [w[..|w|]] + Words(w[|w|..]);
  }

  /** Drops the trailing whitespace. */
  function DropTrailingSpaces(s: string): (r: string)
    ensures |r| <= |s| && r == s[..|r|]
    ensures r == [] || !IsSpace(r[|r| - 1])
    ensures forall i :: |r| <= i < |s| ==> IsSpace(s[i])
  {
    if s != [] && IsSpace(s[|s| - 1]) then DropTrailingSpaces(s[..|s| - 1]) else s
  }

  /** `s.strip()` */
  function Strip(s: string): (r: string)
    ensures r == [] || (!IsSpace(r[0]) && !IsSpace(r[|r| - 1]))
    ensures LeadingSpaces(s) + |r| <= |s|
    ensures r == s[LeadingSpaces(s)..LeadingSpaces(s) + |r|]
    ensures forall i :: LeadingSpaces(s) + |r| <= i < |s| ==> IsSpace(s[i])
  {
    var t := DropSpaces(s);
    var r := DropTrailingSpaces(t);
    assert t == s[|s| - |t|..];
    r
  }

  /** `re.sub(r'\s+', ' ', s)`: each maximal run of whitespace becomes one space. */
  function Collapse(s: string): string
    decreases |s|
  {
    if s == [] then []
    else if IsSpace(s[0]) then [' '] + Collapse(DropSpaces(s))
    else [s[0]] + Collapse(s[1..])
  }

  /** No two adjacent whitespace characters and every whitespace character is a plain space. */
  predicate SingleSpaced(s: string) {
    && (forall i :: 0 <= i < |s| && IsSpace(s[i]) ==> s[i] == ' ')
    && (forall i :: 0 <= i < |s| - 1 ==> !(IsSpace(s[i]) && IsSpace(s[i + 1])))
  }

  lemma {:induction false} CollapseSingleSpaced(s: string)
    ensures SingleSpaced(Collapse(s))
    ensures Collapse(s) != [] ==> (IsSpace(Collapse(s)[0]) <==> IsSpace(s[0]))
    decreases |s|
  {
    if s == [] {
    } else if IsSpace(s[0]) {
      var t := DropSpaces(s);
      CollapseSingleSpaced(t);
      if Collapse(t) != [] {
        assert t != [] && !IsSpace(t[0]);
      }
    } else {
      CollapseSingleSpaced(s[1..]);
    }
  }

  lemma {:induction false} CollapseOfSingleSpaced(s: string)
    requires SingleSpaced(s)
    ensures Collapse(s) == s
    decreases |s|
  {
    if s != [] {
      assert SingleSpaced(s[1..]);
      CollapseOfSingleSpaced(s[1..]);
      if IsSpace(s[0]) {
        assert s[1..] == [] || !IsSpace(s[1]);
        assert DropSpaces(s) == s[1..];
      }
    }
  }

  lemma SliceSingleSpaced(s: string, i: int, j: int)
    requires 0 <= i <= j <= |s| && SingleSpaced(s)
    ensures SingleSpaced(s[i..j])
  {
    var t := s[i..j];
    forall k | 0 <= k < |t| - 1
      ensures !(IsSpace(t[k]) && IsSpace(t[k + 1]))
    {
      assert t[k] == s[i + k] && t[k + 1] == s[i + k + 1];
    }
  }

  /** A string without leading or trailing whitespace is its own strip. */
  lemma StripOfTrimmed(s: string)
    requires s == [] || (!IsSpace(s[0]) && !IsSpace(s[|s| - 1]))
    ensures Strip(s) == s
  {
  }

  /** `BaseScraper.clean_text`: collapse every whitespace run to a single
      space, then strip. */
  function CleanText(s: string): string {
    Strip(Collapse(s))
  }

  /** A cleaned text has no leading or trailing whitespace and no run of
      two whitespace characters. */
  lemma CleanTextShape(s: string)
    ensures CleanText(s) == [] || (!IsSpace(CleanText(s)[0]) && !IsSpace(CleanText(s)[|CleanText(s)| - 1]))
    ensures SingleSpaced(CleanText(s))
  {
    var c := Collapse(s);
    StripEnds(c);
    assert CleanText(s) == Strip(c);
    CleanTextSingleSpaced(s);
  }

  lemma StripEnds(c: string)
    ensures Strip(c) == [] || (!IsSpace(Strip(c)[0]) && !IsSpace(Strip(c)[|Strip(c)| - 1]))
  {
  }

  lemma CleanTextSingleSpaced(s: string)
    ensures SingleSpaced(CleanText(s))
  {
    var c := Collapse(s);
    CollapseSingleSpaced(s);
    StripIsSlice(c);
  }

  /** A stripped single-spaced text is single-spaced. */
  lemma StripIsSlice(c: string)
    requires SingleSpaced(c)
    ensures SingleSpaced(Strip(c))
  {
    var i := LeadingSpaces(c);
    SliceSingleSpaced(c, i, i + |Strip(c)|);
  }

  /** Cleaning a cleaned text changes nothing. */
  lemma CleanTextIdempotent(s: string)
    ensures CleanText(CleanText(s)) == CleanText(s)
  {
    var r := CleanText(s);
    CleanTextShape(s);
    CollapseOfSingleSpaced(r);
    StripOfTrimmed(r);
  }

  // ---------------------------------------------------------------------
  // Joining and splitting on a separator

  /** `sep.join(parts)` */
  function Join(parts: seq<string>, sep: string): string {
    if parts == [] then []
    else if |parts| == 1 then parts[0]
    else parts[0] + sep + Join(parts[1..], sep)
  }

  /** Every part preceded by the separator, concatenated. */
  function Separated(parts: seq<string>, sep: string): string {
    if parts == [] then [] else sep + parts[0] + Separated(parts[1..], sep)
  }

  /** A join is the first part followed by each other part after a
      separator. */
  lemma {:induction false} JoinIsSeparated(parts: seq<string>, sep: string)
    requires parts != []
    ensures Join(parts, sep) == parts[0] + Separated(parts[1..], sep)
    decreases |parts|
  {
    if |parts| > 1 {
      JoinIsSeparated(parts[1..], sep);
      assert parts[1..][1..] == parts[2..];
    }
  }

  /** A join of two parts and more: the first, the second after a
      separator, then each further part after a separator. */
  lemma JoinTwoAndMore(a: string, b: string, rest: seq<string>, sep: string)
    ensures Join([a, b] + rest, sep) == a + sep + b + Separated(rest, sep)
  {
    var parts := [a, b] + rest;
    JoinIsSeparated(parts, sep);
    assert parts[1..] == [b] + rest;
    assert ([b] + rest)[1..] == rest;
  }

  lemma {:induction false} SeparatedAppend(a: seq<string>, b: seq<string>, sep: string)
    ensures Separated(a + b, sep) == Separated(a, sep) + Separated(b, sep)
    decreases |a|
  {
    if a == [] {
      assert a + b == b;
    } else {
      SeparatedAppend(a[1..], b, sep);
      assert (a + b)[1..] == a[1..] + b;
    }
  }

  /** Index of the first `c` in `s`, or `|s|` when there is none. */
  function IndexOfChar(s: string, c: char): (i: nat)
    ensures i <= |s|
    ensures i < |s| ==> s[i] == c
    ensures forall j :: 0 <= j < i ==> s[j] != c
  {
    if s == [] then 0
    else if s[0] == c then 0
    else 1 + IndexOfChar(s[1..], c)
  }

  /** `s.split(c)` for a one-character separator: every occurrence splits. */
  function SplitOn(s: string, c: char): (r: seq<string>)
    ensures |r| >= 1
    decreases |s|
  {
    var i := IndexOfChar(s, c);
    if i == |s| then [s] else [s[..i]] + SplitOn(s[i + 1..], c)
  }

  /** Joining parts that do not contain the separator can be undone by
      splitting on it. */
  lemma {:induction false} SplitJoin(parts: seq<string>, c: char)
    requires |parts| >= 1
    requires forall k :: 0 <= k < |parts| ==> c !in parts[k]
    ensures SplitOn(Join(parts, [c]), c) == parts
  {
    if |parts| == 1 {
      assert IndexOfChar(parts[0], c) == |parts[0]|;
    } else {
      var a, b := parts[0], Join(parts[1..], [c]);
      var s := a + [c] + b;
      assert Join(parts, [c]) == s;
      assert s[|a|] == c;
      assert forall j :: 0 <= j < |a| ==> s[j] == a[j];
      assert IndexOfChar(s, c) == |a|;
      assert s[..|a|] == a && s[|a| + 1..] == b;
      SplitJoin(parts[1..], c);
    }
  }

  // ---------------------------------------------------------------------
  // Decimal numbers

  function DigitValue(c: char): (d: nat)
    requires IsDigit(c)
    ensures d < 10
  {
    c as int - '0' as int
  }

  function DigitChar(d: nat): (c: char)
    requires d < 10
    ensures IsDigit(c) && DigitValue(c) == d
  {
    ('0' as int + d) as char
  }

  /** The value of a run of decimal digits (`int(ds)`, 0 for the empty run). */
  function DigitsValue(ds: string): nat
    requires AllDigits(ds)
  {
    if ds == [] then 0
    else DigitsValue(ds[..|ds| - 1]) * 10 + DigitValue(ds[|ds| - 1])
  }

  /** `str(n)` for a natural number. */
  function NatToString(n: nat): (s: string)
    ensures s != [] && AllDigits(s)
  {
    if n < 10 then [DigitChar(n)] else NatToString(n / 10) + [DigitChar(n % 10)]
  }

  /** `str(i)` for an integer. */
  function IntToString(i: int): string {
    if i < 0 then "-" + NatToString(-i) else NatToString(i)
  }

  /** Reading back the digits `str(n)` writes gives `n`. */
  lemma {:induction false} NatToStringRoundTrip(n: nat)
    ensures DigitsValue(NatToString(n)) == n
  {
    if n >= 10 {
      NatToStringRoundTrip(n / 10);
      var s := NatToString(n);
      assert s[..|s| - 1] == NatToString(n / 10);
    }
  }

  function Pow10(k: nat): (p: nat)
    ensures p >= 1
  {
    if k == 0 then 1 else 10 * Pow10(k - 1)
  }

  /** A match of `\d+\.?\d*`: the digits before the point and those after it
      (`frac` is empty both for "12" and for "12."). */
  datatype Decimal = Decimal(whole: string, frac: string)
  {
    ghost predicate Valid() { whole != [] && AllDigits(whole) && AllDigits(frac) }

    /** `float(...)` of the matched text. */
    function Value(): real
      requires Valid()
    {
      DigitsValue(whole) as real + DigitsValue(frac) as real / Pow10(|frac|) as real
    }
  }

  /** Index of the first decimal digit of `s`, or `|s|`. */
  function FirstDigit(s: string): (i: nat)
    ensures i <= |s|
    ensures i < |s| ==> IsDigit(s[i])
    ensures forall j :: 0 <= j < i ==> !IsDigit(s[j])
  {
    if s == [] || IsDigit(s[0]) then 0 else 1 + FirstDigit(s[1..])
  }

  /** Length of the run of digits that starts `s`. */
  function DigitRun(s: string): (n: nat)
    ensures n <= |s| && AllDigits(s[..n])
    ensures n == |s| || !IsDigit(s[n])
  {
    if s == [] || !IsDigit(s[0]) then 0
    else
      var n := 1 + DigitRun(s[1..]);
      assert s[..n] == [s[0]] + s[1..][..n - 1];
      n
  }

  /** `d` is what `\d+\.?\d*` matches at the start of `t`, the quantifiers
      being greedy: all the leading digits, then, only when a point follows
      them, the point and all the digits after it. */
  ghost predicate MatchesAt(t: string, d: Decimal) {
    var n := |d.whole|;
    d.Valid() && n <= |t| && t[..n] == d.whole && (n == |t| || !IsDigit(t[n]))
    && if n < |t| && t[n] == '.' then
         var m := |d.frac|;
         n + 1 + m <= |t| && t[n + 1..n + 1 + m] == d.frac && (n + 1 + m == |t| || !IsDigit(t[n + 1 + m]))
       else d.frac == []
  }

  /** At most one decimal matches at the start of a text. */
  lemma MatchUnique(t: string, d: Decimal, e: Decimal)
    requires MatchesAt(t, d) && MatchesAt(t, e)
    ensures d == e
  {
    assert |d.whole| == |e.whole|;
    assert d.whole == e.whole;
  }

  /** The match of `\d+\.?\d*` that starts at the beginning of `t`, whose
      first character is a digit. */
  function DecimalAt(t: string): (d: Decimal)
    requires t != [] && IsDigit(t[0])
    ensures MatchesAt(t, d)
  {
    var n := DigitRun(t);
    var rest := t[n..];
    if rest != [] && rest[0] == '.' then
      var m := DigitRun(rest[1..]);
      Decimal(t[..n], rest[1..][..m])
    else Decimal(t[..n], [])
  }

  /** Length of the text `DecimalAt(t)` matches. */
  function DecimalEnd(t: string): (n: nat)
    requires t != [] && IsDigit(t[0])
    ensures 0 < n <= |t|
    ensures n == |t| || !IsDigit(t[n])
  {
    var n := DigitRun(t);
    var rest := t[n..];
    if rest != [] && rest[0] == '.' then
      var m := DigitRun(rest[1..]);
      assert n + 1 + m == |t| || t[n + 1 + m] == rest[1..][m];
      n + 1 + m
    else n
  }

  /** `re.search(r'(\d+\.?\d*)', s)`: the leftmost match, which starts at
      the first digit. */
  function FirstDecimal(s: string): (r: Option<Decimal>)
    ensures r.None? <==> (forall j :: 0 <= j < |s| ==> !IsDigit(s[j]))
    ensures r.Some? ==> MatchesAt(s[FirstDigit(s)..], r.value)
  {
    var i := FirstDigit(s);
    if i == |s| then None else Some(DecimalAt(s[i..]))
  }

  /** A decimal as written: its digits, then the point and the fraction
      when it has one. */
  function DecimalText(d: Decimal): (s: string)
    requires d.Valid()
    ensures s != [] && IsDigit(s[0])
  {
    if d.frac == [] then d.whole else d.whole + "." + d.frac
  }

  /** `after` ends the number written before it: it does not start with a
      digit, nor with a point when the number has no fraction. */
  predicate EndsNumber(d: Decimal, after: string) {
    after == [] || (!IsDigit(after[0]) && (d.frac == [] ==> after[0] != '.'))
  }

  /** A decimal written after text without digits and before text that ends
      it is the first decimal read back. */
  lemma FirstDecimalOfText(before: string, d: Decimal, after: string)
    requires d.Valid()
    requires forall i :: 0 <= i < |before| ==> !IsDigit(before[i])
    requires EndsNumber(d, after)
    ensures FirstDecimal(before + DecimalText(d) + after) == Some(d)
  {
    var t := DecimalText(d) + after;
    assert before + DecimalText(d) + after == before + t;
    FirstDigitAfter(before, t);
    assert (before + t)[|before|..] == t;
    var n := |d.whole|;
    assert t[..n] == d.whole;
    if d.frac != [] {
      assert t[n] == '.';
      assert t[n + 1..n + 1 + |d.frac|] == d.frac;
    }
    assert MatchesAt(t, d);
    MatchUnique(t, d, DecimalAt(t));
  }

  /** Text without digits does not move the first digit. */
  lemma {:induction false} FirstDigitAfter(before: string, t: string)
    requires forall i :: 0 <= i < |before| ==> !IsDigit(before[i])
    ensures FirstDigit(before + t) == |before| + FirstDigit(t)
  {
    if before != [] {
      assert (before + t)[1..] == before[1..] + t;
      FirstDigitAfter(before[1..], t);
    } else {
      assert before + t == t;
    }
  }

  /** A decimal's value is never negative. */
  lemma DecimalNonNegative(d: Decimal)
    requires d.Valid()
    ensures d.Value() >= 0.0
  {
  }

  /** `int(re.search(r'(\d+)', s).group(1))`: the value of the first run of
      digits, `None` when there is no digit. */
  function FirstInt(s: string): (r: Option<nat>)
    ensures r.None? <==> (forall j :: 0 <= j < |s| ==> !IsDigit(s[j]))
  {
    var i := FirstDigit(s);
    if i == |s| then None
    else
      var t := s[i..];
      Some(DigitsValue(t[..DigitRun(t)]))
  }

  // ---------------------------------------------------------------------
  // The JSON object inside a reply

  /** `s[s.find('{'):s.rfind('}') + 1]`, used only when there is a '{' and
      the end lies after it; `None` otherwise. */
  function BraceSlice(s: string): (r: Option<string>)
    ensures r.Some? ==> |r.value| >= 2 && r.value[0] == '{' && r.value[|r.value| - 1] == '}'
  {
    var start := IndexOfChar(s, '{');
    match RFindChar(s, '}')
    case None => None
    case Some(end) => if start < |s| && end + 1 > start then Some(s[start..end + 1]) else None
  }

  /** There is a slice exactly when some '{' comes before some '}'. */
  lemma BraceSliceExists(s: string)
    ensures BraceSlice(s).None? <==> forall i, j :: 0 <= i < j < |s| ==> !(s[i] == '{' && s[j] == '}')
  {
    var start := IndexOfChar(s, '{');
    var end := RFindChar(s, '}');
    if BraceSlice(s).Some? {
      assert s[start] == '{' && s[end.value] == '}';
    }
  }

  /** The slice runs from the first '{' of the text to its last '}'. */
  lemma BraceSliceSpan(s: string)
    requires BraceSlice(s).Some?
    ensures var r := BraceSlice(s).value; var a := IndexOfChar(s, '{');
      && a + |r| <= |s| && s[a..a + |r|] == r
      && (forall k :: 0 <= k < a ==> s[k] != '{')
      && (forall k :: a + |r| <= k < |s| ==> s[k] != '}')
  {
  }

  /** Slicing a slice again changes nothing. */
  lemma BraceSliceIdempotent(s: string)
    requires BraceSlice(s).Some?
    ensures BraceSlice(BraceSlice(s).value) == BraceSlice(s)
  {
    var r := BraceSlice(s).value;
    assert IndexOfChar(r, '{') == 0;
    assert RFindChar(r, '}') == Some(|r| - 1);
    assert r[0..|r|] == r;
  }

  // ---------------------------------------------------------------------
  // Title case

  /** `str.title()` on ASCII text: a letter is upper-cased when it starts a
      run of letters and lower-cased otherwise. */
  function TitleChar(s: string, i: nat): (c: char)
    requires i < |s|
  {
    if !IsLetter(s[i]) then s[i]
    else if i == 0 || !IsLetter(s[i - 1]) then UpperChar(s[i])
    else LowerChar(s[i])
  }

  function TitleCase(s: string): (r: string)
    ensures |r| == |s|
    ensures forall i :: 0 <= i < |s| ==> r[i] == TitleChar(s, i)
  {
    seq(|s|, i requires 0 <= i < |s| => TitleChar(s, i))
  }

  /** Title case keeps which characters are letters, so applying it twice
      is applying it once. */
  lemma TitleCaseIdempotent(s: string)
    ensures TitleCase(TitleCase(s)) == TitleCase(s)
  {
    var t := TitleCase(s);
    forall i | 0 <= i < |s|
      ensures TitleChar(t, i) == t[i]
    {
      assert IsLetter(t[i]) <==> IsLetter(s[i]);
      assert i > 0 ==> (IsLetter(t[i - 1]) <==> IsLetter(s[i - 1]));
    }
  }
}
