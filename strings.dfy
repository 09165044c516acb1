/** The handful of Python string operations the scripts rely on: decimal
    conversion, `str.split`/`str.join`, `strip`, prefix/suffix tests,
    substring search and `str.replace(pat, "")`.  Strings are `seq<char>`. */
module Strings {
  import opened Outcomes

  // ---------------------------------------------------------------------
  // Characters

  predicate IsDigit(c: char) { '0' <= c <= '9' }

  predicate AllDigits(s: string) { forall i | 0 <= i < |s| :: IsDigit(s[i]) }

  /** Python's `str.isspace` restricted to the ASCII range. */
  predicate IsSpace(c: char) {
    c == ' ' || c == '\t' || c == '\n' || c == '\r' || c == '\U{0B}' || c == '\U{0C}'
    || c == '\U{1C}' || c == '\U{1D}' || c == '\U{1E}' || c == '\U{1F}'
  }

  function DigitChar(d: nat): (c: char)
    requires d < 10
    ensures IsDigit(c)
  {
    ['0', '1', '2', '3', '4', '5', '6', '7', '8', '9'][d]
  }

  function DigitValue(c: char): (d: nat)
    requires IsDigit(c)
    ensures d < 10 && DigitChar(d) == c
  {
    (c as int) - ('0' as int)
  }

  // ---------------------------------------------------------------------
  // Decimal numbers: `str(n)` and `int(s)`

  /** The value of a string of decimal digits, most significant first. */
  function DigitsValue(s: string): nat
    requires AllDigits(s)
  {
    if s == [] then 0 else 10 * DigitsValue(s[..|s| - 1]) + DigitValue(s[|s| - 1])
  }

  /** `str(n)` for a non-negative integer. */
  function NatToString(n: nat): (s: string)
    ensures |s| > 0 && AllDigits(s)
  {
    if n < 10 then [DigitChar(n)] else NatToString(n / 10) + [DigitChar(n % 10)]
  }

  lemma {:induction false} NatToStringValue(n: nat)
    ensures DigitsValue(NatToString(n)) == n
  {
    if n >= 10 {
      var s := NatToString(n);
      assert s[..|s| - 1] == NatToString(n / 10);
      NatToStringValue(n / 10);
    }
  }

  /** Decimal digits, where a single `_` may separate two digits (Python's
      digit grouping, as in `1_000`). */
  predicate DigitGroups(s: string)
  {
    && |s| > 0
    && forall i | 0 <= i < |s| ::
         IsDigit(s[i]) || (0 < i < |s| - 1 && s[i] == '_' && IsDigit(s[i - 1]) && IsDigit(s[i + 1]))
  }

  predicate DigitsOrUnderscores(s: string)
  {
    forall i | 0 <= i < |s| :: IsDigit(s[i]) || s[i] == '_'
  }

  /** The value of the digits of `s`, the underscores skipped. */
  function GroupedValue(s: string): nat
    requires DigitsOrUnderscores(s)
  {
    if s == [] then 0
    else if s[|s| - 1] == '_' then GroupedValue(s[..|s| - 1])
    else 10 * GroupedValue(s[..|s| - 1]) + DigitValue(s[|s| - 1])
  }

  /** Without underscores the grouped value is the plain decimal value. */
  lemma {:induction false} GroupedValueOfDigits(s: string)
    requires AllDigits(s)
    ensures DigitsOrUnderscores(s) && GroupedValue(s) == DigitsValue(s)
  {
    if s != [] {
      GroupedValueOfDigits(s[..|s| - 1]);
    }
  }

  /** `int(s)` on an unsigned decimal string: digits, optionally grouped by
      single underscores; any other string raises ValueError. */
  function ParseNat(s: string): (r: Option<nat>)
    ensures r.Some? <==> DigitGroups(s)
    ensures r.Some? ==> DigitsOrUnderscores(s) && r.value == GroupedValue(s)
    ensures |s| > 0 && AllDigits(s) ==> r == Some(DigitsValue(s))
  {
    if |s| > 0 && AllDigits(s) then
      GroupedValueOfDigits(s);
      Some(DigitsValue(s))
    else if DigitGroups(s) then Some(GroupedValue(s))
    else None
  }

  lemma DigitsOrUnderscoresAppend(x: string, b: string)
    requires DigitsOrUnderscores(x) && AllDigits(b)
    ensures DigitsOrUnderscores(x + b)
  {
    forall i | 0 <= i < |x + b| ensures IsDigit((x + b)[i]) || (x + b)[i] == '_' {
      if i >= |x| { assert (x + b)[i] == b[i - |x|]; }
    }
  }

  /** Appending digits shifts the grouped value left by their number. */
  lemma {:induction false} GroupedValueAppend(x: string, b: string)
    requires DigitsOrUnderscores(x) && AllDigits(b)
    ensures DigitsOrUnderscores(x + b)
    ensures GroupedValue(x + b) == GroupedValue(x) * Pow10(|b|) + DigitsValue(b)
  {
    DigitsOrUnderscoresAppend(x, b);
    if b == [] {
      assert x + b == x;
    } else {
      var n := |b| - 1;
      var xb := x + b;
      assert xb[..|xb| - 1] == x + b[..n];
      assert xb[|xb| - 1] == b[n];
      GroupedValueAppend(x, b[..n]);
      ShiftDigit(GroupedValue(x), Pow10(n), DigitsValue(b[..n]), DigitValue(b[n]));
    }
  }

  lemma ShiftDigit(g: nat, p: nat, d: nat, c: nat)
    ensures 10 * (g * p + d) + c == g * (10 * p) + (10 * d + c)
  {
    assert 10 * (g * p) == g * (10 * p);
  }

  function Pow10(n: nat): nat { if n == 0 then 1 else 10 * Pow10(n - 1) }

  /** An underscore between two runs of digits does not change the number:
      `int("1_000") == int("1000")`. */
  lemma UnderscoreIgnored(a: string, b: string)
    requires |a| > 0 && AllDigits(a) && |b| > 0 && AllDigits(b)
    ensures ParseNat(a + "_" + b) == ParseNat(a + b) == Some(DigitsValue(a + b))
  {
    var a_ := a + "_";
    UnderscoreGroups(a, b);
    GroupedValueOfDigits(a);
    assert DigitsOrUnderscores(a_) && GroupedValue(a_) == GroupedValue(a) by {
      assert a_[..|a|] == a;
    }
    GroupedValueAppend(a_, b);
    GroupedValueAppend(a, b);
    GroupedValueOfDigits(a + b);
    assert a + "_" + b == a_ + b;
  }

  lemma UnderscoreGroups(a: string, b: string)
    requires |a| > 0 && AllDigits(a) && |b| > 0 && AllDigits(b)
    ensures DigitGroups(a + "_" + b) && !AllDigits(a + "_" + b)
  {
    var g := a + "_" + b;
    assert g[|a|] == '_';
    forall i | 0 <= i < |g|
      ensures IsDigit(g[i]) || (0 < i < |g| - 1 && g[i] == '_' && IsDigit(g[i - 1]) && IsDigit(g[i + 1]))
    {
      if i < |a| {
        assert g[i] == a[i];
      } else if i == |a| {
        assert g[i - 1] == a[|a| - 1] && g[i + 1] == b[0];
      } else {
        assert g[i] == b[i - |a| - 1];
      }
    }
  }

  /** `int(s)`: an optional sign followed by decimal digits. */
  function ParseInt(s: string): (r: Result<int>)
    ensures r.Ok? ==> |s| > 0
  {
    if |s| > 0 && (s[0] == '-' || s[0] == '+') then
      match ParseNat(s[1..])
      case Some(n) => var v: int := if s[0] == '-' then -(n as int) else n; Ok(v)
      case None => Err(ValueError)
    else
      match ParseNat(s)
      case Some(n) => var v: int := n; Ok(v)
      case None => Err(ValueError)
  }

  /** Python's `int(s)` on a string: surrounding white space is ignored. */
  function PyInt(s: string): (r: Result<int>)
    ensures AllDigits(s) && |s| > 0 ==> r == Ok(DigitsValue(s))
  {
    DigitsNoSpace(s);
    StripNoSpaceIf(s);
    ParseInt(Strip(s))
  }

  /** `int()` reads digits grouped by underscores as the digits alone:
      `int("1_000") == 1000`. */
  lemma PyIntGrouped(s: string)
    requires DigitGroups(s)
    ensures PyInt(s) == Ok(GroupedValue(s))
  {
    DigitsNoSpace(s);
    StripNoSpaceIf(s);
  }

  lemma StripNoSpaceIf(s: string)
    ensures NoSpace(s) ==> Strip(s) == s
  {
    if NoSpace(s) {
      StripNoSpace(s);
    }
  }

  lemma ParseIntOfNatToString(n: nat)
    ensures ParseInt(NatToString(n)) == Ok(n)
  {
    NatToStringValue(n);
  }

  // ---------------------------------------------------------------------
  // Prefixes, suffixes, substrings

  predicate StartsWith(s: string, p: string) { |p| <= |s| && s[..|p|] == p }

  predicate EndsWith(s: string, p: string) { |p| <= |s| && s[|s| - |p|..] == p }

  /** Python's `p in s` for strings. */
  predicate Contains(s: string, p: string)
    decreases |s|
  {
    StartsWith(s, p) || (|s| > 0 && Contains(s[1..], p))
  }

  /** A string ending in `p` contains it. */
  lemma {:induction false} ContainsSuffix(a: string, p: string)
    ensures Contains(a + p, p)
    decreases |a|
  {
    if a == [] {
      assert a + p == p;
    } else {
      assert (a + p)[1..] == a[1..] + p;
      ContainsSuffix(a[1..], p);
    }
  }

  /** A string containing `p` contains its first character. */
  lemma {:induction false} ContainsHead(s: string, p: string)
    requires |p| > 0 && Contains(s, p)
    ensures p[0] in s
    decreases |s|
  {
    if !StartsWith(s, p) {
      ContainsHead(s[1..], p);
    } else {
      assert s[0] == p[0];
    }
  }

  /** A string ending in `p` has `p`'s characters at the same distances
      from the end. */
  lemma SuffixChar(s: string, p: string, k: nat)
    ensures EndsWith(s, p) && k < |p| ==> s[|s| - 1 - k] == p[|p| - 1 - k]
  {
    if EndsWith(s, p) && k < |p| {
      assert s[|s| - 1 - k] == s[|s| - |p|..][|p| - 1 - k];
    }
  }

  /** `s.find(p)`: the first index at which `p` occurs. */
  function Find(s: string, p: string): (r: Option<nat>)
    ensures r.Some? ==> r.value + |p| <= |s| && s[r.value..r.value + |p|] == p
    ensures r.Some? <==> Contains(s, p)
    decreases |s|
  {
    if StartsWith(s, p) then Some(0)
    else if |s| == 0 then None
    else match Find(s[1..], p)
      case Some(i) => Some(i + 1)
      case None => None
  }

  /** `s.replace(pat, "")`: every non-overlapping occurrence, scanned left to right, removed. */
  function Remove(s: string, pat: string): (r: string)
    requires |pat| > 0
    ensures |r| <= |s|
    decreases |s|
  {
    if StartsWith(s, pat) then Remove(s[|pat|..], pat)
    else if s == [] then []
    else [s[0]] + Remove(s[1..], pat)
  }

  /** A string that cannot start an occurrence of `pat` anywhere is left alone,
      and only a trailing copy of `pat` is removed after it. */
  lemma {:induction false} RemoveTrailing(s: string, pat: string)
    requires |pat| > 0 && pat[0] !in s
    ensures Remove(s + pat, pat) == s
    ensures Remove(s, pat) == s
  {
    if s != [] {
      assert (s + pat)[1..] == s[1..] + pat;
      RemoveTrailing(s[1..], pat);
    } else {
      assert pat[|pat|..] == [];
    }
  }

  /** `(pat + s).replace(pat, "")` when `s` cannot start `pat`. */
  lemma RemoveLeading(s: string, pat: string)
    requires |pat| > 0 && pat[0] !in s
    ensures Remove(pat + s, pat) == s
  {
    assert (pat + s)[|pat|..] == s;
    RemoveTrailing(s, pat);
  }

  /** A string without the last character of `pat` holds no occurrence of it. */
  lemma {:induction false} RemoveNoLast(s: string, pat: string)
    requires |pat| > 0 && pat[|pat| - 1] !in s
    ensures Remove(s, pat) == s
    decreases |s|
  {
    if |pat| <= |s| {
      assert s[|pat| - 1] in s;
      assert s[..|pat|][|pat| - 1] != pat[|pat| - 1];
    }
    if s != [] {
      RemoveNoLast(s[1..], pat);
    }
  }

  /** When the last character of `pat` occurs neither in `s` nor earlier in
      `pat`, the `pat` after `s` is the first occurrence. */
  lemma {:induction false} RemoveSingle(s: string, pat: string, t: string)
    requires |pat| > 0 && pat[|pat| - 1] !in s && pat[|pat| - 1] !in pat[..|pat| - 1]
    ensures Remove(s + pat + t, pat) == s + Remove(t, pat)
    decreases |s|
  {
    var u := s + pat + t;
    if s == [] {
      assert u == pat + t && u[|pat|..] == t;
    } else {
      if |pat| - 1 < |s| {
        assert u[|pat| - 1] == s[|pat| - 1];
      } else {
        assert u[|pat| - 1] == pat[..|pat| - 1][|pat| - 1 - |s|];
      }
      assert u[..|pat|][|pat| - 1] != pat[|pat| - 1];
      assert u[1..] == s[1..] + pat + t;
      RemoveSingle(s[1..], pat, t);
    }
  }

  /** The length of the longest prefix of `s` whose characters all satisfy
      `p`: what a greedy regular-expression class `[...]+` consumes. */
  function Span(s: string, p: char -> bool): (n: nat)
    ensures n <= |s|
    ensures forall i | 0 <= i < n :: p(s[i])
    ensures n < |s| ==> !p(s[n])
  {
    if s != [] && p(s[0]) then 1 + Span(s[1..], p) else 0
  }

  lemma {:induction false} SpanOfConcat(a: string, b: string, p: char -> bool)
    requires forall i | 0 <= i < |a| :: p(a[i])
    requires b == [] || !p(b[0])
    ensures Span(a + b, p) == |a|
  {
    if a != [] {
      assert (a + b)[1..] == a[1..] + b;
      SpanOfConcat(a[1..], b, p);
    }
  }

  // ---------------------------------------------------------------------
  // str.split(sep) and sep.join(parts) with a one-character separator

  /** The position of the last `c` in `s`. */
  function LastIndexOf(s: string, c: char): (i: nat)
    requires c in s
    ensures i < |s| && s[i] == c && c !in s[i + 1..]
  {
    if s[|s| - 1] == c then |s| - 1
    else
      assert c in s[..|s| - 1] by {
        var k :| 0 <= k < |s| && s[k] == c;
        assert s[..|s| - 1][k] == c;
      }
      var i := LastIndexOf(s[..|s| - 1], c);
      assert s[i + 1..] == s[..|s| - 1][i + 1..] + [s[|s| - 1]];
      i
  }

  /** The last `c` is the one with no `c` after it. */
  lemma {:induction false} LastIndexOfUnique(s: string, c: char, k: nat)
    requires k < |s| && s[k] == c && c !in s[k + 1..]
    ensures LastIndexOf(s, c) == k
  {
    if k < |s| - 1 {
      assert s[k + 1..][|s| - 1 - (k + 1)] == s[|s| - 1];
      assert s[..|s| - 1][k + 1..] == s[k + 1..|s| - 1];
      LastIndexOfUnique(s[..|s| - 1], c, k);
    }
  }

  function IndexOf(s: string, c: char): (i: nat)
    requires c in s
    ensures i < |s| && s[i] == c && c !in s[..i]
  {
    if s[0] == c then 0 else 1 + IndexOf(s[1..], c)
  }

  /** `s.split(sep)`: never empty; `sep` occurs in no piece. */
  function Split(s: string, sep: char): (parts: seq<string>)
    ensures |parts| > 0
    ensures forall k | 0 <= k < |parts| :: sep !in parts[k]
    decreases |s|
  {
    if sep !in s then [s]
    else
      var i := IndexOf(s, sep);
      [s[..i]] + Split(s[i + 1..], sep)
  }

  /** `sep.join(parts)`. */
  function Join(parts: seq<string>, sep: char): string
    requires |parts| > 0
  {
    if |parts| == 1 then parts[0] else parts[0] + [sep] + Join(parts[1..], sep)
  }

  /** A character that is neither the separator nor in any part is not in the join. */
  lemma {:induction false} JoinExcludes(parts: seq<string>, sep: char, c: char)
    requires |parts| > 0 && c != sep
    requires forall k | 0 <= k < |parts| :: c !in parts[k]
    ensures c !in Join(parts, sep)
  {
    if |parts| > 1 {
      JoinExcludes(parts[1..], sep, c);
    }
  }

  lemma {:induction false} SplitJoin(parts: seq<string>, sep: char)
    requires |parts| > 0
    requires forall k | 0 <= k < |parts| :: sep !in parts[k]
    ensures Split(Join(parts, sep), sep) == parts
  {
    if |parts| > 1 {
      assert sep !in parts[0];
      SplitAtFirst(parts[0], sep, Join(parts[1..], sep));
      SplitJoin(parts[1..], sep);
      assert parts == [parts[0]] + parts[1..];
    }
  }

  /** A join starts with its first part. */
  lemma JoinStartsWith(parts: seq<string>, sep: char)
    requires |parts| > 0
    ensures StartsWith(Join(parts, sep), parts[0])
  {
    if |parts| > 1 {
      var j := Join(parts, sep);
      assert j == parts[0] + ([sep] + Join(parts[1..], sep));
      assert j[..|parts[0]|] == parts[0];
    }
  }

  /** Splitting at a separator that the leading text does not contain peels
      that text off as the first piece. */
  lemma SplitAtFirst(a: string, sep: char, b: string)
    requires sep !in a
    ensures Split(a + [sep] + b, sep) == [a] + Split(b, sep)
  {
    var s := a + [sep] + b;
    assert s[|a|] == sep;
    assert s[..|a|] == a;
    assert s[|a| + 1..] == b;
  }

  /** The first piece of a split is the text before the first separator. */
  lemma SplitHead(s: string, sep: char)
    ensures Split(s, sep)[0] == if sep in s then s[..IndexOf(s, sep)] else s
  {
  }

  // ---------------------------------------------------------------------
  // str.strip() and str.split() without arguments

  function LStrip(s: string): (r: string)
    ensures |r| <= |s|
    ensures r != [] ==> !IsSpace(r[0])
    ensures forall i | 0 <= i < |s| - |r| :: IsSpace(s[i])
  {
    if s != [] && IsSpace(s[0]) then LStrip(s[1..]) else s
  }

  /** What `lstrip` keeps is the rest of `s` after the leading white space.
      (Kept out of LStrip's own contract, where it sends the solver into
      a loop of ever more nested slices.) */
  lemma {:induction false} LStripSuffix(s: string)
    ensures LStrip(s) == s[|s| - |LStrip(s)|..]
  {
    if s != [] && IsSpace(s[0]) {
      LStripSuffix(s[1..]);
    }
  }

  function RStrip(s: string): (r: string)
    ensures |r| <= |s| && r == s[..|r|]
    ensures r != [] ==> !IsSpace(r[|r| - 1])
    ensures forall i | |r| <= i < |s| :: IsSpace(s[i])
  {
    if s != [] && IsSpace(s[|s| - 1]) then RStrip(s[..|s| - 1]) else s
  }

  /** `s.strip()`: an infix of `s` that neither starts nor ends with white space. */
  function Strip(s: string): (r: string)
    ensures |r| <= |s|
    ensures r != [] ==> !IsSpace(r[0]) && !IsSpace(r[|r| - 1])
  {
    RStrip(LStrip(s))
  }

  predicate NoSpace(s: string) { forall i | 0 <= i < |s| :: !IsSpace(s[i]) }

  /** Stripping a string without white space leaves it as it is. */
  lemma StripNoSpace(s: string)
    requires NoSpace(s)
    ensures Strip(s) == s
  {
    assert LStrip(s) == s;
  }

  lemma DigitsExclude(s: string, c: char)
    requires AllDigits(s) && !IsDigit(c)
    ensures c !in s
  {
  }

  lemma DigitsNoSpace(s: string)
    ensures AllDigits(s) ==> NoSpace(s)
    ensures DigitsOrUnderscores(s) ==> NoSpace(s)
  {
  }

  /** The longest prefix of `s` without white space. */
  function TakeWord(s: string): (w: string)
    ensures |w| <= |s| && w == s[..|w|]
    ensures forall i | 0 <= i < |w| :: !IsSpace(w[i])
    ensures |w| < |s| ==> IsSpace(s[|w|])
  {
    if s == [] || IsSpace(s[0]) then [] else [s[0]] + TakeWord(s[1..])
  }

  /** `s.split()`: the maximal runs of non-white-space characters. */
  function Words(s: string): (ws: seq<string>)
    ensures forall k | 0 <= k < |ws| :: ws[k] != []
    decreases |s|
  {
    var t := LStrip(s);
    if t == [] then []
    else
      var w := TakeWord(t);
      [w] + Words(t[|w|..])
  }

  /** The first word of `w + rest` is `w` when `w` has no white space and
      `rest` is empty or starts with some. */
  lemma {:induction false} TakeWordOf(w: string, rest: string)
    requires NoSpace(w) && (rest == [] || IsSpace(rest[0]))
    ensures TakeWord(w + rest) == w
  {
    if w != [] {
      assert (w + rest)[1..] == w[1..] + rest;
      TakeWordOf(w[1..], rest);
    } else {
      assert w + rest == rest;
    }
  }

  /** A leading word is split off whole. */
  lemma WordsOfFirst(w: string, rest: string)
    requires w != [] && NoSpace(w) && (rest == [] || IsSpace(rest[0]))
    ensures Words(w + rest) == [w] + Words(rest)
  {
    var s := w + rest;
    assert s[0] == w[0];
    assert LStrip(s) == s;
    TakeWordOf(w, rest);
    assert s[|w|..] == rest;
  }

  /** White space before a word is skipped. */
  lemma WordsAfterSpace(c: char, rest: string)
    requires IsSpace(c) && (rest == [] || !IsSpace(rest[0]))
    ensures Words([c] + rest) == Words(rest)
  {
    assert ([c] + rest)[1..] == rest;
    assert LStrip([c] + rest) == LStrip(rest) == rest;
  }

  /** `' '.join(words).split() == words` for non-empty words without white space. */
  lemma {:induction false} WordsOfJoin(words: seq<string>)
    requires |words| > 0
    requires forall k | 0 <= k < |words| :: words[k] != [] && NoSpace(words[k])
    ensures Words(Join(words, ' ')) == words
  {
    var w := words[0];
    if |words| == 1 {
      assert w + [] == w;
      WordsOfFirst(w, []);
    } else {
      WordsOfJoin(words[1..]);
      WordsOfJoinCons(words);
      assert words == [w] + words[1..];
    }
  }

  /** Joining splits back off the leading word. */
  lemma WordsOfJoinCons(words: seq<string>)
    requires |words| > 1 && words[0] != [] && NoSpace(words[0])
    requires words[1] != [] && !IsSpace(words[1][0])
    ensures Words(Join(words, ' ')) == [words[0]] + Words(Join(words[1..], ' '))
  {
    var rest := Join(words[1..], ' ');
    assert Join(words, ' ') == words[0] + ([' '] + rest);
    JoinStartsWith(words[1..], ' ');
    WordThenSpace(words[0], rest);
  }

  /** A word, one space, and text that starts with a word. */
  lemma WordThenSpace(w: string, rest: string)
    requires w != [] && NoSpace(w) && rest != [] && !IsSpace(rest[0])
    ensures Words(w + ([' '] + rest)) == [w] + Words(rest)
  {
    WordsOfFirst(w, [' '] + rest);
    WordsAfterSpace(' ', rest);
  }

  // ---------------------------------------------------------------------
  // Multi-character joins and Python slicing

  /** `sep.join(parts)` for a separator of any length; `""` for no parts. */
  function JoinWith(parts: seq<string>, sep: string): string
  {
    if |parts| == 0 then []
    else if |parts| == 1 then parts[0]
    else parts[0] + sep + JoinWith(parts[1..], sep)
  }

  /** Python's `s[:-n]`. */
  function DropLast(s: string, n: nat): (r: string)
    ensures |r| == if |s| >= n then |s| - n else 0
  {
    if |s| >= n then s[..|s| - n] else []
  }

  /** Python's `s[-n:]` for `n > 0`. */
  function TakeLast(s: string, n: nat): (r: string)
    ensures |r| == if |s| >= n then n else |s|
  {
    if |s| >= n then s[|s| - n..] else s
  }

  /** Python's list indexing `s[i]`, negative indices counting from the end. */
  function At<T>(s: seq<T>, i: int): (r: Result<T>)
    ensures r.Ok? <==> -|s| <= i < |s|
  {
    if 0 <= i < |s| then Ok(s[i])
    else if -|s| <= i < 0 then Ok(s[|s| + i])
    else Err(IndexError)
  }

  /** `os.path.basename`: the part after the last '/'. */
  function Basename(path: string): (r: string)
    ensures '/' !in r
    decreases |path|
  {
    if '/' in path then Basename(path[IndexOf(path, '/') + 1..]) else path
  }

  /** The base name of `dir/name` is `name` whenever `name` holds no '/'. */
  lemma {:induction false} BasenameOfPath(dir: string, name: string)
    requires '/' !in name
    ensures Basename(dir + "/" + name) == name
    decreases |dir|
  {
    var s := dir + "/" + name;
    assert s[|dir|] == '/';
    var i := IndexOf(s, '/');
    if '/' in dir {
      var j := IndexOf(dir, '/');
      assert s[j] == '/';
      assert s[i + 1..] == dir[i + 1..] + "/" + name;
      BasenameOfPath(dir[i + 1..], name);
    } else {
      assert s[i + 1..] == name;
    }
  }
}
