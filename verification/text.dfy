/**
 * The Python string operations the parsers rely on: `upper`, `strip`, `in`,
 * `replace`, `split`, `isdigit`, `int`, and the character classes of the
 * regular expressions (`\s`, `\d`, `\w`, `[A-Z]` and the bracketed classes).
 *
 * Characters: `\s` and `strip` use the full `str.isspace` set; `\d` and
 * `isdigit` are ASCII digits; `\w` is ASCII letters, digits, `_` and the
 * Latin-1 letters; `upper` maps ASCII and Latin-1 lower-case letters.
 */
module Text {
  import opened Values

  // ---------------------------------------------------------------- classes

  /** Python `str.isspace`, which is also what `strip`, `split()` and `\s` use. */
  predicate IsSpace(c: char) {
    || ('\t' <= c <= '\r')
    || ('\U{1C}' <= c <= ' ')
    || c == '\U{85}' || c == '\U{A0}' || c == '\U{1680}'
    || ('\U{2000}' <= c <= '\U{200A}')
    || c == '\U{2028}' || c == '\U{2029}' || c == '\U{202F}' || c == '\U{205F}' || c == '\U{3000}'
  }

  /** `\d` */
  predicate IsDigit(c: char) { '0' <= c <= '9' }

  /** `[A-Z]` */
  predicate IsUpper(c: char) { 'A' <= c <= 'Z' }

  predicate IsLatin1Letter(c: char) {
    ('\U{C0}' <= c <= '\U{FF}') && c != '\U{D7}' && c != '\U{F7}'
  }

  /** `\w` */
  predicate IsWordChar(c: char) {
    ('a' <= c <= 'z') || IsUpper(c) || IsDigit(c) || c == '_' || IsLatin1Letter(c)
  }

  /** The character classes that appear in the parsers' patterns. */
  datatype Class =
    | Space          // \s
    | NonSpace       // a token for split()
    | Digit          // \d
    | Letter         // [A-Z]
    | Word           // \w
    | UpperAccented  // [A-ZÑÁÉÍÓÚÜ\-]
    | UpperEnye      // [A-ZÑ\-]
    | UpperEnyeSpace // [A-ZÑ\s\-]

  predicate In(c: char, k: Class) {
    match k
    case Space => IsSpace(c)
    case NonSpace => !IsSpace(c)
    case Digit => IsDigit(c)
    case Letter => IsUpper(c)
    case Word => IsWordChar(c)
    case UpperAccented =>
      IsUpper(c) || c == '-' || c == '\U{D1}' || c == '\U{C1}' || c == '\U{C9}'
      || c == '\U{CD}' || c == '\U{D3}' || c == '\U{DA}' || c == '\U{DC}'
    case UpperEnye => IsUpper(c) || c == '-' || c == '\U{D1}'
    case UpperEnyeSpace => IsUpper(c) || c == '-' || c == '\U{D1}' || IsSpace(c)
  }

  /** End of the maximal run of `k` characters starting at `i` (a greedy `k*`). */
  function Span(s: string, i: nat, k: Class): (j: nat)
    requires i <= |s|
    ensures i <= j <= |s|
    ensures forall m :: i <= m < j ==> In(s[m], k)
    ensures j == |s| || !In(s[j], k)
    decreases |s| - i
  {
    if i < |s| && In(s[i], k) then Span(s, i + 1, k) else i
  }

  /** `$`: the end of the string, or just before a final newline. */
  predicate AtEnd(s: string, j: nat) {
    j == |s| || (j + 1 == |s| && s[j] == '\n')
  }

  // ---------------------------------------------------------------- upper

  function UpperChar(c: char): char {
    if ('a' <= c <= 'z') || ('\U{E0}' <= c <= '\U{FE}' && c != '\U{F7}') then (c as int - 32) as char
    else if c == '\U{FF}' then '\U{178}'
    else if c == '\U{B5}' then '\U{39C}'
    else c
  }

  /** Python `str.upper`. */
  function Upper(s: string): (r: string)
    ensures |r| == |s|
    ensures forall i :: 0 <= i < |s| ==> r[i] == UpperChar(s[i])
  {
    seq(|s|, i requires 0 <= i < |s| => UpperChar(s[i]))
  }

  lemma UpperCharIdempotent(c: char)
    ensures UpperChar(UpperChar(c)) == UpperChar(c)
  {
  }

  lemma UpperCharKeepsSpace(c: char)
    ensures IsSpace(UpperChar(c)) <==> IsSpace(c)
  {
  }

  /** Upper-casing twice changes nothing more. */
  lemma UpperIdempotent(s: string)
    ensures Upper(Upper(s)) == Upper(s)
  {
    forall i | 0 <= i < |s|
      ensures Upper(Upper(s))[i] == Upper(s)[i]
    {
      UpperCharIdempotent(s[i]);
    }
  }

  lemma UpperAppend(a: string, b: string)
    ensures Upper(a + b) == Upper(a) + Upper(b)
  {
  }

  // ---------------------------------------------------------------- strip

  predicate AllSpace(s: string) {
    forall i :: 0 <= i < |s| ==> IsSpace(s[i])
  }

  function LStrip(s: string): (r: string)
    ensures |r| <= |s| && r == s[|s| - |r|..]
    ensures |r| > 0 ==> !IsSpace(r[0])
    ensures AllSpace(s[..|s| - |r|])
  {
    if |s| > 0 && IsSpace(s[0]) then LStrip(s[1..]) else s
  }

  function RStrip(s: string): (r: string)
    ensures |r| <= |s| && r == s[..|r|]
    ensures |r| > 0 ==> !IsSpace(r[|r| - 1])
    ensures AllSpace(s[|r|..])
  {
    if |s| > 0 && IsSpace(s[|s| - 1]) then
      var r := RStrip(s[..|s| - 1]);
      assert s[..|r|] == s[..|s| - 1][..|r|];
      assert s[|r|..] == s[..|s| - 1][|r|..] + [s[|s| - 1]];
      r
    else s
  }

  /** Python `str.strip()`. */
  function Strip(s: string): (r: string)
    ensures |r| <= |s|
    ensures |r| > 0 ==> !IsSpace(r[0]) && !IsSpace(r[|r| - 1])
  {
    RStrip(LStrip(s))
  }

  /** A text that neither starts nor ends with whitespace is its own strip. */
  lemma StripSinBordes(s: string)
    requires |s| > 0 ==> !IsSpace(s[0]) && !IsSpace(s[|s| - 1])
    ensures Strip(s) == s
  {
  }

  lemma {:induction false} LStripUpper(s: string)
    ensures LStrip(Upper(s)) == Upper(LStrip(s))
    decreases |s|
  {
    if |s| > 0 {
      UpperCharKeepsSpace(s[0]);
      if IsSpace(s[0]) {
        LStripUpper(s[1..]);
        assert Upper(s)[1..] == Upper(s[1..]);
      }
    }
  }

  lemma {:induction false} RStripUpper(s: string)
    ensures RStrip(Upper(s)) == Upper(RStrip(s))
    decreases |s|
  {
    if |s| > 0 {
      var u := Upper(s);
      var c := s[|s| - 1];
      assert u[|u| - 1] == UpperChar(c);
      UpperCharKeepsSpace(c);
      if IsSpace(c) {
        assert RStrip(s) == RStrip(s[..|s| - 1]);
        assert RStrip(u) == RStrip(u[..|u| - 1]);
        assert u[..|u| - 1] == Upper(s[..|s| - 1]);
        RStripUpper(s[..|s| - 1]);
      } else {
        assert RStrip(s) == s;
        assert RStrip(u) == u;
      }
    }
  }

  /** Stripping and upper-casing commute. */
  lemma StripUpper(s: string)
    ensures Strip(Upper(s)) == Upper(Strip(s))
  {
    LStripUpper(s);
    RStripUpper(LStrip(s));
  }

  lemma {:induction false} LStripSpacePrefix(p: string, x: string)
    requires AllSpace(p)
    ensures LStrip(p + x) == LStrip(x)
    decreases |p|
  {
    if |p| > 0 {
      assert (p + x)[1..] == p[1..] + x;
      LStripSpacePrefix(p[1..], x);
    } else {
      assert p + x == x;
    }
  }

  lemma {:induction false} RStripSpaceSuffix(x: string, q: string)
    requires AllSpace(q)
    ensures RStrip(x + q) == RStrip(x)
    decreases |q|
  {
    if |q| > 0 {
      assert (x + q)[..|x + q| - 1] == x + q[..|q| - 1];
      RStripSpaceSuffix(x, q[..|q| - 1]);
    } else {
      assert x + q == x;
    }
  }

  lemma {:induction false} LStripAppend(x: string, q: string)
    ensures LStrip(x) != "" ==> LStrip(x + q) == LStrip(x) + q
    ensures LStrip(x) == "" ==> LStrip(x + q) == LStrip(q)
    decreases |x|
  {
    if |x| == 0 {
      assert x + q == q;
    } else if IsSpace(x[0]) {
      assert (x + q)[1..] == x[1..] + q;
      LStripAppend(x[1..], q);
    } else {
      assert (x + q)[0] == x[0];
    }
  }

  lemma RStripOfAllSpace(s: string)
    requires AllSpace(s)
    ensures RStrip(s) == ""
  {
  }

  /** Leading and trailing whitespace do not change what `strip` returns. */
  lemma StripPadding(p: string, x: string, q: string)
    requires AllSpace(p) && AllSpace(q)
    ensures Strip(p + x + q) == Strip(x)
  {
    assert p + x + q == p + (x + q);
    LStripSpacePrefix(p, x + q);
    LStripAppend(x, q);
    if LStrip(x) != "" {
      RStripSpaceSuffix(LStrip(x), q);
    } else {
      var l := LStrip(q);
      assert AllSpace(l);
      RStripOfAllSpace(l);
    }
  }

  /** Stripping what a left strip leaves gives what stripping the whole gives. */
  lemma StripDeLStrip(s: string)
    ensures Strip(LStrip(s)) == Strip(s)
  {
    var l := LStrip(s);
    var p := s[..|s| - |l|];
    assert p + l + "" == s;
    StripPadding(p, l, "");
  }

  /** Stripping what a right strip leaves gives what stripping the whole gives. */
  lemma StripDeRStrip(s: string)
    ensures Strip(RStrip(s)) == Strip(s)
  {
    var r := RStrip(s);
    var q := s[|r|..];
    assert "" + r + q == s;
    StripPadding("", r, q);
  }

  /** Text after a non-space character is right-stripped on its own. */
  lemma {:induction false} RStripTrasNoEspacio(x: string, y: string)
    requires |x| > 0 && !IsSpace(x[|x| - 1])
    ensures RStrip(x + y) == x + RStrip(y)
    decreases |y|
  {
    if |y| == 0 {
      assert x + y == x;
    } else if IsSpace(y[|y| - 1]) {
      assert (x + y)[..|x + y| - 1] == x + y[..|y| - 1];
      RStripTrasNoEspacio(x, y[..|y| - 1]);
    } else {
      assert (x + y)[|x + y| - 1] == y[|y| - 1];
    }
  }

  /**
   * Around the first occurrence of a non-space character `c`, `strip` only
   * touches the outer ends: the left part loses its leading whitespace and
   * the right part its trailing whitespace.
   */
  lemma StripSeparador(x: string, c: char, y: string)
    requires !IsSpace(c) && c !in x
    ensures c !in LStrip(x)
    ensures Strip(x + [c] + y) == LStrip(x) + [c] + RStrip(y)
  {
    LStripSinCaracter(x, c);
    LStripSeparador(x, c, y);
    RStripTrasNoEspacio(LStrip(x) + [c], y);
  }

  /** Left-stripping a text that a non-space `c` interrupts only strips the part before `c`. */
  lemma LStripSeparador(x: string, c: char, y: string)
    requires !IsSpace(c)
    ensures LStrip(x + [c] + y) == LStrip(x) + [c] + y
  {
    assert x + [c] + y == x + ([c] + y);
    LStripAppend(x, [c] + y);
    if LStrip(x) == "" {
      assert LStrip([c] + y) == [c] + y;
    }
  }

  lemma LStripSinCaracter(x: string, c: char)
    requires c !in x
    ensures c !in LStrip(x)
  {
    var l := LStrip(x);
    forall i | 0 <= i < |l|
      ensures l[i] != c
    {
      assert l[i] == x[|x| - |l| + i];
    }
  }

  /** A character missing from a text is missing from its strip. */
  lemma StripSinCaracter(s: string, c: char)
    requires c !in s
    ensures c !in Strip(s)
  {
    var l := LStrip(s);
    var r := RStrip(l);
    LStripSinCaracter(s, c);
    forall i | 0 <= i < |r|
      ensures r[i] != c
    {
      assert r[i] == l[i];
    }
  }

  /** The normalisation every parser applies first: `s.upper().strip()`. */
  function Norm(s: string): string {
    Strip(Upper(s))
  }

  /** `Norm` ignores case and outer whitespace. */
  lemma NormInsensitive(s: string, p: string, q: string)
    requires AllSpace(p) && AllSpace(q)
    ensures Norm(Upper(s)) == Norm(s)
    ensures Norm(p + s + q) == Norm(s)
  {
    UpperIdempotent(s);
    UpperAppend(p + s, q);
    UpperAppend(p, s);
    assert AllSpace(Upper(p)) by {
      forall i | 0 <= i < |p| ensures IsSpace(Upper(p)[i]) {
        UpperCharKeepsSpace(p[i]);
      }
    }
    assert AllSpace(Upper(q)) by {
      forall i | 0 <= i < |q| ensures IsSpace(Upper(q)[i]) {
        UpperCharKeepsSpace(q[i]);
      }
    }
    StripPadding(Upper(p), Upper(s), Upper(q));
  }

  // ---------------------------------------------------------------- search

  /** `w` occurs in `s` at position `i`. */
  predicate At(s: string, i: nat, w: string) {
    i + |w| <= |s| && s[i..i + |w|] == w
  }

  /** `s.find(w, i)`: the first occurrence of `w` at or after `i`. */
  function FindFrom(s: string, w: string, i: nat): (r: Option<nat>)
    ensures r.Some? ==> i <= r.value && At(s, r.value, w)
    ensures r.Some? ==> forall k :: i <= k < r.value ==> !At(s, k, w)
    ensures r.None? ==> forall k :: i <= k ==> !At(s, k, w)
    decreases |s| + 1 - i
  {
    if i + |w| > |s| then None
    else if s[i..i + |w|] == w then Some(i)
    else FindFrom(s, w, i + 1)
  }

  /** Python `w in s`. */
  predicate Contains(s: string, w: string) {
    FindFrom(s, w, 0).Some?
  }

  /** `Contains` agrees with the existence of an occurrence. */
  lemma ContainsIff(s: string, w: string)
    ensures Contains(s, w) <==> exists k :: At(s, k, w)
  {
    var r := FindFrom(s, w, 0);
    if r.Some? {
      assert At(s, r.value, w);
    }
  }

  lemma ContainsAt(s: string, k: nat, w: string)
    requires At(s, k, w)
    ensures Contains(s, w)
  {
    ContainsIff(s, w);
  }

  /** A text that contains `u` contains every piece of `u`. */
  lemma ContainsTrans(s: string, u: string, w: string)
    requires Contains(s, u) && Contains(u, w)
    ensures Contains(s, w)
  {
    var i := FindFrom(s, u, 0).value;
    var j := FindFrom(u, w, 0).value;
    assert At(s, i, u) && At(u, j, w);
    forall k | 0 <= k < |w|
      ensures s[i + j + k] == w[k]
    {
      assert s[i..i + |u|][j + k] == u[j + k];
      assert u[j..j + |w|][k] == w[k];
    }
    assert s[i + j..i + j + |w|] == w;
    ContainsAt(s, i + j, w);
  }

  lemma ContainsSelf(s: string)
    ensures Contains(s, s)
  {
    ContainsAt(s, 0, s);
  }

  /** A piece of a concatenation occurs in it. */
  lemma ContainsPiece(a: string, w: string, b: string)
    ensures Contains(a + w + b, w)
  {
    assert (a + w + b)[|a|..|a| + |w|] == w;
    ContainsAt(a + w + b, |a|, w);
  }

  /** A word holding a character the text lacks never occurs in it. */
  lemma SinCaracter(s: string, w: string, k: nat)
    requires k < |w| && forall i :: 0 <= i < |s| ==> s[i] != w[k]
    ensures !Contains(s, w)
  {
    forall i: nat ensures !At(s, i, w) {
      if i + |w| <= |s| {
        assert s[i..i + |w|][k] == s[i + k] != w[k];
      }
    }
    ContainsIff(s, w);
  }

  /** A longer pattern never occurs. */
  lemma NotContainsLonger(s: string, w: string)
    requires |w| > |s|
    ensures !Contains(s, w)
  {
  }

  /** A pattern with a character the text lacks never occurs. */
  lemma NotContainsByChar(s: string, w: string, c: char)
    requires c in w && c !in s
    ensures !Contains(s, w)
  {
  }

  /** A one-character pattern occurs exactly where that character stands. */
  lemma AtChar(s: string, c: char)
    ensures forall k: nat :: At(s, k, [c]) <==> k < |s| && s[k] == c
  {
    forall k: nat | k < |s| && s[k] == c ensures At(s, k, [c]) {
      assert s[k..k + 1] == [c];
    }
  }

  /** `w` occurs at `i` and in no earlier position. */
  predicate FirstAt(s: string, i: nat, w: string) {
    At(s, i, w) && forall k :: 0 <= k < i ==> !At(s, k, w)
  }

  // ---------------------------------------------------------------- rewrite

  /** Python `s.replace(pat, rep)`: every non-overlapping occurrence, left to right. */
  function Replace(s: string, pat: string, rep: string): (r: string)
    requires |pat| > 0
    decreases |s|
  {
    if |s| < |pat| then s
    else if s[..|pat|] == pat then rep + Replace(s[|pat|..], pat, rep)
    else [s[0]] + Replace(s[1..], pat, rep)
  }

  /** Replacing a pattern that does not occur changes nothing. */
  lemma {:induction false} ReplaceAbsent(s: string, pat: string, rep: string)
    requires |pat| > 0 && !Contains(s, pat)
    ensures Replace(s, pat, rep) == s
    decreases |s|
  {
    if |s| >= |pat| {
      assert !At(s, 0, pat);
      if !Contains(s[1..], pat) {
        ReplaceAbsent(s[1..], pat, rep);
      } else {
        var k := FindFrom(s[1..], pat, 0).value;
        assert s[k + 1..k + 1 + |pat|] == s[1..][k..k + |pat|];
        ContainsAt(s, k + 1, pat);
      }
    }
  }

  /** Replacing a single character by text without it removes that character. */
  lemma {:induction false} ReplaceRemovesChar(s: string, c: char, rep: string)
    requires c !in rep
    ensures c !in Replace(s, [c], rep)
    decreases |s|
  {
    if |s| >= 1 {
      ReplaceRemovesChar(s[1..], c, rep);
    }
  }

  /** `re.sub(r'"+', "", s)`: every double quote removed. */
  function RemoveChar(s: string, c: char): (r: string)
    ensures c !in r
    ensures |r| <= |s|
    ensures c !in s ==> r == s
  {
    if |s| == 0 then ""
    else if s[0] == c then RemoveChar(s[1..], c)
    else [s[0]] + RemoveChar(s[1..], c)
  }

  /** `re.sub(r'\s+', ' ', s)`: each whitespace run becomes one space. */
  function CollapseSpaces(s: string): (r: string)
    ensures |r| <= |s|
    decreases |s|
  {
    if |s| == 0 then ""
    else if IsSpace(s[0]) then " " + CollapseSpaces(s[Span(s, 0, Space)..])
    else [s[0]] + CollapseSpaces(s[1..])
  }

  // ---------------------------------------------------------------- split

  /** Python `s.split(sep)` for a one-character separator. */
  function SplitOn(s: string, sep: char): (parts: seq<string>)
    ensures |parts| >= 1
    ensures forall p :: p in parts ==> sep !in p
    decreases |s|
  {
    AtChar(s, sep);
    match FindFrom(s, [sep], 0)
    case None => [s]
    case Some(i) => [s[..i]] + SplitOn(s[i + 1..], sep)
  }

  function Join(parts: seq<string>, sep: char): string
    requires |parts| >= 1
  {
    if |parts| == 1 then parts[0] else parts[0] + [sep] + Join(parts[1..], sep)
  }

  /** Splitting and joining again gives back the text. */
  lemma {:induction false} SplitJoin(s: string, sep: char)
    ensures Join(SplitOn(s, sep), sep) == s
    decreases |s|
  {
    match FindFrom(s, [sep], 0)
    case None =>
    case Some(i) =>
      assert s[i..i + 1] == [sep];
      SplitJoin(s[i + 1..], sep);
      assert s == s[..i] + [sep] + s[i + 1..];
  }

  /** Joining pieces free of the separator and splitting again gives the pieces back. */
  lemma {:induction false} SplitOnJoin(parts: seq<string>, sep: char)
    requires |parts| >= 1
    requires forall i :: 0 <= i < |parts| ==> sep !in parts[i]
    ensures SplitOn(Join(parts, sep), sep) == parts
    decreases |parts|
  {
    if |parts| == 1 {
      SplitOnSin(parts[0], sep);
    } else {
      SplitOnJoin(parts[1..], sep);
      SplitOnPaso(parts[0], sep, Join(parts[1..], sep));
    }
  }

  lemma SplitOnSin(a: string, sep: char)
    requires sep !in a
    ensures SplitOn(a, sep) == [a]
  {
    assert SplitFirst(a, sep).None?;
  }

  /** Splitting reads the text up to the first separator, then splits the rest. */
  lemma SplitOnPaso(a: string, sep: char, b: string)
    requires sep !in a
    ensures SplitOn(a + [sep] + b, sep) == [a] + SplitOn(b, sep)
  {
    SplitFirstIda(a, sep, b);
  }

  /** The text before and after the first `sep`, as in `s.split(sep, 1)`. */
  function SplitFirst(s: string, sep: char): (r: Option<(string, string)>)
    ensures r.None? <==> sep !in s
    ensures r.Some? ==> s == r.value.0 + [sep] + r.value.1 && sep !in r.value.0
  {
    AtChar(s, sep);
    match FindFrom(s, [sep], 0)
    case None => None
    case Some(i) => Some((s[..i], s[i + 1..]))
  }

  /** Splitting a text at a separator its first part does not hold gives the two parts back. */
  lemma SplitFirstIda(a: string, sep: char, b: string)
    requires sep !in a
    ensures SplitFirst(a + [sep] + b, sep) == Some((a, b))
  {
    var s := a + [sep] + b;
    AtChar(s, sep);
    assert s[|a|] == sep;
    forall k | 0 <= k < |a|
      ensures !At(s, k, [sep])
    {
      assert s[k] == a[k];
    }
    assert FindFrom(s, [sep], 0) == Some(|a|);
    assert s[..|a|] == a && s[|a| + 1..] == b;
  }

  /** `s.split()[0]`, or `None` where Python raises `IndexError`. */
  function FirstToken(s: string): (r: Option<string>)
    ensures r.None? <==> AllSpace(s)
    ensures r.Some? ==> |r.value| > 0 && forall i :: 0 <= i < |r.value| ==> !IsSpace(r.value[i])
  {
    var a := Span(s, 0, Space);
    if a == |s| then None else Some(s[a..Span(s, a, NonSpace)])
  }

  /** `s.split(w)[1]`: what follows the first `w`, up to the next one. */
  function AfterFirst(s: string, w: string): string
    requires |w| > 0 && Contains(s, w)
  {
    var i := FindFrom(s, w, 0).value;
    var rest := s[i + |w|..];
    match FindFrom(rest, w, 0)
    case None => rest
    case Some(j) => rest[..j]
  }

  // ---------------------------------------------------------------- numbers

  /** Python `str.isdigit` over ASCII. */
  predicate IsDigits(s: string) {
    |s| > 0 && forall i :: 0 <= i < |s| ==> IsDigit(s[i])
  }

  function DigitValue(c: char): nat
    requires IsDigit(c)
  {
    c as int - '0' as int
  }

  /** The number a string of decimal digits denotes. */
  function DigitsValue(s: string): nat
    requires forall i :: 0 <= i < |s| ==> IsDigit(s[i])
  {
    if |s| == 0 then 0 else DigitsValue(s[..|s| - 1]) * 10 + DigitValue(s[|s| - 1])
  }

  /** Python `int(s)`: surrounding whitespace, an optional sign, then digits; `None` where Python raises. */
  function ParseInt(s: string): Option<int> {
    var t := Strip(s);
    if |t| > 0 && (t[0] == '-' || t[0] == '+') then
      if IsDigits(t[1..]) then Some(if t[0] == '-' then -(DigitsValue(t[1..]) as int) else DigitsValue(t[1..]))
      else None
    else if IsDigits(t) then Some(DigitsValue(t))
    else None
  }

  /** The digit string of a small number, the inverse of `DigitsValue`. */
  function NatToString(n: nat): (r: string)
    ensures IsDigits(r)
    ensures DigitsValue(r) == n
  {
    if n < 10 then [('0' as int + n) as char]
    else
      var r := NatToString(n / 10) + [('0' as int + n % 10) as char];
      assert r[..|r| - 1] == NatToString(n / 10);
      r
  }
}
