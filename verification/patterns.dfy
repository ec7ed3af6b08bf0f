/**
 * Every regular expression the parsers use, each as its own hand-written
 * matcher. A matcher `f(s, p)` tries its pattern anchored at position `p`,
 * as Python's `re` would, including its backtracking; `Search` is
 * `re.search` (the leftmost position that matches).
 *
 * In the comments `\s`, `\d`, `\w` and `[A-Z]` mean the classes of the Text
 * module. A greedy run followed by a token of a disjoint class can only end
 * at its maximal end, so it is a `Span`; where the following token overlaps
 * the run (`\w+` then `\d`, `[A-Z]+` then `[A-Z]`), `Descend` tries the run
 * ends from the longest to the shortest, as the regex engine does.
 */
module Patterns {
  import opened Values
  import opened Text

  /** The groups of a successful match and the position where it ended. */
  datatype Match = Match(end: nat, groups: seq<string>)

  // ---------------------------------------------------------------- shapes

  /** What a captured group can look like. */
  datatype Shape =
    | Letters | Digits | OneDigit | OneLetter | AOrB | OptLetter | OptDigit | OptDigits
    | WordRun | LetterOrDigit | RunOf(k: Class) | LetterPair | Keyword

  predicate AllIn(g: string, k: Class) {
    forall i :: 0 <= i < |g| ==> In(g[i], k)
  }

  predicate Fits(g: string, sh: Shape) {
    match sh
    case Letters => |g| > 0 && AllIn(g, Letter)
    case Digits => |g| > 0 && AllIn(g, Digit)
    case OneDigit => |g| == 1 && AllIn(g, Digit)
    case OneLetter => |g| == 1 && AllIn(g, Letter)
    case AOrB => g == "A" || g == "B"
    case OptLetter => |g| <= 1 && AllIn(g, Letter)
    case OptDigit => |g| <= 1 && AllIn(g, Digit)
    case OptDigits => AllIn(g, Digit)
    case WordRun => |g| > 0 && AllIn(g, Word)
    case LetterOrDigit => |g| == 1 && (IsUpper(g[0]) || IsDigit(g[0]))
    case RunOf(k) => |g| > 0 && AllIn(g, k)
    case LetterPair =>
      || (|g| == 1 && IsUpper(g[0]))
      || (|g| == 3 && IsUpper(g[0]) && g[1] == '-' && IsUpper(g[2]))
    case Keyword => g == "CUARTOS DE FINAL" || g == "SEMIFINAL" || g == "FINAL"
  }

  predicate FitsAll(gs: seq<string>, shs: seq<Shape>) {
    |gs| == |shs| && forall i :: 0 <= i < |gs| ==> Fits(gs[i], shs[i])
  }

  lemma SliceIn(s: string, i: nat, j: nat, k: Class)
    requires i <= j <= |s|
    requires forall m :: i <= m < j ==> In(s[m], k)
    ensures AllIn(s[i..j], k)
  {
    assert forall m :: 0 <= m < j - i ==> s[i..j][m] == s[i + m];
  }

  /** One character of a class, cut out. */
  lemma UnCaracter(s: string, j: nat, k: Class)
    ensures j < |s| && In(s[j], k) ==> |s[j..j + 1]| == 1 && AllIn(s[j..j + 1], k)
  {
  }

  lemma AoBCorte(s: string, b: nat)
    ensures CharAt(s, b, 'A') || CharAt(s, b, 'B') ==> Fits(s[b..b + 1], AOrB)
  {
    if CharAt(s, b, 'A') || CharAt(s, b, 'B') {
      assert s[b..b + 1] == [s[b]];
    }
  }

  /** A non-empty cut of one class fits a run of it. */
  lemma RunFits(s: string, d: nat, k: nat, cls: Class)
    ensures d < k <= |s| && AllIn(s[d..k], cls) ==> Fits(s[d..k], RunOf(cls))
  {
  }

  lemma WordFits(s: string, d: nat, k: nat)
    ensures d < k <= |s| && AllIn(s[d..k], Word) ==> Fits(s[d..k], WordRun)
  {
  }

  /** The one group a tail captured. */
  lemma TailFits1(t: Option<(nat, seq<string>)>, e: nat, gs: seq<string>, sh: Shape)
    ensures t == Some((e, gs)) && FitsAll(gs, [sh]) ==> |gs| == 1 && Fits(gs[0], sh)
  {
  }

  /** The captured groups of a match, one by one. */
  lemma Grupos2(gs: seq<string>, a: Shape, b: Shape)
    ensures FitsAll(gs, [a, b]) ==> |gs| == 2 && Fits(gs[0], a) && Fits(gs[1], b)
  {
  }

  lemma Grupos3(gs: seq<string>, a: Shape, b: Shape, c: Shape)
    ensures FitsAll(gs, [a, b, c]) ==> |gs| == 3 && Fits(gs[0], a) && Fits(gs[1], b) && Fits(gs[2], c)
  {
  }

  lemma Grupos4(gs: seq<string>, a: Shape, b: Shape, c: Shape, d: Shape)
    ensures FitsAll(gs, [a, b, c, d]) ==> |gs| == 4 && Fits(gs[0], a) && Fits(gs[1], b) && Fits(gs[2], c) && Fits(gs[3], d)
  {
  }

  lemma Fits2(a: string, b: string, sa: Shape, sb: Shape)
    requires Fits(a, sa) && Fits(b, sb)
    ensures FitsAll([a, b], [sa, sb])
  {
  }

  lemma Fits3(a: string, b: string, c: string, sa: Shape, sb: Shape, sc: Shape)
    requires Fits(a, sa) && Fits(b, sb) && Fits(c, sc)
    ensures FitsAll([a, b, c], [sa, sb, sc])
  {
  }

  lemma Fits4(a: string, b: string, c: string, d: string, sa: Shape, sb: Shape, sc: Shape, sd: Shape)
    requires Fits(a, sa) && Fits(b, sb) && Fits(c, sc) && Fits(d, sd)
    ensures FitsAll([a, b, c, d], [sa, sb, sc, sd])
  {
  }

  /** A captured run of capitals or digits is never one of the mixed-case sentinels. */
  lemma NoEsCentinela(g: string)
    requires Fits(g, Letters) || Fits(g, Digits) || Fits(g, OneDigit) || Fits(g, OneLetter)
    ensures g != "Desc" && g != DESCONOCIDA && g != DESCONOCIDO
  {
    if |g| > 1 {
      assert In(g[1], Letter) || In(g[1], Digit);
      assert "Desc"[1] == DESCONOCIDA[1] == DESCONOCIDO[1] == 'e';
    }
  }

  // ---------------------------------------------------------------- tokens

  predicate DigitAt(s: string, i: nat) { i < |s| && IsDigit(s[i]) }
  predicate UpperAt(s: string, i: nat) { i < |s| && IsUpper(s[i]) }
  predicate CharAt(s: string, i: nat, c: char) { i < |s| && s[i] == c }

  /** `'` or `”`, the quotes of the 2024 patterns. */
  predicate IsQuote(c: char) { c == '\'' || c == '\U{201D}' }
  /** `"` or `”`, the quotes of the 2023 regular-phase pattern. */
  predicate IsDoubleQuote(c: char) { c == '"' || c == '\U{201D}' }

  function Sp(s: string, i: nat): (j: nat)
    requires i <= |s|
    ensures i <= j <= |s|
  {
    Span(s, i, Space)
  }

  /** Maximal run of the character `c` from `i`. */
  function SpanChar(s: string, i: nat, c: char): (j: nat)
    requires i <= |s|
    ensures i <= j <= |s|
    decreases |s| - i
  {
    if i < |s| && s[i] == c then SpanChar(s, i + 1, c) else i
  }

  /**
   * A single letter, optionally behind the quote `q`, followed by an
   * optional `q` and the end: the tail `q? ([A-Z]) q? $`.
   * Returns the letter.
   */
  function QuotedLetterAtEnd(s: string, i: nat, anyQuote: bool): (r: Option<string>)
    ensures r.Some? ==> Fits(r.value, OneLetter)
  {
    var j := if i < |s| && IsEndQuote(s[i], anyQuote) then i + 1 else i;
    if UpperAt(s, j) then
      var e := j + 1;
      if AtEnd(s, e) || (e < |s| && IsEndQuote(s[e], anyQuote) && AtEnd(s, e + 1)) then Some(s[j..j + 1]) else None
    else None
  }

  /** `['”]` when `anyQuote`, else `"` alone. */
  predicate IsEndQuote(c: char, anyQuote: bool) {
    if anyQuote then IsQuote(c) else c == '"'
  }

  // ---------------------------------------------------------------- backtracking

  /**
   * What follows a run that may have to give characters back: anchored at
   * `k`, where it ends and what it captures.
   */
  type Tail = (string, nat) -> Option<(nat, seq<string>)>

  // \s* (\d) ([A-Z])?
  function TDigitOptLetterAt(s: string, k: nat): (r: Option<(nat, seq<string>)>)
    ensures r.Some? ==> k <= r.value.0 <= |s| && FitsAll(r.value.1, [OneDigit, OptLetter])
  {
    if k > |s| then None else
    var j := Sp(s, k);
    if DigitAt(s, j) then
      UnCaracter(s, j, Digit);
      if UpperAt(s, j + 1) then
        UnCaracter(s, j + 1, Letter);
        Fits2(s[j..j + 1], s[j + 1..j + 2], OneDigit, OptLetter);
        Some((j + 2, [s[j..j + 1], s[j + 1..j + 2]]))
      else
        Fits2(s[j..j + 1], "", OneDigit, OptLetter);
        Some((j + 1, [s[j..j + 1], ""]))
    else None
  }

  // \s* ZONA \s+ ([A-Z]+)
  function TZonaAt(s: string, k: nat): (r: Option<(nat, seq<string>)>)
    ensures r.Some? ==> k <= r.value.0 <= |s| && FitsAll(r.value.1, [Letters])
  {
    if k > |s| then None else
    var j := Sp(s, k);
    if At(s, j, "ZONA") then
      var m := Sp(s, j + 4);
      var e := Span(s, m, Letter);
      if m > j + 4 && e > m then Some((e, [s[m..e]])) else None
    else None
  }

  // \s* ['”]? ([A-Z\d]) ['”]?
  function TLetterOrDigitAt(s: string, k: nat): (r: Option<(nat, seq<string>)>)
    ensures r.Some? ==> k <= r.value.0 <= |s| && FitsAll(r.value.1, [LetterOrDigit])
  {
    if k > |s| then None else
    var j := Sp(s, k);
    var q := if j < |s| && IsQuote(s[j]) then j + 1 else j;
    if UpperAt(s, q) || DigitAt(s, q) then
      Some((if q + 1 < |s| && IsQuote(s[q + 1]) then q + 2 else q + 1, [s[q..q + 1]]))
    else None
  }

  // \s* (LFF)? \s* "? ([A-Z]) "? $
  function TLffLetterEndAt(s: string, k: nat): (r: Option<(nat, seq<string>)>)
    ensures r.Some? ==> k <= r.value.0 <= |s| && FitsAll(r.value.1, [OneLetter])
  {
    if k > |s| then None else
    var j := Sp(s, k);
    var f := if At(s, j, "LFF") then Sp(s, j + 3) else j;
    match QuotedLetterAtEnd(s, f, false)
    case Some(g) => Some((|s|, [g]))
    case None => None
  }

  // \s* UNICA
  function TUnicaAt(s: string, k: nat): (r: Option<(nat, seq<string>)>)
    ensures r.Some? ==> k <= r.value.0 <= |s| && FitsAll(r.value.1, [])
  {
    if k > |s| then None else
    var j := Sp(s, k);
    if At(s, j, "UNICA") then Some((j + 5, [])) else None
  }

  // \s* ([A-Z]) - ([A-Z])
  function TLetterDashLetterAt(s: string, k: nat): (r: Option<(nat, seq<string>)>)
    ensures r.Some? ==> k <= r.value.0 <= |s| && FitsAll(r.value.1, [OneLetter, OneLetter])
  {
    if k > |s| then None else
    var j := Sp(s, k);
    if UpperAt(s, j) && CharAt(s, j + 1, '-') && UpperAt(s, j + 2) then
      Some((j + 3, [s[j..j + 1], s[j + 2..j + 3]]))
    else None
  }

  /**
   * Greedy backtracking of a run that started at `lo` and can reach `k`:
   * the LONGEST run end in `lo+1..k` after which the tail matches.
   */
  function Descend(s: string, lo: nat, k: nat, cls: Class, tail: Tail): (r: Option<(nat, nat, seq<string>)>)
    requires lo < k <= |s|
    requires forall m :: lo <= m < k ==> In(s[m], cls)
    ensures r.Some? ==> lo < r.value.0 <= k && tail(s, r.value.0) == Some((r.value.1, r.value.2))
    ensures r.Some? ==> AllIn(s[lo..r.value.0], cls)
    ensures r.Some? ==> forall m :: r.value.0 < m <= k ==> tail(s, m).None?
    ensures r.None? ==> forall m :: lo < m <= k ==> tail(s, m).None?
    decreases k
  {
    var here := tail(s, k);
    if here.Some? then
      SliceIn(s, lo, k, cls);
      Some((k, here.value.0, here.value.1))
    else if k - 1 > lo then Descend(s, lo, k - 1, cls, tail)
    else None
  }

  /**
   * The lazy `([A-ZÑ\s\-]+?) \s* (\d+) $`: the SHORTEST first group from `lo`
   * (at least `k - lo` characters) after which spaces and a digit run reach the end.
   */
  function Ascend(s: string, lo: nat, k: nat): (r: Option<(nat, nat, nat)>)
    requires lo < k <= |s| + 1
    requires AllIn(s[lo..k - 1], UpperEnyeSpace)
    ensures r.Some? ==> var (e, a, b) := r.value;
      k <= e <= a < b <= |s| && AllIn(s[lo..e], UpperEnyeSpace) && AllIn(s[a..b], Digit) && AtEnd(s, b)
    decreases |s| + 1 - k
  {
    if k > |s| || !In(s[k - 1], UpperEnyeSpace) then None
    else
      assert AllIn(s[lo..k], UpperEnyeSpace) by {
        assert forall i :: 0 <= i < k - lo ==> s[lo..k][i] == s[lo + i];
      }
      var a := Sp(s, k);
      var b := Span(s, a, Digit);
      if b > a && AtEnd(s, b) then
        SliceIn(s, a, b, Digit);
        Some((k, a, b))
      else Ascend(s, lo, k + 1)
  }

  // ---------------------------------------------------------------- matchers

  /** A match result that ends inside the text and whose groups have the given shapes. */
  predicate Ok(s: string, p: nat, r: Option<Match>, shs: seq<Shape>) {
    r.Some? ==> p <= r.value.end <= |s| && FitsAll(r.value.groups, shs)
  }

  /** Position after the literal `w` at `p`. */
  function Lit(s: string, p: nat, w: string): (r: Option<nat>)
    ensures r.Some? <==> At(s, p, w)
    ensures r.Some? ==> r.value == p + |w| <= |s|
  {
    if At(s, p, w) then Some(p + |w|) else None
  }

  /** A run of class `k` from `i` that stops at `j` is the span from `i`. */
  lemma SpanHasta(s: string, i: nat, j: nat, k: Class)
    requires i <= j <= |s|
    requires forall m :: i <= m < j ==> In(s[m], k)
    requires j == |s| || !In(s[j], k)
    ensures Span(s, i, k) == j
  {
  }

  /** `\s+`: the end of a NON-EMPTY space run at `i`. */
  function Sp1(s: string, i: nat): (r: Option<nat>)
    requires i <= |s|
    ensures r.Some? ==> i < r.value <= |s| && r.value == Sp(s, i)
  {
    var j := Sp(s, i);
    if j > i then Some(j) else None
  }

  /** A NON-EMPTY run of class `k` at `i`. */
  function Run1(s: string, i: nat, k: Class): (r: Option<nat>)
    requires i <= |s|
    ensures r.Some? ==> i < r.value <= |s| && AllIn(s[i..r.value], k)
    ensures r.Some? ==> forall m :: i <= m < r.value ==> In(s[m], k)
    ensures r.Some? ==> r.value == |s| || !In(s[r.value], k)
  {
    var j := Span(s, i, k);
    if j > i then Some(j) else None
  }

  // CONFERENCIA \s+ ([A-Z]+) \s+ (\d+)
  function ConfZonaNivel(s: string, p: nat): (r: Option<Match>)
    ensures Ok(s, p, r, [Letters, Digits])
  {
    if !At(s, p, "CONFERENCIA") then None else
    var ob := Sp1(s, p + 11);
    if ob.None? then None else
    var b := ob.value;
    var oc := Run1(s, b, Letter);
    if oc.None? then None else
    var c := oc.value;
    var od := Sp1(s, c);
    if od.None? then None else
    var d := od.value;
    var oe := Run1(s, d, Digit);
    if oe.None? then None else
    var e := oe.value;
    Fits2(s[b..c], s[d..e], Letters, Digits);
    Some(Match(e, [s[b..c], s[d..e]]))
  }

  // CONFERENCIA \s+ (\d+) \s+ ([A-Z]+)
  function ConfNivelZona(s: string, p: nat): (r: Option<Match>)
    ensures Ok(s, p, r, [Digits, Letters])
  {
    if !At(s, p, "CONFERENCIA") then None else
    var ob := Sp1(s, p + 11);
    if ob.None? then None else
    var b := ob.value;
    var oc := Run1(s, b, Digit);
    if oc.None? then None else
    var c := oc.value;
    var od := Sp1(s, c);
    if od.None? then None else
    var d := od.value;
    var oe := Run1(s, d, Letter);
    if oe.None? then None else
    var e := oe.value;
    Fits2(s[b..c], s[d..e], Digits, Letters);
    Some(Match(e, [s[b..c], s[d..e]]))
  }

  // CONFERENCIA \s+ (\d+)
  function ConfNivel(s: string, p: nat): (r: Option<Match>)
    ensures Ok(s, p, r, [Digits])
  {
    if !At(s, p, "CONFERENCIA") then None else
    var ob := Sp1(s, p + 11);
    if ob.None? then None else
    var b := ob.value;
    var oc := Run1(s, b, Digit);
    if oc.None? then None else
    var c := oc.value;
    Some(Match(c, [s[b..c]]))
  }

  // CONFERENCIA \s+ (\d) \s+ ([A-Z]+) \s+ FINAL
  function ConfNivelZonaFinal(s: string, p: nat): (r: Option<Match>)
    ensures Ok(s, p, r, [OneDigit, Letters])
  {
    if !At(s, p, "CONFERENCIA") then None else
    var ob := Sp1(s, p + 11);
    if ob.None? then None else
    var b := ob.value;
    if !DigitAt(s, b) then None else
    var od := Sp1(s, b + 1);
    if od.None? then None else
    var d := od.value;
    var oe := Run1(s, d, Letter);
    if oe.None? then None else
    var e := oe.value;
    var of := Sp1(s, e);
    if of.None? then None else
    var f := of.value;
    if !At(s, f, "FINAL") then None else
    Fits2(s[b..b + 1], s[d..e], OneDigit, Letters);
    Some(Match(f + 5, [s[b..b + 1], s[d..e]]))
  }

  // CONFERENCIA \s+ ([A-Z]+) \s+ (\d) \s+ FINAL
  function ConfZonaNivelFinal(s: string, p: nat): (r: Option<Match>)
    ensures Ok(s, p, r, [Letters, OneDigit])
  {
    if !At(s, p, "CONFERENCIA") then None else
    var ob := Sp1(s, p + 11);
    if ob.None? then None else
    var b := ob.value;
    var oc := Run1(s, b, Letter);
    if oc.None? then None else
    var c := oc.value;
    var od := Sp1(s, c);
    if od.None? then None else
    var d := od.value;
    if !DigitAt(s, d) then None else
    var of := Sp1(s, d + 1);
    if of.None? then None else
    var f := of.value;
    if !At(s, f, "FINAL") then None else
    Fits2(s[b..c], s[d..d + 1], Letters, OneDigit);
    Some(Match(f + 5, [s[b..c], s[d..d + 1]]))
  }

  // w \s* (\d+), for a literal w
  function LitNumber(s: string, p: nat, w: string): (r: Option<Match>)
    ensures Ok(s, p, r, [Digits])
  {
    if !At(s, p, w) then None else
    var b := Sp(s, p + |w|);
    var oc := Run1(s, b, Digit);
    if oc.None? then None else
    var c := oc.value;
    Some(Match(c, [s[b..c]]))
  }

  // CLASIFICACION \s* (\d+)
  function ClasificacionNivel(s: string, p: nat): (r: Option<Match>)
    ensures Ok(s, p, r, [Digits])
  {
    LitNumber(s, p, "CLASIFICACION")
  }

  // NIVEL \s* (\d+)
  function NivelNumero(s: string, p: nat): (r: Option<Match>)
    ensures Ok(s, p, r, [Digits])
  {
    LitNumber(s, p, "NIVEL")
  }

  // CONFERENCIA \s* (\d+)
  function ConfOptNivel(s: string, p: nat): (r: Option<Match>)
    ensures Ok(s, p, r, [Digits])
  {
    LitNumber(s, p, "CONFERENCIA")
  }

  // JORNADA \s* (\d+)
  function JornadaNumero(s: string, p: nat): (r: Option<Match>)
    ensures Ok(s, p, r, [Digits])
  {
    LitNumber(s, p, "JORNADA")
  }

  /** After `CUARTOS DE FINAL \s* -? \s*`: where the next token starts. */
  function CuartosStart(s: string, p: nat): (r: Option<nat>)
    ensures r.Some? ==> p <= r.value <= |s|
  {
    if !At(s, p, "CUARTOS DE FINAL") then None else
    var b := Sp(s, p + 16);
    Some(if CharAt(s, b, '-') then Sp(s, b + 1) else b)
  }

  // CUARTOS DE FINAL \s* -? \s* ([A-Z]+) \s* (\d)
  function CuartosZonaNivel(s: string, p: nat): (r: Option<Match>)
    ensures Ok(s, p, r, [Letters, OneDigit])
  {
    var oq := CuartosStart(s, p);
    if oq.None? then None else
    var q := oq.value;
    var oc := Run1(s, q, Letter);
    if oc.None? then None else
    var c := oc.value;
    var d := Sp(s, c);
    if !DigitAt(s, d) then None else
    Fits2(s[q..c], s[d..d + 1], Letters, OneDigit);
    Some(Match(d + 1, [s[q..c], s[d..d + 1]]))
  }

  // CUARTOS DE FINAL \s* -? \s* (\d) \s* ([A-Z]+)
  function CuartosNivelZona(s: string, p: nat): (r: Option<Match>)
    ensures Ok(s, p, r, [OneDigit, Letters])
  {
    var oq := CuartosStart(s, p);
    if oq.None? then None else
    var q := oq.value;
    if !DigitAt(s, q) then None else
    var d := Sp(s, q + 1);
    var oe := Run1(s, d, Letter);
    if oe.None? then None else
    var e := oe.value;
    assert AllIn(s[q..q + 1], Digit);
    Fits2(s[q..q + 1], s[d..e], OneDigit, Letters);
    Some(Match(e, [s[q..q + 1], s[d..e]]))
  }

  // CUARTOS DE FINAL \s* -? \s* ([A-Z]+)
  function CuartosZona(s: string, p: nat): (r: Option<Match>)
    ensures Ok(s, p, r, [Letters])
  {
    var oq := CuartosStart(s, p);
    if oq.None? then None else
    var q := oq.value;
    var oc := Run1(s, q, Letter);
    if oc.None? then None else
    var c := oc.value;
    Some(Match(c, [s[q..c]]))
  }

  // CUARTOS DE FINAL \s* -? \s* (\d)
  function CuartosNivel(s: string, p: nat): (r: Option<Match>)
    ensures Ok(s, p, r, [OneDigit])
  {
    var oq := CuartosStart(s, p);
    if oq.None? then None else
    var q := oq.value;
    if !DigitAt(s, q) then None else
    Some(Match(q + 1, [s[q..q + 1]]))
  }

  // \b (\d) \b
  function LoneDigit(s: string, p: nat): (r: Option<Match>)
    ensures Ok(s, p, r, [OneDigit])
  {
    if DigitAt(s, p) && (p == 0 || !IsWordChar(s[p - 1])) && (p + 1 == |s| || !IsWordChar(s[p + 1])) then
      Some(Match(p + 1, [s[p..p + 1]]))
    else None
  }

  // CONFERENCIA \s* \d+ \s+ ([A-Z]+), with the group's end
  function ConfNivelZonaPrefix(s: string, p: nat): (r: Option<(nat, nat)>)
    ensures r.Some? ==> p <= r.value.0 < r.value.1 <= |s| && AllIn(s[r.value.0..r.value.1], Letter)
  {
    if !At(s, p, "CONFERENCIA") then None else
    var b := Sp(s, p + 11);
    var oc := Run1(s, b, Digit);
    if oc.None? then None else
    var c := oc.value;
    var od := Sp1(s, c);
    if od.None? then None else
    var d := od.value;
    var oe := Run1(s, d, Letter);
    if oe.None? then None else
    var e := oe.value;
    Some((d, e))
  }

  // CONFERENCIA \s* \d+ \s+ ([A-Z]+) \s+ ([A-Z])
  function ConfNivelZonaGrupo(s: string, p: nat): (r: Option<Match>)
    ensures Ok(s, p, r, [Letters, OneLetter])
  {
    var ode := ConfNivelZonaPrefix(s, p);
    if ode.None? then None else
    var (d, e) := ode.value;
    var of := Sp1(s, e);
    if of.None? then None else
    var f := of.value;
    if !UpperAt(s, f) then None else
    UnCaracter(s, f, Letter);
    Fits2(s[d..e], s[f..f + 1], Letters, OneLetter);
    Some(Match(f + 1, [s[d..e], s[f..f + 1]]))
  }

  // CONFERENCIA \s* \d+ \s+ ([A-Z]+)
  function ConfNivelZonaSimple(s: string, p: nat): (r: Option<Match>)
    ensures Ok(s, p, r, [Letters])
  {
    var ode := ConfNivelZonaPrefix(s, p);
    if ode.None? then None else
    var (d, e) := ode.value;
    Some(Match(e, [s[d..e]]))
  }

  // CONFERENCIA \s+ ([A-Z]+) \s+ (\d+) \s+ ([A-Z])
  function ConfZonaNivelGrupo(s: string, p: nat): (r: Option<Match>)
    ensures Ok(s, p, r, [Letters, Digits, OneLetter])
  {
    var om := ConfZonaNivel(s, p);
    if om.None? then None else
    var m := om.value;
    var of := Sp1(s, m.end);
    if of.None? then None else
    var f := of.value;
    if !UpperAt(s, f) then None else
    Some(Match(f + 1, m.groups + [s[f..f + 1]]))
  }

  // CONFERENCIA \s+ ([A-Z]+) \s+ \d+
  function ConfZonaNivelSimple(s: string, p: nat): (r: Option<Match>)
    ensures Ok(s, p, r, [Letters])
  {
    var om := ConfZonaNivel(s, p);
    if om.None? then None else
    var m := om.value;
    Some(Match(m.end, [m.groups[0]]))
  }

  // CONF \s* (\d)
  function ConfDigit(s: string, p: nat): (r: Option<Match>)
    ensures Ok(s, p, r, [OneDigit])
  {
    if !At(s, p, "CONF") then None else
    var b := Sp(s, p + 4);
    if !DigitAt(s, b) then None else
    Some(Match(b + 1, [s[b..b + 1]]))
  }

  // CONFERENCIA \s+ ([A-Z]+) \s+ (\d) \s* ([A-Z])
  function ConfZonaNivelLetra(s: string, p: nat): (r: Option<Match>)
    ensures Ok(s, p, r, [Letters, OneDigit, OneLetter])
  {
    if !At(s, p, "CONFERENCIA") then None else
    var ob := Sp1(s, p + 11);
    if ob.None? then None else
    var b := ob.value;
    var oc := Run1(s, b, Letter);
    if oc.None? then None else
    var c := oc.value;
    var od := Sp1(s, c);
    if od.None? then None else
    var d := od.value;
    if !DigitAt(s, d) then None else
    var e := Sp(s, d + 1);
    if !UpperAt(s, e) then None else
    Fits3(s[b..c], s[d..d + 1], s[e..e + 1], Letters, OneDigit, OneLetter);
    Some(Match(e + 1, [s[b..c], s[d..d + 1], s[e..e + 1]]))
  }

  // CONFERENCIA \s+ ([A-Z]+) (\d) \s* ([A-Z])
  function ConfZonaPegadaLetra(s: string, p: nat): (r: Option<Match>)
    ensures Ok(s, p, r, [Letters, OneDigit, OneLetter])
  {
    if !At(s, p, "CONFERENCIA") then None else
    var ob := Sp1(s, p + 11);
    if ob.None? then None else
    var b := ob.value;
    var oc := Run1(s, b, Letter);
    if oc.None? then None else
    var c := oc.value;
    if !DigitAt(s, c) then None else
    var e := Sp(s, c + 1);
    if !UpperAt(s, e) then None else
    Fits3(s[b..c], s[c..c + 1], s[e..e + 1], Letters, OneDigit, OneLetter);
    Some(Match(e + 1, [s[b..c], s[c..c + 1], s[e..e + 1]]))
  }

  // ZONA \s+ ([A-Z]) \s+ ([A-Z]+) \s+ (\d)
  function ZonaGrupoZonaNivel(s: string, p: nat): (r: Option<Match>)
    ensures Ok(s, p, r, [OneLetter, Letters, OneDigit])
  {
    if !At(s, p, "ZONA") then None else
    var ob := Sp1(s, p + 4);
    if ob.None? then None else
    var b := ob.value;
    if !UpperAt(s, b) then None else
    var od := Sp1(s, b + 1);
    if od.None? then None else
    var d := od.value;
    var oe := Run1(s, d, Letter);
    if oe.None? then None else
    var e := oe.value;
    var of := Sp1(s, e);
    if of.None? then None else
    var f := of.value;
    if !DigitAt(s, f) then None else
    Fits3(s[b..b + 1], s[d..e], s[f..f + 1], OneLetter, Letters, OneDigit);
    Some(Match(f + 1, [s[b..b + 1], s[d..e], s[f..f + 1]]))
  }

  // ZONA \s+ ([A-Z]+) \s+ ([A-Z]) \s+ (\d)
  function ZonaZonaGrupoNivel(s: string, p: nat): (r: Option<Match>)
    ensures Ok(s, p, r, [Letters, OneLetter, OneDigit])
  {
    if !At(s, p, "ZONA") then None else
    var ob := Sp1(s, p + 4);
    if ob.None? then None else
    var b := ob.value;
    var oc := Run1(s, b, Letter);
    if oc.None? then None else
    var c := oc.value;
    var od := Sp1(s, c);
    if od.None? then None else
    var d := od.value;
    if !UpperAt(s, d) then None else
    var oe := Sp1(s, d + 1);
    if oe.None? then None else
    var e := oe.value;
    if !DigitAt(s, e) then None else
    Fits3(s[b..c], s[d..d + 1], s[e..e + 1], Letters, OneLetter, OneDigit);
    Some(Match(e + 1, [s[b..c], s[d..d + 1], s[e..e + 1]]))
  }

  // ZONA \s+ ([A-Z]+) \s+ (\d)
  function ZonaZonaNivel(s: string, p: nat): (r: Option<Match>)
    ensures Ok(s, p, r, [Letters, OneDigit])
  {
    if !At(s, p, "ZONA") then None else
    var ob := Sp1(s, p + 4);
    if ob.None? then None else
    var b := ob.value;
    var oc := Run1(s, b, Letter);
    if oc.None? then None else
    var c := oc.value;
    var od := Sp1(s, c);
    if od.None? then None else
    var d := od.value;
    if !DigitAt(s, d) then None else
    Fits2(s[b..c], s[d..d + 1], Letters, OneDigit);
    Some(Match(d + 1, [s[b..c], s[d..d + 1]]))
  }

  // ZONA \s+ (\d) \s+ ([A-Z]+)
  function ZonaNivelZona(s: string, p: nat): (r: Option<Match>)
    ensures Ok(s, p, r, [OneDigit, Letters])
  {
    if !At(s, p, "ZONA") then None else
    var ob := Sp1(s, p + 4);
    if ob.None? then None else
    var b := ob.value;
    if !DigitAt(s, b) then None else
    var od := Sp1(s, b + 1);
    if od.None? then None else
    var d := od.value;
    var oe := Run1(s, d, Letter);
    if oe.None? then None else
    var e := oe.value;
    Fits2(s[b..b + 1], s[d..e], OneDigit, Letters);
    Some(Match(e, [s[b..b + 1], s[d..e]]))
  }

  // ZONA \s+ ([A-Z])
  function ZonaLetra(s: string, p: nat): (r: Option<Match>)
    ensures Ok(s, p, r, [OneLetter])
  {
    if !At(s, p, "ZONA") then None else
    var ob := Sp1(s, p + 4);
    if ob.None? then None else
    var b := ob.value;
    if !UpperAt(s, b) then None else
    Some(Match(b + 1, [s[b..b + 1]]))
  }

  // (\w+) \s* (\d) ([A-Z])?
  function PalabraNivelLetra(s: string, p: nat): (r: Option<Match>)
    ensures Ok(s, p, r, [WordRun, OneDigit, OptLetter])
  {
    if p > |s| then None else
    var ow := Run1(s, p, Word);
    if ow.None? then None else
    var w := ow.value;
    var dd := Descend(s, p, w, Word, TDigitOptLetterAt);
    if dd.None? then None else
    var (k, e, gs) := dd.value;
    Fits3(s[p..k], gs[0], gs[1], WordRun, OneDigit, OptLetter);
    Some(Match(e, [s[p..k], gs[0], gs[1]]))
  }

  // (\w+) \s* ZONA \s+ ([A-Z]+)
  function PalabraZona(s: string, p: nat): (r: Option<Match>)
    ensures Ok(s, p, r, [WordRun, Letters])
  {
    if p > |s| then None else
    var ow := Run1(s, p, Word);
    if ow.None? then None else
    var w := ow.value;
    var dd := Descend(s, p, w, Word, TZonaAt);
    if dd.None? then None else
    var (k, e, gs) := dd.value;
    Fits2(s[p..k], gs[0], WordRun, Letters);
    Some(Match(e, [s[p..k], gs[0]]))
  }

  // ([A-Z]+) \s+ (\d)
  function LetrasNivel(s: string, p: nat): (r: Option<Match>)
    ensures Ok(s, p, r, [Letters, OneDigit])
  {
    if p > |s| then None else
    var oc := Run1(s, p, Letter);
    if oc.None? then None else
    var c := oc.value;
    var od := Sp1(s, c);
    if od.None? then None else
    var d := od.value;
    if !DigitAt(s, d) then None else
    Fits2(s[p..c], s[d..d + 1], Letters, OneDigit);
    Some(Match(d + 1, [s[p..c], s[d..d + 1]]))
  }

  // (\w+) \s* (\d)? ["”]? ([A-Z])? ["”]?
  function RegularGrupo(s: string, p: nat): (r: Option<Match>)
    ensures Ok(s, p, r, [WordRun, OptDigit, OptLetter])
  {
    if p > |s| then None else
    var ow := Run1(s, p, Word);
    if ow.None? then None else
    var w := ow.value;
    var j := Sp(s, w);
    UnCaracter(s, j, Digit);
    var g2 := if DigitAt(s, j) then s[j..j + 1] else "";
    var j2 := j + |g2|;
    var j3 := if j2 < |s| && IsDoubleQuote(s[j2]) then j2 + 1 else j2;
    UnCaracter(s, j3, Letter);
    var g3 := if UpperAt(s, j3) then s[j3..j3 + 1] else "";
    var j4 := j3 + |g3|;
    var e := if j4 < |s| && IsDoubleQuote(s[j4]) then j4 + 1 else j4;
    Fits3(s[p..w], g2, g3, WordRun, OptDigit, OptLetter);
    Some(Match(e, [s[p..w], g2, g3]))
  }

  // ([A-Z]+) \s* (\d*) \s* ([A-Z]?)
  function ZonaNivelGrupoOpt(s: string, p: nat): (r: Option<Match>)
    ensures Ok(s, p, r, [Letters, OptDigits, OptLetter])
  {
    if p > |s| then None else
    var oc := Run1(s, p, Letter);
    if oc.None? then None else
    var c := oc.value;
    var d := Sp(s, c);
    var e := Span(s, d, Digit);
    var f := Sp(s, e);
    var g3 := if UpperAt(s, f) then s[f..f + 1] else "";
    Fits3(s[p..c], s[d..e], g3, Letters, OptDigits, OptLetter);
    Some(Match(f + |g3|, [s[p..c], s[d..e], g3]))
  }

  // ([A-Z]+) (\d) ([A-Z]) $
  function ZonaNivelLetraFin(s: string, p: nat): (r: Option<Match>)
    ensures Ok(s, p, r, [Letters, OneDigit, OneLetter])
  {
    if p > |s| then None else
    var oc := Run1(s, p, Letter);
    if oc.None? then None else
    var c := oc.value;
    if !(DigitAt(s, c) && UpperAt(s, c + 1) && AtEnd(s, c + 2)) then None else
    Fits3(s[p..c], s[c..c + 1], s[c + 1..c + 2], Letters, OneDigit, OneLetter);
    Some(Match(c + 2, [s[p..c], s[c..c + 1], s[c + 1..c + 2]]))
  }

  // ([A-Z]+) (\d) $
  function ZonaNivelFin(s: string, p: nat): (r: Option<Match>)
    ensures Ok(s, p, r, [Letters, OneDigit])
  {
    if p > |s| then None else
    var oc := Run1(s, p, Letter);
    if oc.None? then None else
    var c := oc.value;
    if !(DigitAt(s, c) && AtEnd(s, c + 1)) then None else
    Fits2(s[p..c], s[c..c + 1], Letters, OneDigit);
    Some(Match(c + 1, [s[p..c], s[c..c + 1]]))
  }

  // ([A-Z]+) \s* ['”]? ([A-Z\d]) ['”]?
  function FlexZonaGrupo(s: string, p: nat): (r: Option<Match>)
    ensures Ok(s, p, r, [Letters, LetterOrDigit])
  {
    if p > |s| then None else
    var oc := Run1(s, p, Letter);
    if oc.None? then None else
    var c := oc.value;
    var dd := Descend(s, p, c, Letter, TLetterOrDigitAt);
    if dd.None? then None else
    var (k, e, gs) := dd.value;
    Fits2(s[p..k], gs[0], Letters, LetterOrDigit);
    Some(Match(e, [s[p..k], gs[0]]))
  }

  // RECLASIFICACION FLEX ([A-ZÑÁÉÍÓÚÜ\-]+) \s+ ['”]? ([A-Z]) ['”]? $
  function FlexFinal(s: string, p: nat): (r: Option<Match>)
    ensures Ok(s, p, r, [RunOf(UpperAccented), OneLetter])
  {
    if !At(s, p, "RECLASIFICACION FLEX ") then None else
    var oc := Run1(s, p + 21, UpperAccented);
    if oc.None? then None else
    var c := oc.value;
    var od := Sp1(s, c);
    if od.None? then None else
    var d := od.value;
    var og := QuotedLetterAtEnd(s, d, true);
    if og.None? then None else
    var g := og.value;
    Fits2(s[p + 21..c], g, RunOf(UpperAccented), OneLetter);
    Some(Match(|s|, [s[p + 21..c], g]))
  }

  // INTERCONFER+ENCIAS? \s* ([A-B]) \s* ZONA \s* "? ([A-Z]) "?
  function InterZona(s: string, p: nat): (r: Option<Match>)
    ensures Ok(s, p, r, [AOrB, OneLetter])
  {
    if !At(s, p, "INTERCONFE") then None else
    var rr := SpanChar(s, p + 10, 'R');
    if rr == p + 10 || !At(s, rr, "ENCIA") then None else
    var t := if CharAt(s, rr + 5, 'S') then rr + 6 else rr + 5;
    var b := Sp(s, t);
    if !(CharAt(s, b, 'A') || CharAt(s, b, 'B')) then None else
    var d := Sp(s, b + 1);
    if !At(s, d, "ZONA") then None else
    var e := Sp(s, d + 4);
    var f := if CharAt(s, e, '"') then e + 1 else e;
    if !UpperAt(s, f) then None else
    var x := if CharAt(s, f + 1, '"') then f + 2 else f + 1;
    UnCaracter(s, f, Letter);
    AoBCorte(s, b);
    Fits2(s[b..b + 1], s[f..f + 1], AOrB, OneLetter);
    Some(Match(x, [s[b..b + 1], s[f..f + 1]]))
  }

  /** `NIVEL \s* (\d) \s*`: the digit's position and where the next token starts. */
  function NivelPrefix(s: string, p: nat): (r: Option<(nat, nat)>)
    ensures r.Some? ==> p <= r.value.0 < r.value.1 <= |s| && Fits(s[r.value.0..r.value.0 + 1], OneDigit)
    ensures r.Some? ==> r.value.1 == Sp(s, r.value.0 + 1)
  {
    if !At(s, p, "NIVEL") then None else
    var b := Sp(s, p + 5);
    if !DigitAt(s, b) then None else
    SliceIn(s, b, b + 1, Digit);
    Some((b, Sp(s, b + 1)))
  }

  // NIVEL \s* (\d) \s* ([A-ZÑÁÉÍÓÚÜ\-]+) \s* (LFF)? \s* "? ([A-Z]) "? $
  function NivelZonaGrupoFin(s: string, p: nat): (r: Option<Match>)
    ensures Ok(s, p, r, [OneDigit, RunOf(UpperAccented), OneLetter])
  {
    var obd := NivelPrefix(s, p);
    if obd.None? then None else
    var (b, d) := obd.value;
    var oz := ZonaLffLetra(s, d);
    if oz.None? then None else
    var (k, e, g) := oz.value;
    Fits3(s[b..b + 1], s[d..k], g, OneDigit, RunOf(UpperAccented), OneLetter);
    Some(Match(e, [s[b..b + 1], s[d..k], g]))
  }

  /**
   * The `([A-ZÑÁÉÍÓÚÜ\-]+) \s* (LFF)? \s* "? ([A-Z]) "? $` part from `d`,
   * with the run backtracked: where the run ends, where the match ends,
   * and the letter.
   */
  function ZonaLffLetra(s: string, d: nat): (r: Option<(nat, nat, string)>)
    requires d <= |s|
    ensures r.Some? ==> var (k, e, g) := r.value;
      d < k <= e <= |s| && Fits(s[d..k], RunOf(UpperAccented)) && Fits(g, OneLetter)
  {
    var oc := Run1(s, d, UpperAccented);
    if oc.None? then None else
    var c := oc.value;
    var dd := Descend(s, d, c, UpperAccented, TLffLetterEndAt);
    if dd.None? then None else
    var (k, e, gs) := dd.value;
    TailFits1(TLffLetterEndAt(s, k), e, gs, OneLetter);
    RunFits(s, d, k, UpperAccented);
    Some((k, e, gs[0]))
  }

  // NIVEL \s* (\d) \s* (\w+) \s* UNICA
  function NivelZonaUnica(s: string, p: nat): (r: Option<Match>)
    ensures Ok(s, p, r, [OneDigit, WordRun])
  {
    var obd := NivelPrefix(s, p);
    if obd.None? then None else
    var (b, d) := obd.value;
    var ow := Run1(s, d, Word);
    if ow.None? then None else
    var w := ow.value;
    var dd := Descend(s, d, w, Word, TUnicaAt);
    if dd.None? then None else
    var (k, e, _) := dd.value;
    WordFits(s, d, k);
    Fits2(s[b..b + 1], s[d..k], OneDigit, WordRun);
    Some(Match(e, [s[b..b + 1], s[d..k]]))
  }

  // NIVEL \s* (\d) \s* ([A-ZÑ\-]+) \s* ([A-Z]) - ([A-Z])
  function NivelZonaDosGrupos(s: string, p: nat): (r: Option<Match>)
    ensures Ok(s, p, r, [OneDigit, RunOf(UpperEnye), OneLetter, OneLetter])
  {
    var obd := NivelPrefix(s, p);
    if obd.None? then None else
    var (b, d) := obd.value;
    var oc := Run1(s, d, UpperEnye);
    if oc.None? then None else
    var c := oc.value;
    var dd := Descend(s, d, c, UpperEnye, TLetterDashLetterAt);
    if dd.None? then None else
    var (k, e, gs) := dd.value;
    assert TLetterDashLetterAt(s, k) == Some((e, gs));
    Fits4(s[b..b + 1], s[d..k], gs[0], gs[1], OneDigit, RunOf(UpperEnye), OneLetter, OneLetter);
    Some(Match(e, [s[b..b + 1], s[d..k], gs[0], gs[1]]))
  }

  // NIVEL \s* (\d) \s+ ([A-ZÑ\-]+) \s+ "? ([A-Z]) "? $
  function NivelZonaGrupoSep(s: string, p: nat): (r: Option<Match>)
    ensures Ok(s, p, r, [OneDigit, RunOf(UpperEnye), OneLetter])
  {
    var obd := NivelPrefix(s, p);
    if obd.None? then None else
    var (b, d) := obd.value;
    if d == b + 1 then None else
    var oc := Run1(s, d, UpperEnye);
    if oc.None? then None else
    var c := oc.value;
    var oe := Sp1(s, c);
    if oe.None? then None else
    var e := oe.value;
    var og := QuotedLetterAtEnd(s, e, false);
    if og.None? then None else
    var g := og.value;
    Fits3(s[b..b + 1], s[d..c], g, OneDigit, RunOf(UpperEnye), OneLetter);
    Some(Match(|s|, [s[b..b + 1], s[d..c], g]))
  }

  // NIVEL \s* (\d) \s* ([A-ZÑ\-]+)
  function NivelZona(s: string, p: nat): (r: Option<Match>)
    ensures Ok(s, p, r, [OneDigit, RunOf(UpperEnye)])
  {
    var obd := NivelPrefix(s, p);
    if obd.None? then None else
    var (b, d) := obd.value;
    var oc := Run1(s, d, UpperEnye);
    if oc.None? then None else
    var c := oc.value;
    Fits2(s[b..b + 1], s[d..c], OneDigit, RunOf(UpperEnye));
    Some(Match(c, [s[b..b + 1], s[d..c]]))
  }

  // INTERCONFERENCIAS? \s* ([AB])
  function InterLetra(s: string, p: nat): (r: Option<Match>)
    ensures Ok(s, p, r, [AOrB])
  {
    if !At(s, p, "INTERCONFERENCIA") then None else
    var t := if CharAt(s, p + 16, 'S') then p + 17 else p + 16;
    var b := Sp(s, t);
    if !(CharAt(s, b, 'A') || CharAt(s, b, 'B')) then None else
    Some(Match(b + 1, [s[b..b + 1]]))
  }

  // ZONA \s* ['”]? ([A-Z]) ['”]?
  function ZonaComillaLetra(s: string, p: nat): (r: Option<Match>)
    ensures Ok(s, p, r, [OneLetter])
  {
    if !At(s, p, "ZONA") then None else
    var b := Sp(s, p + 4);
    var f := if b < |s| && IsQuote(s[b]) then b + 1 else b;
    if !UpperAt(s, f) then None else
    var x := if f + 1 < |s| && IsQuote(s[f + 1]) then f + 2 else f + 1;
    Some(Match(x, [s[f..f + 1]]))
  }

  // ([A-ZÑÁÉÍÓÚÜ\-]+) \s+ ([A-Z](-[A-Z])?)
  function ZonaGrupoGuion(s: string, p: nat): (r: Option<Match>)
    ensures Ok(s, p, r, [RunOf(UpperAccented), LetterPair])
  {
    if p > |s| then None else
    var oc := Run1(s, p, UpperAccented);
    if oc.None? then None else
    var c := oc.value;
    var od := Sp1(s, c);
    if od.None? then None else
    var d := od.value;
    if !UpperAt(s, d) then None else
    var x := if CharAt(s, d + 1, '-') && UpperAt(s, d + 2) then d + 3 else d + 1;
    Fits2(s[p..c], s[d..x], RunOf(UpperAccented), LetterPair);
    Some(Match(x, [s[p..c], s[d..x]]))
  }

  // ([A-ZÑ\s\-]+?) \s* (\d+) $
  function ZonaNumeroFin(s: string, p: nat): (r: Option<Match>)
    ensures Ok(s, p, r, [RunOf(UpperEnyeSpace), Digits])
  {
    if p >= |s| then None else
    var oeab := Ascend(s, p, p + 1);
    if oeab.None? then None else
    var (e, a, b) := oeab.value;
    Fits2(s[p..e], s[a..b], RunOf(UpperEnyeSpace), Digits);
    Some(Match(b, [s[p..e], s[a..b]]))
  }

  // (CUARTOS DE FINAL|SEMIFINAL|FINAL)
  function RondaClave(s: string, p: nat): (r: Option<Match>)
    ensures Ok(s, p, r, [Keyword])
  {
    if At(s, p, "CUARTOS DE FINAL") then Some(Match(p + 16, ["CUARTOS DE FINAL"]))
    else if At(s, p, "SEMIFINAL") then Some(Match(p + 9, ["SEMIFINAL"]))
    else if At(s, p, "FINAL") then Some(Match(p + 5, ["FINAL"]))
    else None
  }

  /** A matcher: a pattern tried at one position. */
  type Matcher = (string, nat) -> Option<Match>

  /**
   * `re.search` from `p`: the leftmost position where `f` matches, which is
   * where the caller then reads the match.
   */
  function SearchFrom(s: string, p: nat, f: Matcher): (r: Option<nat>)
    ensures r.Some? ==> p <= r.value <= |s| && f(s, r.value).Some?
    ensures r.Some? ==> forall q :: p <= q < r.value ==> f(s, q).None?
    ensures r.None? ==> forall q :: p <= q <= |s| ==> f(s, q).None?
    decreases |s| + 1 - p
  {
    if p > |s| then None
    else if f(s, p).Some? then Some(p)
    else SearchFrom(s, p + 1, f)
  }

  /** `re.search` over the whole text. */
  function Search(s: string, f: Matcher): (r: Option<nat>)
    ensures r.Some? ==> r.value <= |s| && f(s, r.value).Some?
    ensures r.Some? ==> forall q :: 0 <= q < r.value ==> f(s, q).None?
    ensures r.None? ==> forall q :: 0 <= q <= |s| ==> f(s, q).None?
  {
    SearchFrom(s, 0, f)
  }

  /** A search succeeds at a position where the matcher matches and matches nowhere before. */
  lemma SearchPrimera(s: string, f: Matcher, q: nat)
    requires q <= |s| && f(s, q).Some? && forall p :: 0 <= p < q ==> f(s, p).None?
    ensures Search(s, f) == Some(q)
  {
  }
}
