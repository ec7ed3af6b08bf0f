/**
 * `parsear_jornada`: the heading of a matchday, such as
 * `SEMIFINAL Jornada 1 - 10/12/2023`, gives the round keyword, the matchday
 * number and the date. A piece that is not there is the empty string.
 */
module Jornadas {
  import opened Values
  import opened Text
  import opened Patterns

  datatype Jornada = Jornada(ronda: string, jornada: string, fecha: string)

  /** The heading trimmed and then upper-cased. */
  function Cabecera(texto: string): (r: string)
    ensures r == Norm(texto)
  {
    StripUpper(texto);
    Upper(Strip(texto))
  }

  /** The text before the first hyphen (all of it when there is none), and the trimmed date after it. */
  function Partes(t: string): (r: (string, string))
    ensures '-' !in t ==> r == (t, "")
    ensures '-' in t ==> exists a, b :: t == a + "-" + b && '-' !in a && r == (Strip(a), Strip(b))
  {
    var o := SplitFirst(t, '-');
    if o.None? then (t, "")
    else
      var (a, b) := o.value;
      assert t == a + "-" + b;
      (Strip(a), Strip(b))
  }

  function ParsearJornada(texto: string): (r: Jornada)
    ensures r.ronda == "" || r.ronda == "CUARTOS DE FINAL" || r.ronda == "SEMIFINAL" || r.ronda == "FINAL"
    ensures r.ronda != "" ==> Contains(Partes(Cabecera(texto)).0, r.ronda)
    ensures r.jornada == "" || IsDigits(r.jornada)
    ensures '-' !in Cabecera(texto) ==> r.fecha == ""
    ensures r.fecha == Partes(Cabecera(texto)).1
    ensures r.ronda == RondaDe(Partes(Cabecera(texto)).0) && r.jornada == NumeroDe(Partes(Cabecera(texto)).0)
  {
    var p := Partes(Cabecera(texto));
    Jornada(RondaDe(p.0), NumeroDe(p.0), p.1)
  }

  /** A round keyword starts at `q`. */
  predicate RondaEn(s: string, q: nat) {
    At(s, q, "CUARTOS DE FINAL") || At(s, q, "SEMIFINAL") || At(s, q, "FINAL")
  }

  /** The leftmost keyword starts at `q`. */
  predicate PrimeraRondaEn(s: string, q: nat) {
    RondaEn(s, q) && forall p :: 0 <= p < q ==> !RondaEn(s, p)
  }

  /** `JORNADA`, optional whitespace and a digit start at `q`. */
  predicate NumeroEn(s: string, q: nat) {
    At(s, q, "JORNADA") && DigitAt(s, Sp(s, q + 7))
  }

  /** The leftmost `JORNADA` followed by whitespace and a digit starts at `q`. */
  predicate PrimerNumeroEn(s: string, q: nat) {
    NumeroEn(s, q) && forall p :: 0 <= p < q ==> !NumeroEn(s, p)
  }

  /** The digit run after `JORNADA` and its whitespace, for `q` where `NumeroEn` holds. */
  function DigitosTras(s: string, q: nat): string
    requires NumeroEn(s, q)
  {
    var a := Sp(s, q + 7);
    s[a..Span(s, a, Digit)]
  }

  /**
   * `(CUARTOS DE FINAL|SEMIFINAL|FINAL)` searched in the text, or "": the
   * keyword that starts leftmost. No two keywords start at one position, so
   * "SEMIFINAL" is read as itself and not as the FINAL inside it.
   */
  function RondaDe(info: string): (r: string)
    ensures r == "" || r == "CUARTOS DE FINAL" || r == "SEMIFINAL" || r == "FINAL"
    ensures r != "" ==> Contains(info, r)
    ensures r == "" <==> forall q :: 0 <= q <= |info| ==> !RondaEn(info, q)
    ensures forall q :: 0 <= q <= |info| && PrimeraRondaEn(info, q) ==> At(info, q, r)
  {
    RondaIzquierda(info);
    var q := Search(info, RondaClave);
    if q.Some? then
      var m := RondaClave(info, q.value).value;
      ContainsAt(info, q.value, m.groups[0]);
      m.groups[0]
    else ""
  }

  /**
   * The digits of `JORNADA\s*(\d+)` searched in the text, or "": the whole
   * digit run after the leftmost `JORNADA` that whitespace and a digit follow.
   */
  function NumeroDe(info: string): (r: string)
    ensures r == "" || IsDigits(r)
    ensures r == "" <==> forall q :: 0 <= q <= |info| ==> !NumeroEn(info, q)
    ensures forall q :: 0 <= q <= |info| && PrimerNumeroEn(info, q) ==> r == DigitosTras(info, q)
  {
    NumeroIzquierda(info);
    var q := Search(info, JornadaNumero);
    if q.Some? then
      var m := JornadaNumero(info, q.value).value;
      DigitosSonNumero(m.groups[0]);
      m.groups[0]
    else ""
  }

  /** The round pattern matches where a keyword starts, and reads that keyword. */
  lemma RondaClaveEn(s: string, q: nat)
    ensures RondaClave(s, q).Some? <==> RondaEn(s, q)
    ensures RondaClave(s, q).Some? ==> At(s, q, RondaClave(s, q).value.groups[0])
  {
  }

  /** The search finds the leftmost keyword, and its match reads that keyword. */
  lemma RondaIzquierda(info: string)
    ensures Search(info, RondaClave).None? <==> forall q :: 0 <= q <= |info| ==> !RondaEn(info, q)
    ensures forall q :: 0 <= q <= |info| && PrimeraRondaEn(info, q) ==>
      Search(info, RondaClave) == Some(q) && At(info, q, RondaClave(info, q).value.groups[0])
  {
    forall q: nat | q <= |info|
      ensures RondaClave(info, q).Some? <==> RondaEn(info, q)
    {
      RondaClaveEn(info, q);
    }
    forall q: nat | q <= |info| && PrimeraRondaEn(info, q)
      ensures Search(info, RondaClave) == Some(q) && At(info, q, RondaClave(info, q).value.groups[0])
    {
      RondaClaveEn(info, q);
      SearchPrimera(info, RondaClave, q);
    }
  }

  /** The `JORNADA` pattern matches where `NumeroEn` holds, and reads the whole digit run. */
  lemma JornadaNumeroEn(s: string, q: nat)
    ensures JornadaNumero(s, q).Some? <==> NumeroEn(s, q)
    ensures NumeroEn(s, q) ==> JornadaNumero(s, q).value.groups[0] == DigitosTras(s, q)
  {
  }

  /** The search finds the leftmost `JORNADA` with digits, and its match reads the whole digit run. */
  lemma NumeroIzquierda(info: string)
    ensures Search(info, JornadaNumero).None? <==> forall q :: 0 <= q <= |info| ==> !NumeroEn(info, q)
    ensures forall q :: 0 <= q <= |info| && PrimerNumeroEn(info, q) ==>
      Search(info, JornadaNumero) == Some(q) && JornadaNumero(info, q).value.groups[0] == DigitosTras(info, q)
  {
    forall q: nat | q <= |info|
      ensures JornadaNumero(info, q).Some? <==> NumeroEn(info, q)
    {
      JornadaNumeroEn(info, q);
    }
    forall q: nat | q <= |info| && PrimerNumeroEn(info, q)
      ensures Search(info, JornadaNumero) == Some(q) && JornadaNumero(info, q).value.groups[0] == DigitosTras(info, q)
    {
      JornadaNumeroEn(info, q);
      SearchPrimera(info, JornadaNumero, q);
    }
  }

  lemma DigitosSonNumero(g: string)
    requires Fits(g, Digits)
    ensures IsDigits(g) && g != ""
  {
  }

  /** Case and surrounding whitespace of the heading do not matter. */
  lemma ParsearJornadaNormaliza(texto: string, p: string, q: string)
    requires AllSpace(p) && AllSpace(q)
    ensures ParsearJornada(Upper(texto)) == ParsearJornada(texto)
    ensures ParsearJornada(p + texto + q) == ParsearJornada(texto)
  {
    NormInsensitive(texto, p, q);
  }

  /** Splitting at the first hyphen: the text before it and the rest, both trimmed. */
  lemma PartesIda(a: string, b: string)
    requires '-' !in a
    ensures Partes(a + "-" + b) == (Strip(a), Strip(b))
  {
    SplitFirstIda(a, '-', b);
  }

  /** A heading that starts with a round keyword gives that keyword. */
  lemma RondaAlInicio(k: string, rest: string)
    requires k == "CUARTOS DE FINAL" || k == "SEMIFINAL" || k == "FINAL"
    ensures RondaDe(k + rest) == k
  {
    var s := k + rest;
    assert s[..|k|] == k && At(s, 0, k);
    assert s[0] == k[0];
    if k != "CUARTOS DE FINAL" {
      assert !At(s, 0, "CUARTOS DE FINAL");
    }
    if k == "FINAL" {
      assert !At(s, 0, "SEMIFINAL");
    }
    assert RondaClave(s, 0) == Some(Match(|k|, [k]));
  }

  /** `JORNADA` and a number at the end, with no `J` before it, gives that number. */
  lemma NumeroAlFinal(x: string, n: string)
    requires 'J' !in x && IsDigits(n)
    ensures NumeroDe(x + "JORNADA " + n) == n
  {
    SinJotaAntes(x, "JORNADA " + n);
    assert x + ("JORNADA " + n) == x + "JORNADA " + n;
    JornadaEn(x, n);
    assert Search(x + "JORNADA " + n, JornadaNumero) == Some(|x|);
  }

  /** Where `JORNADA <n>` ends the text, the pattern matches there and reads `n`. */
  lemma JornadaEn(x: string, n: string)
    requires IsDigits(n)
    ensures var s := x + "JORNADA " + n; JornadaNumero(s, |x|) == Some(Match(|s|, [n]))
  {
    var s := x + "JORNADA " + n;
    var j := |x|;
    ColaJornada(x, n);
    DigitosAlFinal(s, j + 8, n);
    SpanHasta(s, j + 7, j + 8, Space);
    LitNumberAlFinal(s, j, "JORNADA", j + 8);
  }

  /** A text that ends with the digits `n` from `a` on. */
  lemma DigitosAlFinal(s: string, a: nat, n: string)
    requires a <= |s| && s[a..] == n && IsDigits(n)
    ensures a < |s| && !IsSpace(s[a]) && forall m :: a <= m < |s| ==> IsDigit(s[m])
  {
    assert forall m :: a <= m < |s| ==> s[m] == n[m - a];
  }

  /** `w \s* (\d+)` at `j`, when the digits after the whitespace run to the end of the text. */
  lemma LitNumberAlFinal(s: string, j: nat, w: string, a: nat)
    requires j + |w| <= |s| && s[j..j + |w|] == w
    requires Sp(s, j + |w|) == a && a < |s| && forall m :: a <= m < |s| ==> IsDigit(s[m])
    ensures LitNumber(s, j, w) == Some(Match(|s|, [s[a..]]))
  {
    SpanHasta(s, a, |s|, Digit);
    assert s[a..|s|] == s[a..];
  }

  /** The pieces of `<x>JORNADA <n>` by position. */
  lemma ColaJornada(x: string, n: string)
    ensures var s := x + "JORNADA " + n;
      s[|x|..|x| + 7] == "JORNADA" && s[|x| + 7] == ' ' && s[|x| + 8..] == n
  {
    var s := x + "JORNADA " + n;
    assert s == x + ("JORNADA " + n);
    assert s[|x|..] == "JORNADA " + n;
  }

  /** No `JORNADA` starts inside a prefix without `J`. */
  lemma SinJotaAntes(x: string, y: string)
    requires 'J' !in x
    ensures forall q :: 0 <= q < |x| ==> JornadaNumero(x + y, q).None?
  {
    var s := x + y;
    forall q | 0 <= q < |x|
      ensures JornadaNumero(s, q).None?
    {
      assert s[q] == x[q];
    }
  }

  /**
   * A heading written as the site writes it, `<round> JORNADA <n> - <date>`,
   * gives back its three pieces; the date may hold further hyphens.
   */
  lemma ParsearJornadaIda(k: string, n: string, f: string)
    requires k == "CUARTOS DE FINAL" || k == "SEMIFINAL" || k == "FINAL"
    requires IsDigits(n)
    requires |f| > 0 && Upper(f) == f && !IsSpace(f[0]) && !IsSpace(f[|f| - 1])
    ensures ParsearJornada(k + " JORNADA " + n + " - " + f) == Jornada(k, n, f)
  {
    PalabraRonda(k, n);
    IdaConPalabra(k, n, f);
  }

  /** A round keyword satisfies what the general round trip asks of its leading word. */
  lemma PalabraRonda(k: string, n: string)
    requires k == "CUARTOS DE FINAL" || k == "SEMIFINAL" || k == "FINAL"
    ensures |k| > 0 && !IsSpace(k[0]) && '-' !in k && 'J' !in k && Upper(k) == k
    ensures RondaDe(k + " JORNADA " + n) == k
  {
    FormaPalabra(k);
    RondaAlInicio(k, " JORNADA " + n);
    Asociar(k, " JORNADA ", n);
  }

  lemma FormaPalabra(k: string)
    requires k == "CUARTOS DE FINAL" || k == "SEMIFINAL" || k == "FINAL"
    ensures |k| > 0 && !IsSpace(k[0]) && '-' !in k && 'J' !in k && Upper(k) == k
  {
    assert Upper(k) == k;
  }

  lemma Asociar(a: string, b: string, c: string)
    ensures a + (b + c) == a + b + c
  {
  }

  /** The same, for any leading word that the round search reads back. */
  lemma IdaConPalabra(k: string, n: string, f: string)
    requires |k| > 0 && !IsSpace(k[0]) && '-' !in k && 'J' !in k && Upper(k) == k
    requires RondaDe(k + " JORNADA " + n) == k
    requires IsDigits(n)
    requires |f| > 0 && Upper(f) == f && !IsSpace(f[0]) && !IsSpace(f[|f| - 1])
    ensures ParsearJornada(k + " JORNADA " + n + " - " + f) == Jornada(k, n, f)
  {
    var info := k + " JORNADA " + n;
    InfoIda(k, n);
    NumeroAlFinal(k + " ", n);
    PartesCabeceraIda(info, f);
  }

  /** `<word> JORNADA <n>` is trimmed, in capitals and free of hyphens. */
  lemma InfoIda(k: string, n: string)
    requires |k| > 0 && !IsSpace(k[0]) && '-' !in k && 'J' !in k && Upper(k) == k
    requires IsDigits(n)
    ensures var info := k + " JORNADA " + n;
      && |info| > 0 && !IsSpace(info[0]) && !IsSpace(info[|info| - 1]) && '-' !in info && Upper(info) == info
      && (k + " ") + "JORNADA " + n == info && 'J' !in k + " "
  {
    InfoBordes(k, n);
    InfoMayusculas(k, n);
  }

  lemma InfoBordes(k: string, n: string)
    requires |k| > 0 && !IsSpace(k[0]) && '-' !in k && 'J' !in k
    requires IsDigits(n)
    ensures var info := k + " JORNADA " + n;
      && |info| > 0 && !IsSpace(info[0]) && !IsSpace(info[|info| - 1]) && '-' !in info
      && (k + " ") + "JORNADA " + n == info && 'J' !in k + " "
  {
    var info := k + " JORNADA " + n;
    assert info[0] == k[0] && info[|info| - 1] == n[|n| - 1];
  }

  lemma InfoMayusculas(k: string, n: string)
    requires Upper(k) == k && IsDigits(n)
    ensures Upper(k + " JORNADA " + n) == k + " JORNADA " + n
  {
    UpperAppend(k, " JORNADA ");
    assert Upper(" JORNADA ") == " JORNADA ";
    UpperAppend(k + " JORNADA ", n);
    DigitosMayusculas(n);
  }

  /** Heading and date of `<info> - <date>` come apart at the hyphen. */
  lemma PartesCabeceraIda(info: string, f: string)
    requires |info| > 0 && !IsSpace(info[0]) && !IsSpace(info[|info| - 1]) && '-' !in info && Upper(info) == info
    requires |f| > 0 && Upper(f) == f && !IsSpace(f[0]) && !IsSpace(f[|f| - 1])
    ensures Partes(Cabecera(info + " - " + f)) == (info, f)
  {
    CabeceraIda(info, f);
    PartesGuion(info, f);
  }

  lemma PartesGuion(info: string, f: string)
    requires |info| > 0 && !IsSpace(info[0]) && !IsSpace(info[|info| - 1]) && '-' !in info
    requires |f| > 0 && !IsSpace(f[0]) && !IsSpace(f[|f| - 1])
    ensures Partes(info + " - " + f) == (info, f)
  {
    Tramos(info, f);
    PartesIda(info + " ", " " + f);
    StripPadding("", info, " ");
    assert "" + info + " " == info + " ";
    StripSinBordes(info);
    StripPadding(" ", f, "");
    assert " " + f + "" == " " + f;
    StripSinBordes(f);
  }

  lemma Tramos(info: string, f: string)
    requires '-' !in info
    ensures info + " - " + f == (info + " ") + "-" + (" " + f)
    ensures '-' !in info + " "
  {
  }

  /**
   * Round and matchday are read from the text before the first hyphen only:
   * whatever follows the hyphen becomes the date, normalised on its own.
   */
  lemma CortarEnGuion(a: string, b: string)
    requires '-' !in a
    ensures ParsearJornada(a).fecha == ""
    ensures ParsearJornada(a + "-" + b) == Jornada(ParsearJornada(a).ronda, ParsearJornada(a).jornada, Cabecera(b))
  {
    CabeceraGuion(a, b);
  }

  /** The heading of `a-b` splits into the headings of `a` and of `b`. */
  lemma CabeceraGuion(a: string, b: string)
    requires '-' !in a
    ensures '-' !in Cabecera(a)
    ensures Partes(Cabecera(a + "-" + b)) == (Cabecera(a), Cabecera(b))
  {
    var x := Upper(a);
    var y := Upper(b);
    UpperAppend(a + "-", b);
    UpperAppend(a, "-");
    assert Upper("-") == "-";
    forall i | 0 <= i < |x|
      ensures x[i] != '-'
    {
      assert x[i] == UpperChar(a[i]) && a[i] != '-';
    }
    assert Upper(a + "-" + b) == x + ['-'] + y;
    StripSeparador(x, '-', y);
    StripSinCaracter(x, '-');
    SplitFirstIda(LStrip(x), '-', RStrip(y));
    StripDeLStrip(x);
    StripDeRStrip(y);
  }

  /**
   * A heading without a round, `JORNADA <n> - <date>`, reads no round, the
   * number n and the date in capitals without its outer whitespace.
   */
  lemma JornadaSinRonda(n: string, f: string)
    requires IsDigits(n)
    ensures ParsearJornada("JORNADA " + n + " - " + f) == Jornada("", n, Cabecera(f))
  {
    var info := "JORNADA " + n;
    JornadaSinGuion(n);
    assert "JORNADA " + n + " - " + f == (info + " ") + "-" + (" " + f);
    CortarEnGuion(info + " ", " " + f);
    CabeceraEspacio(f);
    LeerSinRonda(n);
  }

  /** A leading space does not change a heading. */
  lemma CabeceraEspacio(f: string)
    ensures Cabecera(" " + f) == Cabecera(f)
  {
    NormInsensitive(f, " ", "");
    assert " " + f + "" == " " + f;
  }

  /** `JORNADA <n> ` on its own reads no round and the number n. */
  lemma LeerSinRonda(n: string)
    requires IsDigits(n)
    ensures ParsearJornada("JORNADA " + n + " ").ronda == ""
    ensures ParsearJornada("JORNADA " + n + " ").jornada == n
  {
    var info := "JORNADA " + n;
    CabeceraJornada(n);
    JornadaSinGuion(n);
    JornadaSinCSF(n);
    SinClaves(info);
    NumeroAlFinal("", n);
    assert "" + "JORNADA " + n == info;
  }

  /** `JORNADA <n> ` is its own heading once the final space is gone. */
  lemma CabeceraJornada(n: string)
    requires IsDigits(n)
    ensures Cabecera("JORNADA " + n + " ") == "JORNADA " + n
  {
    var info := "JORNADA " + n;
    var t := info + " ";
    JornadaMayusculas(n);
    assert Cabecera(t) == Strip(t);
    StripPadding("", info, " ");
    assert "" + info + " " == t;
    JornadaSinBordes(n);
    StripSinBordes(info);
  }

  lemma JornadaSinBordes(n: string)
    requires IsDigits(n)
    ensures var info := "JORNADA " + n; |info| > 0 && !IsSpace(info[0]) && !IsSpace(info[|info| - 1])
  {
    var info := "JORNADA " + n;
    assert info[0] == 'J' && info[|info| - 1] == n[|n| - 1];
  }

  lemma JornadaMayusculas(n: string)
    requires IsDigits(n)
    ensures Upper("JORNADA " + n + " ") == "JORNADA " + n + " "
  {
    assert Upper("JORNADA ") == "JORNADA " && Upper(" ") == " ";
    DigitosMayusculas(n);
    UpperAppend("JORNADA ", n);
    UpperAppend("JORNADA " + n, " ");
  }

  lemma JornadaSinGuion(n: string)
    requires IsDigits(n)
    ensures '-' !in "JORNADA " + n && '-' !in "JORNADA " + n + " "
  {
    assert forall i :: 0 <= i < |n| ==> ("JORNADA " + n)[8 + i] == n[i];
  }

  lemma JornadaSinCSF(n: string)
    requires IsDigits(n)
    ensures forall i :: 0 <= i < |"JORNADA " + n| ==> SinCSF(("JORNADA " + n)[i])
  {
    assert forall i :: 0 <= i < |n| ==> ("JORNADA " + n)[8 + i] == n[i];
  }

  /** None of the first letters of the three round keywords. */
  predicate SinCSF(c: char) {
    c != 'C' && c != 'S' && c != 'F'
  }

  /** A text without the letters C, S and F holds no round keyword. */
  lemma SinClaves(info: string)
    requires forall i :: 0 <= i < |info| ==> SinCSF(info[i])
    ensures RondaDe(info) == ""
  {
    forall q: nat | q <= |info|
      ensures !RondaEn(info, q)
    {
      AtPrimero(info, q, "CUARTOS DE FINAL");
      AtPrimero(info, q, "SEMIFINAL");
      AtPrimero(info, q, "FINAL");
    }
  }

  /** An occurrence starts with the word's first character. */
  lemma AtPrimero(s: string, q: nat, w: string)
    requires |w| > 0
    ensures At(s, q, w) ==> q < |s| && s[q] == w[0]
  {
    if At(s, q, w) {
      assert s[q..q + |w|][0] == s[q];
    }
  }

  /** Such a heading is already trimmed and in capitals. */
  lemma CabeceraIda(info: string, f: string)
    requires |info| > 0 && !IsSpace(info[0]) && Upper(info) == info
    requires |f| > 0 && Upper(f) == f && !IsSpace(f[|f| - 1])
    ensures Cabecera(info + " - " + f) == info + " - " + f
  {
    var t := info + " - " + f;
    UpperAppend(info, " - ");
    assert Upper(" - ") == " - ";
    UpperAppend(info + " - ", f);
    StripSinBordes(t);
  }

  /** The heading used as the example in the parser's documentation. */
  lemma EjemploDocumentado()
    ensures ParsearJornada("SEMIFINAL" + " Jornada " + "1" + " - " + "10/12/2023") == Jornada("SEMIFINAL", "1", "10/12/2023")
  {
    PalabraMixta();
    FechaEjemplo();
    ParsearJornadaMixta("SEMIFINAL", " Jornada ", "1", "10/12/2023");
  }

  lemma PalabraMixta()
    ensures Upper(" Jornada ") == " JORNADA "
  {
  }

  lemma FechaEjemplo()
    ensures Upper("10/12/2023") == "10/12/2023" && IsDigits("1")
  {
  }

  /** The word JORNADA may be written in any case. */
  lemma ParsearJornadaMixta(k: string, w: string, n: string, f: string)
    requires k == "CUARTOS DE FINAL" || k == "SEMIFINAL" || k == "FINAL"
    requires Upper(w) == " JORNADA "
    requires IsDigits(n)
    requires |f| > 0 && Upper(f) == f && !IsSpace(f[0]) && !IsSpace(f[|f| - 1])
    ensures ParsearJornada(k + w + n + " - " + f) == Jornada(k, n, f)
  {
    FormaPalabra(k);
    DigitosMayusculas(n);
    assert Upper(" - ") == " - ";
    UpperAppend(k, w);
    UpperAppend(k + w, n);
    UpperAppend(k + w + n, " - ");
    UpperAppend(k + w + n + " - ", f);
    ParsearJornadaNormaliza(k + w + n + " - " + f, "", "");
    ParsearJornadaIda(k, n, f);
  }

  /** Digits have no lower case. */
  lemma DigitosMayusculas(n: string)
    requires IsDigits(n)
    ensures Upper(n) == n
  {
  }
}
