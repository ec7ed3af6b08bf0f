/**
 * The validity filter of the exploratory analysis: a match row is kept when
 * its fase, ronda, nivel and zona are all non-empty strings none of which
 * reads "DESCONOCIDO" once trimmed and upper-cased. That test lets the
 * feminine sentinel "Desconocida" through, which is what the parsers write
 * for an unknown fase, ronda or zona; a corrected test that rejects both
 * sentinels is defined alongside. Reading the CSV file and the later
 * aggregations are not part of this model.
 */
module Eda {
  import opened Values
  import opened Text
  import Fases

  /** A row of the merged CSV file; every cell may be a string or another value (NaN). */
  datatype FilaCsv = FilaCsv(
    fase: Value, ronda: Value, nivel: Value, zona: Value,
    grupo: Value, categoria: Value, local: Value, visitante: Value, ptsL: Value, ptsV: Value)

  /** `c and isinstance(c, str) and c.strip().upper() != "DESCONOCIDO"`. */
  predicate CampoValido(c: Value) {
    c.Str? && c.s != "" && Upper(Strip(c.s)) != "DESCONOCIDO"
  }

  /** `es_valido`. */
  predicate EsValido(f: FilaCsv) {
    CampoValido(f.fase) && CampoValido(f.ronda) && CampoValido(f.nivel) && CampoValido(f.zona)
  }

  predicate EsInvalido(f: FilaCsv) {
    !EsValido(f)
  }

  /** `df_total[df_total["valido"]]`. */
  function Validos(filas: seq<FilaCsv>): (r: seq<FilaCsv>)
    ensures forall i :: 0 <= i < |r| ==> EsValido(r[i])
  {
    Filtrar(filas, EsValido)
  }

  /** `df_total[~df_total["valido"]]`. */
  function Invalidos(filas: seq<FilaCsv>): (r: seq<FilaCsv>)
    ensures forall i :: 0 <= i < |r| ==> !EsValido(r[i])
  {
    Filtrar(filas, EsInvalido)
  }

  /** Every row lands in exactly one of the two frames, as often as it occurs. */
  lemma Particion(filas: seq<FilaCsv>)
    ensures multiset(Validos(filas)) + multiset(Invalidos(filas)) == multiset(filas)
    ensures |Validos(filas)| + |Invalidos(filas)| == |filas|
  {
    FiltrarParticion(filas, EsValido, EsInvalido);
    assert |multiset(filas)| == |filas|;
  }

  /** The sentinel in any case and with any outer whitespace invalidates the field. */
  lemma DesconocidoInvalida(x: string, p: string, q: string)
    requires AllSpace(p) && AllSpace(q)
    requires Upper(x) == "DESCONOCIDO"
    ensures !CampoValido(Str(p + x + q))
  {
    var d := Upper(x);
    StripPadding(p, x, q);
    StripUpper(x);
    assert Upper(Strip(p + x + q)) == Strip(d);
    SinBordes(d);
  }

  lemma SinBordes(d: string)
    requires d == "DESCONOCIDO"
    ensures Strip(d) == d
  {
    assert d[0] == 'D' && d[|d| - 1] == 'O';
    StripSinBordes(d);
  }

  /** The feminine sentinel "Desconocida" does not invalidate a field. */
  lemma DesconocidaValida()
    ensures CampoValido(Str(DESCONOCIDA))
  {
    TerminaEnA(DESCONOCIDA);
  }

  /** A non-empty word without outer whitespace that ends in 'a' is never read as the masculine sentinel. */
  lemma TerminaEnA(d: string)
    requires |d| == 11 && d[0] == 'D' && d[10] == 'a'
    ensures CampoValido(Str(d))
  {
    StripSinBordes(d);
    var u := Upper(d);
    assert u[10] == 'A';
    var m := "DESCONOCIDO";
    assert m[10] == 'O';
    assert u != m;
  }

  /**
   * As written, the filter keeps a row whose fase is the phase parser's
   * unknown stage: that sentinel is the feminine "Desconocida".
   */
  lemma FaseDesconocidaSeConserva(f: FilaCsv)
    requires CampoValido(f.ronda) && CampoValido(f.nivel) && CampoValido(f.zona)
    requires f.fase == Str(Fases.Fase.FaseDesconocida.Texto())
    ensures EsValido(f) && Validos([f]) == [f]
  {
    DesconocidaValida();
  }

  // ---------------------------------------------------------------- corrected filter

  /** The field test that rejects both sentinels, masculine and feminine. */
  predicate CampoConocido(c: Value) {
    CampoValido(c) && Upper(Strip(c.s)) != "DESCONOCIDA"
  }

  predicate EsConocido(f: FilaCsv) {
    CampoConocido(f.fase) && CampoConocido(f.ronda) && CampoConocido(f.nivel) && CampoConocido(f.zona)
  }

  predicate EsDesconocido(f: FilaCsv) {
    !EsConocido(f)
  }

  /** The rows that name every field, under the corrected test. */
  function Conocidos(filas: seq<FilaCsv>): (r: seq<FilaCsv>)
    ensures forall i :: 0 <= i < |r| ==> EsConocido(r[i]) && EsValido(r[i])
  {
    Filtrar(filas, EsConocido)
  }

  function Desconocidos(filas: seq<FilaCsv>): (r: seq<FilaCsv>)
    ensures forall i :: 0 <= i < |r| ==> !EsConocido(r[i])
  {
    Filtrar(filas, EsDesconocido)
  }

  /** Either sentinel, in any case and with any outer whitespace, invalidates the field. */
  lemma SentinelaRechazada(x: string, p: string, q: string)
    requires AllSpace(p) && AllSpace(q)
    requires Upper(x) == "DESCONOCIDO" || Upper(x) == "DESCONOCIDA"
    ensures !CampoConocido(Str(p + x + q))
  {
    var d := Upper(x);
    StripPadding(p, x, q);
    StripUpper(x);
    assert Upper(Strip(p + x + q)) == Strip(d);
    if d == "DESCONOCIDO" {
      SinBordes(d);
    } else {
      SinBordesA(d);
    }
  }

  lemma SinBordesA(d: string)
    requires d == "DESCONOCIDA"
    ensures Strip(d) == d
  {
    assert d[0] == 'D' && d[|d| - 1] == 'A';
    StripSinBordes(d);
  }

  /** Every row lands in exactly one of the two corrected frames, as often as it occurs. */
  lemma ParticionConocidos(filas: seq<FilaCsv>)
    ensures multiset(Conocidos(filas)) + multiset(Desconocidos(filas)) == multiset(filas)
    ensures |Conocidos(filas)| + |Desconocidos(filas)| == |filas|
  {
    FiltrarParticion(filas, EsConocido, EsDesconocido);
    assert |multiset(filas)| == |filas|;
  }

  /** An empty text or a non-string cell invalidates the field. */
  lemma VacioInvalida(id: nat)
    ensures !CampoValido(Str("")) && !CampoValido(NonStr(id))
  {
  }

  /** grupo, category, teams and scores play no part in validity. */
  lemma OtrosCamposIrrelevantes(f: FilaCsv, g: Value, c: Value, l: Value, v: Value, a: Value, b: Value)
    ensures EsValido(f.(grupo := g, categoria := c, local := l, visitante := v, ptsL := a, ptsV := b)) == EsValido(f)
  {
  }
}
