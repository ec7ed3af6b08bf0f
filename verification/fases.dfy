/**
 * `parsear_fase`: the text of a tournament heading, read under the rules of
 * one season, gives the competition stage (fase), the round (ronda), the
 * level (nivel), the zone (zona) and, in 2023, the group letter (grupo).
 * Each season's rules are an ordered chain: the first rule whose test holds
 * decides, and a field no rule sets keeps its sentinel.
 */
module Fases {
  import opened Values
  import opened Text
  import opened Patterns

  /** The competition stage. */
  datatype Fase = FaseDesconocida | FaseRegular | Playoff | FinalFour {
    /** The string the code writes. */
    function Texto(): string {
      match this
      case FaseDesconocida => DESCONOCIDA
      case FaseRegular => "Fase Regular"
      case Playoff => "Playoff"
      case FinalFour => "FINAL FOUR"
    }
  }

  /** The round within a stage. */
  datatype Ronda =
    | RondaDesconocida | PrimeraFase | SegundaFase | TerceraFase | Octavos | Cuartos
    | Semifinal | Final | Estimulo | PlayIn | CopaFebamba
  {
    /** The string the code writes. */
    function Texto(): string {
      match this
      case RondaDesconocida => DESCONOCIDA
      case PrimeraFase => "1ra Fase"
      case SegundaFase => "2da Fase"
      case TerceraFase => "3ra Fase"
      case Octavos => "Octavos de Final"
      case Cuartos => "Cuartos de Final"
      case Semifinal => "Semifinal"
      case Final => "Final"
      case Estimulo => "Estimulo"
      case PlayIn => "Play In"
      case CopaFebamba => "Copa Febamba"
    }
  }

  /** The textual levels a rule can write, besides a digit string. */
  const NIVELES: set<string> := {
    DESCONOCIDO, INTERCONFERENCIA, "INTERCONFERENCIA A", "INTERCONFERENCIA B", "NIVELACION", "Desc"
  }
  /** The zones the playoff helpers look for, in the order they look. */
  const ZONAS: seq<string> := ["SUR", "CENTRO", "NORTE", "OESTE"]

  datatype FaseInfo = FaseInfo(fase: Fase, ronda: Ronda, nivel: Nivel, zona: string, grupo: string)

  /** The record when no rule applies. */
  function Sentinelas(): FaseInfo {
    FaseInfo(FaseDesconocida, RondaDesconocida, Etiqueta(DESCONOCIDO), DESCONOCIDA, DESCONOCIDO)
  }

  /** A record without a group, which is what every rule except the 2023 conference one builds. */
  function Info(fase: Fase, ronda: Ronda, nivel: Nivel, zona: string): FaseInfo {
    FaseInfo(fase, ronda, nivel, zona, DESCONOCIDO)
  }

  predicate NivelBienFormado(n: Nivel) {
    match n
    case Numero(k) => 1 <= k <= 3
    case Etiqueta(s) => s in NIVELES || Fits(s, Digits)
  }

  predicate ZonaBienFormada(z: string) {
    z == DESCONOCIDA || z == "Desc" || (|z| > 0 && AllIn(z, Letter))
  }

  /**
   * What every season's chain guarantees: each field takes one of the
   * values the rules write, and a record whose fase is unknown is the
   * sentinel record (every rule that applies sets the fase).
   */
  predicate Coherente(r: FaseInfo) {
    && NivelBienFormado(r.nivel)
    && ZonaBienFormada(r.zona)
    && (r.fase == FaseDesconocida ==> r == Sentinelas())
  }

  lemma ZonasBienFormadas()
    ensures forall z :: z in ZONAS ==> ZonaBienFormada(z)
    ensures ZonaBienFormada("SUR") && ZonaBienFormada("CENTRO") && ZonaBienFormada("NORTE") && ZonaBienFormada("OESTE")
    ensures ZonaBienFormada(INTERCONFERENCIA)
  {
    assert AllIn("SUR", Letter);
    assert AllIn("CENTRO", Letter);
    assert AllIn("NORTE", Letter);
    assert AllIn("OESTE", Letter);
    assert AllIn(INTERCONFERENCIA, Letter);
  }

  lemma DigitsBienFormados(g: string)
    requires Fits(g, OneDigit) || Fits(g, Digits)
    ensures IsDigits(g)
  {
  }

  // ---------------------------------------------------------------- shared helpers

  /** The position in `ws` of the first word that occurs in `x` (`for z in ws: if z in x`). */
  function PrimeraEn(x: string, ws: seq<string>): (r: Option<nat>)
    ensures r.Some? ==> r.value < |ws| && Contains(x, ws[r.value])
    ensures r.Some? ==> forall j :: 0 <= j < r.value ==> !Contains(x, ws[j])
    ensures r.None? ==> forall j :: 0 <= j < |ws| ==> !Contains(x, ws[j])
  {
    if |ws| == 0 then None
    else if Contains(x, ws[0]) then Some(0)
    else match PrimeraEn(x, ws[1..])
      case Some(i) => Some(i + 1)
      case None => None
  }

  /** The first of SUR, CENTRO, NORTE, OESTE, in that order, that `x` contains. */
  function PrimeraZona(x: string): (r: Option<string>)
    ensures r.Some? ==> r.value in ZONAS && Contains(x, r.value)
    ensures r.None? ==> forall z :: z in ZONAS ==> !Contains(x, z)
    ensures r == Some("SUR") <==> Contains(x, "SUR")
    ensures r == Some("CENTRO") ==> !Contains(x, "SUR")
    ensures r == Some("NORTE") ==> !Contains(x, "SUR") && !Contains(x, "CENTRO")
    ensures r == Some("OESTE") ==> !Contains(x, "SUR") && !Contains(x, "CENTRO") && !Contains(x, "NORTE")
  {
    var p := PrimeraEn(x, ZONAS);
    if p.Some? then
      ZonaEnLista(x, p.value);
      Some(ZONAS[p.value])
    else None
  }

  /** The zone at list position `i` is named by its position, and no zone listed before it occurs. */
  lemma ZonaEnLista(x: string, i: nat)
    requires i < |ZONAS| && forall j :: 0 <= j < i ==> !Contains(x, ZONAS[j])
    ensures i == 0 <==> ZONAS[i] == "SUR"
    ensures ZONAS[i] == "CENTRO" ==> i == 1 && !Contains(x, "SUR")
    ensures ZONAS[i] == "NORTE" ==> i == 2 && !Contains(x, "SUR") && !Contains(x, "CENTRO")
    ensures ZONAS[i] == "OESTE" ==> !Contains(x, "SUR") && !Contains(x, "CENTRO") && !Contains(x, "NORTE")
  {
    assert ZONAS[0] == "SUR" && ZONAS[1] == "CENTRO" && ZONAS[2] == "NORTE" && ZONAS[3] == "OESTE";
    assert ZONAS[0][0] == 'S' && ZONAS[1][0] == 'C' && ZONAS[2][0] == 'N' && ZONAS[3][0] == 'O';
  }

  /**
   * The first group of a `re.search` whose first group has the shape `sh`,
   * or the fallback when nothing matched.
   */
  function Grupo0(x: string, f: Matcher, sh: Shape, fallback: string): (r: string)
    requires forall q :: 0 <= q <= |x| ==> Ok(x, q, f(x, q), [sh])
    ensures Search(x, f).None? ==> r == fallback
    ensures Search(x, f).Some? ==> Fits(r, sh) && f(x, Search(x, f).value).value.groups == [r]
  {
    match Search(x, f)
    case Some(q) =>
      assert Ok(x, q, f(x, q), [sh]);
      f(x, q).value.groups[0]
    case None => fallback
  }

  /** A `CONF` match at `i` means the rest of the text from `i` contains CONF. */
  lemma ConfDigitContiene(x: string, i: nat)
    requires i < |x| && ConfDigit(x, i).Some?
    ensures Contains(x[i..], "CONF")
  {
    assert At(x, i, "CONF");
    assert x[i..][0..4] == x[i..i + 4];
    ContainsAt(x[i..], 0, "CONF");
  }

  /** A suffix of a text without CONF has none either. */
  lemma SinConfSufijo(x: string, i: nat)
    requires i < |x|
    ensures !Contains(x[i..], "CONF") ==> !Contains(x[i + 1..], "CONF")
  {
    if Contains(x[i + 1..], "CONF") {
      ContainsIff(x[i + 1..], "CONF");
      var k: nat :| At(x[i + 1..], k, "CONF");
      assert x[i + 1..][k..k + 4] == x[i..][k + 1..k + 5];
      ContainsAt(x[i..], k + 1, "CONF");
    }
  }

  /** `re.sub(r"CONF\s*(\d)", r"CONF \1", x)`: left to right, each match replaced and skipped. */
  function NormalizarConf(x: string, i: nat): (r: string)
    requires i <= |x|
    ensures !Contains(x[i..], "CONF") ==> r == x[i..]
    decreases |x| - i
  {
    if i == |x| then ""
    else
      var here := ConfDigit(x, i);
      if here.Some? then
        ConfDigitContiene(x, i);
        "CONF " + here.value.groups[0] + NormalizarConf(x, here.value.end)
      else
        SinConfSufijo(x, i);
        assert x[i..] == [x[i]] + x[i + 1..];
        [x[i]] + NormalizarConf(x, i + 1)
  }

  /**
   * Where the text holds `CONF`, any whitespace and a digit, the rewrite
   * writes `CONF`, one space and the digit, and goes on after the digit.
   */
  lemma NormalizarConfLee(x: string, i: nat, w: string, d: char)
    requires AllSpace(w) && IsDigit(d)
    requires i + |w| + 5 <= |x| && x[i..i + |w| + 5] == "CONF" + w + [d]
    ensures NormalizarConf(x, i) == "CONF " + [d] + NormalizarConf(x, i + |w| + 5)
  {
    ConfDigitLee(x, i, w, d);
    NormalizarConfPaso(x, i, i + |w| + 5, [d]);
  }

  /** One rewrite step at a match. */
  lemma NormalizarConfPaso(x: string, i: nat, e: nat, g: string)
    requires i < |x| && ConfDigit(x, i) == Some(Match(e, [g]))
    ensures e <= |x| && NormalizarConf(x, i) == "CONF " + g + NormalizarConf(x, e)
  {
  }

  /** The matcher reads `CONF`, the whitespace `w` and the digit `d` at `i`. */
  lemma ConfDigitLee(x: string, i: nat, w: string, d: char)
    requires AllSpace(w) && IsDigit(d)
    requires i + |w| + 5 <= |x| && x[i..i + |w| + 5] == "CONF" + w + [d]
    ensures ConfDigit(x, i) == Some(Match(i + |w| + 5, [[d]]))
  {
    var e := i + |w| + 4;
    var v := x[i..i + |w| + 5];
    assert At(x, i, "CONF") by { assert x[i..i + 4] == v[..4]; }
    forall m | i + 4 <= m < e ensures IsSpace(x[m]) {
      assert x[m] == v[m - i] == w[m - i - 4];
    }
    assert x[e] == v[|w| + 4] == d;
    SpanHasta(x, i + 4, e, Space);
    assert x[e..e + 1] == [d];
  }

  /** The glued `CONF1` of a heading is spaced out; the zone after it is kept. */
  lemma NormalizarConfEjemplo(z: string)
    requires !Contains(z, "CONF")
    ensures NormalizarConf("CONF1" + z, 0) == "CONF 1" + z
  {
    var x := "CONF1" + z;
    assert x[0..5] == "CONF" + "" + ['1'];
    NormalizarConfLee(x, 0, "", '1');
    assert x[5..] == z;
  }

  // ---------------------------------------------------------------- 2019 playoff helper

  /** Each `(old, new)` pair applied in turn with `str.replace`. */
  function Reemplazar(x: string, pares: seq<(string, string)>): string
    requires forall i :: 0 <= i < |pares| ==> |pares[i].0| > 0
    decreases |pares|
  {
    if |pares| == 0 then x else Reemplazar(Replace(x, pares[0].0, pares[0].1), pares[1..])
  }

  /** The typo repairs of the 2019 playoff helper, in the order it applies them. */
  const REPARACIONES_2019: seq<(string, string)> := [
    ("CURTOS", "CUARTOS"), ("CUARTOS DE FINA", "CUARTOS DE FINAL"), ("CONF1", "CONF 1"), ("CONF2", "CONF 2")
  ]

  /** The text the 2019 playoff helper reads: dots removed, typos repaired, `CONF n` spaced. */
  function Limpiar2019(text: string): string {
    var a := Strip(Upper(Replace(text, ".", "")));
    ReparacionesNoVacias();
    NormalizarConf(Reemplazar(a, REPARACIONES_2019), 0)
  }

  lemma ReparacionesNoVacias()
    ensures forall i :: 0 <= i < |REPARACIONES_2019| ==> |REPARACIONES_2019[i].0| > 0
  {
  }

  /** A `CONF` followed by a digit is a `CONF`. */
  lemma ConfDigitConf(x: string)
    ensures Search(x, ConfDigit).Some? ==> Contains(x, "CONF")
  {
    var q := Search(x, ConfDigit);
    if q.Some? {
      assert At(x, q.value, "CONF");
      ContainsAt(x, q.value, "CONF");
    }
  }

  /**
   * The override of the 2019 playoff helper: the text says INTERCONFERENCIA
   * and lacks a level (no CONF at all) or a zone.
   */
  predicate Interconferencia2019(x: string) {
    (!Contains(x, "CONF") || PrimeraZona(x).None?) && Contains(x, INTERCONFERENCIA)
  }

  /**
   * `_parsear_nivel_zona_playoffs_2019`, on the text `Limpiar2019` gives:
   * the level is the digit after the
   * first `CONF` ("1" when `CONF` carries no digit), the zone the first of
   * SUR, CENTRO, NORTE, OESTE the text contains; when either is missing and the text says INTERCONFERENCIA,
   * both become INTERCONFERENCIA.
   */
  function NivelZona2019(x: string): (r: (string, string))
    ensures r.0 == INTERCONFERENCIA <==> Interconferencia2019(x)
    ensures r.1 == INTERCONFERENCIA <==> Interconferencia2019(x)
    ensures !Interconferencia2019(x) && Search(x, ConfDigit).Some? ==>
      r.0 == ConfDigit(x, Search(x, ConfDigit).value).value.groups[0]
    ensures !Interconferencia2019(x) && Search(x, ConfDigit).None? && Contains(x, "CONF") ==> r.0 == "1"
    ensures !Interconferencia2019(x) && PrimeraZona(x).Some? ==> r.1 == PrimeraZona(x).value
    ensures r.0 == DESCONOCIDO || r.0 == INTERCONFERENCIA || Fits(r.0, OneDigit)
    ensures r.1 == DESCONOCIDA || r.1 == INTERCONFERENCIA || r.1 in ZONAS
    ensures r.1 in ZONAS ==> PrimeraZona(x) == Some(r.1)
    ensures r.0 == DESCONOCIDO <==> !Contains(x, "CONF") && !Contains(x, INTERCONFERENCIA)
    ensures r.1 == DESCONOCIDA <==> PrimeraZona(x).None? && !Contains(x, INTERCONFERENCIA)
  {
    var nivel: Option<string> :=
      var qConfDigit := Search(x, ConfDigit);
      if qConfDigit.Some? then
        var m := ConfDigit(x, qConfDigit.value).value;
        Some(m.groups[0])
      else if Contains(x, "CONF") then Some("1") else None;
    var zona := PrimeraZona(x);
    ConfDigitConf(x);
    if (nivel.None? || zona.None?) && Contains(x, INTERCONFERENCIA) then (INTERCONFERENCIA, INTERCONFERENCIA)
    else (if nivel.Some? then nivel.value else DESCONOCIDO, if zona.Some? then zona.value else DESCONOCIDA)
  }

  /** The one exact 2022 heading: `CUARTOS NIVEL 3` is a playoff of level 3 in CENTRO. */
  lemma CuartosNivel3_2022()
    ensures Fase2022("CUARTOS NIVEL 3") == Info(Playoff, RondaDesconocida, Etiqueta("3"), "CENTRO")
  {
    NotContainsLonger("CUARTOS NIVEL 3", "FASE DE CLASIFICACION");
    NotContainsLonger("CUARTOS NIVEL 3", "FASE CLASIFICACION");
  }

  // ---------------------------------------------------------------- 2023 playoff helper

  /** The text the 2023 playoff helper reads: dots and hyphens become spaces, double spaces single. */
  function Limpiar2023(texto: string): string {
    Strip(Reemplazar(Upper(texto), [(".", " "), ("-", " "), ("  ", " ")]))
  }

  /**
   * `_parsear_nivel_zona_playoffs_2023`, on the text `Limpiar2023` gives:
   * INTERCONFERENCIA anywhere decides
   * both fields; otherwise the level is the first digit standing alone as a
   * word and the zone the first of SUR, CENTRO, NORTE, OESTE the text
   * contains.
   */
  function NivelZona2023(x: string): (r: (string, string))
    ensures r.0 == INTERCONFERENCIA <==> Contains(x, INTERCONFERENCIA)
    ensures r.1 == INTERCONFERENCIA <==> Contains(x, INTERCONFERENCIA)
    ensures r.0 == DESCONOCIDO || r.0 == INTERCONFERENCIA || Fits(r.0, OneDigit)
    ensures r.1 == DESCONOCIDA || r.1 == INTERCONFERENCIA || r.1 in ZONAS
    ensures r.1 in ZONAS ==> PrimeraZona(x) == Some(r.1)
    ensures r.0 == DESCONOCIDO ==> Search(x, LoneDigit).None?
    ensures var q := Search(x, LoneDigit);
      !Contains(x, INTERCONFERENCIA) && q.Some? ==> q.value < |x| && IsDigit(x[q.value]) && r.0 == [x[q.value]]
    ensures !Contains(x, INTERCONFERENCIA) && Search(x, LoneDigit).None? ==> r.0 == DESCONOCIDO
    ensures !Contains(x, INTERCONFERENCIA) && PrimeraZona(x).Some? ==> r.1 == PrimeraZona(x).value
    ensures !Contains(x, INTERCONFERENCIA) && PrimeraZona(x).None? ==> r.1 == DESCONOCIDA
  {
    if Contains(x, INTERCONFERENCIA) then (INTERCONFERENCIA, INTERCONFERENCIA)
    else
      var zona := PrimeraZona(x);
      (Grupo0(x, LoneDigit, OneDigit, DESCONOCIDO), if zona.Some? then zona.value else DESCONOCIDA)
  }

  // ---------------------------------------------------------------- 2019

  /** The 2019 rules. */
  function Fase2019(t: string): (r: FaseInfo)
    ensures Coherente(r) && r.grupo == DESCONOCIDO
    ensures r.nivel.Numero? ==> r.ronda == Estimulo
  {
    ZonasBienFormadas();
    if || Contains(t, "SUR 1RA FASE") || Contains(t, "CENTRO 1RA FASE")
       || Contains(t, "NORTE 1RA FASE") || Contains(t, "OESTE 1RA FASE") then
      var zona :=
        if Contains(t, "SUR") then "SUR"
        else if Contains(t, "CENTRO") then "CENTRO"
        else if Contains(t, "NORTE") then "NORTE"
        else if Contains(t, "OESTE") then "OESTE"
        else DESCONOCIDA;
      Info(FaseRegular, PrimeraFase, Etiqueta(DESCONOCIDO), zona)
    else if t == "FINAL INTERCONFERENCIAS 1" then
      Info(FinalFour, Final, Etiqueta("1"), INTERCONFERENCIA)
    else if t == "FINAL INTERCONFERENCIA 2" then
      Info(FinalFour, Final, Etiqueta("2"), INTERCONFERENCIA)
    else if t == "FINALES INTERCONFERENCIAS 2" then
      Info(FinalFour, Semifinal, Etiqueta("2"), INTERCONFERENCIA)
    else if t == "FINALES INTERCONFERENCIAS 1" then
      Info(FinalFour, Semifinal, Etiqueta("1"), INTERCONFERENCIA)
    else if t == "FINAL INTERCONFERENCIAS" then
      Info(Playoff, Final, Etiqueta(INTERCONFERENCIA), INTERCONFERENCIA)
    else Fase2019Conferencias(t)
  }

  /** `<ZONA> 1RA FASE` is a first-phase heading of that zone. */
  lemma PrimeraFase2019Zona(z: string)
    requires z in ZONAS
    ensures Fase2019(z + " 1RA FASE") == Info(FaseRegular, PrimeraFase, Etiqueta(DESCONOCIDO), z)
  {
    PrimeraFase2019Dispara(z);
    PrimeraFase2019Elige(z);
  }

  /** The heading passes the first-phase test. */
  lemma PrimeraFase2019Dispara(z: string)
    requires z in ZONAS
    ensures var t := z + " 1RA FASE";
      || Contains(t, "SUR 1RA FASE") || Contains(t, "CENTRO 1RA FASE")
      || Contains(t, "NORTE 1RA FASE") || Contains(t, "OESTE 1RA FASE")
  {
    var t := z + " 1RA FASE";
    ContainsSelf(t);
    if z == "SUR" {
      assert t == "SUR 1RA FASE";
    } else if z == "CENTRO" {
      assert t == "CENTRO 1RA FASE";
    } else if z == "NORTE" {
      assert t == "NORTE 1RA FASE";
    } else {
      assert t == "OESTE 1RA FASE";
    }
  }

  /** The first zone the heading names is its own. */
  lemma PrimeraFase2019Elige(z: string)
    requires z in ZONAS
    ensures var t := z + " 1RA FASE";
      z == (if Contains(t, "SUR") then "SUR"
            else if Contains(t, "CENTRO") then "CENTRO"
            else if Contains(t, "NORTE") then "NORTE"
            else if Contains(t, "OESTE") then "OESTE"
            else DESCONOCIDA)
  {
    ContainsPiece("", z, " 1RA FASE");
    assert "" + z + " 1RA FASE" == z + " 1RA FASE";
    ZonasAnteriores(z);
  }

  /** The heading of a zone names none of the zones listed before it. */
  lemma ZonasAnteriores(z: string)
    requires z in ZONAS
    ensures var t := z + " 1RA FASE";
      && (z != "SUR" ==> !Contains(t, "SUR"))
      && (z == "NORTE" || z == "OESTE" ==> !Contains(t, "CENTRO"))
      && (z == "OESTE" ==> !Contains(t, "NORTE"))
  {
    var t := z + " 1RA FASE";
    assert 'U' !in " 1RA FASE" && 'C' !in " 1RA FASE" && 'N' !in " 1RA FASE";
    if z != "SUR" {
      assert 'U' !in z;
      NotContainsByChar(t, "SUR", 'U');
    }
    if z == "NORTE" || z == "OESTE" {
      assert 'C' !in z;
      NotContainsByChar(t, "CENTRO", 'C');
    }
    if z == "OESTE" {
      NotContainsByChar(t, "NORTE", 'N');
    }
  }

  /** The 2019 rules after the exact interconference finals, in the same order. */
  function Fase2019Conferencias(t: string): (r: FaseInfo)
    ensures Coherente(r) && r.grupo == DESCONOCIDO
    ensures r.nivel.Numero? ==> r.ronda == Estimulo
  {
    ZonasBienFormadas();
    if Contains(t, "CONFERENCIA") && Contains(t, "2DA FASE") then
      Conferencia2daFase2019(t)
    else if && Contains(t, "CONFERENCIA") && Contains(t, "FINAL")
            && !Contains(t, "FINAL CONFERENCIA") && !Contains(t, "FINAL INTERCONFERENCIA")
            && !Contains(t, "FINALES INTERCONFERENCIAS") && !Contains(t, "FINAL INTERONFERENCIAS") then
      Conferencia3raFase2019(t)
    else Fase2019Eliminatorias(t)
  }

  /** The 2019 rules from the round of sixteen on, in the same order. */
  function Fase2019Eliminatorias(t: string): (r: FaseInfo)
    ensures Coherente(r) && r.grupo == DESCONOCIDO
    ensures r.nivel.Numero? ==> r.ronda == Estimulo
  {
    ZonasBienFormadas();
    if Contains(t, "OCTAVOS DE FINAL") then
      if t == "OCTAVOS DE FINAL" then
        Info(Playoff, Octavos, Etiqueta(INTERCONFERENCIA), INTERCONFERENCIA)
      else Playoff2019(Octavos, t)
    else if Contains(t, "CUARTOS DE FINAL") then
      if Contains(t, "INTERCONFERENCIAS") then
        Info(Playoff, Cuartos, Etiqueta(INTERCONFERENCIA), INTERCONFERENCIA)
      else Playoff2019(Cuartos, t)
    else if Contains(t, "SEMIFINALES") || Contains(t, "SEMFINALES") then
      Playoff2019(Semifinal, t)
    else if Contains(t, "INTERCONFERENCIA") || Contains(t, "DESEMPATE") then
      Info(FaseRegular, SegundaFase, Etiqueta(INTERCONFERENCIA), INTERCONFERENCIA)
    else if Contains(t, "ESTIMULO") then
      var zona :=
        if Contains(t, "CENTRO") then "CENTRO"
        else if Contains(t, "NORTE/CENTRO") then "NORTE"
        else if Contains(t, "OESTE") then "OESTE"
        else DESCONOCIDA;
      Info(FaseRegular, Estimulo, Numero(3), zona)
    else if t == "CURTOS DE FINA CONF 1 NORTE" then
      Info(Playoff, Cuartos, Etiqueta("1"), "NORTE")
    else if t == "CUARTOS DE FINA CONF 2 CENTRO" then
      Info(Playoff, Cuartos, Etiqueta("2"), "CENTRO")
    else if Contains(t, "FINAL CONFERENCIA") then
      Playoff2019(Final, t)
    else Sentinelas()
  }

  /** A 2019 playoff round whose level and zone come from the playoff helper. */
  function Playoff2019(ronda: Ronda, t: string): (r: FaseInfo)
    ensures Coherente(r) && r.fase == Playoff && r.ronda == ronda && r.grupo == DESCONOCIDO
    ensures var nz := NivelZona2019(Limpiar2019(t)); r.nivel == Etiqueta(nz.0) && r.zona == nz.1
  {
    ZonasBienFormadas();
    var nz := NivelZona2019(Limpiar2019(t));
    Info(Playoff, ronda, Etiqueta(nz.0), nz.1)
  }

  /** `CONFERENCIA ... 2DA FASE`: zone then level, level then zone, or the level alone. */
  function Conferencia2daFase2019(t: string): (r: FaseInfo)
    ensures Coherente(r) && r.fase == FaseRegular && r.ronda == SegundaFase && r.grupo == DESCONOCIDO
    ensures r.nivel.Etiqueta? && (r.nivel.texto == DESCONOCIDO || IsDigits(r.nivel.texto))
  {
    var qConfZonaNivel := Search(t, ConfZonaNivel);
    if qConfZonaNivel.Some? then
      var m := ConfZonaNivel(t, qConfZonaNivel.value).value;
      Info(FaseRegular, SegundaFase, Etiqueta(m.groups[1]), m.groups[0])
    else
      var qConfNivelZona := Search(t, ConfNivelZona);
      if qConfNivelZona.Some? then
        var m := ConfNivelZona(t, qConfNivelZona.value).value;
        Info(FaseRegular, SegundaFase, Etiqueta(m.groups[0]), m.groups[1])
      else Info(FaseRegular, SegundaFase, Etiqueta(Grupo0(t, ConfNivel, Digits, DESCONOCIDO)), DESCONOCIDA)
  }

  /** `CONFERENCIA <ZONA> <n> 2DA FASE` gives that zone and level. */
  lemma SegundaFase2019ZonaNivel(z: string, n: string)
    requires Fits(z, Letters) && Fits(n, Digits)
    ensures Conferencia2daFase2019("CONFERENCIA " + z + " " + n + " 2DA FASE")
         == Info(FaseRegular, SegundaFase, Etiqueta(n), z)
  {
    ConfZonaNivelLee("CONFERENCIA " + z + " " + n + " 2DA FASE", z, n);
  }

  /** The zone-then-level pattern reads the zone and the level from the start. */
  lemma ConfZonaNivelLee(t: string, z: string, n: string)
    requires Fits(z, Letters) && Fits(n, Digits)
    requires t == "CONFERENCIA " + z + " " + n + " 2DA FASE"
    ensures ConfZonaNivel(t, 0) == Some(Match(13 + |z| + |n|, [z, n]))
  {
    ConferenciaDosPiezas(t, z, n);
    var c := 12 + |z|;
    var e := c + 1 + |n|;
    SpanHasta(t, 11, 12, Space);
    SpanHasta(t, 12, c, Letter);
    SpanHasta(t, c, c + 1, Space);
    SpanHasta(t, c + 1, e, Digit);
  }

  /** `CONFERENCIA <n> <ZONA> 2DA FASE` gives the same zone and level. */
  lemma SegundaFase2019NivelZona(n: string, z: string)
    requires Fits(n, Digits) && z in ZONAS
    ensures Conferencia2daFase2019("CONFERENCIA " + n + " " + z + " 2DA FASE")
         == Info(FaseRegular, SegundaFase, Etiqueta(n), z)
  {
    var t := "CONFERENCIA " + n + " " + z + " 2DA FASE";
    ZonaSinF(z);
    SinZonaNivel(t, n, z);
    ConfNivelZonaLee(t, n, z);
  }

  /** The level-then-zone pattern reads the level and the zone from the start. */
  lemma ConfNivelZonaLee(t: string, n: string, z: string)
    requires Fits(n, Digits) && Fits(z, Letters)
    requires t == "CONFERENCIA " + n + " " + z + " 2DA FASE"
    ensures ConfNivelZona(t, 0) == Some(Match(13 + |n| + |z|, [n, z]))
  {
    ConferenciaDosPiezas(t, n, z);
    var c := 12 + |n|;
    var e := c + 1 + |z|;
    SpanHasta(t, 11, 12, Space);
    SpanHasta(t, 12, c, Digit);
    SpanHasta(t, c, c + 1, Space);
    SpanHasta(t, c + 1, e, Letter);
  }

  /** The 2019 zones are letters without an `F`. */
  lemma ZonaSinF(z: string)
    requires z in ZONAS
    ensures Fits(z, Letters) && 'F' !in z
  {
    ZonasBienFormadas();
  }

  /** With the level first, the zone-then-level pattern finds nothing. */
  lemma SinZonaNivel(t: string, n: string, z: string)
    requires Fits(n, Digits) && 'F' !in z
    requires t == "CONFERENCIA " + n + " " + z + " 2DA FASE"
    ensures Search(t, ConfZonaNivel).None?
  {
    ConferenciaDosPiezas(t, n, z);
    SinConferenciaTardia(t, n, z);
    SpanHasta(t, 11, 12, Space);
    SpanHasta(t, 12, 12, Letter);
    assert ConfZonaNivel(t, 0).None?;
  }

  /** Where each piece of `CONFERENCIA <a> <b> 2DA FASE` sits. */
  lemma ConferenciaDosPiezas(t: string, a: string, b: string)
    requires t == "CONFERENCIA " + a + " " + b + " 2DA FASE"
    ensures var c := 12 + |a|; var e := c + 1 + |b|;
      && |t| == e + 9 && At(t, 0, "CONFERENCIA") && t[12..c] == a && t[c + 1..e] == b
      && t[11] == ' ' && t[c] == ' ' && t[e] == ' '
      && (forall m :: 12 <= m < c ==> t[m] == a[m - 12])
      && (forall m :: c + 1 <= m < e ==> t[m] == b[m - c - 1])
  {
    var c := 12 + |a|;
    var e := c + 1 + |b|;
    assert t[..11] == "CONFERENCIA" && t[12..c] == a && t[c + 1..e] == b;
  }

  /** Past its start, the conference text above holds no second `CONFERENCIA`. */
  lemma SinConferenciaTardia(t: string, n: string, z: string)
    requires Fits(n, Digits) && 'F' !in z
    requires t == "CONFERENCIA " + n + " " + z + " 2DA FASE"
    ensures forall p: nat :: 0 < p ==> !At(t, p, "CONFERENCIA")
  {
    var e := 13 + |n| + |z|;
    assert t[4..e + 2] == "ERENCIA " + n + " " + z + " 2";
    assert 'F' !in n;
    assert 'F' !in t[4..e + 2];
    forall p: nat | 0 < p && p + 11 <= |t|
      ensures !At(t, p, "CONFERENCIA")
    {
      assert t[p + 3] == t[4..e + 2][p - 1];
      assert t[p..p + 11][3] == t[p + 3] != 'F';
    }
  }

  /** `CONFERENCIA n ZONA FINAL` or `CONFERENCIA ZONA n FINAL`; otherwise both fields "Desc". */
  function Conferencia3raFase2019(t: string): (r: FaseInfo)
    ensures Coherente(r) && r.fase == FaseRegular && r.ronda == TerceraFase && r.grupo == DESCONOCIDO
    ensures r.zona == "Desc" <==> r.nivel == Etiqueta("Desc")
  {
    var qConfNivelZonaFinal := Search(t, ConfNivelZonaFinal);
    if qConfNivelZonaFinal.Some? then
      var m := ConfNivelZonaFinal(t, qConfNivelZonaFinal.value).value;
      NoEsCentinela(m.groups[1]);
      Info(FaseRegular, TerceraFase, Etiqueta(m.groups[0]), m.groups[1])
    else
      var qConfZonaNivelFinal := Search(t, ConfZonaNivelFinal);
      if qConfZonaNivelFinal.Some? then
        var m := ConfZonaNivelFinal(t, qConfZonaNivelFinal.value).value;
        NoEsCentinela(m.groups[0]);
        Info(FaseRegular, TerceraFase, Etiqueta(m.groups[1]), m.groups[0])
      else Info(FaseRegular, TerceraFase, Etiqueta("Desc"), "Desc")
  }

  // ---------------------------------------------------------------- 2022

  /** The 2022 rules. */
  function Fase2022(t: string): (r: FaseInfo)
    ensures Coherente(r) && r.grupo == DESCONOCIDO && r.nivel.Etiqueta?
    ensures (Contains(t, "FASE DE CLASIFICACION") || Contains(t, "FASE CLASIFICACION")) ==>
      r.fase == FaseRegular && r.ronda == PrimeraFase && r.zona == DESCONOCIDA
  {
    ZonasBienFormadas();
    if Contains(t, "FASE DE CLASIFICACION") || Contains(t, "FASE CLASIFICACION") then
      Info(FaseRegular, PrimeraFase, Etiqueta(Grupo0(t, ClasificacionNivel, Digits, DESCONOCIDO)), DESCONOCIDA)
    else if t == "CUARTOS NIVEL 3" then
      Info(Playoff, RondaDesconocida, Etiqueta("3"), "CENTRO")
    else if Contains(t, "ANEXO NIVEL") then
      Info(FaseRegular, SegundaFase, Etiqueta(Grupo0(t, NivelNumero, Digits, DESCONOCIDO)), "CENTRO")
    else if Contains(t, "NIVEL") && !Contains(t, "FASE") then
      Info(FaseRegular, SegundaFase, Etiqueta(Grupo0(t, NivelNumero, Digits, DESCONOCIDO)), DESCONOCIDA)
    else if Contains(t, "INTERCONFERENCIAS") then
      Info(FaseRegular, SegundaFase, Etiqueta(INTERCONFERENCIA), INTERCONFERENCIA)
    else if Contains(t, "PLAY OFF") then
      Info(Playoff, RondaDesconocida, Etiqueta(DESCONOCIDO), DESCONOCIDA)
    else if Contains(t, "FINAL FOUR") then
      Info(FinalFour, RondaDesconocida, Etiqueta(DESCONOCIDO), DESCONOCIDA)
    else Sentinelas()
  }

  // ---------------------------------------------------------------- 2023

  /** The 2023 rules. */
  function Fase2023(t: string): (r: FaseInfo)
    ensures Coherente(r)
    ensures r.grupo != DESCONOCIDO ==> Fits(r.grupo, OneLetter) && r.fase == FaseRegular && r.ronda == SegundaFase
    ensures r.nivel.Numero? ==> r.nivel == Numero(3) && r.zona == "CENTRO"
  {
    ZonasBienFormadas();
    if t == "FASE REGULAR" then
      Info(FaseRegular, PrimeraFase, Etiqueta(DESCONOCIDO), DESCONOCIDA)
    else if Contains(t, "OCTAVOS DE FINAL") then
      if Contains(t, INTERCONFERENCIA) then
        Info(Playoff, Octavos, Etiqueta(INTERCONFERENCIA), INTERCONFERENCIA)
      else
        var nivel :=
          if Contains(t, "1") then "1"
          else if Contains(t, "2") then "2"
          else if Contains(t, "3") then "3"
          else DESCONOCIDO;
        Info(Playoff, Octavos, Etiqueta(nivel), DESCONOCIDA)
    else if Contains(t, "CUARTOS DE FINAL") then
      Cuartos2023(t)
    else if Contains(t, "SEMIFINAL") then
      if Contains(t, "3 SUR") then Info(Playoff, Semifinal, Etiqueta("3"), "SUR")
      else Info(Playoff, Semifinal, Etiqueta(DESCONOCIDO), DESCONOCIDA)
    else if Contains(t, "INTERCONFERENCIAS") then
      Info(FaseRegular, SegundaFase, Etiqueta(INTERCONFERENCIA), INTERCONFERENCIA)
    else if Contains(t, "CONFERENCIA") then
      Conferencia2023(t)
    else if Contains(t, "CONF 3 INTERZONALES") then
      Info(FaseRegular, SegundaFase, Numero(3), "CENTRO")
    else Sentinelas()
  }

  /**
   * The zone repairs of the 2023 quarter-finals: a zone read as `0ESTE...`,
   * `ESTE` or `O` is OESTE.
   */
  function RepararZona(z: string): (r: string)
    ensures r != "ESTE" && r != "O" && !(|r| >= 5 && r[..5] == "0ESTE")
    ensures (z == "ESTE" || z == "O" || (|z| >= 5 && z[..5] == "0ESTE")) ==> r == "OESTE"
    ensures !(z == "ESTE" || z == "O" || (|z| >= 5 && z[..5] == "0ESTE")) ==> r == z
  {
    assert "OESTE"[0] != "0ESTE"[0];
    if |z| >= 5 && z[..5] == "0ESTE" then "OESTE"
    else if z == "ESTE" then "OESTE"
    else if z == "O" then "OESTE"
    else z
  }

  /**
   * The level and zone of a 2023 quarter-final before the repairs: the
   * helper's answer when the text names a CONFERENCIA, then overridden by
   * INTERCONFERENCIA or by the first of the four `CUARTOS DE FINAL` patterns
   * that matches. The level is never empty, so the code's later fallback to
   * a lone digit (taken only for an empty level) never fires.
   */
  function NivelZonaCuartos2023(t: string): (r: (string, string))
    ensures r.0 != ""
    ensures r.0 == DESCONOCIDO || r.0 == INTERCONFERENCIA || Fits(r.0, OneDigit)
    ensures r.1 == DESCONOCIDA || r.1 == INTERCONFERENCIA || r.1 in ZONAS || Fits(r.1, Letters)
    ensures Contains(t, INTERCONFERENCIA) ==> r == (INTERCONFERENCIA, INTERCONFERENCIA)
  {
    var base := if Contains(t, "CONFERENCIA") then NivelZona2023(Limpiar2023(t)) else (DESCONOCIDO, DESCONOCIDA);
    if Contains(t, INTERCONFERENCIA) || Contains(t, "INTERCONFERENCIAS") then (INTERCONFERENCIA, INTERCONFERENCIA)
    else
      var qCuartosZonaNivel := Search(t, CuartosZonaNivel);
      if qCuartosZonaNivel.Some? then
        var m := CuartosZonaNivel(t, qCuartosZonaNivel.value).value;
        (m.groups[1], m.groups[0])
      else
        var qCuartosNivelZona := Search(t, CuartosNivelZona);
        if qCuartosNivelZona.Some? then
          var m := CuartosNivelZona(t, qCuartosNivelZona.value).value;
          (m.groups[0], m.groups[1])
        else
          var qCuartosZona := Search(t, CuartosZona);
          if qCuartosZona.Some? then
            var m := CuartosZona(t, qCuartosZona.value).value;
            (base.0, m.groups[0])
          else
            var qCuartosNivel := Search(t, CuartosNivel);
            if qCuartosNivel.Some? then
              var m := CuartosNivel(t, qCuartosNivel.value).value;
              (m.groups[0], base.1)
            else base
  }

  /** A 2023 quarter-final: Playoff, with the round left unknown as the code leaves it. */
  function Cuartos2023(t: string): (r: FaseInfo)
    ensures Coherente(r) && r.fase == Playoff && r.ronda == RondaDesconocida && r.grupo == DESCONOCIDO
    ensures r.nivel == Etiqueta(NivelZonaCuartos2023(t).0)
    ensures r.zona == RepararZona(NivelZonaCuartos2023(t).1)
  {
    ZonasBienFormadas();
    var nz := NivelZonaCuartos2023(t);
    var nivel := nz.0;
    var zona := RepararZona(nz.1);
    assert ZonaBienFormada(zona) by {
      if zona == "OESTE" { assert ZONAS[3] == "OESTE"; }
    }
    Info(Playoff, RondaDesconocida, Etiqueta(nivel), zona)
  }

  /**
   * A 2023 `CONFERENCIA` heading: the level after CONFERENCIA, then the
   * zone (and group letter) from the first of four layouts that matches.
   */
  function Conferencia2023(t: string): (r: FaseInfo)
    ensures Coherente(r) && r.fase == FaseRegular && r.ronda == SegundaFase
    ensures r.grupo == DESCONOCIDO || Fits(r.grupo, OneLetter)
    ensures r.nivel.Etiqueta?
  {
    var nivel := Grupo0(t, ConfOptNivel, Digits, DESCONOCIDO);
    var qConfNivelZonaGrupo := Search(t, ConfNivelZonaGrupo);
    if qConfNivelZonaGrupo.Some? then
      var m := ConfNivelZonaGrupo(t, qConfNivelZonaGrupo.value).value;
      FaseInfo(FaseRegular, SegundaFase, Etiqueta(nivel), m.groups[0], m.groups[1])
    else
      var qConfZonaNivelGrupo := Search(t, ConfZonaNivelGrupo);
      if qConfZonaNivelGrupo.Some? then
        var m := ConfZonaNivelGrupo(t, qConfZonaNivelGrupo.value).value;
        FaseInfo(FaseRegular, SegundaFase, Etiqueta(m.groups[1]), m.groups[0], m.groups[2])
      else
        var qConfNivelZonaSimple := Search(t, ConfNivelZonaSimple);
        if qConfNivelZonaSimple.Some? then
          var m := ConfNivelZonaSimple(t, qConfNivelZonaSimple.value).value;
          Info(FaseRegular, SegundaFase, Etiqueta(nivel), m.groups[0])
        else
          var qConfZonaNivelSimple := Search(t, ConfZonaNivelSimple);
          if qConfZonaNivelSimple.Some? then
            var m := ConfZonaNivelSimple(t, qConfZonaNivelSimple.value).value;
            Info(FaseRegular, SegundaFase, Etiqueta(nivel), m.groups[0])
          else Info(FaseRegular, SegundaFase, Etiqueta(nivel), DESCONOCIDA)
  }

  // ---------------------------------------------------------------- 2024 and 2025

  /** The 2024 rules. */
  function Fase2024(t: string): (r: FaseInfo)
    ensures Coherente(r) && r.grupo == DESCONOCIDO
    ensures r.nivel.Etiqueta? ==> r.nivel.texto in {DESCONOCIDO, "INTERCONFERENCIA A", "INTERCONFERENCIA B"}
    ensures Contains(t, "1ER ETAPA") && !Contains(t, "2DA") ==>
      r == Info(FaseRegular, PrimeraFase, Etiqueta(DESCONOCIDO), DESCONOCIDA)
  {
    ZonasBienFormadas();
    if Contains(t, "1ER ETAPA") && !Contains(t, "2DA") then
      Info(FaseRegular, PrimeraFase, Etiqueta(DESCONOCIDO), DESCONOCIDA)
    else if Contains(t, "1ER ETAPA 2DA FASE") then
      Info(FaseRegular, SegundaFase, Etiqueta(DESCONOCIDO), DESCONOCIDA)
    else if Contains(t, "FASE FINAL") then
      Info(FaseRegular, TerceraFase, Etiqueta(DESCONOCIDO), DESCONOCIDA)
    else if Contains(t, "RECLASIFICACION") then
      Info(FaseRegular, TerceraFase, Numero(3), if Contains(t, "NORTE") then "NORTE" else DESCONOCIDA)
    else if Contains(t, "INTERCONFERRENCIAS B") then
      Info(Playoff, RondaDesconocida, Etiqueta("INTERCONFERENCIA B"), INTERCONFERENCIA)
    else if t == "NIVEL 1 NORTE SEMIFINALES" then
      Info(Playoff, RondaDesconocida, Numero(1), "NORTE")
    else if Contains(t, "PLAY IN") || Contains(t, "PLAY INN") then
      Info(Playoff, PlayIn, if Contains(t, "NIVEL 2") then Numero(2) else Etiqueta(DESCONOCIDO), DESCONOCIDA)
    else if Contains(t, "PLAY OFF") then
      PlayOff2024(t)
    else if Contains(t, "SEMIFINAL") then
      Info(Playoff, RondaDesconocida, Etiqueta(DESCONOCIDO), DESCONOCIDA)
    else if t == "SEMIFIANL NIVEL 1 SUR" then
      Info(Playoff, RondaDesconocida, Numero(1), "SUR")
    else Sentinelas()
  }

  /** A 2024 PLAY OFF heading: later tests override earlier ones. */
  function PlayOff2024(t: string): (r: FaseInfo)
    ensures Coherente(r) && r.fase == Playoff && r.grupo == DESCONOCIDO
    ensures Contains(t, "INTERCONFERENCIAS A") ==> r.nivel == Etiqueta("INTERCONFERENCIA A") && r.zona == INTERCONFERENCIA
    ensures !Contains(t, "INTERCONFERENCIAS A") && Contains(t, "NIVEL 1") ==> r.nivel == Numero(1)
    ensures r.nivel.Etiqueta? ==> r.nivel.texto in {DESCONOCIDO, "INTERCONFERENCIA A"}
  {
    ZonasBienFormadas();
    var n0 := Etiqueta(DESCONOCIDO);
    var n1 := if Contains(t, "-NIVEL 2") then Numero(2) else n0;
    var n2 := if Contains(t, "NIVEL 1") then Numero(1) else n1;
    if Contains(t, "INTERCONFERENCIAS A") then
      Info(Playoff, RondaDesconocida, Etiqueta("INTERCONFERENCIA A"), INTERCONFERENCIA)
    else Info(Playoff, RondaDesconocida, n2, DESCONOCIDA)
  }

  /** The 2025 rules: one heading shape, the NIVELACION cup. */
  function Fase2025(t: string): (r: FaseInfo)
    ensures Coherente(r) && r.grupo == DESCONOCIDO
    ensures r != Sentinelas() <==> Contains(t, "1ER ETAPA")
    ensures r != Sentinelas() ==> r == Info(FaseRegular, CopaFebamba, Etiqueta("NIVELACION"), DESCONOCIDA)
  {
    if Contains(t, "1ER ETAPA") then Info(FaseRegular, CopaFebamba, Etiqueta("NIVELACION"), DESCONOCIDA)
    else Sentinelas()
  }

  // ---------------------------------------------------------------- entry point

  /**
   * `parsear_fase`: the text is upper-cased and stripped, then read under
   * the rules of its season; a season without rules gives the sentinels.
   */
  function ParsearFase(year: int, texto: string): (r: FaseInfo)
    ensures Coherente(r)
    ensures year !in {2019, 2022, 2023, 2024, 2025} ==> r == Sentinelas()
    ensures r.grupo != DESCONOCIDO ==> year == 2023 && Fits(r.grupo, OneLetter) && r.ronda == SegundaFase
    ensures r.nivel.Numero? ==> year in {2019, 2023, 2024}
    ensures year == 2025 ==> (r == Sentinelas() <==> !Contains(Norm(texto), "1ER ETAPA"))
  {
    var t := Norm(texto);
    if year == 2019 then Fase2019(t)
    else if year == 2022 then Fase2022(t)
    else if year == 2023 then Fase2023(t)
    else if year == 2024 then Fase2024(t)
    else if year == 2025 then Fase2025(t)
    else Sentinelas()
  }

  /** Case and surrounding whitespace of the heading do not change the reading. */
  lemma ParsearFaseNormaliza(year: int, texto: string, p: string, q: string)
    requires AllSpace(p) && AllSpace(q)
    ensures ParsearFase(year, Upper(texto)) == ParsearFase(year, texto)
    ensures ParsearFase(year, p + texto + q) == ParsearFase(year, texto)
  {
    NormInsensitive(texto, p, q);
  }
}
