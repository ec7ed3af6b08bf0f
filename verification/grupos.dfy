/**
 * `parsear_grupo`: the text of a group selector, read together with the
 * phase text under the rules of one season, gives the level (nivel), the
 * zone (zona) and the group (grupo). Within a season the tests are plain
 * `if`s, so a later rule can overwrite what an earlier one set; the
 * functions below keep that order.
 */
module Grupos {
  import opened Values
  import opened Text
  import opened Patterns

  datatype GrupoInfo = GrupoInfo(nivel: Nivel, zona: string, grupo: string)

  const NIVELACION: string := "NIVELACION"
  const ZONAS_2023: seq<string> := ["NORTE", "SUR", "CENTRO", "OESTE"]

  /** The record of an empty group text. */
  function SinGrupo(): GrupoInfo {
    GrupoInfo(Etiqueta(DESCONOCIDO), DESCONOCIDO, DESCONOCIDO)
  }

  /** A group that is named, with an optional letter, or the single-group marker. */
  predicate GrupoSimple(g: string) {
    g == DESCONOCIDO || g == UNICO || Fits(g, OneLetter)
  }

  /** The group of a match whose optional letter may be missing: `g or "UNICO"`. */
  function OUnico(g: string): (r: string)
    ensures g == "" ==> r == UNICO
    ensures g != "" ==> r == g
  {
    if g == "" then UNICO else g
  }

  // ---------------------------------------------------------------- 2019

  /** The 2019 rules; the zone sentinel is the feminine one in this season only. */
  function Grupo2019(fase: string, grupo: string): (r: GrupoInfo)
    ensures r.nivel.Etiqueta?
    ensures GrupoSimple(r.grupo)
    ensures r.zona == DESCONOCIDA || r.zona == INTERCONFERENCIA || Fits(r.zona, Letters)
    ensures r.nivel.texto == DESCONOCIDO || r.nivel.texto == INTERCONFERENCIA || Fits(r.nivel.texto, OneDigit)
    ensures !Contains(fase, "1RA FASE") && !Contains(fase, "CONFERENCIA") ==>
      r.zona == DESCONOCIDA || r.zona == INTERCONFERENCIA
  {
    var d := GrupoInfo(Etiqueta(DESCONOCIDO), DESCONOCIDA, DESCONOCIDO);
    if Contains(fase, "1RA FASE") then Grupo2019PrimeraFase(grupo, d)
    else if Contains(fase, "CONFERENCIA") && Contains(fase, "2DA FASE") then Grupo2019SegundaFase(grupo, d)
    else Grupo2019Final(fase, grupo, d)
  }

  /** The conference final (the group letter alone) and the interconference phase. */
  function Grupo2019Final(fase: string, grupo: string, d: GrupoInfo): (r: GrupoInfo)
    requires d == GrupoInfo(Etiqueta(DESCONOCIDO), DESCONOCIDA, DESCONOCIDO)
    ensures r.grupo == DESCONOCIDO || Fits(r.grupo, OneLetter)
    ensures r.zona == DESCONOCIDA || r == GrupoInfo(Etiqueta(INTERCONFERENCIA), INTERCONFERENCIA, r.grupo)
    ensures r.nivel == Etiqueta(DESCONOCIDO) || r.nivel == Etiqueta(INTERCONFERENCIA)
    ensures r.grupo != DESCONOCIDO <==>
      ((Contains(fase, "CONFERENCIA") && Contains(fase, "FINAL")) || Contains(fase, INTERCONFERENCIA)) && Search(grupo, ZonaLetra).Some?
  {
    if Contains(fase, "CONFERENCIA") && Contains(fase, "FINAL") then
      var q := Search(grupo, ZonaLetra);
      if q.Some? then
        var m := ZonaLetra(grupo, q.value).value;
        d.(grupo := m.groups[0])
      else d
    else if Contains(fase, INTERCONFERENCIA) then
      var q := Search(grupo, ZonaLetra);
      if q.Some? then
        var m := ZonaLetra(grupo, q.value).value;
        GrupoInfo(Etiqueta(INTERCONFERENCIA), INTERCONFERENCIA, m.groups[0])
      else d
    else d
  }

  /** `CONFERENCIA NORTE 1 A`, or the same with the zone and level run together. */
  function Grupo2019PrimeraFase(grupo: string, d: GrupoInfo): (r: GrupoInfo)
    requires d == GrupoInfo(Etiqueta(DESCONOCIDO), DESCONOCIDA, DESCONOCIDO)
    ensures r == d || (Fits(r.zona, Letters) && r.nivel.Etiqueta? && Fits(r.nivel.texto, OneDigit) && Fits(r.grupo, OneLetter))
    ensures r != d <==> Search(grupo, ConfZonaNivelLetra).Some? || Search(grupo, ConfZonaPegadaLetra).Some?
  {
    var q := Search(grupo, ConfZonaNivelLetra);
    if q.Some? then
      var m := ConfZonaNivelLetra(grupo, q.value).value;
      GrupoInfo(Etiqueta(m.groups[1]), m.groups[0], m.groups[2])
    else
      var q2 := Search(grupo, ConfZonaPegadaLetra);
      if q2.Some? then
        var m := ConfZonaPegadaLetra(grupo, q2.value).value;
        GrupoInfo(Etiqueta(m.groups[1]), m.groups[0], m.groups[2])
      else d
  }

  /** The documented first-phase form `CONFERENCIA NORTE 1 A` gives back its zone, level and group. */
  lemma PrimeraFase2019Ida(z: string, n: char, l: char)
    requires Fits(z, Letters) && IsDigit(n) && IsUpper(l)
    ensures Grupo2019PrimeraFase("CONFERENCIA " + z + " " + [n] + " " + [l], GrupoInfo(Etiqueta(DESCONOCIDO), DESCONOCIDA, DESCONOCIDO))
         == GrupoInfo(Etiqueta([n]), z, [l])
  {
    var s := "CONFERENCIA " + z + " " + [n] + " " + [l];
    ConferenciaCasa(s, z, n, l);
    var q := Search(s, ConfZonaNivelLetra);
    assert q == Some(0) by {
      assert ConfZonaNivelLetra(s, 0).Some?;
    }
  }

  /** The first-phase matcher reads the documented form from its start. */
  lemma ConferenciaCasa(s: string, z: string, n: char, l: char)
    requires Fits(z, Letters) && IsDigit(n) && IsUpper(l)
    requires s == "CONFERENCIA " + z + " " + [n] + " " + [l]
    ensures ConfZonaNivelLetra(s, 0) == Some(Match(|s|, [z, [n], [l]]))
  {
    var c := 12 + |z|;
    ConferenciaForma(s, z, n, l);
    SpanHasta(s, 11, 12, Space);
    SpanHasta(s, 12, c, Letter);
    SpanHasta(s, c, c + 1, Space);
    SpanHasta(s, c + 2, c + 3, Space);
    assert Sp1(s, 11) == Some(12) && Run1(s, 12, Letter) == Some(c) && Sp1(s, c) == Some(c + 1);
    assert s[c + 1..c + 2] == [n] && s[c + 3..c + 4] == [l];
  }

  /** Where each piece of the documented first-phase form sits. */
  lemma ConferenciaForma(s: string, z: string, n: char, l: char)
    requires Fits(z, Letters) && IsDigit(n) && IsUpper(l)
    requires s == "CONFERENCIA " + z + " " + [n] + " " + [l]
    ensures At(s, 0, "CONFERENCIA") && |s| == |z| + 16 && s[12..12 + |z|] == z
    ensures s[11] == ' ' && In(s[11], Space) && !In(s[12], Space)
    ensures forall m :: 12 <= m < 12 + |z| ==> In(s[m], Letter)
    ensures s[12 + |z|] == ' ' && In(s[12 + |z|], Space) && !In(s[12 + |z|], Letter)
    ensures s[13 + |z|] == n && !In(n, Space) && IsDigit(n)
    ensures s[14 + |z|] == ' ' && In(s[14 + |z|], Space)
    ensures s[15 + |z|] == l && !In(l, Space) && IsUpper(l)
  {
    var c := 12 + |z|;
    assert s[..11] == "CONFERENCIA" && s[12..c] == z;
    assert forall m :: 12 <= m < c ==> s[m] == z[m - 12];
  }

  /**
   * The 2019 second phase, each pattern anchored at the start: group before
   * zone, zone before group, zone and level alone (a single group), and
   * finally a level before the zone anywhere in the text. The code tries the
   * zone-before-group pattern twice; the second try can never succeed where
   * the first failed, so it appears once here.
   */
  function Grupo2019SegundaFase(grupo: string, d: GrupoInfo): (r: GrupoInfo)
    requires d == GrupoInfo(Etiqueta(DESCONOCIDO), DESCONOCIDA, DESCONOCIDO)
    ensures r == d || (Fits(r.zona, Letters) && r.nivel.Etiqueta? && Fits(r.nivel.texto, OneDigit))
    ensures GrupoSimple(r.grupo)
    ensures ZonaGrupoZonaNivel(grupo, 0).Some? ==> r.grupo == ZonaGrupoZonaNivel(grupo, 0).value.groups[0]
    ensures r.grupo == UNICO <==>
      && ZonaGrupoZonaNivel(grupo, 0).None? && ZonaZonaGrupoNivel(grupo, 0).None?
      && (ZonaZonaNivel(grupo, 0).Some? || Search(grupo, ZonaNivelZona).Some?)
  {
    var a := ZonaGrupoZonaNivel(grupo, 0);
    if a.Some? then
      var m := a.value;
      GrupoInfo(Etiqueta(m.groups[2]), m.groups[1], m.groups[0])
    else
      var b := ZonaZonaGrupoNivel(grupo, 0);
      if b.Some? then
        var m := b.value;
        GrupoInfo(Etiqueta(m.groups[2]), m.groups[0], m.groups[1])
      else
        var c := ZonaZonaNivel(grupo, 0);
        if c.Some? then
          var m := c.value;
          GrupoInfo(Etiqueta(m.groups[1]), m.groups[0], UNICO)
        else
          var q := Search(grupo, ZonaNivelZona);
          if q.Some? then
            var m := ZonaNivelZona(grupo, q.value).value;
            GrupoInfo(Etiqueta(m.groups[0]), m.groups[1], UNICO)
          else d
  }


  // ---------------------------------------------------------------- 2022

  /** `ZONA <letter> <ZONA> <digit>` gives that group, zone and level. */
  lemma SegundaFase2019Ida(l: char, z: string, n: char)
    requires IsUpper(l) && Fits(z, Letters) && IsDigit(n)
    ensures Grupo2019SegundaFase("ZONA " + [l] + " " + z + " " + [n], GrupoInfo(Etiqueta(DESCONOCIDO), DESCONOCIDA, DESCONOCIDO))
         == GrupoInfo(Etiqueta([n]), z, [l])
  {
    ZonaGrupoCasa("ZONA " + [l] + " " + z + " " + [n], l, z, n);
  }

  /** The group-before-zone matcher reads the documented second-phase form. */
  lemma ZonaGrupoCasa(s: string, l: char, z: string, n: char)
    requires IsUpper(l) && Fits(z, Letters) && IsDigit(n)
    requires s == "ZONA " + [l] + " " + z + " " + [n]
    ensures ZonaGrupoZonaNivel(s, 0) == Some(Match(|s|, [[l], z, [n]]))
  {
    ZonaGrupoForma(s, l, z, n);
    var c := 7 + |z|;
    SpanHasta(s, 4, 5, Space);
    SpanHasta(s, 6, 7, Space);
    SpanHasta(s, 7, c, Letter);
    SpanHasta(s, c, c + 1, Space);
  }

  /** Where each piece of the documented second-phase form sits. */
  lemma ZonaGrupoForma(s: string, l: char, z: string, n: char)
    requires IsUpper(l) && Fits(z, Letters) && IsDigit(n)
    requires s == "ZONA " + [l] + " " + z + " " + [n]
    ensures var c := 7 + |z|;
      && At(s, 0, "ZONA") && s[7..c] == z && |s| == c + 2
      && (forall m :: 7 <= m < c ==> In(s[m], Letter))
      && In(s[4], Space) && !In(s[5], Space) && In(s[6], Space) && !In(s[7], Space)
      && In(s[c], Space) && !In(s[c], Letter) && !In(s[c + 1], Space)
      && UpperAt(s, 5) && DigitAt(s, c + 1) && s[5..6] == [l] && s[c + 1..c + 2] == [n]
  {
    var c := 7 + |z|;
    assert s[..4] == "ZONA" && s[7..c] == z;
    assert forall m :: 7 <= m < c ==> s[m] == z[m - 7];
    assert s[4] == ' ' && s[5] == l && s[6] == ' ' && s[c] == ' ' && s[c + 1] == n;
    assert IsSpace(' ') && !IsSpace(l) && !IsSpace(n) && !IsUpper(' ') && !IsSpace(z[0]);
  }

  /** The 2022 rules. */
  function Grupo2022(fase: string, grupo: string): (r: GrupoInfo)
    ensures r.nivel.Etiqueta?
    ensures Contains(fase, "CLASIFICACION") ==> GrupoSimple(r.grupo)
    ensures Contains(fase, "CLASIFICACION") && r.grupo != DESCONOCIDO ==> Fits(r.nivel.texto, OneDigit) && Fits(r.zona, WordRun)
    ensures !Contains(fase, "CLASIFICACION") && Contains(fase, "NIVEL") && (grupo == "SUR UNICA" || grupo == "ZONA UNICA") ==>
      r == GrupoInfo(Etiqueta(DESCONOCIDO), "SUR", UNICO)
    ensures !Contains(fase, "CLASIFICACION") && Contains(fase, "NIVEL") ==> r.nivel == Etiqueta(DESCONOCIDO)
  {
    var d := GrupoInfo(Etiqueta(DESCONOCIDO), DESCONOCIDO, DESCONOCIDO);
    if Contains(fase, "CLASIFICACION") then
      var q := Search(grupo, PalabraNivelLetra);
      if q.Some? then
        var m := PalabraNivelLetra(grupo, q.value).value;
        GrupoInfo(Etiqueta(m.groups[1]), m.groups[0], OUnico(m.groups[2]))
      else d
    else if Contains(fase, "NIVEL") then
      if grupo == "SUR UNICA" || grupo == "ZONA UNICA" then GrupoInfo(Etiqueta(DESCONOCIDO), "SUR", UNICO)
      else
        var q := Search(grupo, PalabraZona);
        if q.Some? then
          var m := PalabraZona(grupo, q.value).value;
          d.(zona := m.groups[0], grupo := m.groups[1])
        else d
    else Grupo2022Eliminatorias(fase, grupo, d)
  }

  /** The 2022 rules for the interconference, play-off and final-four phases. */
  function Grupo2022Eliminatorias(fase: string, grupo: string, d: GrupoInfo): (r: GrupoInfo)
    requires d == GrupoInfo(Etiqueta(DESCONOCIDO), DESCONOCIDO, DESCONOCIDO)
    ensures r.nivel.Etiqueta?
    ensures Contains(fase, "PLAY OFF") && !Contains(fase, "INTERCONFERENCIAS") && Contains(grupo, INTERCONFERENCIA) ==>
      r == GrupoInfo(Etiqueta(INTERCONFERENCIA), INTERCONFERENCIA, DESCONOCIDO)
    ensures !Contains(fase, "INTERCONFERENCIAS") ==> r.grupo == DESCONOCIDO
    ensures !Contains(fase, "INTERCONFERENCIAS") && !Contains(fase, "PLAY OFF") && !Contains(fase, "FINAL FOUR") ==> r == d
  {
    if Contains(fase, "INTERCONFERENCIAS") then
      var q := Search(grupo, ZonaLetra);
      if q.Some? then
        var m := ZonaLetra(grupo, q.value).value;
        GrupoInfo(Etiqueta(INTERCONFERENCIA), INTERCONFERENCIA, m.groups[0])
      else d
    else if Contains(fase, "PLAY OFF") then
      if Contains(grupo, INTERCONFERENCIA) then d.(nivel := Etiqueta(INTERCONFERENCIA), zona := INTERCONFERENCIA)
      else
        var q := Search(grupo, LetrasNivel);
        if q.Some? then
          var m := LetrasNivel(grupo, q.value).value;
          d.(nivel := Etiqueta(m.groups[1]), zona := m.groups[0])
        else d
    else if Contains(fase, "FINAL FOUR") then d.(zona := INTERCONFERENCIA)
    else d
  }

  /** A classification group `<ZONA> <digit>` with no letter is the single group of that zone and level. */
  lemma Clasificacion2022SinLetra(fase: string, z: string, n: char)
    requires Contains(fase, "CLASIFICACION") && Fits(z, Letters) && IsDigit(n)
    ensures Grupo2022(fase, z + " " + [n]) == GrupoInfo(Etiqueta([n]), z, UNICO)
  {
    var s := z + " " + [n];
    var c := |z|;
    assert forall m :: 0 <= m < c ==> s[m] == z[m];
    assert s[c] == ' ' && s[c + 1] == n && |s| == c + 2;
    assert IsSpace(' ') && !IsWordChar(' ') && !IsSpace(n);
    SpanHasta(s, 0, c, Word);
    SpanHasta(s, c, c + 1, Space);
    assert s[c + 1..c + 2] == [n] && s[0..c] == z;
    assert TDigitOptLetterAt(s, c) == Some((c + 2, [[n], ""]));
    assert PalabraNivelLetra(s, 0) == Some(Match(c + 2, [z, [n], ""]));
  }

  // ---------------------------------------------------------------- 2023

  /** What follows the word CONFERENCIA in the phase, as `split("CONFERENCIA")[1].strip().split()[0]`. */
  function NivelDeFase(fase: string): (r: Option<string>)
    requires Contains(fase, "CONFERENCIA")
    ensures r.None? <==> AllSpace(AfterFirst(fase, "CONFERENCIA"))
    ensures r.Some? ==> |r.value| > 0
  {
    FirstToken(AfterFirst(fase, "CONFERENCIA"))
  }

  /**
   * The 2023 rules. The regular-phase rule, the conference rules and the
   * interconference rule are separate tests, applied in that order; the
   * conference rules read the level from the phase text where the group
   * text has none, and raise `IndexError` when the phase has nothing after
   * the word CONFERENCIA.
   */
  function Grupo2023(fase: string, grupo: string): (r: Result<GrupoInfo>)
    ensures r.Failure? ==> Contains(fase, "CONFERENCIA") && NivelDeFase(fase).None?
    ensures r.Success? ==> r.value.nivel.Etiqueta?
    ensures !Contains(fase, "FASE REGULAR") && !Contains(fase, "CONFERENCIA") ==>
      r == Success(GrupoInfo(Etiqueta(DESCONOCIDO), DESCONOCIDO, DESCONOCIDO))
  {
    NivelDeInterconferencias();
    var d := GrupoInfo(Etiqueta(DESCONOCIDO), DESCONOCIDO, DESCONOCIDO);
    var r1 := if Contains(fase, "FASE REGULAR") then Regular2023(grupo, d) else d;
    if Contains(fase, "CONFERENCIA") then
      var g := RemoveChar(Replace(grupo, "0ESTE", "OESTE"), '"');
      var o := Conferencia2023(fase, g, r1);
      if o.Failure? then o else Success(Interconferencias2023(fase, g, o.value))
    else Success(Interconferencias2023(fase, grupo, r1))
  }

  const INTERCONFERENCIAS: string := "INTERCONFERENCIAS"

  /**
   * The interconference phase also contains the word CONFERENCIA, so the
   * conference rules read its group first: a bare zone is taken as the
   * zone, with a single group and, for level, the first word after
   * CONFERENCIA in the phase, which is the trailing "S" of the phase name.
   */
  lemma InterconferenciasLeeConferencia(z: string)
    requires z in ZONAS_2023
    ensures Grupo2023(INTERCONFERENCIAS, z) == Success(GrupoInfo(Etiqueta("S"), z, UNICO))
  {
    ZonaDe2023(z);
    SinEspacio(INTERCONFERENCIAS, "FASE REGULAR", 4);
    ZonaIntacta(z);
    ConferenciaDeZonaSola(z);
  }

  /** A 2023 zone survives the group clean-up and names no `ZONA` letter. */
  lemma ZonaIntacta(z: string)
    requires z in ZONAS_2023
    ensures RemoveChar(Replace(z, "0ESTE", "OESTE"), '"') == z
    ensures Search(z, ZonaLetra).None?
  {
    ZonaDe2023(z);
    SinCaracter(z, "0ESTE", 0);
    ReplaceAbsent(z, "0ESTE", "OESTE");
    SinCaracter(z, "ZONA", 0);
    forall q | 0 <= q <= |z| ensures ZonaLetra(z, q).None? {
      ContainsIff(z, "ZONA");
    }
  }

  /** The conference rules read a bare zone under the interconference phase. */
  lemma ConferenciaDeZonaSola(z: string)
    requires z in ZONAS_2023
    ensures Contains(INTERCONFERENCIAS, "CONFERENCIA")
    ensures Conferencia2023(INTERCONFERENCIAS, z, GrupoInfo(Etiqueta(DESCONOCIDO), DESCONOCIDO, DESCONOCIDO))
         == Success(GrupoInfo(Etiqueta("S"), z, UNICO))
  {
    ZonaDe2023(z);
    SinEspacio(INTERCONFERENCIAS, "OCTAVOS DE FINAL", 7);
    NivelDeInterconferencias();
    ZonaSola(z);
  }

  /** What the four zones of 2023 are made of: capital letters, no digit, no quote. */
  lemma ZonaDe2023(z: string)
    requires z in ZONAS_2023
    ensures Fits(z, Letters) && '"' !in z
    ensures forall i :: 0 <= i < |z| ==> z[i] != '0' && z[i] != 'Z'
  {
    assert AllIn("NORTE", Letter) && AllIn("SUR", Letter) && AllIn("CENTRO", Letter) && AllIn("OESTE", Letter);
  }

  lemma SinEspacio(s: string, w: string, k: nat)
    requires s == INTERCONFERENCIAS && k < |w| && w[k] == ' '
    ensures !Contains(s, w)
  {
    SinCaracter(s, w, k);
  }

  /** `"INTERCONFERENCIAS".split("CONFERENCIA")[1].strip().split()[0]` is "S". */
  lemma NivelDeInterconferencias()
    ensures Contains(INTERCONFERENCIAS, "CONFERENCIA")
    ensures NivelDeFase(INTERCONFERENCIAS) == Some("S")
  {
    var s := INTERCONFERENCIAS;
    var w := "CONFERENCIA";
    ConferenciaEnQuinto();
    assert s[16..] == "S";
    assert FindFrom("S", w, 0).None?;
    assert AfterFirst(s, w) == "S";
    TokenS();
  }

  /** CONFERENCIA first occurs in INTERCONFERENCIAS after INTER. */
  lemma ConferenciaEnQuinto()
    ensures FindFrom(INTERCONFERENCIAS, "CONFERENCIA", 0) == Some(5)
  {
    var s := INTERCONFERENCIAS;
    var w := "CONFERENCIA";
    assert At(s, 5, w) by { assert s[5..16] == w; }
    forall k: nat | k < 5 ensures !At(s, k, w) {
      assert s[k + 2] != w[2] by { assert s[..7] == "INTERCO"; }
    }
    var r := FindFrom(s, w, 0);
    assert r.Some?;
    assert r.value == 5;
  }

  lemma TokenS()
    ensures FirstToken("S") == Some("S")
  {
    assert !IsSpace('S');
    SpanHasta("S", 0, 0, Space);
    SpanHasta("S", 0, 1, NonSpace);
    assert "S"[0..1] == "S";
  }

  /** A bare zone reads as that zone alone; the glued forms, which need a digit, do not match. */
  lemma ZonaSola(z: string)
    requires Fits(z, Letters)
    ensures ZonaNivelGrupoOpt(z, 0) == Some(Match(|z|, [z, "", ""]))
    ensures ZonaNivelLetraFin(z, 0).None? && ZonaNivelFin(z, 0).None?
  {
    SpanHasta(z, 0, |z|, Letter);
    assert Run1(z, 0, Letter) == Some(|z|);
    assert Sp(z, |z|) == |z| && Span(z, |z|, Digit) == |z|;
    assert z[0..|z|] == z && z[|z|..|z|] == "";
  }

  /** `(\w+)\s*(\d)?["”]?([A-Z])?["”]?`: a zone word, an optional level and an optional group letter. */
  function Regular2023(grupo: string, d: GrupoInfo): (r: GrupoInfo)
    requires d == GrupoInfo(Etiqueta(DESCONOCIDO), DESCONOCIDO, DESCONOCIDO)
    ensures r == d || (Fits(r.zona, WordRun) && r.grupo != DESCONOCIDO)
    ensures r.nivel.Etiqueta? && (r.nivel.texto == DESCONOCIDO || Fits(r.nivel.texto, OneDigit))
    ensures r != d <==> Search(grupo, RegularGrupo).Some?
  {
    var q := Search(grupo, RegularGrupo);
    if q.Some? then
      var m := RegularGrupo(grupo, q.value).value;
      Grupos3(m.groups, WordRun, OptDigit, OptLetter);
      var nivel := if m.groups[1] == "" then DESCONOCIDO else m.groups[1];
      GrupoInfo(Etiqueta(nivel), m.groups[0], OUnico(m.groups[2]))
    else d
  }

  /** `fase == "INTERCONFERENCIAS"`: the group letter after ZONA. */
  function Interconferencias2023(fase: string, grupo: string, r0: GrupoInfo): (r: GrupoInfo)
    ensures r.nivel == r0.nivel && r.zona == r0.zona
    ensures fase != "INTERCONFERENCIAS" ==> r == r0
    ensures r.grupo != r0.grupo ==> Fits(r.grupo, OneLetter)
  {
    if fase == "INTERCONFERENCIAS" then
      var q := Search(grupo, ZonaLetra);
      if q.Some? then
        var m := ZonaLetra(grupo, q.value).value;
        r0.(grupo := m.groups[0])
      else r0
    else r0
  }

  /** The conference rules of 2023, on the group text with its quotes removed. */
  function Conferencia2023(fase: string, g: string, r0: GrupoInfo): (r: Result<GrupoInfo>)
    requires Contains(fase, "CONFERENCIA")
    requires r0.nivel.Etiqueta?
    ensures r.Failure? ==> NivelDeFase(fase).None?
    ensures r.Success? ==> r.value.nivel.Etiqueta?
    ensures Contains(fase, "OCTAVOS DE FINAL") && g in ZONAS_2023 ==>
      r == (if NivelDeFase(fase).None? then Failure("IndexError")
            else Success(GrupoInfo(Etiqueta(NivelDeFase(fase).value), g, UNICO)))
    ensures Contains(fase, "OCTAVOS DE FINAL") && g != "CENTRO 1" && g !in ZONAS_2023 ==> r == Success(r0)
  {
    var tok := NivelDeFase(fase);
    if Contains(fase, "OCTAVOS DE FINAL") then
      if g == "CENTRO 1" || g in ZONAS_2023 then
        if tok.None? then Failure("IndexError")
        else Success(GrupoInfo(Etiqueta(tok.value), if g == "CENTRO 1" then "CENTRO" else g, UNICO))
      else Success(r0)
    else
      var o := ZonaValida2023(g, tok, r0);
      if o.Failure? then o else Success(Pegados2023(g, o.value))
  }

  /**
   * `([A-Z]+)\s*(\d*)\s*([A-Z]?)` at the start: when the letters are one of
   * the four zones, the zone, the level (from the phase when the text has
   * none) and the group letter or the single-group marker.
   */
  function ZonaValida2023(g: string, tok: Option<string>, r0: GrupoInfo): (r: Result<GrupoInfo>)
    requires r0.nivel.Etiqueta?
    ensures r.Success? ==> r.value.nivel.Etiqueta?
    ensures r.Failure? ==> tok.None?
    ensures r.Success? && r.value != r0 ==> r.value.zona in ZONAS_2023 && r.value.grupo != DESCONOCIDO
    ensures ZonaNivelGrupoOpt(g, 0).None? ==> r == Success(r0)
  {
    var a := ZonaNivelGrupoOpt(g, 0);
    if a.Some? && a.value.groups[0] in ZONAS_2023 then
      var m := a.value;
      if m.groups[1] != "" then Success(GrupoInfo(Etiqueta(m.groups[1]), m.groups[0], OUnico(m.groups[2])))
      else if tok.None? then Failure("IndexError")
      else Success(GrupoInfo(Etiqueta(tok.value), m.groups[0], OUnico(m.groups[2])))
    else Success(r0)
  }

  /** `NORTE1A` and `NORTE1`, anchored at both ends, override whatever was read before. */
  function Pegados2023(g: string, r0: GrupoInfo): (r: GrupoInfo)
    requires r0.nivel.Etiqueta?
    ensures r.nivel.Etiqueta?
    ensures ZonaNivelFin(g, 0).Some? ==> r.grupo == UNICO && Fits(r.zona, Letters) && Fits(r.nivel.texto, OneDigit)
    ensures ZonaNivelLetraFin(g, 0).Some? && ZonaNivelFin(g, 0).None? ==> Fits(r.grupo, OneLetter)
    ensures ZonaNivelLetraFin(g, 0).None? && ZonaNivelFin(g, 0).None? ==> r == r0
  {
    var a := ZonaNivelLetraFin(g, 0);
    var r1 := if a.Some? then GrupoInfo(Etiqueta(a.value.groups[1]), a.value.groups[0], a.value.groups[2]) else r0;
    var b := ZonaNivelFin(g, 0);
    if b.Some? then GrupoInfo(Etiqueta(b.value.groups[1]), b.value.groups[0], UNICO) else r1
  }

  // ---------------------------------------------------------------- 2024

  /** `f"INTERCONFERENCIA {x}"`, the level of an interconference group of 2024. */
  function NivelInterconferencia(x: string): (r: string)
    ensures x == "A" ==> r == "INTERCONFERENCIA A"
    ensures x == "B" ==> r == "INTERCONFERENCIA B"
  {
    INTERCONFERENCIA + " " + x
  }

  const FLEX: string := "RECLASIFICACION FLEX"

  /** `""`, `“` and `”` all become the straight quote `"`. */
  function ComillasRectas(g: string): (r: string)
    ensures '\U{201D}' !in r
  {
    var a := Replace(Replace(g, "\"\"", "\""), "\U{201C}", "\"");
    ReplaceRemovesChar(a, '\U{201D}', "\"");
    Replace(a, "\U{201D}", "\"")
  }

  /** The group text of 2024: normalised again, quotes straightened, whitespace runs collapsed. */
  function Limpiar2024(grupo: string): (r: string)
    ensures |r| > 0 ==> !IsSpace(r[0]) && !IsSpace(r[|r| - 1])
  {
    Strip(CollapseSpaces(ComillasRectas(Norm(grupo))))
  }

  /**
   * `\b"?[A-Z]"?\b$` on a stripped text. The final `\b` needs a word
   * character before the end, so the text must end with the letter itself
   * (a closing quote would leave no word boundary), and the first `\b`
   * needs a non-word character before the letter or the letter alone; an
   * opening quote is such a character, so it needs no case of its own.
   */
  predicate LetraFinalAislada(g: string) {
    && |g| > 0 && IsUpper(g[|g| - 1])
    && (|g| == 1 || !IsWordChar(g[|g| - 2]))
  }

  /**
   * The 2024 rules. Three groups of tests run one after the other: the
   * flexible reclassification, then the final phase or the first stage,
   * then the second round of the first stage or the play-offs; each can
   * overwrite what the previous one set.
   */
  function Grupo2024(fase0: string, grupo0: string): (r: GrupoInfo)
    ensures r.nivel.Numero? ==> r.nivel == Numero(3) && Contains(Norm(fase0), FLEX)
    ensures
      var fase := Norm(fase0);
      !Contains(fase, FLEX) && !Contains(fase, "FASE FINAL") && !Contains(fase, "1ER ETAPA")
      && !Contains(fase, "PLAY OFF") && !Contains(fase, "PLAY IN") && !Contains(fase, "PLAY INN") ==>
      r == GrupoInfo(Etiqueta(DESCONOCIDO), DESCONOCIDO, DESCONOCIDO)
  {
    var fase := Norm(fase0);
    var grupo := Limpiar2024(grupo0);
    var d := GrupoInfo(Etiqueta(DESCONOCIDO), DESCONOCIDO, DESCONOCIDO);
    var r1 := if Contains(fase, FLEX) then Flex2024(grupo) else d;
    var r2 :=
      if Contains(fase, "FASE FINAL") then FaseFinal2024(grupo, r1)
      else if Contains(fase, "1ER ETAPA") && !Contains(fase, "2DA") then PrimeraEtapa2024(grupo, r1)
      else r1;
    if Contains(fase, "1ER ETAPA") && Contains(fase, "2DA") then SegundaRonda2024(grupo, r2)
    else if Contains(fase, "PLAY OFF") || Contains(fase, "PLAY IN") || Contains(fase, "PLAY INN") then PlayOff2024(grupo, r2)
    else r2
  }

  /** `([A-Z]+)\s*['”]?([A-Z\d])['”]?` at level 3, the groups 1 and 2 renamed A and B. */
  function Flex2024(grupo: string): (r: GrupoInfo)
    ensures r.nivel == Numero(3)
    ensures r.grupo != "1" && r.grupo != "2"
    ensures r.grupo == DESCONOCIDO || (Fits(r.grupo, LetterOrDigit) && Fits(r.zona, Letters))
    ensures r.grupo == DESCONOCIDO <==> Search(grupo, FlexZonaGrupo).None?
    ensures var q := Search(grupo, FlexZonaGrupo);
      q.Some? ==> r.zona == FlexZonaGrupo(grupo, q.value).value.groups[0]
    ensures var q := Search(grupo, FlexZonaGrupo);
      q.Some? ==> var g := FlexZonaGrupo(grupo, q.value).value.groups[1];
        && (g == "1" ==> r.grupo == "A")
        && (g == "2" ==> r.grupo == "B")
        && (g != "1" && g != "2" ==> r.grupo == g)
  {
    var q := Search(grupo, FlexZonaGrupo);
    if q.Some? then
      var m := FlexZonaGrupo(grupo, q.value).value;
      var g := m.groups[1];
      GrupoInfo(Numero(3), m.groups[0], if g == "1" then "A" else if g == "2" then "B" else g)
    else GrupoInfo(Numero(3), DESCONOCIDO, DESCONOCIDO)
  }

  /** A zone and the group number 1 or 2 read as the zone and the group A or B, at level 3. */
  lemma Flex2024Ida(z: string, d: char)
    requires Fits(z, Letters) && (d == '1' || d == '2')
    ensures Flex2024(z + " " + [d]) == GrupoInfo(Numero(3), z, if d == '1' then "A" else "B")
  {
    var s := z + " " + [d];
    FlexCasa(s, z, d);
    assert Search(s, FlexZonaGrupo) == Some(0) by {
      assert FlexZonaGrupo(s, 0).Some?;
    }
    assert [d] == "1" <==> d == '1';
    assert [d] == "2" <==> d == '2';
  }

  /** The reclassification matcher reads a zone, a space and a digit from the start. */
  lemma FlexCasa(s: string, z: string, d: char)
    requires Fits(z, Letters) && IsDigit(d)
    requires s == z + " " + [d]
    ensures FlexZonaGrupo(s, 0) == Some(Match(|s|, [z, [d]]))
  {
    var c := |z|;
    assert forall m :: 0 <= m < c ==> s[m] == z[m];
    assert s[c] == ' ' && s[c + 1] == d && |s| == c + 2;
    assert !In(' ', Letter) && IsSpace(' ') && !IsSpace(d) && !IsQuote(d);
    SpanHasta(s, 0, c, Letter);
    SpanHasta(s, c, c + 1, Space);
    assert Run1(s, 0, Letter) == Some(c);
    assert TLetterOrDigitAt(s, c) == Some((c + 2, [s[c + 1..c + 2]]));
    assert s[c + 1..c + 2] == [d] && s[0..c] == z;
  }

  /**
   * The final phase: a flexible reclassification at level `"3"` (a string
   * here), an interconference group, or a level, zone and group letter at
   * the end of the text, else a single group. The renaming of the groups 1
   * and 2 that follows the reclassification pattern cannot apply, since its
   * group is a letter.
   */
  function FaseFinal2024(grupo: string, r0: GrupoInfo): (r: GrupoInfo)
    requires r0.nivel.Numero? ==> r0.nivel == Numero(3)
    ensures r.nivel.Numero? ==> r == r0
    ensures Contains(grupo, FLEX) ==> r.nivel == Etiqueta("3")
    ensures !Contains(grupo, FLEX) && Contains(grupo, INTERCONFERENCIA) && r != r0 ==>
      r.zona == INTERCONFERENCIA && (r.nivel == Etiqueta("INTERCONFERENCIA A") || r.nivel == Etiqueta("INTERCONFERENCIA B"))
  {
    if Contains(grupo, FLEX) then
      var q := Search(grupo, FlexFinal);
      if q.Some? then
        var m := FlexFinal(grupo, q.value).value;
        GrupoInfo(Etiqueta("3"), m.groups[0], m.groups[1])
      else r0.(nivel := Etiqueta("3"))
    else if Contains(grupo, INTERCONFERENCIA) then
      var q := Search(grupo, InterZona);
      if q.Some? then
        var m := InterZona(grupo, q.value).value;
        GrupoInfo(Etiqueta(NivelInterconferencia(m.groups[0])), INTERCONFERENCIA, m.groups[1])
      else r0
    else
      var q := Search(grupo, NivelZonaGrupoFin);
      if q.Some? then
        var m := NivelZonaGrupoFin(grupo, q.value).value;
        GrupoInfo(Etiqueta(m.groups[0]), m.groups[1], m.groups[2])
      else if Contains(grupo, "UNICA") then
        var q2 := Search(grupo, NivelZonaUnica);
        if q2.Some? then
          var m := NivelZonaUnica(grupo, q2.value).value;
          GrupoInfo(Etiqueta(m.groups[0]), m.groups[1], UNICO)
        else r0
      else r0
  }

  /** The first stage: `NIVEL\s*(\d)\s*([A-ZÑÁÉÍÓÚÜ\-]+)\s*(?:LFF)?\s*"?([A-Z])"?$`. */
  function PrimeraEtapa2024(grupo: string, r0: GrupoInfo): (r: GrupoInfo)
    ensures r.nivel.Numero? ==> r == r0
    ensures r == r0 <== Search(grupo, NivelZonaGrupoFin).None?
    ensures Search(grupo, NivelZonaGrupoFin).Some? ==>
      r.nivel.Etiqueta? && Fits(r.nivel.texto, OneDigit) && Fits(r.zona, RunOf(UpperAccented)) && Fits(r.grupo, OneLetter)
  {
    var q := Search(grupo, NivelZonaGrupoFin);
    if q.Some? then
      var m := NivelZonaGrupoFin(grupo, q.value).value;
      GrupoInfo(Etiqueta(m.groups[0]), m.groups[1], m.groups[2])
    else r0
  }

  /**
   * The second round of the first stage: two groups joined by a dash, a
   * final group letter, or both groups `A-B` when the text names none.
   */
  function SegundaRonda2024(grupo: string, r0: GrupoInfo): (r: GrupoInfo)
    ensures r.nivel.Numero? ==> r == r0
    ensures r == r0 || (r.nivel.Etiqueta? && Fits(r.nivel.texto, OneDigit) && Fits(r.zona, RunOf(UpperEnye)))
    ensures r != r0 ==> Fits(r.grupo, OneLetter) || (|r.grupo| == 3 && r.grupo[1] == '-' && IsUpper(r.grupo[0]) && IsUpper(r.grupo[2]))
    ensures Search(grupo, NivelZonaDosGrupos).None? && !LetraFinalAislada(grupo) && r != r0 ==> r.grupo == "A-B"
  {
    if Search(grupo, NivelZonaDosGrupos).Some? then DosGrupos2024(grupo, r0)
    else if LetraFinalAislada(grupo) then GrupoSeparado2024(grupo, r0)
    else AmbosGrupos2024(grupo, r0)
  }

  /** A level, a zone and two group letters joined by a dash. */
  function DosGrupos2024(grupo: string, r0: GrupoInfo): (r: GrupoInfo)
    ensures r == r0 || (r.nivel.Etiqueta? && Fits(r.nivel.texto, OneDigit) && Fits(r.zona, RunOf(UpperEnye)))
    ensures r != r0 ==> |r.grupo| == 3 && r.grupo[1] == '-' && IsUpper(r.grupo[0]) && IsUpper(r.grupo[2])
  {
    var q := Search(grupo, NivelZonaDosGrupos);
    if q.Some? then
      var m := NivelZonaDosGrupos(grupo, q.value).value;
      Grupos4(m.groups, OneDigit, RunOf(UpperEnye), OneLetter, OneLetter);
      Guion(m.groups[2], m.groups[3]);
      GrupoInfo(Etiqueta(m.groups[0]), m.groups[1], m.groups[2] + "-" + m.groups[3])
    else r0
  }

  /** Two group letters joined by a dash. */
  lemma Guion(a: string, b: string)
    ensures Fits(a, OneLetter) && Fits(b, OneLetter) ==>
      var g := a + "-" + b;
      |g| == 3 && g[1] == '-' && IsUpper(g[0]) && IsUpper(g[2])
  {
    if Fits(a, OneLetter) && Fits(b, OneLetter) {
      assert In(a[0], Letter) && In(b[0], Letter);
    }
  }

  /** A level, a zone and a final group letter set apart. */
  function GrupoSeparado2024(grupo: string, r0: GrupoInfo): (r: GrupoInfo)
    ensures r == r0 || (r.nivel.Etiqueta? && Fits(r.nivel.texto, OneDigit) && Fits(r.zona, RunOf(UpperEnye)) && Fits(r.grupo, OneLetter))
  {
    var q := Search(grupo, NivelZonaGrupoSep);
    if q.Some? then
      var m := NivelZonaGrupoSep(grupo, q.value).value;
      Grupos3(m.groups, OneDigit, RunOf(UpperEnye), OneLetter);
      GrupoInfo(Etiqueta(m.groups[0]), m.groups[1], m.groups[2])
    else r0
  }

  /** A level and a zone without a group: the round is played by both groups. */
  function AmbosGrupos2024(grupo: string, r0: GrupoInfo): (r: GrupoInfo)
    ensures r == r0 || (r.nivel.Etiqueta? && Fits(r.nivel.texto, OneDigit) && Fits(r.zona, RunOf(UpperEnye)) && r.grupo == "A-B")
  {
    var q := Search(grupo, NivelZona);
    if q.Some? then
      var m := NivelZona(grupo, q.value).value;
      Grupos2(m.groups, OneDigit, RunOf(UpperEnye));
      GrupoInfo(Etiqueta(m.groups[0]), m.groups[1], "A-B")
    else r0
  }

  /**
   * The play-offs: an interconference letter (with the group after ZONA),
   * else a level and a zone, else a zone and a group such as `A` or `A-B`.
   * The code also prepares a corrected copy of the text for the last case
   * but matches the uncorrected one, so the correction is not modelled.
   */
  function PlayOff2024(grupo: string, r0: GrupoInfo): (r: GrupoInfo)
    ensures r.nivel.Numero? ==> r.nivel == r0.nivel
    ensures Search(grupo, InterLetra).Some? ==>
      r.zona == INTERCONFERENCIA && (r.nivel == Etiqueta("INTERCONFERENCIA A") || r.nivel == Etiqueta("INTERCONFERENCIA B"))
      && (r.grupo == DESCONOCIDO || Fits(r.grupo, OneLetter))
    ensures Search(grupo, InterLetra).None? && Search(grupo, NivelZona).Some? ==> r.grupo == r0.grupo
    ensures Search(grupo, InterLetra).None? && Search(grupo, NivelZona).None? && r != r0 ==> Fits(r.grupo, LetterPair)
  {
    var q := Search(grupo, InterLetra);
    if q.Some? then
      var m := InterLetra(grupo, q.value).value;
      var z := Search(grupo, ZonaComillaLetra);
      var g := if z.Some? then ZonaComillaLetra(grupo, z.value).value.groups[0] else DESCONOCIDO;
      GrupoInfo(Etiqueta(NivelInterconferencia(m.groups[0])), INTERCONFERENCIA, g)
    else
      var q2 := Search(grupo, NivelZona);
      if q2.Some? then
        var m := NivelZona(grupo, q2.value).value;
        r0.(nivel := Etiqueta(m.groups[0]), zona := m.groups[1])
      else
        var q3 := Search(grupo, ZonaGrupoGuion);
        if q3.Some? then
          var m := ZonaGrupoGuion(grupo, q3.value).value;
          r0.(zona := m.groups[0], grupo := m.groups[1])
        else r0
  }

  // ---------------------------------------------------------------- 2025

  /**
   * The 2025 rules: every group is a levelling group; in the first stage
   * the text ends with the group number and what comes before it is the
   * zone, with its double spaces halved.
   */
  function Grupo2025(fase: string, grupo: string): (r: GrupoInfo)
    ensures r.nivel == Etiqueta(NIVELACION)
    ensures r.grupo == DESCONOCIDO || Fits(r.grupo, Digits)
    ensures r.grupo == DESCONOCIDO <==> !Contains(fase, "1ER ETAPA") || Search(grupo, ZonaNumeroFin).None?
    ensures r.grupo == DESCONOCIDO ==> r.zona == DESCONOCIDO
  {
    var d := GrupoInfo(Etiqueta(NIVELACION), DESCONOCIDO, DESCONOCIDO);
    if Contains(fase, "1ER ETAPA") then
      var q := Search(grupo, ZonaNumeroFin);
      if q.Some? then
        var m := ZonaNumeroFin(grupo, q.value).value;
        NoEsCentinela(m.groups[1]);
        GrupoInfo(Etiqueta(NIVELACION), Replace(Strip(m.groups[0]), "  ", " "), m.groups[1])
      else d
    else d
  }

  /**
   * A 2025 zone as the selector writes it: capital-letter words, one space
   * between two words, such as "SUR" or "CENTRO OESTE".
   */
  predicate Palabras(z: string) {
    && |z| > 0 && IsUpper(z[0]) && IsUpper(z[|z| - 1])
    && forall i :: 0 <= i < |z| ==> DePalabras(z, i)
  }

  /** The character at `i` is a capital, or a single space with a capital after it. */
  predicate DePalabras(z: string, i: nat)
    requires i < |z|
  {
    IsUpper(z[i]) || (z[i] == ' ' && 0 < i < |z| - 1 && IsUpper(z[i + 1]))
  }

  lemma PalabrasCaracter(z: string, m: nat)
    requires Palabras(z) && m < |z|
    ensures IsUpper(z[m]) || z[m] == ' '
    ensures z[m] == ' ' ==> 0 < m < |z| - 1 && IsUpper(z[m + 1])
  {
    assert DePalabras(z, m);
  }

  /** In the first stage, a zone, a space and a number read as that zone and that group. */
  lemma Grupo2025Ida(fase: string, z: string, n: string)
    requires Contains(fase, "1ER ETAPA")
    requires Palabras(z) && Fits(n, Digits)
    ensures Grupo2025(fase, z + " " + n) == GrupoInfo(Etiqueta(NIVELACION), z, n)
  {
    var s := z + " " + n;
    ZonaNumeroCasa(s, z, n);
    assert Search(s, ZonaNumeroFin) == Some(0) by {
      assert ZonaNumeroFin(s, 0).Some?;
    }
    StripSinBordes(z);
    SinDobleEspacio(z);
    ReplaceAbsent(z, "  ", " ");
  }

  /** Single spaces between words never make a double space. */
  lemma SinDobleEspacio(z: string)
    requires Palabras(z)
    ensures !Contains(z, "  ")
  {
    forall i: nat ensures !At(z, i, "  ") {
      if i + 2 <= |z| {
        assert z[i..i + 2][1] == z[i + 1];
        PalabrasCaracter(z, i);
      }
    }
    ContainsIff(z, "  ");
  }

  /** The lazy zone group of `([A-ZÑ\s\-]+?)\s*(\d+)$` ends where the zone does. */
  lemma ZonaNumeroCasa(s: string, z: string, n: string)
    requires Palabras(z) && Fits(n, Digits)
    requires s == z + " " + n
    ensures ZonaNumeroFin(s, 0) == Some(Match(|s|, [z, n]))
  {
    var c := |z|;
    ZonaNumeroForma(s, z, n);
    ZonaEnClase(s, z);
    AscendZona(s, z, n, 1);
    assert s[0..c] == z && s[c + 1..|s|] == n;
  }

  /** Where each piece of a 2025 group text sits. */
  lemma ZonaNumeroForma(s: string, z: string, n: string)
    requires Palabras(z) && Fits(n, Digits)
    requires s == z + " " + n
    ensures |s| == |z| + 1 + |n|
    ensures forall m :: 0 <= m < |z| ==> s[m] == z[m]
    ensures s[|z|] == ' '
    ensures forall m :: |z| < m < |s| ==> s[m] == n[m - |z| - 1] && IsDigit(s[m])
  {
  }

  /** Every character of the zone belongs to the class of the lazy run. */
  lemma ZonaEnClase(s: string, z: string)
    requires Palabras(z)
    requires |z| <= |s| && forall m :: 0 <= m < |z| ==> s[m] == z[m]
    ensures forall m :: 0 <= m < |z| ==> In(s[m], UpperEnyeSpace)
  {
    assert IsSpace(' ');
    forall m | 0 <= m < |z| ensures In(s[m], UpperEnyeSpace) {
      PalabrasCaracter(z, m);
    }
  }

  /**
   * The lazy run tried with ends `k`, `k + 1`, ... inside the zone: no end
   * before the zone's own is followed by spaces and digits up to the end.
   */
  lemma {:induction false} AscendZona(s: string, z: string, n: string, k: nat)
    requires Palabras(z) && Fits(n, Digits)
    requires |s| == |z| + 1 + |n|
    requires forall m :: 0 <= m < |z| ==> s[m] == z[m] && In(s[m], UpperEnyeSpace)
    requires s[|z|] == ' '
    requires forall m :: |z| < m < |s| ==> IsDigit(s[m])
    requires 1 <= k <= |z|
    ensures AllIn(s[0..k - 1], UpperEnyeSpace)
    ensures Ascend(s, 0, k) == Some((|z|, |z| + 1, |s|))
    decreases |z| - k
  {
    SliceIn(s, 0, k - 1, UpperEnyeSpace);
    if k == |z| {
      AscendTermina(s, z, n);
    } else {
      AscendSigue(s, z, n, k);
      AscendZona(s, z, n, k + 1);
    }
  }

  /** At the zone's end, one space and the digits reach the end of the text. */
  lemma AscendTermina(s: string, z: string, n: string)
    requires |z| > 0 && Fits(n, Digits)
    requires |s| == |z| + 1 + |n| && s[|z|] == ' '
    requires forall m :: |z| < m < |s| ==> IsDigit(s[m])
    ensures Sp(s, |z|) == |z| + 1 && Span(s, |z| + 1, Digit) == |s|
  {
    var c := |z|;
    assert IsSpace(' ') && !IsSpace(s[c + 1]);
    SpanHasta(s, c, c + 1, Space);
    SpanHasta(s, c + 1, |s|, Digit);
  }

  /** Inside the zone, the spaces after a trial end are never followed by a digit. */
  lemma AscendSigue(s: string, z: string, n: string, k: nat)
    requires Palabras(z)
    requires |z| < |s| && forall m :: 0 <= m < |z| ==> s[m] == z[m]
    requires 1 <= k < |z|
    ensures Span(s, Sp(s, k), Digit) == Sp(s, k)
  {
    if IsUpper(z[k]) {
      assert !IsSpace(s[k]) && !IsDigit(s[k]);
      SpanHasta(s, k, k, Space);
      SpanHasta(s, k, k, Digit);
    } else {
      PalabrasCaracter(z, k);
      assert IsSpace(s[k]) && !IsSpace(s[k + 1]) && !IsDigit(s[k + 1]);
      SpanHasta(s, k, k + 1, Space);
      SpanHasta(s, k + 1, k + 1, Digit);
    }
  }

  // ---------------------------------------------------------------- entry

  predicate Soportado(year: int) {
    year == 2019 || year == 2022 || year == 2023 || year == 2024 || year == 2025
  }

  /**
   * `parsear_grupo`: an empty group text gives three unknown fields; else
   * both texts are upper-cased and stripped and the rules of the season
   * apply. A season without rules keeps the normalised group text.
   */
  function ParsearGrupo(year: int, fase: string, grupo: string): (r: Result<GrupoInfo>)
    ensures grupo == "" ==> r == Success(SinGrupo())
    ensures grupo != "" ==> r == PorTemporada(year, Norm(fase), Norm(grupo))
  {
    if grupo == "" then Success(SinGrupo()) else PorTemporada(year, Norm(fase), Norm(grupo))
  }

  /** The rules of one season on the normalised texts. */
  function PorTemporada(year: int, f: string, g: string): (r: Result<GrupoInfo>)
    ensures !Soportado(year) ==> r == Success(GrupoInfo(Etiqueta(DESCONOCIDO), DESCONOCIDO, g))
    ensures r.Failure? ==> year == 2023 && Contains(f, "CONFERENCIA") && NivelDeFase(f).None?
    ensures r.Success? && r.value.nivel.Numero? ==> year == 2024 && r.value.nivel == Numero(3)
    ensures year == 2025 ==> r.Success? && r.value.nivel == Etiqueta(NIVELACION)
    ensures year != 2023 ==> r.Success?
  {
    if year == 2019 then Success(Grupo2019(f, g))
    else if year == 2022 then Success(Grupo2022(f, g))
    else if year == 2023 then Grupo2023(f, g)
    else if year == 2024 then Success(Grupo2024(f, g))
    else if year == 2025 then Success(Grupo2025(f, g))
    else Success(GrupoInfo(Etiqueta(DESCONOCIDO), DESCONOCIDO, g))
  }

  /**
   * Case and surrounding whitespace of both texts do not matter, as long
   * as the group text is not empty (an empty text is checked before any
   * normalisation).
   */
  lemma ParsearGrupoNormaliza(year: int, fase: string, grupo: string, p: string, q: string)
    requires grupo != "" && AllSpace(p) && AllSpace(q)
    ensures ParsearGrupo(year, Upper(fase), Upper(grupo)) == ParsearGrupo(year, fase, grupo)
    ensures ParsearGrupo(year, p + fase + q, p + grupo + q) == ParsearGrupo(year, fase, grupo)
  {
    NormInsensitive(fase, p, q);
    NormInsensitive(grupo, p, q);
  }
}
