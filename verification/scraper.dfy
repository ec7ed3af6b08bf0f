/**
 * The per-row record assembly of the scraper: a table row of a group page,
 * the heading above its table, the readings of the phase and group texts
 * and the round inference are merged into one match record. Fetching and
 * walking the pages are not part of this model; the heading text and the
 * cell texts are parameters.
 */
module Scraper {
  import opened Values
  import opened Text
  import opened Loader
  import Fases
  import Grupos
  import Jornadas
  import Rondas

  /** One scraped match. Scores stay the raw cell texts. */
  datatype Registro = Registro(
    anio: int, categoria: string, fase: string, ronda: string, nivel: Nivel, zona: string, grupo: string,
    jornada: string, fecha: string, local: string, ptsL: string, visitante: string, ptsV: string)

  /** The nivel handed to the round inference: the phase's, unless it is unknown. */
  function NivelParaInferir(fi: Fases.FaseInfo, gi: Grupos.GrupoInfo): Nivel {
    if fi.nivel != Etiqueta(DESCONOCIDO) then fi.nivel else gi.nivel
  }

  /** `ronda_val`: the heading's round, or, when the heading names none, what the inference read. */
  function RondaVal(ronda: string, inf: Option<Rondas.Inferido>): Option<string> {
    if ronda != "" then Some(ronda)
    else if inf.Some? then inf.value.RondaLeida()
    else None
  }

  /** `llave_val` and `nivel_val`. */
  function LlaveVal(inf: Option<Rondas.Inferido>): Option<string> {
    if inf.Some? then Some(inf.value.llave) else None
  }

  function NivelVal(inf: Option<Rondas.Inferido>): Option<Nivel> {
    if inf.Some? then inf.value.NivelLeido() else None
  }

  /** `fase_actual in ["PLAYOFF", "FINAL FOUR"]`. */
  predicate EsEliminatoria(f: Fases.Fase) {
    Upper(f.Texto()) == "PLAYOFF" || Upper(f.Texto()) == "FINAL FOUR"
  }

  lemma EliminatoriaSiPlayoffOFinalFour(f: Fases.Fase)
    ensures EsEliminatoria(f) <==> f == Fases.Playoff || f == Fases.FinalFour
  {
    assert Upper("Playoff") == "PLAYOFF";
    assert Upper("FINAL FOUR") == "FINAL FOUR";
    assert Upper(DESCONOCIDA) == "DESCONOCIDA";
    assert Upper("Fase Regular") == "FASE REGULAR";
  }

  /** The record's fields from the phase reading, the group reading, the heading triple and the inference. */
  function Registrar(year: int, categoria: string, fi: Fases.FaseInfo, gi: Grupos.GrupoInfo,
                     j: Jornadas.Jornada, inf: Option<Rondas.Inferido>,
                     local: string, ptsL: string, ptsV: string, visitante: string, mapeo: Mapeo): Registro
  {
    Registro(
      year, categoria, fi.fase.Texto(), ElegirRonda(fi, j, inf), ElegirNivel(fi, gi, inf), ElegirZona(fi, gi),
      ElegirGrupo(fi, gi, inf), j.jornada, j.fecha,
      NormalizarNombre(local, mapeo), ptsL, NormalizarNombre(visitante, mapeo), ptsV)
  }

  function ElegirRonda(fi: Fases.FaseInfo, j: Jornadas.Jornada, inf: Option<Rondas.Inferido>): string {
    var rondaVal := RondaVal(j.ronda, inf);
    if fi.ronda.Texto() != DESCONOCIDA then fi.ronda.Texto()
    else if rondaVal.Some? && rondaVal.value != DESCONOCIDA then rondaVal.value
    else j.ronda
  }

  function ElegirNivel(fi: Fases.FaseInfo, gi: Grupos.GrupoInfo, inf: Option<Rondas.Inferido>): Nivel {
    var nivelVal := NivelVal(inf);
    if nivelVal.Some? && nivelVal.value != Etiqueta(DESCONOCIDO) then nivelVal.value
    else if fi.nivel != Etiqueta(DESCONOCIDO) then fi.nivel
    else gi.nivel
  }

  function ElegirZona(fi: Fases.FaseInfo, gi: Grupos.GrupoInfo): string {
    if fi.zona != DESCONOCIDA then fi.zona else gi.zona
  }

  function ElegirGrupo(fi: Fases.FaseInfo, gi: Grupos.GrupoInfo, inf: Option<Rondas.Inferido>): string {
    var llaveVal := LlaveVal(inf);
    if EsEliminatoria(fi.fase) && llaveVal.Some? && llaveVal.value != "" then llaveVal.value
    else if fi.grupo != DESCONOCIDO then fi.grupo
    else gi.grupo
  }

  /**
   * One table row: fewer than four cells or an empty score gives no
   * record; otherwise the round is inferred, the record assembled, and a
   * Playoff record of MINI or PREMINI dropped.
   */
  function ArmarPartido(year: int, categoria: string, fi: Fases.FaseInfo, gi: Grupos.GrupoInfo,
                        encabezado: string, celdas: seq<string>, mapeo: Mapeo): (r: Option<Registro>)
    requires year == 2022 ==> NivelParaInferir(fi, gi).Etiqueta?
    ensures r.Some? <==> (|celdas| >= 4 && Strip(celdas[1]) != "" && Strip(celdas[2]) != ""
                          && !(fi.fase == Fases.Playoff && (categoria == "MINI" || categoria == "PREMINI")))
    ensures r.Some? ==> r.value.anio == year && r.value.categoria == categoria && r.value.fase == fi.fase.Texto()
    ensures r.Some? ==> r.value.local == NormalizarNombre(Strip(celdas[0]), mapeo)
                        && r.value.visitante == NormalizarNombre(Strip(celdas[3]), mapeo)
    ensures r.Some? ==> r.value.ptsL == Strip(celdas[1]) && r.value.ptsV == Strip(celdas[2])
    ensures r.Some? ==> r.value.jornada == Jornadas.ParsearJornada(Strip(encabezado)).jornada
                        && r.value.fecha == Jornadas.ParsearJornada(Strip(encabezado)).fecha
    ensures r.Some? ==> r.value == Registrar(year, categoria, fi, gi, Jornadas.ParsearJornada(Strip(encabezado)),
                                             Inferencia(year, categoria, fi, gi, encabezado, celdas, mapeo),
                                             Strip(celdas[0]), Strip(celdas[1]), Strip(celdas[2]), Strip(celdas[3]), mapeo)
  {
    if |celdas| < 4 then None
    else if Strip(celdas[1]) == "" || Strip(celdas[2]) == "" then None
    else
      var j := Jornadas.ParsearJornada(Strip(encabezado));
      var inf := Inferencia(year, categoria, fi, gi, encabezado, celdas, mapeo);
      var reg := Registrar(year, categoria, fi, gi, j, inf,
                           Strip(celdas[0]), Strip(celdas[1]), Strip(celdas[2]), Strip(celdas[3]), mapeo);
      FaseTextoPlayoff(fi.fase);
      if fi.fase == Fases.Playoff && (categoria == "MINI" || categoria == "PREMINI") then None
      else Some(reg)
  }

  /** The `inferir_ronda` call of a row with at least four cells. */
  function Inferencia(year: int, categoria: string, fi: Fases.FaseInfo, gi: Grupos.GrupoInfo,
                      encabezado: string, celdas: seq<string>, mapeo: Mapeo): (r: Option<Rondas.Inferido>)
    requires year == 2022 ==> NivelParaInferir(fi, gi).Etiqueta?
    requires |celdas| >= 4
    ensures r.Some? ==> r.value.llave == Rondas.Llave(Strip(celdas[0]), Strip(celdas[3]), mapeo)
  {
    Rondas.InferirRonda(year, categoria, NivelParaInferir(fi, gi), fi.zona,
                        Jornadas.ParsearJornada(Strip(encabezado)).jornada, fi.fase.Texto(),
                        Strip(celdas[0]), Strip(celdas[3]), mapeo)
  }

  // ---------------------------------------------------------------- precedence

  /**
   * ronda: the phase's round wins; else a round named in the heading; else
   * the inferred round unless unknown; else the (empty) heading round.
   */
  lemma RondaPrecedencia(year: int, categoria: string, fi: Fases.FaseInfo, gi: Grupos.GrupoInfo,
                         j: Jornadas.Jornada, inf: Option<Rondas.Inferido>,
                         local: string, ptsL: string, ptsV: string, visitante: string, mapeo: Mapeo)
    ensures fi.ronda != Fases.RondaDesconocida ==>
      Registrar(year, categoria, fi, gi, j, inf, local, ptsL, ptsV, visitante, mapeo).ronda == fi.ronda.Texto()
    ensures fi.ronda == Fases.RondaDesconocida && j.ronda != "" ==>
      Registrar(year, categoria, fi, gi, j, inf, local, ptsL, ptsV, visitante, mapeo).ronda == j.ronda
    ensures fi.ronda == Fases.RondaDesconocida && j.ronda == "" && inf.Some? && inf.value.RondaLeida().Some?
            && inf.value.RondaLeida().value != DESCONOCIDA ==>
      Registrar(year, categoria, fi, gi, j, inf, local, ptsL, ptsV, visitante, mapeo).ronda == inf.value.RondaLeida().value
    ensures fi.ronda == Fases.RondaDesconocida && j.ronda == ""
            && (inf.None? || inf.value.RondaLeida().None? || inf.value.RondaLeida().value == DESCONOCIDA) ==>
      Registrar(year, categoria, fi, gi, j, inf, local, ptsL, ptsV, visitante, mapeo).ronda == ""
  {
    RondaTextos(fi.ronda);
  }

  /** `partido["fase"] == "Playoff"` holds for the Playoff stage only. */
  lemma FaseTextoPlayoff(f: Fases.Fase)
    ensures f.Texto() == "Playoff" <==> f == Fases.Playoff
  {
    if f != Fases.Playoff {
      assert f.Texto()[0] != 'P';
    }
  }

  /** None of the rounds a heading can name is the sentinel. */
  lemma RondaDeEncabezado(r: string)
    requires r == "" || r == "CUARTOS DE FINAL" || r == "SEMIFINAL" || r == "FINAL"
    ensures r != DESCONOCIDA
  {
    assert r == "" || r[0] != 'D';
  }

  /** Only the unknown round is written "Desconocida". */
  lemma RondaTextos(r: Fases.Ronda)
    ensures r.Texto() == DESCONOCIDA <==> r == Fases.RondaDesconocida
  {
  }

  /** With a heading read by the heading parser, a record never carries an unknown round. */
  lemma RondaNuncaDesconocida(year: int, categoria: string, fi: Fases.FaseInfo, gi: Grupos.GrupoInfo,
                              encabezado: string, inf: Option<Rondas.Inferido>,
                              local: string, ptsL: string, ptsV: string, visitante: string, mapeo: Mapeo)
    ensures Registrar(year, categoria, fi, gi, Jornadas.ParsearJornada(encabezado), inf,
                      local, ptsL, ptsV, visitante, mapeo).ronda != DESCONOCIDA
  {
    var j := Jornadas.ParsearJornada(encabezado);
    RondaElegidaConocida(fi, j, inf);
  }

  lemma RondaElegidaConocida(fi: Fases.FaseInfo, j: Jornadas.Jornada, inf: Option<Rondas.Inferido>)
    requires j.ronda == "" || j.ronda == "CUARTOS DE FINAL" || j.ronda == "SEMIFINAL" || j.ronda == "FINAL"
    ensures ElegirRonda(fi, j, inf) != DESCONOCIDA
  {
    RondaDeEncabezado(j.ronda);
    RondaTextos(fi.ronda);
  }

  /**
   * nivel: the inferred level unless absent or unknown; else the phase's
   * unless unknown; else the group's. The record's level is unknown exactly
   * when all three are.
   */
  lemma NivelPrecedencia(year: int, categoria: string, fi: Fases.FaseInfo, gi: Grupos.GrupoInfo,
                         j: Jornadas.Jornada, inf: Option<Rondas.Inferido>,
                         local: string, ptsL: string, ptsV: string, visitante: string, mapeo: Mapeo)
    ensures NivelVal(inf).Some? && NivelVal(inf).value != Etiqueta(DESCONOCIDO) ==>
      Registrar(year, categoria, fi, gi, j, inf, local, ptsL, ptsV, visitante, mapeo).nivel == NivelVal(inf).value
    ensures (NivelVal(inf).None? || NivelVal(inf).value == Etiqueta(DESCONOCIDO)) && fi.nivel != Etiqueta(DESCONOCIDO) ==>
      Registrar(year, categoria, fi, gi, j, inf, local, ptsL, ptsV, visitante, mapeo).nivel == fi.nivel
    ensures Registrar(year, categoria, fi, gi, j, inf, local, ptsL, ptsV, visitante, mapeo).nivel == Etiqueta(DESCONOCIDO)
      <==> (NivelVal(inf).None? || NivelVal(inf).value == Etiqueta(DESCONOCIDO))
           && fi.nivel == Etiqueta(DESCONOCIDO) && gi.nivel == Etiqueta(DESCONOCIDO)
  {
  }

  /** zona: the phase's unless unknown, else the group's; unknown exactly when both are. */
  lemma ZonaPrecedencia(year: int, categoria: string, fi: Fases.FaseInfo, gi: Grupos.GrupoInfo,
                        j: Jornadas.Jornada, inf: Option<Rondas.Inferido>,
                        local: string, ptsL: string, ptsV: string, visitante: string, mapeo: Mapeo)
    ensures fi.zona != DESCONOCIDA ==>
      Registrar(year, categoria, fi, gi, j, inf, local, ptsL, ptsV, visitante, mapeo).zona == fi.zona
    ensures Registrar(year, categoria, fi, gi, j, inf, local, ptsL, ptsV, visitante, mapeo).zona == DESCONOCIDA
      <==> fi.zona == DESCONOCIDA && gi.zona == DESCONOCIDA
  {
  }

  /**
   * grupo: in a Playoff or Final Four the bracket key from the inference;
   * otherwise the phase's group unless unknown, else the group parser's.
   */
  lemma GrupoPrecedencia(year: int, categoria: string, fi: Fases.FaseInfo, gi: Grupos.GrupoInfo,
                         j: Jornadas.Jornada, inf: Option<Rondas.Inferido>,
                         local: string, ptsL: string, ptsV: string, visitante: string, mapeo: Mapeo)
    ensures (fi.fase == Fases.Playoff || fi.fase == Fases.FinalFour) && inf.Some? && inf.value.llave != "" ==>
      Registrar(year, categoria, fi, gi, j, inf, local, ptsL, ptsV, visitante, mapeo).grupo == inf.value.llave
    ensures !(fi.fase == Fases.Playoff || fi.fase == Fases.FinalFour) || inf.None? ==>
      Registrar(year, categoria, fi, gi, j, inf, local, ptsL, ptsV, visitante, mapeo).grupo
        == (if fi.grupo != DESCONOCIDO then fi.grupo else gi.grupo)
  {
    EliminatoriaSiPlayoffOFinalFour(fi.fase);
  }

  /** A bracket key is never empty: it holds at least the hyphen. */
  lemma LlaveNoVacia(local: string, visitante: string, mapeo: Mapeo)
    ensures Rondas.Llave(local, visitante, mapeo) != ""
  {
    assert |Rondas.Llave(local, visitante, mapeo)| >= 1;
  }

  /**
   * For a row the scraper keeps in a Playoff or a Final Four whose round the
   * inference recognised, the record's group is the key of the row's two
   * normalised team names.
   */
  lemma GrupoEsLlave(year: int, categoria: string, fi: Fases.FaseInfo, gi: Grupos.GrupoInfo,
                     encabezado: string, celdas: seq<string>, mapeo: Mapeo)
    requires year == 2022 ==> NivelParaInferir(fi, gi).Etiqueta?
    requires |celdas| >= 4 && Inferencia(year, categoria, fi, gi, encabezado, celdas, mapeo).Some?
    requires fi.fase == Fases.Playoff || fi.fase == Fases.FinalFour
    ensures ArmarPartido(year, categoria, fi, gi, encabezado, celdas, mapeo).Some? ==>
      ArmarPartido(year, categoria, fi, gi, encabezado, celdas, mapeo).value.grupo
        == Rondas.Llave(Strip(celdas[0]), Strip(celdas[3]), mapeo)
  {
    var inf := Inferencia(year, categoria, fi, gi, encabezado, celdas, mapeo);
    LlaveNoVacia(Strip(celdas[0]), Strip(celdas[3]), mapeo);
    GrupoPrecedencia(year, categoria, fi, gi, Jornadas.ParsearJornada(Strip(encabezado)), inf,
                     Strip(celdas[0]), Strip(celdas[1]), Strip(celdas[2]), Strip(celdas[3]), mapeo);
  }

  /** In 2022 neither parser writes a numeric level, so the inference is always callable. */
  lemma NivelInferible2022(fase: string, grupo: string, texto: string)
    requires Grupos.ParsearGrupo(2022, fase, grupo).Success?
    ensures NivelParaInferir(Fases.ParsearFase(2022, texto), Grupos.ParsearGrupo(2022, fase, grupo).value).Etiqueta?
  {
  }
}
