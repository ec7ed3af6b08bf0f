/**
 * The parser test script's `procesar_fila`: one row of phase and group texts is
 * read by both parsers and merged into one result, and the fields still
 * holding a sentinel are listed. The logging and the CSV export are not
 * part of this model.
 */
module Procesar {
  import opened Values
  import opened Text
  import Fases
  import Grupos
  import Scraper

  datatype Resultado = Resultado(
    anio: string, fase: string, ronda: string, nivel: Nivel, zona: string, grupo: string, categorias: seq<string>)

  /** `[c.strip() for c in categorias_raw.split(",")]`. */
  function Categorias(raw: string): (r: seq<string>)
    ensures |r| == |SplitOn(raw, ',')| >= 1
    ensures forall i :: 0 <= i < |r| ==> ',' !in r[i] && Strip(r[i]) == r[i]
  {
    var parts := SplitOn(raw, ',');
    var r := seq(|parts|, i requires 0 <= i < |parts| => Strip(parts[i]));
    assert forall i :: 0 <= i < |r| ==> ',' !in r[i] && Strip(r[i]) == r[i] by {
      forall i | 0 <= i < |r|
        ensures ',' !in r[i] && Strip(r[i]) == r[i]
      {
        StripSinBordes(r[i]);
        assert parts[i] in SplitOn(raw, ',');
        assert r[i] == RStrip(LStrip(parts[i]));
      }
    }
    r
  }

  /** A list of trimmed names without commas, joined by commas, is read back as that list. */
  lemma CategoriasIda(cs: seq<string>)
    requires |cs| >= 1
    requires forall i :: 0 <= i < |cs| ==> ',' !in cs[i] && Strip(cs[i]) == cs[i]
    ensures Categorias(Join(cs, ',')) == cs
  {
    SplitOnJoin(cs, ',');
  }

  /**
   * `procesar_fila`: `None` where a parser (or `int(anio)`) raises; else
   * fase and ronda from the phase parser, nivel and zona from the phase
   * parser unless unknown, and grupo from the group parser.
   */
  function ProcesarFila(anio: string, faseTexto: string, grupoTexto: string, categoriasRaw: string): (r: Option<Resultado>)
    ensures r.None? <==> ParseInt(anio).None? || Grupos.ParsearGrupo(ParseInt(anio).value, faseTexto, grupoTexto).Failure?
    ensures r.Some? ==>
      var fi := Fases.ParsearFase(ParseInt(anio).value, faseTexto);
      var gi := Grupos.ParsearGrupo(ParseInt(anio).value, faseTexto, grupoTexto).value;
      && r.value.anio == anio
      && r.value.fase == fi.fase.Texto() && r.value.ronda == fi.ronda.Texto()
      && r.value.grupo == gi.grupo
      && (fi.nivel != Etiqueta(DESCONOCIDO) ==> r.value.nivel == fi.nivel)
      && (fi.zona != DESCONOCIDA ==> r.value.zona == fi.zona)
      && (r.value.nivel == Etiqueta(DESCONOCIDO) <==> fi.nivel == Etiqueta(DESCONOCIDO) && gi.nivel == Etiqueta(DESCONOCIDO))
      && (r.value.zona == DESCONOCIDA <==> fi.zona == DESCONOCIDA && gi.zona == DESCONOCIDA)
      && r.value.categorias == Categorias(categoriasRaw)
  {
    var y := ParseInt(anio);
    if y.None? then None
    else
      var fi := Fases.ParsearFase(y.value, faseTexto);
      var g := Grupos.ParsearGrupo(y.value, faseTexto, grupoTexto);
      if g.Failure? then None
      else
        var gi := g.value;
        Some(Resultado(
          anio, fi.fase.Texto(), fi.ronda.Texto(),
          if fi.nivel != Etiqueta(DESCONOCIDO) then fi.nivel else gi.nivel,
          if fi.zona != DESCONOCIDA then fi.zona else gi.zona,
          gi.grupo, Categorias(categoriasRaw)))
  }

  /** `resultado.get(k) == "Desconocido" or resultado.get(k) == "Desconocida"`. */
  predicate Sentinela(s: string) {
    s == DESCONOCIDO || s == DESCONOCIDA
  }

  predicate NivelSentinela(n: Nivel) {
    n.Etiqueta? && Sentinela(n.texto)
  }

  /** The fields checked, in the order they are listed. */
  const CAMPOS: seq<string> := ["fase", "ronda", "nivel", "zona"]

  /** `faltantes`: the checked fields that still hold a sentinel, in order. */
  function Faltantes(r: Resultado): (f: seq<string>)
    ensures |f| <= 4
  {
    (if Sentinela(r.fase) then ["fase"] else [])
    + (if Sentinela(r.ronda) then ["ronda"] else [])
    + (if NivelSentinela(r.nivel) then ["nivel"] else [])
    + (if Sentinela(r.zona) then ["zona"] else [])
  }

  /** A field is listed exactly when its value is a sentinel; grupo is never checked. */
  lemma FaltantesExactos(r: Resultado)
    ensures "fase" in Faltantes(r) <==> Sentinela(r.fase)
    ensures "ronda" in Faltantes(r) <==> Sentinela(r.ronda)
    ensures "nivel" in Faltantes(r) <==> NivelSentinela(r.nivel)
    ensures "zona" in Faltantes(r) <==> Sentinela(r.zona)
    ensures forall k :: k in Faltantes(r) ==> k in CAMPOS
    ensures Faltantes(r) == [] <==> !Sentinela(r.fase) && !Sentinela(r.ronda) && !NivelSentinela(r.nivel) && !Sentinela(r.zona)
  {
    Distintos();
  }

  lemma Distintos()
    ensures "fase" != "ronda" && "fase" != "nivel" && "fase" != "zona"
    ensures "ronda" != "nivel" && "ronda" != "zona" && "nivel" != "zona"
  {
    assert "fase"[0] != "ronda"[0] && "fase"[0] != "nivel"[0] && "fase"[0] != "zona"[0];
    assert "ronda"[0] != "nivel"[0] && "ronda"[0] != "zona"[0] && "nivel"[0] != "zona"[0];
  }

  /** A heading no rule of its season recognises is flagged for both fase and ronda. */
  lemma FaseDesconocidaFaltante(anio: string, faseTexto: string, grupoTexto: string, categoriasRaw: string)
    requires ProcesarFila(anio, faseTexto, grupoTexto, categoriasRaw).Some?
    requires Fases.ParsearFase(ParseInt(anio).value, faseTexto).fase == Fases.FaseDesconocida
    ensures "fase" in Faltantes(ProcesarFila(anio, faseTexto, grupoTexto, categoriasRaw).value)
    ensures "ronda" in Faltantes(ProcesarFila(anio, faseTexto, grupoTexto, categoriasRaw).value)
  {
    FaltantesExactos(ProcesarFila(anio, faseTexto, grupoTexto, categoriasRaw).value);
  }

  /**
   * The test script and the scraper agree: without a round inference, a record's
   * nivel and zona are the script's.
   */
  lemma MismoCriterioQueScraper(anio: string, faseTexto: string, grupoTexto: string, categoriasRaw: string)
    requires ProcesarFila(anio, faseTexto, grupoTexto, categoriasRaw).Some?
    ensures
      var fi := Fases.ParsearFase(ParseInt(anio).value, faseTexto);
      var gi := Grupos.ParsearGrupo(ParseInt(anio).value, faseTexto, grupoTexto).value;
      var r := ProcesarFila(anio, faseTexto, grupoTexto, categoriasRaw).value;
      Scraper.ElegirNivel(fi, gi, None) == r.nivel && Scraper.ElegirZona(fi, gi) == r.zona
  {
  }
}
