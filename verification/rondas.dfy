/**
 * `inferir_ronda` and its helpers: for play-off and Final Four matches, the
 * round is deduced from the matchday number or from the bracket key
 * (normalised home team, a hyphen, normalised away team), using position
 * tables and the literal Final Four pairings.
 */
module Rondas {
  import opened Values
  import opened Text
  import opened Loader

  const OCTAVOS: string := "OCTAVOS DE FINAL"
  const CUARTOS: string := "CUARTOS DE FINAL"
  const SEMIFINAL: string := "SEMIFINAL"
  const FINAL: string := "FINAL"

  /** `ronda_map` of `_map_ronda`: positions 1 to 4, stored here from index 0. */
  const RONDA_MAP: seq<string> := [OCTAVOS, CUARTOS, SEMIFINAL, FINAL]

  // ---------------------------------------------------------------- _map_ronda

  /** An entry of a matchday list: a matchday, a tuple of two, or `None`. */
  datatype Entrada = Una(n: int) | Dos(a: int, b: int) | Vacia

  /** `jornada in val` for a tuple, `jornada == val` otherwise; `None` equals no number. */
  predicate Coincide(e: Entrada, j: int) {
    match e
    case Una(n) => j == n
    case Dos(a, b) => j == a || j == b
    case Vacia => false
  }

  /** The first position at or after `i` whose entry holds the matchday. */
  function PrimeraPosicion(e: seq<Entrada>, j: int, i: nat): (r: Option<nat>)
    requires i <= |e|
    ensures r.Some? ==> i <= r.value < |e| && Coincide(e[r.value], j)
    ensures r.Some? ==> forall k :: i <= k < r.value ==> !Coincide(e[k], j)
    ensures r.None? ==> forall k :: i <= k < |e| ==> !Coincide(e[k], j)
    decreases |e| - i
  {
    if i == |e| then None
    else if Coincide(e[i], j) then Some(i)
    else PrimeraPosicion(e, j, i + 1)
  }

  /** `_map_ronda`: the round of the first position that holds the matchday, or `None`. */
  function MapRonda(jornada: int, estructura: seq<Entrada>): (r: Option<string>)
    requires |estructura| <= |RONDA_MAP|
    ensures r.None? <==> forall k :: 0 <= k < |estructura| ==> !Coincide(estructura[k], jornada)
    ensures r.Some? ==> exists i :: (0 <= i < |estructura| && Coincide(estructura[i], jornada)
      && (forall k :: 0 <= k < i ==> !Coincide(estructura[k], jornada)) && r.value == RONDA_MAP[i])
  {
    var p := PrimeraPosicion(estructura, jornada, 0);
    if p.Some? then Some(RONDA_MAP[p.value]) else None
  }

  const LISTA_1234: seq<Entrada> := [Una(1), Una(2), Una(3), Una(4)]
  const LISTA_1_23_4_5: seq<Entrada> := [Una(1), Dos(2, 3), Una(4), Una(5)]
  const LISTA_1235: seq<Entrada> := [Una(1), Una(2), Una(3), Una(5)]
  const LISTA_N234: seq<Entrada> := [Vacia, Una(2), Una(3), Una(4)]
  const LISTA_12: seq<Entrada> := [Una(1), Una(2)]

  /** Position 1 is OCTAVOS, so matchday 2 of `[1, 2, 3, 4]` is a quarter-final. */
  lemma MapRondaCuatro()
    ensures MapRonda(1, LISTA_1234) == Some(OCTAVOS)
    ensures MapRonda(2, LISTA_1234) == Some(CUARTOS)
    ensures MapRonda(4, LISTA_1234) == Some(FINAL)
    ensures MapRonda(5, LISTA_1234) == None
  {
    assert Coincide(LISTA_1234[0], 1) && Coincide(LISTA_1234[1], 2) && Coincide(LISTA_1234[3], 4);
  }

  /** A tuple entry sends both its matchdays to one round; a `None` entry matches nothing. */
  lemma MapRondaTuplaYVacia()
    ensures MapRonda(2, LISTA_1_23_4_5) == Some(CUARTOS)
    ensures MapRonda(3, LISTA_1_23_4_5) == Some(CUARTOS)
    ensures MapRonda(5, LISTA_1_23_4_5) == Some(FINAL)
    ensures MapRonda(1, LISTA_N234) == None
    ensures MapRonda(2, LISTA_N234) == Some(CUARTOS)
  {
    assert Coincide(LISTA_1_23_4_5[1], 2) && Coincide(LISTA_1_23_4_5[1], 3) && Coincide(LISTA_1_23_4_5[3], 5);
    assert Coincide(LISTA_N234[1], 2);
  }

  // ---------------------------------------------------------------- playoff by matchday

  /** The matchday list `inferir_ronda_2022_playoff` picks for an upper-cased category, nivel and zona. */
  function Estructura2022(c: string, n: string, z: string): (r: Option<seq<Entrada>>)
    ensures r.Some? ==> |r.value| <= |RONDA_MAP|
    ensures r.Some? ==> c == "JUVENILES" || c == "CADETES" || c == "INFANTILES"
    ensures (c == "JUVENILES" || c == "CADETES" || c == "INFANTILES") && (n == INTERCONFERENCIA || n == "1")
      ==> r == Some(LISTA_1234)
    ensures c == "INFANTILES" && n == "3" ==> r == (if z == "SUR" then Some(LISTA_12) else None)
  {
    if c == "JUVENILES" then
      if n == INTERCONFERENCIA || n == "1" then Some(LISTA_1234)
      else if n == "2" then Some(if z == "OESTE" then LISTA_1_23_4_5 else LISTA_1235)
      else if n == "3" then Some(if z == "CENTRO" then LISTA_N234 else LISTA_12)
      else None
    else if c == "CADETES" then
      if n == INTERCONFERENCIA || n == "1" || n == "2" then Some(LISTA_1234)
      else if n == "3" then Some(if z == "CENTRO" then LISTA_N234 else LISTA_12)
      else None
    else if c == "INFANTILES" then
      if n == INTERCONFERENCIA || n == "1" || n == "2" then Some(LISTA_1234)
      else if n == "3" && z == "SUR" then Some(LISTA_12)
      else None
    else None
  }

  /**
   * `inferir_ronda_2022_playoff`. The nivel is upper-cased, which Python can
   * only do to a string, and only once the matchday is known to be a number.
   */
  function Playoff2022(categoria: string, nivel: Nivel, zona: string, jornada: string): (r: Option<string>)
    requires IsDigits(jornada) ==> nivel.Etiqueta?
    ensures !IsDigits(jornada) ==> r.None?
    ensures r.Some? ==> r.value in RONDA_MAP
    ensures r.Some? ==> Estructura2022(Upper(categoria), Upper(nivel.texto), Upper(zona)).Some?
    ensures IsDigits(jornada) ==> var e := Estructura2022(Upper(categoria), Upper(nivel.texto), Upper(zona));
      (e.None? ==> r.None?) && (e.Some? ==> r == MapRonda(DigitsValue(jornada), e.value))
  {
    if !IsDigits(jornada) then None
    else
      var e := Estructura2022(Upper(categoria), Upper(nivel.texto), Upper(zona));
      if e.None? then None else MapRonda(DigitsValue(jornada), e.value)
  }

  /** Category, nivel and zona are compared in capitals, so their case never matters. */
  lemma Playoff2022SinMayusculas(categoria: string, nivel: string, zona: string, jornada: string)
    ensures Playoff2022(Upper(categoria), Etiqueta(Upper(nivel)), Upper(zona), jornada)
      == Playoff2022(categoria, Etiqueta(nivel), zona, jornada)
  {
    UpperIdempotent(categoria);
    UpperIdempotent(nivel);
    UpperIdempotent(zona);
  }

  /** Cadetes, nivel 1, matchday 2: the list `[1, 2, 3, 4]` makes it a quarter-final. */
  lemma CadetesNivel1Jornada2()
    ensures Playoff2022("CADETES", Etiqueta("1"), "NORTE", "2") == Some(CUARTOS)
  {
    assert Upper("CADETES") == "CADETES" && Upper("1") == "1" && IsDigits("2") && DigitsValue("2") == 2;
    MapRondaCuatro();
  }

  /** `{1: CUARTOS, 2: SEMIFINAL, 3: FINAL}.get(int(jornada))` after the digit check. */
  function RondaPorJornada(jornada: string): (r: Option<string>)
    ensures r.Some? <==> IsDigits(jornada) && 1 <= DigitsValue(jornada) <= 3
    ensures r.Some? ==> r.value == RONDA_MAP[DigitsValue(jornada)]
  {
    if !IsDigits(jornada) then None
    else
      var j := DigitsValue(jornada);
      if j == 1 then Some(CUARTOS)
      else if j == 2 then Some(SEMIFINAL)
      else if j == 3 then Some(FINAL)
      else None
  }

  /** Matchdays 1, 2 and 3, written as digits, are the quarter-finals, semi-finals and final. */
  lemma RondaPorJornadaIda(n: nat)
    requires 1 <= n <= 3
    ensures RondaPorJornada(NatToString(n)) == Some(RONDA_MAP[n])
  {
  }

  // ---------------------------------------------------------------- bracket key

  /** `f"{normalizar_equipo(local)}-{normalizar_equipo(visitante)}"`. */
  function Llave(local: string, visitante: string, mapeo: Mapeo): string {
    NormalizarNombre(local, mapeo) + "-" + NormalizarNombre(visitante, mapeo)
  }

  /** A key splits back at its first hyphen into the two normalised names, home team first. */
  lemma LlaveIda(local: string, visitante: string, mapeo: Mapeo)
    requires '-' !in NormalizarNombre(local, mapeo)
    ensures SplitFirst(Llave(local, visitante, mapeo), '-')
      == Some((NormalizarNombre(local, mapeo), NormalizarNombre(visitante, mapeo)))
  {
    SplitFirstIda(NormalizarNombre(local, mapeo), '-', NormalizarNombre(visitante, mapeo));
  }

  /** The key is ordered: swapping two different hyphen-free teams gives a different key. */
  lemma LlaveOrdenada(local: string, visitante: string, mapeo: Mapeo)
    requires NormalizarNombre(local, mapeo) != NormalizarNombre(visitante, mapeo)
    requires '-' !in NormalizarNombre(local, mapeo) && '-' !in NormalizarNombre(visitante, mapeo)
    ensures Llave(local, visitante, mapeo) != Llave(visitante, local, mapeo)
  {
    LlaveIda(local, visitante, mapeo);
    LlaveIda(visitante, local, mapeo);
  }

  /** A pairing written `"A-B"` in a table: split at its first hyphen and normalised like a key. */
  function LlaveDe(par: string, mapeo: Mapeo): string
    requires '-' in par
  {
    var (a, b) := SplitFirst(par, '-').value;
    Llave(a, b, mapeo)
  }

  /** A pairing `a-b` whose home team has no hyphen is keyed exactly like the match `a` against `b`. */
  lemma LlaveDeIda(a: string, b: string, mapeo: Mapeo)
    requires '-' !in a
    ensures '-' in a + "-" + b
    ensures LlaveDe(a + "-" + b, mapeo) == Llave(a, b, mapeo)
  {
    SplitFirstIda(a, '-', b);
    assert (a + "-" + b)[|a|] == '-';
  }

  /** Every pairing of a table holds the hyphen it is split at. */
  predicate Emparejada(t: seq<string>) {
    forall i :: 0 <= i < |t| ==> '-' in t[i]
  }

  predicate Emparejada2022(t: seq<(string, string)>) {
    forall i :: 0 <= i < |t| ==> '-' in t[i].1
  }

  // ---------------------------------------------------------------- Final Four tables

  /** `semifinales_raw` of `inferir_ronda_2022_final_four`, one constant per key: (nivel, pairing). */
  const SEMIS_2022_JUVENILES: seq<(string, string)> :=
    [("2", "COOPERARIOS DE QUILMES-EL TALAR"),
     ("2", "VICTORIA-ARGENTINOS DE CASTELAR B"),
     ("1", "SAN LORENZO AZUL-RACING CLUB"),
     ("1", "C S D PRESIDENTE DERQUI-SP.ESCOBAR")]
  const SEMIS_2022_CADETES: seq<(string, string)> :=
    [("2", "SOCIEDAD HEBRAICA ARGENTINA-ARGENTINOS DE CASTELAR B"),
     ("2", "17 DE AGOSTO-CLUB SOCIAL Y ATLETICO EZEIZA"),
     ("1", "CAZA Y PESCA A-C S D PRESIDENTE DERQUI"),
     ("1", "PINOCHO-CAÑUELAS FC - Sub17")]
  /** The key is spelt `IFNATILES` in the source, so `INFANTILES` never reaches these two rows. */
  const SEMIS_2022_IFNATILES: seq<(string, string)> :=
    [("2", "17 DE AGOSTO-LOS ANDES"),
     ("2", "SAN MIGUEL-CLUB 3 DE FEBRERO AZUL")]
  const SEMIS_2022_INFANTILES: seq<(string, string)> :=
    [("1", "IMPERIO BLANCO-CLUB GIMNASIA Y ESGRIMA DE LA PLATA"),
     ("1", "C S D PRESIDENTE DERQUI-CAZA Y PESCA A")]
  const SEMIS_2022_PREINFANTILES: seq<(string, string)> :=
    [("2", "U GRAL.ARMENIA-CLUB SOCIAL ALEJANDRO KORN"),
     ("2", "SAN MIGUEL-VICTORIA"),
     ("1", "QUILMES A.C-COMUNICACIONES"),
     ("1", "CLUB 3 DE FEBRERO BLANCO-GEI AZUL")]

  /** `finales_raw` of `inferir_ronda_2022_final_four`. */
  const FINALES_2022_JUVENILES: seq<(string, string)> :=
    [("2", "EL TALAR-VICTORIA"),
     ("1", "SAN LORENZO AZUL-SP.ESCOBAR")]
  const FINALES_2022_CADETES: seq<(string, string)> :=
    [("2", "SOCIEDAD HEBRAICA ARGENTINA-CLUB SOCIAL Y ATLETICO EZEIZA"),
     ("1", "PINOCHO-CAZA Y PESCA A")]
  const FINALES_2022_INFANTILES: seq<(string, string)> :=
    [("2", "SAN MIGUEL-17 DE AGOSTO"),
     ("1", "CLUB GIMNASIA Y ESGRIMA DE LA PLATA-CAZA Y PESCA A")]
  const FINALES_2022_PREINFANTILES: seq<(string, string)> :=
    [("2", "VICTORIA-CLUB SOCIAL ALEJANDRO KORN"),
     ("1", "QUILMES A.C-GEI AZUL")]

  /** `semifinales_raw` of `inferir_ronda_generica_final_four`: JUVENILES reads COOPERADORES, not COOPERARIOS. */
  const SEMIS_JUVENILES: seq<string> :=
    ["COOPERADORES DE QUILMES-EL TALAR",
     "VICTORIA-ARGENTINOS DE CASTELAR B",
     "SAN LORENZO AZUL-RACING CLUB",
     "C S D PRESIDENTE DERQUI-SP.ESCOBAR"]
  const SEMIS_CADETES: seq<string> :=
    ["SOCIEDAD HEBRAICA ARGENTINA-ARGENTINOS DE CASTELAR B",
     "17 DE AGOSTO-CLUB SOCIAL Y ATLETICO EZEIZA",
     "CAZA Y PESCA A-C S D PRESIDENTE DERQUI",
     "PINOCHO-CAÑUELAS FC - Sub17"]
  const SEMIS_IFNATILES: seq<string> :=
    ["17 DE AGOSTO-LOS ANDES",
     "SAN MIGUEL-CLUB 3 DE FEBRERO AZUL"]
  const SEMIS_INFANTILES: seq<string> :=
    ["IMPERIO BLANCO-CLUB GIMNASIA Y ESGRIMA DE LA PLATA",
     "C S D PRESIDENTE DERQUI-CAZA Y PESCA A"]
  const SEMIS_PREINFANTILES: seq<string> :=
    ["U GRAL.ARMENIA-CLUB SOCIAL ALEJANDRO KORN",
     "SAN MIGUEL-VICTORIA",
     "QUILMES A.C-COMUNICACIONES",
     "CLUB 3 DE FEBRERO BLANCO-GEI AZUL"]

  /** `finales_raw` of `inferir_ronda_generica_final_four`. */
  const FINALES_JUVENILES: seq<string> :=
    ["EL TALAR-VICTORIA",
     "SAN LORENZO AZUL-SP.ESCOBAR"]
  const FINALES_CADETES: seq<string> :=
    ["SOCIEDAD HEBRAICA ARGENTINA-CLUB SOCIAL Y ATLETICO EZEIZA",
     "PINOCHO-CAZA Y PESCA A"]
  const FINALES_INFANTILES: seq<string> :=
    ["SAN MIGUEL-17 DE AGOSTO",
     "CLUB GIMNASIA Y ESGRIMA DE LA PLATA-CAZA Y PESCA A"]
  const FINALES_PREINFANTILES: seq<string> :=
    ["VICTORIA-CLUB SOCIAL ALEJANDRO KORN",
     "QUILMES A.C-GEI AZUL"]

  /** `semifinales_raw.get(c, [])`, 2022 table. */
  function Semis2022(c: string): seq<(string, string)> {
    if c == "JUVENILES" then SEMIS_2022_JUVENILES
    else if c == "CADETES" then SEMIS_2022_CADETES
    else if c == "IFNATILES" then SEMIS_2022_IFNATILES
    else if c == "INFANTILES" then SEMIS_2022_INFANTILES
    else if c == "PREINFANTILES" then SEMIS_2022_PREINFANTILES
    else []
  }

  /** `finales_raw.get(c, [])`, 2022 table. */
  function Finales2022(c: string): seq<(string, string)> {
    if c == "JUVENILES" then FINALES_2022_JUVENILES
    else if c == "CADETES" then FINALES_2022_CADETES
    else if c == "INFANTILES" then FINALES_2022_INFANTILES
    else if c == "PREINFANTILES" then FINALES_2022_PREINFANTILES
    else []
  }

  /** `semifinales_raw.get(c, [])`, generic table. */
  function SemisGenerica(c: string): seq<string> {
    if c == "JUVENILES" then SEMIS_JUVENILES
    else if c == "CADETES" then SEMIS_CADETES
    else if c == "IFNATILES" then SEMIS_IFNATILES
    else if c == "INFANTILES" then SEMIS_INFANTILES
    else if c == "PREINFANTILES" then SEMIS_PREINFANTILES
    else []
  }

  /** `finales_raw.get(c, [])`, generic table. */
  function FinalesGenerica(c: string): seq<string> {
    if c == "JUVENILES" then FINALES_JUVENILES
    else if c == "CADETES" then FINALES_CADETES
    else if c == "INFANTILES" then FINALES_INFANTILES
    else if c == "PREINFANTILES" then FINALES_PREINFANTILES
    else []
  }

  /** The literal pairings all hold a hyphen, so splitting them never fails. */
  lemma TablasEmparejadas(c: string)
    ensures Emparejada2022(Semis2022(c)) && Emparejada2022(Finales2022(c))
    ensures Emparejada(SemisGenerica(c)) && Emparejada(FinalesGenerica(c))
  {
    if c == "JUVENILES" {
      JuvenilesEmparejada();
    } else if c == "CADETES" {
      CadetesEmparejada();
    } else if c == "IFNATILES" {
      IfnatilesEmparejada();
    } else if c == "INFANTILES" {
      InfantilesEmparejada();
    } else if c == "PREINFANTILES" {
      PreinfantilesEmparejada();
    }
  }

  lemma JuvenilesEmparejada()
    ensures Emparejada2022(SEMIS_2022_JUVENILES) && Emparejada2022(FINALES_2022_JUVENILES)
    ensures Emparejada(SEMIS_JUVENILES) && Emparejada(FINALES_JUVENILES)
  {
  }

  lemma CadetesEmparejada()
    ensures Emparejada2022(SEMIS_2022_CADETES) && Emparejada2022(FINALES_2022_CADETES)
    ensures Emparejada(SEMIS_CADETES) && Emparejada(FINALES_CADETES)
  {
    Cadetes2022Emparejada();
  }

  lemma Cadetes2022Emparejada()
    ensures Emparejada2022(SEMIS_2022_CADETES) && Emparejada2022(FINALES_2022_CADETES)
  {
  }

  lemma IfnatilesEmparejada()
    ensures Emparejada2022(SEMIS_2022_IFNATILES) && Emparejada(SEMIS_IFNATILES)
  {
  }

  lemma InfantilesEmparejada()
    ensures Emparejada2022(SEMIS_2022_INFANTILES) && Emparejada2022(FINALES_2022_INFANTILES)
    ensures Emparejada(SEMIS_INFANTILES) && Emparejada(FINALES_INFANTILES)
  {
  }

  lemma PreinfantilesEmparejada()
    ensures Emparejada2022(SEMIS_2022_PREINFANTILES) && Emparejada2022(FINALES_2022_PREINFANTILES)
    ensures Emparejada(SEMIS_PREINFANTILES) && Emparejada(FINALES_PREINFANTILES)
  {
  }

  // ---------------------------------------------------------------- Final Four

  /** The keys of a table's pairings, in table order. */
  function Claves(t: seq<string>, mapeo: Mapeo): (r: seq<string>)
    requires Emparejada(t)
    ensures |r| == |t|
    ensures forall i :: 0 <= i < |t| ==> r[i] == LlaveDe(t[i], mapeo)
  {
    seq(|t|, i requires 0 <= i < |t| => LlaveDe(t[i], mapeo))
  }

  /** The pairing column of a 2022 table. */
  function Pares(t: seq<(string, string)>): (r: seq<string>)
    ensures |r| == |t| && forall i :: 0 <= i < |t| ==> r[i] == t[i].1
    ensures Emparejada2022(t) ==> Emparejada(r)
  {
    seq(|t|, i requires 0 <= i < |t| => t[i].1)
  }

  /** The first position at or after `i` that holds `x`. */
  function Primera(x: string, s: seq<string>, i: nat): (r: Option<nat>)
    requires i <= |s|
    ensures r.Some? ==> i <= r.value < |s| && s[r.value] == x
    ensures r.Some? ==> forall k :: i <= k < r.value ==> s[k] != x
    ensures r.None? <==> x !in s[i..]
    decreases |s| - i
  {
    if i == |s| then None
    else if s[i] == x then Some(i)
    else
      assert s[i..] == [s[i]] + s[i + 1..];
      Primera(x, s, i + 1)
  }

  /** The keys of the 2022 semi-final and final pairings of an upper-cased category. */
  function ClavesSemis2022(c: string, mapeo: Mapeo): (r: seq<string>)
    ensures |r| == |Semis2022(c)|
  {
    TablasEmparejadas(c);
    Claves(Pares(Semis2022(c)), mapeo)
  }

  function ClavesFinales2022(c: string, mapeo: Mapeo): (r: seq<string>)
    ensures |r| == |Finales2022(c)|
  {
    TablasEmparejadas(c);
    Claves(Pares(Finales2022(c)), mapeo)
  }

  /** What `inferir_ronda` returns: the dict with a round, or the 2019 dict without one. */
  datatype Inferido =
    | ConRonda(ronda: Option<string>, nivel: Option<Nivel>, llave: string)
    | SinRonda(nivelDado: Nivel, llave: string)
  {
    /** `dict.get("ronda")`: the 2019 dict has no such key. */
    function RondaLeida(): Option<string> {
      if ConRonda? then ronda else None
    }

    /** `dict.get("nivel")`. */
    function NivelLeido(): Option<Nivel> {
      if ConRonda? then nivel else Some(nivelDado)
    }
  }

  /**
   * `inferir_ronda_2022_final_four`: the key is looked up in the category's
   * semi-finals first and then in its finals; the table gives the nivel.
   * There is no matchday fallback.
   */
  function FinalFour2022(llave: string, categoria: string, mapeo: Mapeo): (r: Option<Inferido>)
    ensures r.Some? ==> r.value.ConRonda? && r.value.llave == llave && r.value.nivel.Some?
    ensures llave in ClavesSemis2022(Upper(categoria), mapeo) ==> r.Some? && r.value.ronda == Some(SEMIFINAL)
    ensures llave !in ClavesSemis2022(Upper(categoria), mapeo) && llave in ClavesFinales2022(Upper(categoria), mapeo)
      ==> r.Some? && r.value.ronda == Some(FINAL)
    ensures r.None? <==> llave !in ClavesSemis2022(Upper(categoria), mapeo) && llave !in ClavesFinales2022(Upper(categoria), mapeo)
    ensures var s := Primera(llave, ClavesSemis2022(Upper(categoria), mapeo), 0);
      s.Some? ==> r.value.nivel == Some(Etiqueta(Semis2022(Upper(categoria))[s.value].0))
    ensures var s := Primera(llave, ClavesSemis2022(Upper(categoria), mapeo), 0);
      var f := Primera(llave, ClavesFinales2022(Upper(categoria), mapeo), 0);
      s.None? && f.Some? ==> r.value.nivel == Some(Etiqueta(Finales2022(Upper(categoria))[f.value].0))
  {
    var c := Upper(categoria);
    var semis := ClavesSemis2022(c, mapeo);
    var finales := ClavesFinales2022(c, mapeo);
    assert semis[0..] == semis && finales[0..] == finales;
    var s := Primera(llave, semis, 0);
    if s.Some? then
      Some(ConRonda(Some(SEMIFINAL), Some(Etiqueta(Semis2022(c)[s.value].0)), llave))
    else
      var f := Primera(llave, finales, 0);
      if f.Some? then
        Some(ConRonda(Some(FINAL), Some(Etiqueta(Finales2022(c)[f.value].0)), llave))
      else None
  }

  /** `llave in {keys of the table}`: Python builds a set; membership is the same. */
  predicate EnTabla(llave: string, t: seq<string>, mapeo: Mapeo) {
    Emparejada(t) && llave in Claves(t, mapeo)
  }

  /** `inferir_ronda_generica_final_four`. */
  function FinalFourGenerica(llave: string, categoria: string, jornada: string, mapeo: Mapeo): (r: Option<string>)
    ensures !IsDigits(jornada) ==> r.None?
    ensures r.Some? ==> r.value == SEMIFINAL || r.value == FINAL
    ensures IsDigits(jornada) && EnTabla(llave, SemisGenerica(Upper(categoria)), mapeo) ==> r == Some(SEMIFINAL)
    ensures (IsDigits(jornada) && !EnTabla(llave, SemisGenerica(Upper(categoria)), mapeo)
             && EnTabla(llave, FinalesGenerica(Upper(categoria)), mapeo)) ==> r == Some(FINAL)
    ensures (IsDigits(jornada) && !EnTabla(llave, SemisGenerica(Upper(categoria)), mapeo)
             && !EnTabla(llave, FinalesGenerica(Upper(categoria)), mapeo)) ==>
      r == (if DigitsValue(jornada) == 1 then Some(SEMIFINAL) else if DigitsValue(jornada) == 2 then Some(FINAL) else None)
  {
    if !IsDigits(jornada) then None
    else
      var c := Upper(categoria);
      TablasEmparejadas(c);
      if llave in Claves(SemisGenerica(c), mapeo) then Some(SEMIFINAL)
      else if llave in Claves(FinalesGenerica(c), mapeo) then Some(FINAL)
      else
        var j := DigitsValue(jornada);
        if j == 1 then Some(SEMIFINAL) else if j == 2 then Some(FINAL) else None
  }

  /** Every semi-final pairing of the generic table is read as a semi-final, whatever the matchday. */
  lemma SemifinalDeTabla(categoria: string, i: nat, jornada: string, mapeo: Mapeo)
    requires IsDigits(jornada)
    requires i < |SemisGenerica(Upper(categoria))|
    ensures Emparejada(SemisGenerica(Upper(categoria)))
    ensures FinalFourGenerica(LlaveDe(SemisGenerica(Upper(categoria))[i], mapeo), categoria, jornada, mapeo) == Some(SEMIFINAL)
  {
    TablasEmparejadas(Upper(categoria));
    var t := SemisGenerica(Upper(categoria));
    assert Claves(t, mapeo)[i] == LlaveDe(t[i], mapeo);
  }

  // ---------------------------------------------------------------- dispatcher

  /**
   * `inferir_ronda`: only play-off and Final Four phases of the seasons that
   * have rules give an answer; everything else is `None`.
   */
  function InferirRonda(anio: int, categoria: string, nivel: Nivel, zona: string, jornada: string,
                        fase: string, local: string, visitante: string, mapeo: Mapeo): (r: Option<Inferido>)
    requires anio == 2022 && Upper(fase) == "PLAYOFF" && IsDigits(jornada) ==> nivel.Etiqueta?
    ensures r.Some? ==> r.value.llave == Llave(local, visitante, mapeo)
    ensures r.Some? ==> anio == 2019 || anio == 2022 || anio == 2023 || anio == 2024
    ensures r.Some? ==> (Upper(fase) == "PLAYOFF" || Upper(fase) == "FINAL FOUR"
                         || (Upper(fase) == "CUARTOS NIVEL 3" && anio == 2022))
    ensures (r.Some? && r.value.SinRonda?) <==> anio == 2019 && Upper(fase) == "PLAYOFF"
    ensures r.Some? && r.value.SinRonda? ==> r.value.nivelDado == nivel
    ensures Upper(fase) == "PLAYOFF" && (anio == 2022 || anio == 2023 || anio == 2024) ==>
      (r.Some? && r.value.ConRonda? && r.value.nivel == Some(nivel))
    ensures Upper(fase) == "FINAL FOUR" && (anio == 2019 || anio == 2023 || anio == 2024) ==>
      (r.Some? && r.value.ConRonda? && r.value.nivel.None?)
    ensures Upper(fase) == "FINAL FOUR" && anio == 2022 ==>
      r == FinalFour2022(Llave(local, visitante, mapeo), categoria, mapeo)
    ensures Upper(fase) == "PLAYOFF" && anio == 2022 ==>
      r.Some? && r.value.ConRonda? && r.value.ronda == Playoff2022(categoria, nivel, zona, jornada)
    ensures Upper(fase) == "PLAYOFF" && (anio == 2023 || anio == 2024) ==>
      r.Some? && r.value.ConRonda? && r.value.ronda == RondaPorJornada(jornada)
    ensures Upper(fase) == "CUARTOS NIVEL 3" && anio == 2022 ==>
      r.Some? && r.value.ConRonda? && r.value.ronda == RondaPorJornada(jornada) && r.value.nivel == Some(nivel)
    ensures Upper(fase) == "FINAL FOUR" && (anio == 2019 || anio == 2023 || anio == 2024) ==>
      r.Some? && r.value.ConRonda? && r.value.ronda == FinalFourGenerica(Llave(local, visitante, mapeo), categoria, jornada, mapeo)
  {
    var llave := Llave(local, visitante, mapeo);
    var f := Upper(fase);
    if f == "PLAYOFF" then
      if anio == 2022 then Some(ConRonda(Playoff2022(categoria, nivel, zona, jornada), Some(nivel), llave))
      else if anio == 2023 || anio == 2024 then Some(ConRonda(RondaPorJornada(jornada), Some(nivel), llave))
      else if anio == 2019 then Some(SinRonda(nivel, llave))
      else None
    else if f == "CUARTOS NIVEL 3" && anio == 2022 then
      Some(ConRonda(RondaPorJornada(jornada), Some(nivel), llave))
    else if f == "FINAL FOUR" then
      if anio == 2022 then FinalFour2022(llave, categoria, mapeo)
      else if anio == 2019 || anio == 2023 || anio == 2024 then
        Some(ConRonda(FinalFourGenerica(llave, categoria, jornada, mapeo), None, llave))
      else None
    else None
  }

  /** Swapping the two teams of a match changes the key that `inferir_ronda` reports. */
  lemma InferirRondaOrdenada(anio: int, categoria: string, nivel: Nivel, zona: string, jornada: string,
                             fase: string, local: string, visitante: string, mapeo: Mapeo)
    requires anio == 2022 && Upper(fase) == "PLAYOFF" && IsDigits(jornada) ==> nivel.Etiqueta?
    requires NormalizarNombre(local, mapeo) != NormalizarNombre(visitante, mapeo)
    requires '-' !in NormalizarNombre(local, mapeo) && '-' !in NormalizarNombre(visitante, mapeo)
    requires InferirRonda(anio, categoria, nivel, zona, jornada, fase, local, visitante, mapeo).Some?
    requires InferirRonda(anio, categoria, nivel, zona, jornada, fase, visitante, local, mapeo).Some?
    ensures InferirRonda(anio, categoria, nivel, zona, jornada, fase, local, visitante, mapeo).value.llave
      != InferirRonda(anio, categoria, nivel, zona, jornada, fase, visitante, local, mapeo).value.llave
  {
    LlaveOrdenada(local, visitante, mapeo);
  }
}
