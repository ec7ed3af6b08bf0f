/**
 * The 2025 standings: per-match point rules, the per-team statistics folded
 * over the matches of a scope (category, zone, group), and the ordering of
 * the table by points, point difference and points for, all descending.
 */
module Tabla {
  import opened Values
  import opened Text

  /** A played match as the analysis reads it: scores are numbers. */
  datatype Partido = Partido(categoria: string, zona: string, grupo: string,
                             local: string, visitante: string, ptsL: int, ptsV: int)

  /** Points awarded by one match: (home, away). */
  datatype Puntos = Puntos(local: int, visitante: int)
  {
    function Invertir(): Puntos { Puntos(visitante, local) }
  }

  /** `CATS_2PTS`. */
  predicate DosPuntos(cat: string) {
    cat == "PREINFANTILES" || cat == "INFANTILES" || cat == "CADETES"
  }

  /** `CATS_1PT_PRESENTACION` (the same set as `CATS_PRESENTACION`). */
  predicate Presentacion(cat: string) {
    cat == "MINI" || cat == "PREMINI"
  }

  /** A walkover: one side scored 20, the other 0. */
  predicate NoPresentado(propio: int, rival: int) {
    propio == 0 && rival == 20
  }

  // ---------------------------------------------------------------- point rules

  /**
   * `calcular_puntos_categoria`: a walkover gives 2 to the side that showed
   * and 0 to the other; otherwise a win is 2, a loss 1, a scoreless tie 0
   * each and any other tie 1 each.
   */
  function PuntosCategoria(ptsL: int, ptsV: int): (r: Puntos)
    ensures NoPresentado(ptsV, ptsL) ==> r == Puntos(2, 0)
    ensures NoPresentado(ptsL, ptsV) ==> r == Puntos(0, 2)
    ensures !NoPresentado(ptsL, ptsV) && !NoPresentado(ptsV, ptsL) && ptsL != ptsV ==>
      (r.local == 2 <==> ptsL > ptsV) && r.local + r.visitante == 3
    ensures ptsL == ptsV ==> r.local == r.visitante && (r.local == 0 <==> ptsL == 0)
    ensures ptsL == ptsV && ptsL != 0 ==> r == Puntos(1, 1)
    ensures 0 <= r.local <= 2 && 0 <= r.visitante <= 2
  {
    if ptsL == 20 && ptsV == 0 then Puntos(2, 0)
    else if ptsL == 0 && ptsV == 20 then Puntos(0, 2)
    else if ptsL > ptsV then Puntos(2, 1)
    else if ptsL < ptsV then Puntos(1, 2)
    else if ptsL == 0 && ptsV == 0 then Puntos(0, 0)
    else Puntos(1, 1)
  }

  /** The rule does not care which side is at home. */
  lemma PuntosCategoriaSimetrica(ptsL: int, ptsV: int)
    ensures PuntosCategoria(ptsV, ptsL) == PuntosCategoria(ptsL, ptsV).Invertir()
  {
  }

  /**
   * `calcular_puntos_general_v2`: the two-point categories use the category
   * rule; MINI and PREMINI give a point for showing up; any other category
   * (JUVENILES is filtered out before) gives nothing.
   */
  function PuntosGeneral(categoria: string, ptsL: int, ptsV: int): (r: Puntos)
    ensures DosPuntos(categoria) ==> r == PuntosCategoria(ptsL, ptsV)
    ensures Presentacion(categoria) ==> 0 <= r.local <= 1 && 0 <= r.visitante <= 1
    ensures Presentacion(categoria) ==> (r.local == 0 <==> ptsL == 0 && (ptsV == 20 || ptsV == 0))
    ensures Presentacion(categoria) ==> (r.visitante == 0 <==> ptsV == 0 && (ptsL == 20 || ptsL == 0))
    ensures !DosPuntos(categoria) && !Presentacion(categoria) ==> r == Puntos(0, 0)
  {
    if DosPuntos(categoria) then PuntosCategoria(ptsL, ptsV)
    else if Presentacion(categoria) then
      if ptsL == 20 && ptsV == 0 then Puntos(1, 0)
      else if ptsL == 0 && ptsV == 20 then Puntos(0, 1)
      else if ptsL == 0 && ptsV == 0 then Puntos(0, 0)
      else Puntos(1, 1)
    else Puntos(0, 0)
  }

  /** The general rule does not care which side is at home either. */
  lemma PuntosGeneralSimetrica(categoria: string, ptsL: int, ptsV: int)
    ensures PuntosGeneral(categoria, ptsV, ptsL) == PuntosGeneral(categoria, ptsL, ptsV).Invertir()
  {
    PuntosCategoriaSimetrica(ptsL, ptsV);
  }

  /**
   * `row.get(equipo, 0)` after the points Series `{local: a, visitante: b}`
   * was joined to the row: a team that played both sides keeps only the
   * second key's value, and a team that did not play gets 0.
   */
  function Credito(p: Partido, equipo: string, pts: Puntos): int {
    if equipo == p.visitante then pts.visitante
    else if equipo == p.local then pts.local
    else 0
  }

  // ---------------------------------------------------------------- statistics

  /** One row of a standings table. DP is derived, as the source computes it after the fold. */
  datatype Fila = Fila(equipo: string, pj: int, pg: int, pp: int, np: int, pf: int, pc: int, puntos: int)
  {
    function Dp(): int { pf - pc }
  }

  /** What every row of a table built by the fold satisfies. */
  predicate Coherente(f: Fila) {
    f.pg >= 0 && f.pp >= 0 && f.np >= 0 && f.pg + f.pp + f.np <= f.pj
  }

  /** No row counts a game won or lost. */
  predicate SoloNp(t: seq<Fila>) {
    forall i :: 0 <= i < |t| ==> t[i].pg == 0 && t[i].pp == 0
  }

  /** Team names are the dictionary keys: each appears once. */
  predicate SinRepetidos(t: seq<Fila>) {
    forall i, j :: 0 <= i < j < |t| ==> t[i].equipo != t[j].equipo
  }

  /** The position of a team in the table. */
  function Posicion(t: seq<Fila>, equipo: string): (r: Option<nat>)
    ensures r.Some? ==> r.value < |t| && t[r.value].equipo == equipo
    ensures r.None? ==> forall i :: 0 <= i < |t| ==> t[i].equipo != equipo
  {
    if |t| == 0 then None
    else if t[|t| - 1].equipo == equipo then Some(|t| - 1)
    else Posicion(t[..|t| - 1], equipo)
  }

  /** The row of a team, added with every count at zero on its first appearance. */
  function Alta(t: seq<Fila>, equipo: string): (r: (seq<Fila>, nat))
    ensures r.1 < |r.0| && r.0[r.1].equipo == equipo
    ensures Posicion(t, equipo).Some? ==> r.0 == t && r.1 == Posicion(t, equipo).value
    ensures Posicion(t, equipo).None? ==> r.0 == t + [Fila(equipo, 0, 0, 0, 0, 0, 0, 0)] && r.1 == |t|
  {
    var p := Posicion(t, equipo);
    if p.Some? then (t, p.value) else (t + [Fila(equipo, 0, 0, 0, 0, 0, 0, 0)], |t|)
  }

  /**
   * One side of one match for a team: a game played, its score for and
   * against, one of NP, PG or PP (none on a tie), and `credito` points.
   * In the general table MINI and PREMINI matches only count NP.
   */
  function Sumar(f: Fila, propio: int, rival: int, soloNp: bool, credito: int): (r: Fila)
    ensures r.equipo == f.equipo && r.pj == f.pj + 1 && r.pf == f.pf + propio && r.pc == f.pc + rival
    ensures r.puntos == f.puntos + credito
    ensures r.np == f.np + (if NoPresentado(propio, rival) then 1 else 0)
    ensures r.pg + r.pp + r.np <= f.pg + f.pp + f.np + 1
    ensures soloNp ==> r.pg == f.pg && r.pp == f.pp
    ensures !soloNp && !NoPresentado(propio, rival) && propio > rival ==> r.pg == f.pg + 1 && r.pp == f.pp
    ensures !soloNp && !NoPresentado(propio, rival) && propio < rival ==> r.pp == f.pp + 1 && r.pg == f.pg
    ensures NoPresentado(propio, rival) || propio == rival ==> r.pg == f.pg && r.pp == f.pp
    ensures Coherente(f) ==> Coherente(r)
  {
    var np := if NoPresentado(propio, rival) then f.np + 1 else f.np;
    var pg := if !soloNp && !NoPresentado(propio, rival) && propio > rival then f.pg + 1 else f.pg;
    var pp := if !soloNp && !NoPresentado(propio, rival) && propio < rival then f.pp + 1 else f.pp;
    Fila(f.equipo, f.pj + 1, pg, pp, np, f.pf + propio, f.pc + rival, f.puntos + credito)
  }

  /** Apply one side of a match to the table. */
  function Lado(t: seq<Fila>, equipo: string, propio: int, rival: int, soloNp: bool, credito: int): (r: seq<Fila>)
    ensures |r| == |t| || |r| == |t| + 1
    ensures forall i :: 0 <= i < |t| && t[i].equipo != equipo ==> r[i] == t[i]
    ensures exists i :: 0 <= i < |r| && r[i].equipo == equipo
    ensures forall i :: 0 <= i < |t| ==> r[i].equipo == t[i].equipo
    ensures SinRepetidos(t) ==> SinRepetidos(r)
    ensures (forall i :: 0 <= i < |t| ==> Coherente(t[i])) ==> forall i :: 0 <= i < |r| ==> Coherente(r[i])
    ensures soloNp && SoloNp(t) ==> SoloNp(r)
    ensures var p := Posicion(t, equipo);
      p.Some? ==> |r| == |t| && r[p.value] == Sumar(t[p.value], propio, rival, soloNp, credito)
    ensures Posicion(t, equipo).None? ==>
      |r| == |t| + 1 && r[|t|] == Sumar(Fila(equipo, 0, 0, 0, 0, 0, 0, 0), propio, rival, soloNp, credito)
  {
    var (u, k) := Alta(t, equipo);
    AltaSinRepetidos(t, equipo);
    var r := u[k := Sumar(u[k], propio, rival, soloNp, credito)];
    assert r[k].equipo == equipo;
    r
  }

  lemma AltaSinRepetidos(t: seq<Fila>, equipo: string)
    ensures SinRepetidos(t) ==> SinRepetidos(Alta(t, equipo).0)
  {
  }

  /**
   * `calcular_estadisticas` (with `general` false) and
   * `calcular_estadisticas_general` (with `general` true), without the
   * final sort: the home side of each match, then the away side.
   */
  function Estadisticas(ps: seq<Partido>, general: bool): (r: seq<Fila>)
    ensures SinRepetidos(r)
    ensures forall i :: 0 <= i < |r| ==> Coherente(r[i])
    decreases |ps|
  {
    if |ps| == 0 then []
    else
      var t := Estadisticas(ps[..|ps| - 1], general);
      Partida(t, ps[|ps| - 1], general)
  }

  /** The points a match hands out through `row.get`: the home team's and the away team's credit. */
  function Reparto(p: Partido, pts: Puntos): int {
    Credito(p, p.local, pts) + Credito(p, p.visitante, pts)
  }

  /** Two different teams share exactly the points of the rule; a team facing itself gets the away share twice. */
  lemma RepartoSuma(p: Partido, pts: Puntos)
    ensures p.local != p.visitante ==> Reparto(p, pts) == pts.local + pts.visitante
    ensures p.local == p.visitante ==> Reparto(p, pts) == 2 * pts.visitante
  {
  }

  function RepartoGeneral(ps: seq<Partido>): int
    decreases |ps|
  {
    if |ps| == 0 then 0
    else RepartoGeneral(ps[..|ps| - 1]) + Reparto(ps[|ps| - 1], PuntosGeneral(ps[|ps| - 1].categoria, ps[|ps| - 1].ptsL, ps[|ps| - 1].ptsV))
  }

  function RepartoCategoria(ps: seq<Partido>): int
    decreases |ps|
  {
    if |ps| == 0 then 0
    else RepartoCategoria(ps[..|ps| - 1]) + Reparto(ps[|ps| - 1], PuntosCategoria(ps[|ps| - 1].ptsL, ps[|ps| - 1].ptsV))
  }

  /** Both sides of one match. */
  function Partida(t: seq<Fila>, p: Partido, general: bool): (r: seq<Fila>)
    requires SinRepetidos(t) && forall i :: 0 <= i < |t| ==> Coherente(t[i])
    ensures SinRepetidos(r) && forall i :: 0 <= i < |r| ==> Coherente(r[i])
  {
    var soloNp := general && Presentacion(p.categoria);
    var pts := if general then PuntosGeneral(p.categoria, p.ptsL, p.ptsV) else Puntos(0, 0);
    var t1 := Lado(t, p.local, p.ptsL, p.ptsV, soloNp, if general then Credito(p, p.local, pts) else 0);
    Lado(t1, p.visitante, p.ptsV, p.ptsL, soloNp, if general then Credito(p, p.visitante, pts) else 0)
  }

  /** In the general table, a scope of MINI and PREMINI matches only ever counts NP. */
  lemma {:induction false} PresentacionSoloNp(ps: seq<Partido>)
    requires forall i :: 0 <= i < |ps| ==> Presentacion(ps[i].categoria)
    ensures SoloNp(Estadisticas(ps, true))
    decreases |ps|
  {
    if |ps| > 0 {
      PresentacionSoloNp(ps[..|ps| - 1]);
    }
  }

  // ---------------------------------------------------------------- totals

  datatype Campo = PJ | PF | PC | PUNTOS

  function Valor(f: Fila, c: Campo): int {
    match c
    case PJ => f.pj
    case PF => f.pf
    case PC => f.pc
    case PUNTOS => f.puntos
  }

  /** A column summed over the table. */
  function Total(t: seq<Fila>, c: Campo): int
    decreases |t|
  {
    if |t| == 0 then 0 else Total(t[..|t| - 1], c) + Valor(t[|t| - 1], c)
  }

  lemma {:induction false} TotalActualizar(t: seq<Fila>, k: nat, f: Fila, c: Campo)
    requires k < |t|
    ensures Total(t[k := f], c) == Total(t, c) - Valor(t[k], c) + Valor(f, c)
    decreases |t|
  {
    var u := t[k := f];
    if k < |t| - 1 {
      assert u[..|u| - 1] == t[..|t| - 1][k := f];
      TotalActualizar(t[..|t| - 1], k, f, c);
    } else {
      assert u[..|u| - 1] == t[..|t| - 1];
    }
  }

  lemma TotalAgregar(t: seq<Fila>, f: Fila, c: Campo)
    ensures Total(t + [f], c) == Total(t, c) + Valor(f, c)
  {
    assert (t + [f])[..|t|] == t;
  }

  /** One side of a match adds a game, its score for and against, and its credit to the column totals. */
  lemma LadoTotal(t: seq<Fila>, equipo: string, propio: int, rival: int, soloNp: bool, credito: int, c: Campo)
    ensures Total(Lado(t, equipo, propio, rival, soloNp, credito), c)
      == Total(t, c) + (match c case PJ => 1 case PF => propio case PC => rival case PUNTOS => credito)
  {
    var (u, k) := Alta(t, equipo);
    if Posicion(t, equipo).None? {
      TotalAgregar(t, Fila(equipo, 0, 0, 0, 0, 0, 0, 0), c);
    }
    TotalActualizar(u, k, Sumar(u[k], propio, rival, soloNp, credito), c);
  }

  /** Every match adds its two scores to both the points-for and the points-against totals. */
  lemma PartidaTotal(t: seq<Fila>, p: Partido, general: bool)
    requires SinRepetidos(t) && forall i :: 0 <= i < |t| ==> Coherente(t[i])
    ensures Total(Partida(t, p, general), PF) == Total(t, PF) + p.ptsL + p.ptsV
    ensures Total(Partida(t, p, general), PC) == Total(t, PC) + p.ptsV + p.ptsL
    ensures Total(Partida(t, p, general), PJ) == Total(t, PJ) + 2
    ensures Total(Partida(t, p, general), PUNTOS) == Total(t, PUNTOS)
      + (if general then Reparto(p, PuntosGeneral(p.categoria, p.ptsL, p.ptsV)) else 0)
  {
    var soloNp := general && Presentacion(p.categoria);
    var pts := if general then PuntosGeneral(p.categoria, p.ptsL, p.ptsV) else Puntos(0, 0);
    var cl := if general then Credito(p, p.local, pts) else 0;
    var cv := if general then Credito(p, p.visitante, pts) else 0;
    var t1 := Lado(t, p.local, p.ptsL, p.ptsV, soloNp, cl);
    LadoTotal(t, p.local, p.ptsL, p.ptsV, soloNp, cl, PF);
    LadoTotal(t, p.local, p.ptsL, p.ptsV, soloNp, cl, PC);
    LadoTotal(t, p.local, p.ptsL, p.ptsV, soloNp, cl, PJ);
    LadoTotal(t1, p.visitante, p.ptsV, p.ptsL, soloNp, cv, PF);
    LadoTotal(t1, p.visitante, p.ptsV, p.ptsL, soloNp, cv, PC);
    LadoTotal(t1, p.visitante, p.ptsV, p.ptsL, soloNp, cv, PJ);
    LadoTotal(t, p.local, p.ptsL, p.ptsV, soloNp, cl, PUNTOS);
    LadoTotal(t1, p.visitante, p.ptsV, p.ptsL, soloNp, cv, PUNTOS);
  }

  /** Summed over all teams, points for equal points against, and two games are counted per match. */
  lemma {:induction false} EstadisticasTotales(ps: seq<Partido>, general: bool)
    ensures Total(Estadisticas(ps, general), PF) == Total(Estadisticas(ps, general), PC)
    ensures Total(Estadisticas(ps, general), PJ) == 2 * |ps|
    ensures Total(Estadisticas(ps, general), PUNTOS) == (if general then RepartoGeneral(ps) else 0)
    decreases |ps|
  {
    if |ps| > 0 {
      EstadisticasTotales(ps[..|ps| - 1], general);
      PartidaTotal(Estadisticas(ps[..|ps| - 1], general), ps[|ps| - 1], general);
    }
  }

  /** Every team of every match has a row once the matches are folded. */
  lemma {:induction false} EstadisticasPresentes(ps: seq<Partido>, general: bool)
    ensures Presentes(Estadisticas(ps, general), ps)
    decreases |ps|
  {
    if |ps| > 0 {
      var q := ps[..|ps| - 1];
      var p := ps[|ps| - 1];
      var t := Estadisticas(q, general);
      EstadisticasPresentes(q, general);
      var r := Estadisticas(ps, general);
      PartidaConserva(t, p, general);
      forall i | 0 <= i < |ps|
        ensures Posicion(r, ps[i].local).Some? && Posicion(r, ps[i].visitante).Some?
      {
        if i < |ps| - 1 {
          assert ps[i] == q[i];
        }
      }
    }
  }

  predicate Presentes(t: seq<Fila>, ps: seq<Partido>) {
    forall i :: 0 <= i < |ps| ==> Posicion(t, ps[i].local).Some? && Posicion(t, ps[i].visitante).Some?
  }

  /** A row found before a match is still found after it, and both its teams are found. */
  lemma PartidaConserva(t: seq<Fila>, p: Partido, general: bool)
    requires SinRepetidos(t) && forall i :: 0 <= i < |t| ==> Coherente(t[i])
    ensures forall e :: Posicion(t, e).Some? ==> Posicion(Partida(t, p, general), e).Some?
    ensures Posicion(Partida(t, p, general), p.local).Some? && Posicion(Partida(t, p, general), p.visitante).Some?
  {
    var soloNp := general && Presentacion(p.categoria);
    var pts := if general then PuntosGeneral(p.categoria, p.ptsL, p.ptsV) else Puntos(0, 0);
    var cl := if general then Credito(p, p.local, pts) else 0;
    var t1 := Lado(t, p.local, p.ptsL, p.ptsV, soloNp, cl);
    LadoConserva(t, p.local, p.ptsL, p.ptsV, soloNp, cl);
    LadoConserva(t1, p.visitante, p.ptsV, p.ptsL, soloNp, if general then Credito(p, p.visitante, pts) else 0);
  }

  /** One side keeps every row it found and leaves one for its team. */
  lemma LadoConserva(t: seq<Fila>, equipo: string, propio: int, rival: int, soloNp: bool, credito: int)
    ensures forall e :: Posicion(t, e).Some? ==> Posicion(Lado(t, equipo, propio, rival, soloNp, credito), e).Some?
    ensures Posicion(Lado(t, equipo, propio, rival, soloNp, credito), equipo).Some?
  {
    var r := Lado(t, equipo, propio, rival, soloNp, credito);
    forall e | Posicion(t, e).Some?
      ensures Posicion(r, e).Some?
    {
      assert r[Posicion(t, e).value].equipo == e;
    }
    var j :| 0 <= j < |r| && r[j].equipo == equipo;
  }

  // ---------------------------------------------------------------- category points

  /** `tabla.at[equipo, 'puntos'] += n`; a team without a row is never asked for. */
  function Acreditar(t: seq<Fila>, equipo: string, n: int): (r: seq<Fila>)
    ensures |r| == |t|
    ensures forall i :: 0 <= i < |t| ==> r[i] == t[i].(puntos := r[i].puntos)
    ensures forall i :: 0 <= i < |t| && t[i].equipo != equipo ==> r[i] == t[i]
  {
    var k := Posicion(t, equipo);
    if k.None? then t else t[k.value := t[k.value].(puntos := t[k.value].puntos + n)]
  }

  /**
   * The second pass of the category tables: after the statistics, each
   * match credits the category rule's points to its home team and then to
   * its away team.
   */
  function SumarPuntos(t: seq<Fila>, ps: seq<Partido>): (r: seq<Fila>)
    ensures |r| == |t|
    ensures forall i :: 0 <= i < |t| ==> r[i] == t[i].(puntos := r[i].puntos)
    decreases |ps|
  {
    if |ps| == 0 then t
    else
      var u := SumarPuntos(t, ps[..|ps| - 1]);
      var p := ps[|ps| - 1];
      var pts := PuntosCategoria(p.ptsL, p.ptsV);
      Acreditar(Acreditar(u, p.local, Credito(p, p.local, pts)), p.visitante, Credito(p, p.visitante, pts))
  }

  lemma AcreditarTotal(t: seq<Fila>, equipo: string, n: int)
    requires Posicion(t, equipo).Some?
    ensures Total(Acreditar(t, equipo, n), PUNTOS) == Total(t, PUNTOS) + n
    ensures Total(Acreditar(t, equipo, n), PF) == Total(t, PF)
  {
    var k := Posicion(t, equipo).value;
    TotalActualizar(t, k, t[k].(puntos := t[k].puntos + n), PUNTOS);
    TotalActualizar(t, k, t[k].(puntos := t[k].puntos + n), PF);
  }

  /** A table whose rows keep their teams finds the same teams. */
  lemma MismosEquipos(t: seq<Fila>, u: seq<Fila>, e: string)
    requires |u| == |t| && forall i :: 0 <= i < |t| ==> u[i].equipo == t[i].equipo
    ensures Posicion(u, e).Some? <==> Posicion(t, e).Some?
  {
    if Posicion(u, e).Some? {
      assert t[Posicion(u, e).value].equipo == e;
    }
    if Posicion(t, e).Some? {
      assert u[Posicion(t, e).value].equipo == e;
    }
  }

  /** When every team already has a row, the second pass adds exactly the points the matches hand out. */
  lemma {:induction false} SumarPuntosTotal(t: seq<Fila>, ps: seq<Partido>)
    requires Presentes(t, ps)
    ensures Total(SumarPuntos(t, ps), PUNTOS) == Total(t, PUNTOS) + RepartoCategoria(ps)
    decreases |ps|
  {
    if |ps| > 0 {
      var q := ps[..|ps| - 1];
      var p := ps[|ps| - 1];
      assert Presentes(t, q) by {
        forall i | 0 <= i < |q|
          ensures Posicion(t, q[i].local).Some? && Posicion(t, q[i].visitante).Some?
        {
          assert q[i] == ps[i];
        }
      }
      SumarPuntosTotal(t, q);
      var u := SumarPuntos(t, q);
      var pts := PuntosCategoria(p.ptsL, p.ptsV);
      MismosEquipos(t, u, p.local);
      AcreditarTotal(u, p.local, Credito(p, p.local, pts));
      var v := Acreditar(u, p.local, Credito(p, p.local, pts));
      MismosEquipos(t, v, p.visitante);
      AcreditarTotal(v, p.visitante, Credito(p, p.visitante, pts));
    }
  }

  // ---------------------------------------------------------------- ordering

  /** The sort key: points, then point difference, then points for. */
  function Clave(f: Fila): (int, int, int) {
    (f.puntos, f.Dp(), f.pf)
  }

  /** `a` may stand above `b`: its key is at least `b`'s, compared column by column. */
  predicate Antes(a: Fila, b: Fila) {
    a.puntos > b.puntos
    || (a.puntos == b.puntos && (a.Dp() > b.Dp() || (a.Dp() == b.Dp() && a.pf >= b.pf)))
  }

  lemma AntesOrden(a: Fila, b: Fila, c: Fila)
    ensures Antes(a, b) || Antes(b, a)
    ensures Antes(a, b) && Antes(b, c) ==> Antes(a, c)
    ensures Antes(a, b) && Antes(b, a) <==> Clave(a) == Clave(b)
  {
  }

  /** Descending by the key. */
  predicate Ordenada(s: seq<Fila>) {
    forall i, j :: 0 <= i < j < |s| ==> Antes(s[i], s[j])
  }

  /** Insert `x` ahead of the first row it may stand above. */
  function Insertar(x: Fila, s: seq<Fila>): (r: seq<Fila>)
    ensures multiset(r) == multiset(s) + multiset{x}
    ensures Ordenada(s) ==> Ordenada(r)
    decreases |s|
  {
    if |s| == 0 then [x]
    else if Antes(x, s[0]) then
      InsertarDelante(x, s);
      [x] + s
    else
      var r' := Insertar(x, s[1..]);
      InsertarDetras(x, s, r');
      assert s == [s[0]] + s[1..];
      [s[0]] + r'
  }

  lemma InsertarDelante(x: Fila, s: seq<Fila>)
    ensures |s| > 0 && Antes(x, s[0]) && Ordenada(s) ==> Ordenada([x] + s)
  {
    if |s| > 0 && Antes(x, s[0]) && Ordenada(s) {
      forall j | 0 <= j < |s|
        ensures Antes(x, s[j])
      {
        AntesOrden(x, s[0], s[j]);
      }
    }
  }

  lemma InsertarDetras(x: Fila, s: seq<Fila>, r': seq<Fila>)
    requires |s| > 0 && multiset(r') == multiset(s[1..]) + multiset{x}
    ensures !Antes(x, s[0]) && Ordenada(s) && Ordenada(r') ==> Ordenada([s[0]] + r')
  {
    if !Antes(x, s[0]) && Ordenada(s) && Ordenada(r') {
      forall j | 0 <= j < |r'|
        ensures Antes(s[0], r'[j])
      {
        assert r'[j] in multiset(r');
        if r'[j] != x {
          assert r'[j] in multiset(s[1..]);
          var k :| 0 <= k < |s[1..]| && s[1..][k] == r'[j];
          assert s[k + 1] == r'[j];
        } else {
          AntesOrden(x, s[0], x);
        }
      }
    }
  }

  /**
   * `sort_values(['puntos', 'DP', 'PF'], ascending=False)`: an insertion
   * sort from the last row to the first, so that rows with the same key
   * keep their order.
   */
  function Ordenar(s: seq<Fila>): (r: seq<Fila>)
    ensures multiset(r) == multiset(s)
    ensures Ordenada(r)
    decreases |s|
  {
    if |s| == 0 then []
    else
      assert s == [s[0]] + s[1..];
      Insertar(s[0], Ordenar(s[1..]))
  }

  /** The rows with key `k`, in order. */
  function ConClave(s: seq<Fila>, k: (int, int, int)): seq<Fila>
    decreases |s|
  {
    if |s| == 0 then [] else (if Clave(s[0]) == k then [s[0]] else []) + ConClave(s[1..], k)
  }

  /** Inserting passes only over rows with a strictly larger key. */
  lemma {:induction false} InsertarEstable(x: Fila, s: seq<Fila>, k: (int, int, int))
    ensures ConClave(Insertar(x, s), k) == ConClave([x] + s, k)
    decreases |s|
  {
    if |s| > 0 && !Antes(x, s[0]) {
      InsertarEstable(x, s[1..], k);
      PasarDelante(x, s, k);
    }
  }

  /** One step of the insertion: `x` passes a row whose key differs from its own. */
  lemma PasarDelante(x: Fila, s: seq<Fila>, k: (int, int, int))
    requires |s| > 0 && !Antes(x, s[0])
    requires ConClave(Insertar(x, s[1..]), k) == ConClave([x] + s[1..], k)
    ensures ConClave(Insertar(x, s), k) == ConClave([x] + s, k)
  {
    var r' := Insertar(x, s[1..]);
    var px := if Clave(x) == k then [x] else [];
    var p0 := if Clave(s[0]) == k then [s[0]] else [];
    AntesOrden(x, s[0], x);
    assert s == [s[0]] + s[1..];
    calc {
      ConClave(Insertar(x, s), k);
      ConClave([s[0]] + r', k);
      { ConClaveCons(s[0], r', k); }
      p0 + ConClave(r', k);
      { ConClaveCons(x, s[1..], k); }
      p0 + (px + ConClave(s[1..], k));
      { VacioConmuta(p0, px, ConClave(s[1..], k)); }
      px + (p0 + ConClave(s[1..], k));
      { ConClaveCons(s[0], s[1..], k); }
      px + ConClave(s, k);
      { ConClaveCons(x, s, k); }
      ConClave([x] + s, k);
    }
  }

  lemma VacioConmuta(a: seq<Fila>, b: seq<Fila>, c: seq<Fila>)
    requires a == [] || b == []
    ensures a + (b + c) == b + (a + c)
  {
    if a == [] {
      assert a + (b + c) == b + c == b + (a + c);
    } else {
      assert b + (a + c) == a + c == a + (b + c);
    }
  }

  lemma ConClaveCons(y: Fila, t: seq<Fila>, k: (int, int, int))
    ensures ConClave([y] + t, k) == (if Clave(y) == k then [y] else []) + ConClave(t, k)
  {
    assert ([y] + t)[1..] == t;
  }

  /** The sort is stable: rows with the same key come out in the order they went in. */
  lemma {:induction false} OrdenarEstable(s: seq<Fila>, k: (int, int, int))
    ensures ConClave(Ordenar(s), k) == ConClave(s, k)
    decreases |s|
  {
    if |s| > 0 {
      InsertarEstable(s[0], Ordenar(s[1..]), k);
      OrdenarEstable(s[1..], k);
      assert ([s[0]] + Ordenar(s[1..]))[1..] == Ordenar(s[1..]);
    }
  }

  // ---------------------------------------------------------------- tables

  /** `normalizar_categoria` applied to the whole column. */
  function NormalizarCategorias(ps: seq<Partido>): (r: seq<Partido>)
    ensures |r| == |ps|
    ensures forall i :: 0 <= i < |ps| ==> r[i] == ps[i].(categoria := Norm(ps[i].categoria))
  {
    seq(|ps|, i requires 0 <= i < |ps| => ps[i].(categoria := Norm(ps[i].categoria)))
  }

  /**
   * The table of one category in one zone and, when `grupo` is given, one
   * group: the statistics, the category points, then the sort.
   */
  function TablaCategoria(ps: seq<Partido>, categoria: string, zona: string, grupo: Option<string>): (r: seq<Fila>)
    ensures Ordenada(r)
    ensures multiset(r) == multiset(SumarPuntos(Estadisticas(DeAmbito(ps, categoria, zona, grupo), false),
                                                DeAmbito(ps, categoria, zona, grupo)))
  {
    var sel := DeAmbito(ps, categoria, zona, grupo);
    Ordenar(SumarPuntos(Estadisticas(sel, false), sel))
  }

  /** The matches of a category, zone and (optionally) group, after the category names are normalised. */
  function DeAmbito(ps: seq<Partido>, categoria: string, zona: string, grupo: Option<string>): (r: seq<Partido>)
    ensures forall i :: 0 <= i < |r| ==> r[i].categoria == categoria && r[i].zona == zona
    ensures grupo.Some? ==> forall i :: 0 <= i < |r| ==> r[i].grupo == grupo.value
  {
    Filtrar(NormalizarCategorias(ps), EnAmbito(categoria, zona, grupo))
  }

  /** The row mask of `DeAmbito`. */
  function EnAmbito(categoria: string, zona: string, grupo: Option<string>): Partido -> bool {
    (p: Partido) => p.categoria == categoria && p.zona == zona && (grupo.None? || p.grupo == grupo.value)
  }

  /** Every match of the scope is kept, as often as it occurs, and no other. */
  lemma DeAmbitoCompleto(ps: seq<Partido>, categoria: string, zona: string, grupo: Option<string>, p: Partido)
    ensures multiset(DeAmbito(ps, categoria, zona, grupo))[p]
         == if p.categoria == categoria && p.zona == zona && (grupo.None? || p.grupo == grupo.value)
            then multiset(NormalizarCategorias(ps))[p] else 0
  {
    FiltrarCuenta(NormalizarCategorias(ps), EnAmbito(categoria, zona, grupo), p);
  }

  /** The general table of one zone: every category but JUVENILES, general points, then the sort. */
  function TablaGeneral(ps: seq<Partido>, zona: string): (r: seq<Fila>)
    ensures Ordenada(r)
    ensures multiset(r) == multiset(Estadisticas(DeZonaGeneral(ps, zona), true))
  {
    Ordenar(Estadisticas(DeZonaGeneral(ps, zona), true))
  }

  function DeZonaGeneral(ps: seq<Partido>, zona: string): (r: seq<Partido>)
    ensures forall i :: 0 <= i < |r| ==> r[i].categoria != "JUVENILES" && r[i].zona == zona
  {
    Filtrar(NormalizarCategorias(ps), EnZonaGeneral(zona))
  }

  /** The row mask of `DeZonaGeneral`. */
  function EnZonaGeneral(zona: string): Partido -> bool {
    (p: Partido) => p.categoria != "JUVENILES" && p.zona == zona
  }

  /** Every match of the zone outside JUVENILES is kept, as often as it occurs, and no other. */
  lemma DeZonaGeneralCompleta(ps: seq<Partido>, zona: string, p: Partido)
    ensures multiset(DeZonaGeneral(ps, zona))[p]
         == if p.categoria != "JUVENILES" && p.zona == zona then multiset(NormalizarCategorias(ps))[p] else 0
  {
    FiltrarCuenta(NormalizarCategorias(ps), EnZonaGeneral(zona), p);
  }
}
