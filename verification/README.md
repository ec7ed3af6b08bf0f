# formativas_ges in Dafny

A model of the parsing and standings core of `formativas_ges`, the scraper and
analysis of the FEBAMBA youth basketball tournaments (seasons 2019 to 2025).

What the model covers:

- **Phase headings** (`parsear_fase`). The text of a phase is read into a
  stage (fase), a round (ronda), a level (nivel), a zone (zona) and, in 2023,
  a base group. Each season has its own ordered chain of rules.
- **Group headings** (`parsear_grupo`). The text of a group, read together
  with its phase, gives the level, the zone and the group.
- **Table headings** (`parsear_jornada`). A heading above a table of matches
  gives a round, a matchday and a date.
- **Round inference** (`inferir_ronda`). For play-off and Final Four matches
  the round is deduced from the matchday number, or from the bracket key
  "home-away" of the normalised team names looked up in literal pairing
  tables.
- **Team names** (`normalizar_equipo`). A team name is mapped through the
  team dictionary.
- **Record assembly** in the scraper. The phase, group, heading and inferred
  readings are merged into one match record, with a fixed precedence.
- **Parser test script** (`procesar_fila`). The script applies the same
  merge and lists the fields still unknown.
- **Validity filter** of the exploratory analysis (`es_valido`).
- **2025 standings.** These cover:
  - the point rules per category and for the general table;
  - the per-team statistics folded over the matches;
  - the ordering by points, point difference and points for.

Python's values are modelled as follows:

- `str` is `seq<char>`.
- `str.upper`, `str.strip`, `str.split` and `str.isdigit` are written out in
  the `Text` module.
- Every regular expression is written as a matcher over positions, in the
  `Patterns` module. `re.search` takes the leftmost start. Greedy runs backtrack
  where the next token can also match the run's characters.
- A level that Python stores either as a `str` or as an `int` is the datatype
  `Nivel`.
- An exception that a parser lets escape is a `Failure`.
- A field that may hold a non-string cell is `Value`.

The modules follow the source files:

| module | source file |
|---|---|
| `Values` | shared values |
| `Text` | Python string functions |
| `Patterns` | the regular expressions |
| `Fases` | parsers/fases.py |
| `Grupos` | parsers/grupos.py |
| `Jornadas` | parsers/jornadas.py |
| `Rondas` | parsers/rondas.py |
| `Loader` | mapeos/loader.py |
| `Tabla` | analisis/tabla_2025.py |
| `Scraper` | scraper/main.py |
| `Procesar` | tests/test_parsers.py |
| `Eda` | analisis/eda.py |

Notes on the code as written, which the model follows:

- An unmapped team name comes back trimmed in its original case, not
  upper-cased (mapeos/loader.py:24).
- In 2022, a CADETES play-off of level 1 on matchday 2 is a quarter-final.
  Position 1 of `[1, 2, 3, 4]` is OCTAVOS (parsers/rondas.py:76-78, 260-270).
- In 2023, a quarter-final heading without the word CONFERENCIA keeps the
  level "Desconocido". That value is truthy, so the lone-digit fallback at
  parsers/fases.py:264-267 never fires.
- The Final Four tables key a category "IFNATILES", so INFANTILES
  semi-finals are never found there (parsers/rondas.py:125).
- The generic semi-final table reads "COOPERADORES DE QUILMES" where the 2022
  table reads "COOPERARIOS DE QUILMES" (parsers/rondas.py:114, 194).
- In 2019, the group parser tries the zone-before-group pattern twice. The
  second try can never succeed where the first failed.
- In 2023, the exact phase INTERCONFERENCIAS also contains the word
  CONFERENCIA, so the conference rules read its group first. A bare zone
  gets the level "S", the word that follows CONFERENCIA in the phase
  (parsers/grupos.py:163-200, 212).
- In 2024, the play-off rule prepares a corrected copy of the group text but
  matches the uncorrected one.

## Model

| member | source | states |
|---|---|---|
| Values.Filtrar | analisis/eda.py:26-27 | a boolean-mask selection keeps only elements of the sequence that pass, keeps every element that passes, and is never longer |
| Values.FiltrarConcat | analisis/eda.py:26-27 | selecting from two sequences joined is joining the two selections, so the kept elements stay in their original order |
| Values.FiltrarCuenta | analisis/tabla_2025.py:98 | a selection keeps every copy of each element that passes and no copy of one that fails |
| Values.FiltrarParticion | analisis/eda.py:26-27 | selecting by a predicate and by its negation splits a sequence into two parts whose multisets add up to the whole |
| Loader.NormalizarNombre | mapeos/loader.py:23-24 | a mapped name, looked up trimmed and upper-cased, gives the mapped value; an unmapped name gives the trimmed original, whose upper case is the lookup key |
| Loader.NormalizarEquipo | mapeos/loader.py:20-24 | a non-string cell is handed back unchanged; a string is normalised as above |
| Loader.NormalizarInsensible | mapeos/loader.py:23-24 | outer whitespace never changes the answer; case does not change a mapped answer and changes only the case of an unmapped one |
| Loader.NormalizarSinMapeoIdempotente | mapeos/loader.py:23-24 | for a name the dictionary does not map, normalising the normalised name changes nothing |
| Loader.NormalizarIdempotente | mapeos/loader.py:23-24 | when every canonical name of the dictionary maps to itself, normalising any name twice is normalising it once |
| Fases.PrimeraEn | parsers/fases.py:411-415 | the first word of a list that occurs in the text: it occurs, no earlier word does, and none occurs when the answer is empty |
| Fases.PrimeraZona | parsers/fases.py:411-415 | the first of SUR, CENTRO, NORTE, OESTE, in that list order, that the text contains: the zone found occurs, no zone listed before it occurs, and when none is found no zone occurs |
| Fases.Grupo0 | parsers/fases.py:404-406 | the first group of a search has the shape of its pattern, and the fallback is returned exactly when nothing matches |
| Fases.NormalizarConf | parsers/fases.py:401 | the substitution leaves a text without CONF untouched |
| Fases.NormalizarConfLee | parsers/fases.py:401 | where CONF, any whitespace and a digit stand, the substitution writes CONF, one space and that digit, and goes on after the digit |
| Fases.NormalizarConfEjemplo | parsers/fases.py:401 | a glued `CONF1` followed by a rest without CONF becomes `CONF 1` with the rest kept |
| Fases.NivelZona2019 | parsers/fases.py:389-428 | the 2019 play-off helper sets both fields to INTERCONFERENCIA exactly when the text says INTERCONFERENCIA and lacks CONF or a zone; otherwise the level is the digit of the first `CONF` digit match, "1" when CONF carries no digit, and the zone the first of SUR, CENTRO, NORTE, OESTE that the text contains; the level is unknown exactly when neither CONF nor INTERCONFERENCIA occurs, and the zone exactly when neither a zone nor INTERCONFERENCIA occurs |
| Fases.NivelZona2023 | parsers/fases.py:431-451 | INTERCONFERENCIA anywhere decides both fields, in both directions; otherwise the level is the first digit standing alone as a word, or unknown exactly when there is none, and the zone is the first of SUR, CENTRO, NORTE, OESTE that the text contains, or unknown when it contains none |
| Fases.Fase2019 | parsers/fases.py:32-173 | every 2019 reading is well formed, carries no group, and a numeric level only comes with the Estimulo round |
| Fases.Fase2019Conferencias | parsers/fases.py:69-111 | the same guarantees for the conference rules of 2019 |
| Fases.Fase2019Eliminatorias | parsers/fases.py:112-173 | the same guarantees for the 2019 rules from the round of sixteen on |
| Fases.Playoff2019 | parsers/fases.py:119-137 | a 2019 play-off round takes its level and zone from the play-off helper |
| Fases.Conferencia2daFase2019 | parsers/fases.py:69-88 | a second-phase conference heading is a regular-phase second round whose level is digits or unknown |
| Fases.PrimeraFase2019Zona | parsers/fases.py:34-43 | `<ZONE> 1RA FASE`, for each of SUR, CENTRO, NORTE and OESTE, is the regular first phase of that zone with the level unknown |
| Fases.SegundaFase2019ZonaNivel | parsers/fases.py:69-78 | `CONFERENCIA <zone> <n> 2DA FASE` is the regular second phase of that zone at level n, for any capital-letter zone and digit run n |
| Fases.SegundaFase2019NivelZona | parsers/fases.py:69-84 | `CONFERENCIA <n> <zone> 2DA FASE`, with one of the four zones, gives the same zone and level, the zone-first pattern finding nothing |
| Fases.Conferencia3raFase2019 | parsers/fases.py:89-111 | a conference final heading is a regular-phase third round; the zone is "Desc" exactly when the level is |
| Fases.Fase2022 | parsers/fases.py:175-211 | a 2022 reading never has a numeric level; a classification heading is the regular first phase with no zone |
| Fases.CuartosNivel3_2022 | parsers/fases.py:186-189 | the exact heading `CUARTOS NIVEL 3` is a play-off of level 3 in CENTRO with the round left unknown |
| Fases.Fase2023 | parsers/fases.py:213-323 | a 2023 base group is a single letter and only comes with the regular second phase; a numeric level is 3 with zone CENTRO |
| Fases.RepararZona | parsers/fases.py:255-262 | a zone read as 0ESTE..., ESTE or O becomes OESTE; any other zone is kept; none of the three misreadings survives |
| Fases.NivelZonaCuartos2023 | parsers/fases.py:230-267 | the quarter-final level is never empty and is a digit, INTERCONFERENCIA or unknown; INTERCONFERENCIA in the text decides both fields |
| Fases.Cuartos2023 | parsers/fases.py:230-267 | a 2023 quarter-final is a play-off with the round left unknown, its zone repaired |
| Fases.Conferencia2023 | parsers/fases.py:280-317 | a 2023 conference heading is the regular second phase; its group is unknown or one letter |
| Fases.Fase2024 | parsers/fases.py:325-369 | a 2024 text level is unknown or an interconference letter; a first-stage heading without 2DA is the regular first phase with nothing else known |
| Fases.PlayOff2024 | parsers/fases.py:355-363 | in a 2024 play-off the later tests win: INTERCONFERENCIAS A overrides NIVEL 1, which overrides -NIVEL 2 |
| Fases.Fase2025 | parsers/fases.py:370-375 | a 2025 heading is the NIVELACION cup exactly when it names the first stage, else all sentinels |
| Fases.ParsearFase | parsers/fases.py:11-386 | every reading is well formed; a season without rules gives all sentinels; a base group only arises in 2023; numeric levels only in 2019, 2023 and 2024 |
| Fases.ParsearFaseNormaliza | parsers/fases.py:29 | the case and the outer whitespace of the heading never change the reading |
| Grupos.OUnico | parsers/grupos.py:162 | a missing group letter becomes UNICO, a present one is kept |
| Grupos.Grupo2019 | parsers/grupos.py:53-114 | a 2019 group reading has a text level that is a digit, INTERCONFERENCIA or unknown; outside the first phase and conference headings the zone is unknown or INTERCONFERENCIA |
| Grupos.Grupo2019PrimeraFase | parsers/grupos.py:56-65 | a first-phase group gives a zone, a digit level and a letter exactly when one of its two patterns matches |
| Grupos.PrimeraFase2019Ida | parsers/grupos.py:57-63 | `CONFERENCIA NORTE 1 A` is read back as its zone, level and letter |
| Grupos.Grupo2019SegundaFase | parsers/grupos.py:66-101 | a second-phase group takes the group of the first matching pattern; it is UNICO exactly when only the zone-and-level patterns match |
| Grupos.SegundaFase2019Ida | parsers/grupos.py:66-73 | `ZONA <letter> <zone> <digit>` is read back as that group letter, zone and level |
| Grupos.Grupo2019Final | parsers/grupos.py:102-112 | a conference final or interconference group gets a letter exactly when such a heading has a zone-and-letter match |
| Grupos.Grupo2022 | parsers/grupos.py:117-151 | a classification group is a level digit and a zone word; a level heading with SUR UNICA or ZONA UNICA is SUR, UNICO |
| Grupos.Clasificacion2022SinLetra | parsers/grupos.py:120-124 | under a classification phase, `<zone> <digit>` without a letter is that zone and level with the single group UNICO |
| Grupos.Grupo2022Eliminatorias | parsers/grupos.py:133-149 | a play-off group naming INTERCONFERENCIA is interconference; only the interconference phase sets a group; other phases keep the default |
| Grupos.NivelDeFase | parsers/grupos.py:176 | the word after CONFERENCIA in the phase; it is missing exactly when only whitespace follows, which raises IndexError in the source |
| Grupos.Grupo2023 | parsers/grupos.py:154-217 | the 2023 rules fail only for a conference phase without a word after CONFERENCIA; a phase that is neither regular nor conference gives all unknown |
| Grupos.InterconferenciasLeeConferencia | parsers/grupos.py:163-215 | under the exact phase INTERCONFERENCIAS, which also contains CONFERENCIA, a bare zone of the four is read by the conference rules: that zone, the single group UNICO, and the level "S" that follows CONFERENCIA in the phase's name |
| Grupos.Regular2023 | parsers/grupos.py:157-162 | the regular-phase pattern sets a zone word and a group exactly when it matches; its level is a digit or unknown |
| Grupos.Conferencia2023 | parsers/grupos.py:163-211 | in the round of sixteen a bare zone gets the phase's level and UNICO, or the IndexError when the phase names none; other texts change nothing |
| Grupos.ZonaValida2023 | parsers/grupos.py:188-200 | a match of one of the four zones sets that zone and a group; no match leaves the reading unchanged |
| Grupos.Pegados2023 | parsers/grupos.py:203-211 | `NORTE1A` and `NORTE1` at both ends override the reading; otherwise it is unchanged |
| Grupos.Interconferencias2023 | parsers/grupos.py:212-215 | only the exact phase INTERCONFERENCIAS changes the group, and only to one letter |
| Grupos.NivelInterconferencia | parsers/grupos.py:257 | the interconference level names its letter |
| Grupos.ComillasRectas | parsers/grupos.py:227 | no closing curly quote survives |
| Grupos.Limpiar2024 | parsers/grupos.py:223-228 | the cleaned 2024 group text has no outer whitespace |
| Grupos.Grupo2024 | parsers/grupos.py:220-327 | a numeric level is 3 and only under RECLASIFICACION FLEX; a phase that none of the tests names gives all unknown |
| Grupos.Flex2024 | parsers/grupos.py:230-239 | the flexible reclassification sets level 3; the zone is the pattern's zone; a matched group 1 becomes A, 2 becomes B, any other is kept; the group is unknown exactly when the pattern does not match |
| Grupos.Flex2024Ida | parsers/grupos.py:230-239 | `<zone> 1` and `<zone> 2` are read back as that zone with group A or B at level 3 |
| Grupos.FaseFinal2024 | parsers/grupos.py:242-271 | a FLEX group in the final phase sets the text level "3"; an interconference group sets INTERCONFERENCIA A or B |
| Grupos.PrimeraEtapa2024 | parsers/grupos.py:274-279 | the first-stage pattern sets a digit level, an accented-letter zone and one letter; without a match nothing changes |
| Grupos.SegundaRonda2024 | parsers/grupos.py:282-299 | the second round sets a digit level, a zone and either one letter or two letters joined by a dash; with neither it is A-B |
| Grupos.DosGrupos2024 | parsers/grupos.py:283-287 | two group letters joined by a dash are kept as such |
| Grupos.GrupoSeparado2024 | parsers/grupos.py:288-293 | a final letter set apart is the group |
| Grupos.AmbosGrupos2024 | parsers/grupos.py:294-299 | a level and zone without a letter are played by both groups, A-B |
| Grupos.PlayOff2024 | parsers/grupos.py:301-325 | an interconference letter wins; else level and zone leave the group; else a letter or letter pair |
| Grupos.Grupo2025 | parsers/grupos.py:330-338 | every 2025 group is a levelling group; it has a number exactly in the first stage when the text ends with digits |
| Grupos.Grupo2025Ida | parsers/grupos.py:330-338 | in the first stage, a zone of capital words joined by single spaces, a space and a number are read back as that zone and that number |
| Grupos.ParsearGrupo | parsers/grupos.py:11-45 | an empty group text gives three unknowns before any normalisation; otherwise the season's rules read the normalised texts |
| Grupos.PorTemporada | parsers/grupos.py:30-45 | a season without rules keeps the normalised group text; only 2023 can fail; only 2024 gives a numeric level |
| Grupos.ParsearGrupoNormaliza | parsers/grupos.py:27-28 | the case and the outer whitespace of both texts never change the reading |
| Jornadas.Cabecera | parsers/jornadas.py:24 | the heading is trimmed and upper-cased |
| Jornadas.Partes | parsers/jornadas.py:30-36 | without a hyphen the whole text is the info and the date is empty; with one, the text splits at its first hyphen into trimmed parts |
| Jornadas.RondaDe | parsers/jornadas.py:39-41 | the round is the keyword that starts leftmost in the info, so SEMIFINAL is never read as FINAL; it is empty exactly when no keyword occurs |
| Jornadas.NumeroDe | parsers/jornadas.py:44-46 | the matchday is the whole digit run after the leftmost `JORNADA` that optional whitespace and a digit follow; it is empty exactly when there is no such `JORNADA` |
| Jornadas.ParsearJornada | parsers/jornadas.py:11-48 | round and matchday are what RondaDe and NumeroDe read in the trimmed, upper-cased part before the first hyphen; the date is the trimmed rest, empty without a hyphen |
| Jornadas.ParsearJornadaNormaliza | parsers/jornadas.py:24 | the case and the outer whitespace of a heading never change the reading |
| Jornadas.PartesIda | parsers/jornadas.py:30-33 | a text and a date joined by a hyphen come apart as the trimmed pieces |
| Jornadas.RondaAlInicio | parsers/jornadas.py:39-41 | a heading starting with a round keyword reads that keyword |
| Jornadas.NumeroAlFinal | parsers/jornadas.py:44-46 | `JORNADA <n>` at the end of a text without J before it reads back n |
| Jornadas.CortarEnGuion | parsers/jornadas.py:24-48 | for a text `a` without a hyphen, `a-b` reads the same round and matchday as `a` alone, and its date is `b` trimmed and upper-cased |
| Jornadas.JornadaSinRonda | parsers/jornadas.py:11-48 | a heading `JORNADA <n> - <date>` without a round reads no round, the number n and the date trimmed and upper-cased, whatever the date holds |
| Jornadas.ParsearJornadaIda | parsers/jornadas.py:11-48 | `<round> JORNADA <n> - <date>` is read back as its three pieces, hyphens in the date included |
| Jornadas.ParsearJornadaMixta | parsers/jornadas.py:24 | the word JORNADA may be written in any case |
| Jornadas.EjemploDocumentado | parsers/jornadas.py:16 | the documented example heading reads as SEMIFINAL, 1, 10/12/2023 |
| Rondas.PrimeraPosicion | parsers/rondas.py:266-270 | the first position whose entry holds the matchday, a tuple holding either of its two |
| Rondas.MapRonda | parsers/rondas.py:256-271 | the round of the first position holding the matchday, absent exactly when no position holds it |
| Rondas.MapRondaCuatro | parsers/rondas.py:260-270 | in `[1, 2, 3, 4]` matchday 1 is OCTAVOS, 2 CUARTOS, 4 FINAL, and 5 has no round |
| Rondas.MapRondaTuplaYVacia | parsers/rondas.py:65-71 | a tuple entry sends both its matchdays to one round; a None entry holds nothing |
| Rondas.Estructura2022 | parsers/rondas.py:60-91 | the matchday list for a category, level and zone; only JUVENILES, CADETES and INFANTILES have lists; INFANTILES level 3 has one only in SUR |
| Rondas.Playoff2022 | parsers/rondas.py:49-92 | a non-digit matchday gives no round; otherwise the round is MapRonda of the matchday's value over the list chosen for the upper-cased category, level and zone, and none when no list is chosen |
| Rondas.Playoff2022SinMayusculas | parsers/rondas.py:58 | the case of category, level and zone never matters |
| Rondas.CadetesNivel1Jornada2 | parsers/rondas.py:76-78 | CADETES level 1 matchday 2 is a quarter-final |
| Rondas.RondaPorJornada | parsers/rondas.py:174-180 | a round is given exactly for the digit matchdays 1 to 3: quarter-final, semi-final, final |
| Rondas.RondaPorJornadaIda | parsers/rondas.py:95-102 | matchdays 1, 2 and 3 written as digits give their rounds |
| Rondas.LlaveIda | parsers/rondas.py:26 | a key splits back at its first hyphen into the two normalised names, home team first |
| Rondas.LlaveOrdenada | parsers/rondas.py:26 | swapping two different hyphen-free teams changes the key |
| Rondas.LlaveDeIda | parsers/rondas.py:161-162 | a table pairing `a-b` is keyed exactly like the match a against b |
| Rondas.TablasEmparejadas | parsers/rondas.py:160-170 | every literal pairing holds a hyphen, so splitting it never fails |
| Rondas.Claves | parsers/rondas.py:240-248 | the keys of a table are its pairings, each split and normalised |
| Rondas.Pares | parsers/rondas.py:160 | the pairing column of a 2022 table |
| Rondas.Primera | parsers/rondas.py:160-170 | the first position holding a key, absent exactly when the key is not there |
| Rondas.FinalFour2022 | parsers/rondas.py:105-171 | a key in the category's semi-finals is a semi-final; else one in its finals is a final; else nothing; the level is that of the first table row holding the key |
| Rondas.FinalFourGenerica | parsers/rondas.py:183-253 | a non-digit matchday gives nothing; a tabled key gives its round, semi-finals first; else matchday 1 and 2 give semi-final and final |
| Rondas.SemifinalDeTabla | parsers/rondas.py:249-250 | every semi-final pairing of the generic table is read as a semi-final whatever the matchday |
| Rondas.InferirRonda | parsers/rondas.py:11-46 | only play-off and Final Four phases of seasons with rules infer; the key is always the normalised pair; a 2019 play-off gives no round; the 2022 play-off round is Playoff2022's, the 2023 and 2024 play-off and the 2022 CUARTOS NIVEL 3 rounds are RondaPorJornada's, the 2022 Final Four is FinalFour2022's and the other Final Fours' round is FinalFourGenerica's; the level is passed through in play-offs and absent in generic Final Fours |
| Rondas.InferirRondaOrdenada | parsers/rondas.py:26 | swapping home and away changes the key the inference reports |
| Tabla.PuntosCategoria | analisis/tabla_2025.py:25-38 | a walkover gives 2 and 0; a decided match gives 2 to the winner and 1 to the loser; a scoreless tie 0 each, any other tie 1 each |
| Tabla.PuntosCategoriaSimetrica | analisis/tabla_2025.py:25-38 | the rule does not care which side is at home |
| Tabla.PuntosGeneral | analisis/tabla_2025.py:130-156 | the two-point categories use the category rule; MINI and PREMINI give a point to a side exactly when it showed up; other categories give nothing |
| Tabla.PuntosGeneralSimetrica | analisis/tabla_2025.py:130-156 | the general rule does not care which side is at home |
| Tabla.Posicion | analisis/tabla_2025.py:77 | the row holding a team, absent exactly when no row does |
| Tabla.Alta | analisis/tabla_2025.py:77-78 | an existing row is reused; a new team gets a zero row at the end |
| Tabla.Sumar | analisis/tabla_2025.py:79-90 | one side adds a game, its scores for and against and its credit; a walkover (0 against 20) adds NP; otherwise a higher score adds PG, a lower one PP, and a tie neither; in the general MINI and PREMINI counts only NP is added |
| Tabla.Lado | analisis/tabla_2025.py:71-90 | the team's row becomes Sumar of its old row, or a new last row is Sumar of the zero row when the team had none; every other row is unchanged; team names stay unique and every row consistent |
| Tabla.Estadisticas | analisis/tabla_2025.py:68-93 | the folded table has one row per team, each consistent |
| Tabla.Partida | analisis/tabla_2025.py:71-74 | both sides of a match keep the table unique and consistent |
| Tabla.LadoTotal | analisis/tabla_2025.py:79-81 | one side raises the column totals by one game, its scores and its credit |
| Tabla.PartidaTotal | analisis/tabla_2025.py:79-81 | every match adds both scores to the points-for and the points-against totals and two games |
| Tabla.EstadisticasTotales | analisis/tabla_2025.py:68-93 | summed over all teams, points for equal points against and two games are counted per match |
| Tabla.EstadisticasPresentes | analisis/tabla_2025.py:77-78 | every team of every match has a row after the fold |
| Tabla.PartidaConserva | analisis/tabla_2025.py:77-78 | a team found before a match is still found after it, and both of its teams are found |
| Tabla.LadoConserva | analisis/tabla_2025.py:77-78 | one side keeps every row it found and leaves one for its team |
| Tabla.RepartoSuma | analisis/tabla_2025.py:187 | two different teams share exactly the rule's points; a team facing itself gets the away share twice |
| Tabla.PresentacionSoloNp | analisis/tabla_2025.py:175-178 | a general scope of MINI and PREMINI matches never counts a game won or lost |
| Tabla.Acreditar | analisis/tabla_2025.py:106 | crediting changes only the points of the named team's row |
| Tabla.SumarPuntos | analisis/tabla_2025.py:103-106 | the second pass changes only points |
| Tabla.SumarPuntosTotal | analisis/tabla_2025.py:103-106 | when every team has a row, the second pass adds exactly the points the matches hand out |
| Tabla.AntesOrden | analisis/tabla_2025.py:107 | the descending order by points, difference and points for is total and transitive, and ties are equal keys |
| Tabla.Insertar | analisis/tabla_2025.py:107 | inserting adds one row to the multiset and keeps a sorted table sorted |
| Tabla.Ordenar | analisis/tabla_2025.py:107 | the sort is a permutation and its result is ordered |
| Tabla.InsertarEstable | analisis/tabla_2025.py:107 | insertion passes only rows of a strictly larger key |
| Tabla.OrdenarEstable | analisis/tabla_2025.py:107 | rows with the same key keep their order |
| Tabla.NormalizarCategorias | analisis/tabla_2025.py:13-16 | every category is trimmed and upper-cased, nothing else changes |
| Tabla.DeAmbito | analisis/tabla_2025.py:98-101 | the selected matches are of the category, the zone and, when given, the group |
| Tabla.DeAmbitoCompleto | analisis/tabla_2025.py:98-101 | every match of the scope is kept as often as it occurs, and no other |
| Tabla.TablaCategoria | analisis/tabla_2025.py:96-108 | a category table is ordered and holds the rows of the statistics with the category points |
| Tabla.DeZonaGeneral | analisis/tabla_2025.py:128 | the general selection has no JUVENILES and only the zone |
| Tabla.DeZonaGeneralCompleta | analisis/tabla_2025.py:128 | every match of the zone outside JUVENILES is kept as often as it occurs, and no other |
| Tabla.TablaGeneral | analisis/tabla_2025.py:161-195 | a general table is ordered and holds the rows of the general statistics |
| Scraper.ArmarPartido | scraper/main.py:191-280 | a row gives a record exactly when it has four cells, both scores and is not a MINI or PREMINI play-off; the record holds the year, category, stage, normalised teams, raw scores and the heading's matchday and date |
| Scraper.Inferencia | scraper/main.py:204-218 | the inference's key is that of the row's two trimmed team cells |
| Scraper.RondaPrecedencia | scraper/main.py:221-247 | ronda: the phase's round; else the heading's; else the inferred one unless unknown; else empty |
| Scraper.NivelPrecedencia | scraper/main.py:248-256 | nivel: the inferred level unless absent or unknown; else the phase's; else the group's; unknown exactly when all are |
| Scraper.ZonaPrecedencia | scraper/main.py:257-261 | zona: the phase's unless unknown, else the group's; unknown exactly when both are |
| Scraper.GrupoPrecedencia | scraper/main.py:262-268 | grupo: a play-off or Final Four takes the bracket key; otherwise the phase's group unless unknown, else the group parser's |
| Scraper.EliminatoriaSiPlayoffOFinalFour | scraper/main.py:233 | the upper-cased stage is PLAYOFF or FINAL FOUR exactly for those two stages |
| Scraper.FaseTextoPlayoff | scraper/main.py:277 | the stage text equals "Playoff" exactly for the play-off stage |
| Scraper.RondaNuncaDesconocida | scraper/main.py:239-247 | with a heading read by the heading parser a record never has the round "Desconocida" |
| Scraper.LlaveNoVacia | parsers/rondas.py:26 | a bracket key is never empty |
| Scraper.GrupoEsLlave | scraper/main.py:262-268 | a kept play-off or Final Four record with an inference has the key of its two normalised teams as its group |
| Scraper.NivelInferible2022 | scraper/main.py:207-211 | in 2022 the level handed to the inference is always text, as its upper-casing needs |
| Procesar.Categorias | tests/test_parsers.py:28 | one trimmed, comma-free name per comma-separated piece |
| Procesar.CategoriasIda | tests/test_parsers.py:28 | trimmed comma-free names joined by commas are read back as the same list |
| Procesar.ProcesarFila | tests/test_parsers.py:34-60 | no result exactly when the year is not a number or a parser raises; else fase and ronda from the phase, grupo from the group, and nivel and zona from the phase unless unknown, unknown exactly when both are |
| Procesar.FaltantesExactos | tests/test_parsers.py:65-69 | a field is listed exactly when it holds a sentinel; only fase, ronda, nivel and zona are checked |
| Procesar.FaseDesconocidaFaltante | tests/test_parsers.py:65-69 | a heading no rule recognises is flagged for fase and ronda |
| Procesar.MismoCriterioQueScraper | tests/test_parsers.py:48-57 | without an inference, the test script and the scraper choose the same level and zone |
| Eda.Validos | analisis/eda.py:26 | every kept row passes the written test |
| Eda.Invalidos | analisis/eda.py:27 | every discarded row fails the written test |
| Eda.Particion | analisis/eda.py:24-27 | each row lands in exactly one of the two frames, as often as it occurs |
| Eda.DesconocidoInvalida | analisis/eda.py:22 | "DESCONOCIDO" in any case and with any outer whitespace invalidates a field |
| Eda.DesconocidaValida | analisis/eda.py:22 | "Desconocida" does not invalidate a field |
| Eda.VacioInvalida | analisis/eda.py:22 | an empty text or a non-string cell invalidates a field |
| Eda.OtrosCamposIrrelevantes | analisis/eda.py:21 | grupo, category, teams and scores play no part in validity |
| Eda.FaseDesconocidaSeConserva | analisis/eda.py:20-22 | a row whose fase is the phase parser's unknown stage is kept by the written test |
| Eda.SentinelaRechazada | analisis/eda.py:22 | under the corrected test either sentinel, in any case and padding, invalidates a field |
| Eda.Conocidos | analisis/eda.py:26 | every row kept by the corrected test also passes the written one |
| Eda.Desconocidos | analisis/eda.py:27 | every row discarded by the corrected test fails it |
| Eda.ParticionConocidos | analisis/eda.py:24-27 | the corrected frames also partition the rows |

## Findings

| source | as written | input that shows it | evidently intended | confidence | as-written member | corrected member |
|---|---|---|---|---|---|---|
| analisis/eda.py:22 | a field is invalid only when it reads "DESCONOCIDO"; the parsers write "Desconocida" for an unknown fase, ronda and zona | a row with fase "Desconocida" and known ronda, nivel and zona is kept as valid | both sentinels invalidate the field | medium; not executed | Eda.FaseDesconocidaSeConserva | Eda.SentinelaRechazada |

## Left out

- Fetching the pages, HTML parsing, the sleeps between requests, logging, printing, and the CSV, JSON and Excel reading and writing. The heading text and the cell texts are parameters.
- The team dictionary is a parameter (`Mapeo`); loading it from its JSON file (`cargar_mapeo_*`) is not modelled.
- `calcular_puntos_general` (analisis/tabla_2025.py:40-66) is not modelled: nothing calls it.
- Python's Unicode tables are cut down. `str.isdigit` and `\d` accept ASCII digits only. `str.upper` maps ASCII and Latin-1 lower-case letters except ß. `\w` is ASCII letters and digits, `_`, and Latin-1 letters.
- `int()` on a year reads an optional sign and ASCII digits inside whitespace. Digit-group underscores, which Python also accepts, are not modelled.
- `parsear_fase`'s catch-all `except` is not modelled: no modelled rule raises.
- A heading tag of None is not modelled. The scraper would raise on it.
- `grupo_info` and `fase_info` are always full records: the parsers never return partial dictionaries.
- Rondas.InferirRonda: a 2022 play-off needs a text level (`requires`), because Python's `nivel.upper()` raises on the integer levels. The 2022 parsers never produce one, as Scraper.NivelInferible2022 shows.
- Tabla.Ordenar: a multi-column `sort_values` is taken to be stable, so rows with equal keys keep the fold's order (first appearance of each team). The algorithm pandas uses for the sort is not modelled.
- Tabla.Acreditar: a team without a row is left unchanged; pandas would add a row. The category tables always hold both teams of every match (Tabla.EstadisticasPresentes).
- Tabla.Credito: the points Series is joined to the row as columns named after the teams. A team literally named like another column (`ptsL`, `zona`, ...) would read that column instead. Such a name is not modelled.
- Tabla.Estadisticas: each team's counts, PG, PP and NP included, are stated one side at a time (Tabla.Sumar for the row, Tabla.Lado for the table) and as column totals, not as closed per-team sums over all matches.
- Fases.Fase2019, Fases.Fase2022, Fases.Fase2023 and Fases.Fase2024 state the shape of every reading and the behaviour of selected rules, not the exact value of every branch. The bodies follow the code branch by branch. Rules are read back on their documented forms by Fases.PrimeraFase2019Zona, Fases.SegundaFase2019ZonaNivel, Fases.SegundaFase2019NivelZona and Fases.CuartosNivel3_2022; the others are not.
- Grupos.Grupo2019, Grupos.Grupo2022, Grupos.Grupo2023 and Grupos.Grupo2024 state the shape of every reading and the precedence between rules, not every branch's value. Rules are read back on their documented forms by Grupos.PrimeraFase2019Ida, Grupos.SegundaFase2019Ida, Grupos.Clasificacion2022SinLetra, Grupos.InterconferenciasLeeConferencia and Grupos.Flex2024Ida; the others are not.
- Grupos.Grupo2025Ida: zones with a hyphen, an Ñ or repeated spaces are not covered by the lemma; Grupos.Grupo2025 states their shape only.
- Procesar.Faltantes only bounds the list's length. Its content is stated by Procesar.FaltantesExactos.
