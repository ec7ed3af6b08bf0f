/**
 * `normalizar_equipo`: a team name is looked up, trimmed and upper-cased, in
 * a map of canonical names; a name the map does not know comes back trimmed
 * but in its original case. The map is a parameter (the JSON file it is read
 * from is not part of this model).
 */
module Loader {
  import opened Values
  import opened Text

  /** Canonical team names, keyed by the trimmed, upper-cased spelling. */
  type Mapeo = map<string, string>

  /** The `str` case of `normalizar_equipo`. */
  function NormalizarNombre(nombre: string, mapeo: Mapeo): (r: string)
    ensures Norm(nombre) in mapeo ==> r == mapeo[Norm(nombre)]
    ensures Norm(nombre) !in mapeo ==> r == Strip(nombre) && Upper(r) == Norm(nombre)
  {
    StripUpper(nombre);
    var clave := Norm(nombre);
    if clave in mapeo then mapeo[clave] else Strip(nombre)
  }

  /** `normalizar_equipo` on any cell: what is not a string is handed back as it came. */
  function NormalizarEquipo(nombre: Value, mapeo: Mapeo): (r: Value)
    ensures nombre.NonStr? ==> r == nombre
    ensures nombre.Str? ==> r.Str? && r.s == NormalizarNombre(nombre.s, mapeo)
  {
    if nombre.NonStr? then nombre else Str(NormalizarNombre(nombre.s, mapeo))
  }

  /**
   * Outer whitespace never matters; case does not matter for a mapped name,
   * and for an unmapped one it changes only the case of the answer.
   */
  lemma NormalizarInsensible(nombre: string, p: string, q: string, mapeo: Mapeo)
    requires AllSpace(p) && AllSpace(q)
    ensures NormalizarNombre(p + nombre + q, mapeo) == NormalizarNombre(nombre, mapeo)
    ensures Norm(nombre) in mapeo ==> NormalizarNombre(Upper(nombre), mapeo) == NormalizarNombre(nombre, mapeo)
    ensures Norm(nombre) !in mapeo ==> NormalizarNombre(Upper(nombre), mapeo) == Upper(NormalizarNombre(nombre, mapeo))
  {
    NormInsensitive(nombre, p, q);
    StripPadding(p, nombre, q);
    StripUpper(nombre);
  }

  /** Normalising an unmapped name a second time leaves it as it is. */
  lemma NormalizarSinMapeoIdempotente(nombre: string, mapeo: Mapeo)
    requires Norm(nombre) !in mapeo
    ensures NormalizarNombre(NormalizarNombre(nombre, mapeo), mapeo) == NormalizarNombre(nombre, mapeo)
  {
    var s := Strip(nombre);
    StripSinBordes(s);
    StripUpper(nombre);
    StripUpper(s);
    StripSinBordes(Upper(s));
  }

  /**
   * A map whose canonical names are themselves keys that map to them:
   * normalising a canonical name gives it back.
   */
  predicate Cerrado(mapeo: Mapeo) {
    forall k :: k in mapeo ==> Norm(mapeo[k]) in mapeo && mapeo[Norm(mapeo[k])] == mapeo[k]
  }

  /** Under a closed map, normalising any name a second time leaves it as it is. */
  lemma NormalizarIdempotente(nombre: string, mapeo: Mapeo)
    requires Cerrado(mapeo)
    ensures NormalizarNombre(NormalizarNombre(nombre, mapeo), mapeo) == NormalizarNombre(nombre, mapeo)
  {
    if Norm(nombre) !in mapeo {
      NormalizarSinMapeoIdempotente(nombre, mapeo);
    }
  }
}
