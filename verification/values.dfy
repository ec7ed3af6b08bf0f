/**
 * Value types shared by the parsers, the round inference and the analysis
 * scripts: optional and fallible results, the dual-typed `nivel`, and the
 * sentinels that mark a field no rule could fill.
 */
module Values {

  /** Python's `None` or a present value. */
  datatype Option<T> = None | Some(value: T)

  /** A computation that either returns a value or raises a Python exception. */
  datatype Result<T> = Success(value: T) | Failure(error: string)

  /**
   * A `nivel` is a Python `str` in most rules, but a few rules store the
   * integers 1, 2 or 3 instead. Both shapes travel through the records
   * unchanged, so they are kept apart here.
   */
  datatype Nivel = Etiqueta(texto: string) | Numero(n: int)

  /** A table cell as the analysis scripts see it: a string or any other Python value (number, NaN). */
  datatype Value = Str(s: string) | NonStr(id: nat)

  /** Sentinel for the feminine fields: fase, ronda and zona. */
  const DESCONOCIDA: string := "Desconocida"
  /** Sentinel for the masculine fields: nivel and grupo. */
  const DESCONOCIDO: string := "Desconocido"

  const INTERCONFERENCIA: string := "INTERCONFERENCIA"
  const UNICO: string := "UNICO"

  /** The elements of `s` that satisfy `f`, in their order (a boolean-mask selection). */
  function Filtrar<T>(s: seq<T>, f: T -> bool): (r: seq<T>)
    ensures forall i :: 0 <= i < |r| ==> f(r[i])
    ensures forall i :: 0 <= i < |r| ==> r[i] in s
    ensures forall i :: 0 <= i < |s| && f(s[i]) ==> s[i] in r
    ensures |r| <= |s|
    decreases |s|
  {
    if |s| == 0 then [] else (if f(s[0]) then [s[0]] else []) + Filtrar(s[1..], f)
  }

  /** Selection keeps the order: filtering a concatenation filters each part in place. */
  lemma {:induction false} FiltrarConcat<T>(a: seq<T>, b: seq<T>, f: T -> bool)
    ensures Filtrar(a + b, f) == Filtrar(a, f) + Filtrar(b, f)
    decreases |a|
  {
    if |a| == 0 {
      assert a + b == b;
    } else {
      assert (a + b)[1..] == a[1..] + b;
      FiltrarConcat(a[1..], b, f);
    }
  }

  /** Selecting by a predicate and by its negation splits a sequence in two. */
  lemma FiltrarParticion<T>(s: seq<T>, f: T -> bool, g: T -> bool)
    requires forall i :: 0 <= i < |s| ==> g(s[i]) == !f(s[i])
    ensures multiset(Filtrar(s, f)) + multiset(Filtrar(s, g)) == multiset(s)
  {
    forall x
      ensures (multiset(Filtrar(s, f)) + multiset(Filtrar(s, g)))[x] == multiset(s)[x]
    {
      FiltrarCuenta(s, f, x);
      FiltrarCuenta(s, g, x);
      if x in s {
        var i :| 0 <= i < |s| && s[i] == x;
      }
    }
  }

  /** Filtering keeps every copy of the elements that pass and none of the rest. */
  lemma {:induction false} FiltrarCuenta<T>(s: seq<T>, f: T -> bool, x: T)
    ensures multiset(Filtrar(s, f))[x] == if f(x) then multiset(s)[x] else 0
    decreases |s|
  {
    if |s| > 0 {
      FiltrarCuenta(s[1..], f, x);
      FiltrarPaso(s, f);
      MultisetCons(s);
    }
  }

  lemma MultisetCons<T>(s: seq<T>)
    requires |s| > 0
    ensures multiset(s) == multiset{s[0]} + multiset(s[1..])
  {
    assert s == [s[0]] + s[1..];
  }

  /** The first element is kept or dropped, and the rest is filtered. */
  lemma FiltrarPaso<T>(s: seq<T>, f: T -> bool)
    requires |s| > 0
    ensures multiset(Filtrar(s, f)) == (if f(s[0]) then multiset{s[0]} else multiset{}) + multiset(Filtrar(s[1..], f))
  {
  }
}
