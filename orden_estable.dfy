/** The stable sort behind every `Array.prototype.sort` call of the application.

    Each call site sorts with a comparator that compares a pair of integers
    lexicographically; here that pair is a `Clave` computed from the element.
    `Array.prototype.sort` is stable, and a stable sort has exactly one possible
    output (sorted by key, equal keys in input order), so an insertion sort that
    puts a new element after every element with a key not greater than its own
    describes it. */
module OrdenEstable {

  /** A sort key, compared first on `primaria`, then on `secundaria`. */
  datatype Clave = Clave(primaria: int, secundaria: int)

  predicate MenorIgual(a: Clave, b: Clave) {
    a.primaria < b.primaria || (a.primaria == b.primaria && a.secundaria <= b.secundaria)
  }

  /** Every element's key is at most the key of every later element. */
  ghost predicate Ordenado<T>(s: seq<T>, clave: T -> Clave) {
    forall i, j :: 0 <= i < j < |s| ==> MenorIgual(clave(s[i]), clave(s[j]))
  }

  /** Inserts `x` into `s` just before the first element whose key is strictly greater. */
  function Insertar<T>(s: seq<T>, x: T, clave: T -> Clave): (r: seq<T>)
    ensures |r| == |s| + 1
    ensures multiset(r) == multiset(s) + multiset{x}
  {
    if s == [] then [x]
    else if MenorIgual(clave(s[0]), clave(x)) then
      assert s == [s[0]] + s[1..];
      [s[0]] + Insertar(s[1..], x, clave)
    else [x] + s
  }

  /** Every element of an insertion is the inserted element or one already there. */
  lemma ElementoInsertado<T>(s: seq<T>, x: T, clave: T -> Clave, k: nat)
    requires k < |s| + 1
    ensures Insertar(s, x, clave)[k] == x || Insertar(s, x, clave)[k] in s
  {
    var r := Insertar(s, x, clave);
    assert r[k] in multiset(r);
  }

  /** Stable insertion sort: the elements of `s`, sorted by key, equal keys in input order. */
  function Ordenar<T>(s: seq<T>, clave: T -> Clave): (r: seq<T>)
    ensures |r| == |s|
    ensures multiset(r) == multiset(s)
  {
    if s == [] then []
    else
      assert s == s[..|s| - 1] + [s[|s| - 1]];
      Insertar(Ordenar(s[..|s| - 1], clave), s[|s| - 1], clave)
  }

  /** The elements of `s` whose key is `k`, in the order of `s`. */
  function ConClave<T>(s: seq<T>, k: Clave, clave: T -> Clave): (r: seq<T>)
    ensures |r| <= |s|
  {
    if s == [] then []
    else
      assert s == [s[0]] + s[1..];
      (if clave(s[0]) == k then [s[0]] else []) + ConClave(s[1..], k, clave)
  }

  lemma {:induction false} InsertarConservaOrden<T>(s: seq<T>, x: T, clave: T -> Clave)
    requires Ordenado(s, clave)
    ensures Ordenado(Insertar(s, x, clave), clave)
  {
    if s != [] {
      var r := Insertar(s, x, clave);
      if MenorIgual(clave(s[0]), clave(x)) {
        var resto := Insertar(s[1..], x, clave);
        InsertarConservaOrden(s[1..], x, clave);
        forall k | 0 <= k < |resto|
          ensures MenorIgual(clave(s[0]), clave(resto[k]))
        {
          assert resto[k] in multiset(resto);
          if resto[k] != x {
            assert resto[k] in multiset(s[1..]);
            var m :| 0 <= m < |s[1..]| && s[1..][m] == resto[k];
            assert s[m + 1] == resto[k];
          }
        }
        assert r == [s[0]] + resto;
      } else {
        assert r == [x] + s;
        forall k | 0 <= k < |s|
          ensures MenorIgual(clave(x), clave(s[k]))
        {
          assert MenorIgual(clave(s[0]), clave(s[k]));
        }
      }
    }
  }

  lemma {:induction false} OrdenarOrdena<T>(s: seq<T>, clave: T -> Clave)
    ensures Ordenado(Ordenar(s, clave), clave)
  {
    if s != [] {
      OrdenarOrdena(s[..|s| - 1], clave);
      InsertarConservaOrden(Ordenar(s[..|s| - 1], clave), s[|s| - 1], clave);
    }
  }

  /** An element whose key is not below any key of `s` goes to the end. */
  lemma {:induction false} InsertarAlFinal<T>(s: seq<T>, x: T, clave: T -> Clave)
    requires forall i :: 0 <= i < |s| ==> MenorIgual(clave(s[i]), clave(x))
    ensures Insertar(s, x, clave) == s + [x]
  {
    if s != [] {
      InsertarAlFinal(s[1..], x, clave);
      assert s == [s[0]] + s[1..];
    }
  }

  /** Sorting a list already in order changes nothing. */
  lemma {:induction false} OrdenarOrdenadoEsIdentidad<T>(s: seq<T>, clave: T -> Clave)
    requires Ordenado(s, clave)
    ensures Ordenar(s, clave) == s
  {
    if s != [] {
      var p := s[..|s| - 1];
      OrdenarOrdenadoEsIdentidad(p, clave);
      InsertarAlFinal(p, s[|s| - 1], clave);
      assert p + [s[|s| - 1]] == s;
    }
  }

  /** Appending one element to a sorted list and sorting inserts it in place. */
  lemma OrdenarTrasAgregar<T>(s: seq<T>, x: T, clave: T -> Clave)
    requires Ordenado(s, clave)
    ensures Ordenar(s + [x], clave) == Insertar(s, x, clave)
  {
    assert (s + [x])[..|s + [x]| - 1] == s;
    OrdenarOrdenadoEsIdentidad(s, clave);
  }

  lemma {:induction false} ConClaveConcat<T>(a: seq<T>, b: seq<T>, k: Clave, clave: T -> Clave)
    ensures ConClave(a + b, k, clave) == ConClave(a, k, clave) + ConClave(b, k, clave)
  {
    if a != [] {
      ConClaveConcat(a[1..], b, k, clave);
      assert (a + b)[0] == a[0] && (a + b)[1..] == a[1..] + b;
    } else {
      assert a + b == b;
    }
  }

  lemma {:induction false} ConClaveVacio<T>(s: seq<T>, k: Clave, clave: T -> Clave)
    requires forall m :: 0 <= m < |s| ==> clave(s[m]) != k
    ensures ConClave(s, k, clave) == []
  {
    if s != [] {
      ConClaveVacio(s[1..], k, clave);
    }
  }

  /** The inserted element lands after every element with an equal key. */
  lemma {:induction false} InsertarEstable<T>(s: seq<T>, x: T, k: Clave, clave: T -> Clave)
    requires Ordenado(s, clave)
    ensures ConClave(Insertar(s, x, clave), k, clave) == ConClave(s, k, clave) + ConClave([x], k, clave)
  {
    if s == [] {
      assert Insertar(s, x, clave) == [x];
    } else if MenorIgual(clave(s[0]), clave(x)) {
      var resto := Insertar(s[1..], x, clave);
      assert Insertar(s, x, clave) == [s[0]] + resto;
      InsertarEstable(s[1..], x, k, clave);
      ConClaveConcat([s[0]], resto, k, clave);
      ConClaveConcat([s[0]], s[1..], k, clave);
      assert [s[0]] + s[1..] == s;
    } else {
      InsertarAlFrente(s, x, k, clave);
    }
  }

  lemma InsertarAlFrente<T>(s: seq<T>, x: T, k: Clave, clave: T -> Clave)
    requires Ordenado(s, clave)
    requires s != [] && !MenorIgual(clave(s[0]), clave(x))
    ensures ConClave(Insertar(s, x, clave), k, clave) == ConClave(s, k, clave) + ConClave([x], k, clave)
  {
    assert Insertar(s, x, clave) == [x] + s;
    ConClaveConcat([x], s, k, clave);
    if clave(x) == k {
      forall m | 0 <= m < |s| ensures clave(s[m]) != k {
        assert MenorIgual(clave(s[0]), clave(s[m]));
      }
      ConClaveVacio(s, k, clave);
    } else {
      ConClaveVacio([x], k, clave);
    }
  }

  /** Stability: among elements with equal keys, the sort keeps the input order. */
  lemma {:induction false} OrdenarEstable<T>(s: seq<T>, k: Clave, clave: T -> Clave)
    ensures ConClave(Ordenar(s, clave), k, clave) == ConClave(s, k, clave)
  {
    if s != [] {
      var p, x := s[..|s| - 1], s[|s| - 1];
      OrdenarEstable(p, k, clave);
      OrdenarOrdena(p, clave);
      InsertarEstable(Ordenar(p, clave), x, k, clave);
      ConClaveConcat(p, [x], k, clave);
      assert p + [x] == s;
    }
  }

}
