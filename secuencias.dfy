// Generic facts about sequences used across the model.
module Secuencias {

  predicate Distintos<T(==)>(s: seq<T>)
  {
    forall i, j :: 0 <= i < j < |s| ==> s[i] != s[j]
  }

  /** The elements of s that satisfy p, in order. */
  function Filtrar<T>(s: seq<T>, p: T -> bool): (r: seq<T>)
    ensures |r| <= |s|
    ensures forall i :: 0 <= i < |r| ==> p(r[i])
    ensures multiset(r) <= multiset(s)
  {
    if s == [] then []
    else
      var resto := Filtrar(s[1..], p);
      assert multiset(s) == multiset{s[0]} + multiset(s[1..]) by { assert s == [s[0]] + s[1..]; }
      if p(s[0]) then [s[0]] + resto else resto
  }

  lemma {:induction false} FiltrarCompleto<T>(s: seq<T>, p: T -> bool, i: nat)
    requires i < |s| && p(s[i])
    ensures s[i] in Filtrar(s, p)
  {
    if i > 0 {
      FiltrarCompleto(s[1..], p, i - 1);
    }
  }

  lemma {:induction false} FiltrarDistintos<T>(s: seq<T>, p: T -> bool)
    requires Distintos(s)
    ensures Distintos(Filtrar(s, p))
  {
    if s != [] {
      FiltrarDistintos(s[1..], p);
      assert s[0] !in s[1..];
      var resto := Filtrar(s[1..], p);
      assert multiset(s[1..])[s[0]] == 0;
      assert multiset(resto)[s[0]] == 0;
      assert s[0] !in resto;
    }
  }

  lemma CuentaRepetido<T>(r: seq<T>, i: nat, j: nat)
    requires i < j < |r| && r[i] == r[j]
    ensures multiset(r)[r[i]] >= 2
  {
    assert r == r[..j] + r[j..];
    assert r[i] in r[..j];
    assert r[j..][0] == r[j];
  }

  lemma {:induction false} CuentaDistintos<T>(s: seq<T>, x: T)
    requires Distintos(s)
    ensures multiset(s)[x] <= 1
  {
    if s != [] {
      CuentaDistintos(s[1..], x);
      assert s == [s[0]] + s[1..];
      if x == s[0] {
        assert x !in s[1..];
      }
    }
  }

  /** A rearrangement of distinct elements has distinct elements. */
  lemma DistintosPermutacion<T>(s: seq<T>, r: seq<T>)
    requires Distintos(s) && multiset(r) == multiset(s)
    ensures Distintos(r)
  {
    forall i, j | 0 <= i < j < |r| ensures r[i] != r[j] {
      CuentaDistintos(s, r[i]);
      if r[i] == r[j] {
        CuentaRepetido(r, i, j);
      }
    }
  }

  /** The pieces f(x) of every element of xs, one after the other. */
  function Concatenar<T, U>(xs: seq<T>, f: T -> seq<U>): seq<U>
  {
    if xs == [] then [] else Concatenar(xs[..|xs| - 1], f) + f(xs[|xs| - 1])
  }

  lemma {:induction false} ConcatenarUnion<T, U>(a: seq<T>, b: seq<T>, f: T -> seq<U>)
    ensures Concatenar(a + b, f) == Concatenar(a, f) + Concatenar(b, f)
    decreases |b|
  {
    if b == [] {
      assert a + b == a;
    } else {
      var c := a + b;
      assert c[..|c| - 1] == a + b[..|b| - 1] && c[|c| - 1] == b[|b| - 1];
      ConcatenarUnion(a, b[..|b| - 1], f);
    }
  }

  /** One more element adds its piece at the end. */
  lemma ConcatenarUltimo<T, U>(xs: seq<T>, k: nat, f: T -> seq<U>)
    requires k < |xs|
    ensures Concatenar(xs[..k + 1], f) == Concatenar(xs[..k], f) + f(xs[k])
  {
    assert xs[..k + 1][..k] == xs[..k];
  }

  /** When every piece has the same length m, the whole has length m times the count. */
  lemma {:induction false} ConcatenarLongitud<T, U>(xs: seq<T>, f: T -> seq<U>, m: nat)
    requires forall i :: 0 <= i < |xs| ==> |f(xs[i])| == m
    ensures |Concatenar(xs, f)| == m * |xs|
  {
    if xs != [] {
      var q := xs[..|xs| - 1];
      assert forall i :: 0 <= i < |q| ==> q[i] == xs[i];
      ConcatenarLongitud(q, f, m);
      assert |f(xs[|xs| - 1])| == m;
      assert m * |xs| == m * |q| + m;
    }
  }

  /** When every piece satisfies p elementwise, so does the whole. */
  lemma {:induction false} ConcatenarTodos<T, U>(xs: seq<T>, f: T -> seq<U>, p: U -> bool)
    requires forall i, j :: 0 <= i < |xs| && 0 <= j < |f(xs[i])| ==> p(f(xs[i])[j])
    ensures forall j :: 0 <= j < |Concatenar(xs, f)| ==> p(Concatenar(xs, f)[j])
  {
    if xs != [] {
      var q := xs[..|xs| - 1];
      assert forall i :: 0 <= i < |q| ==> q[i] == xs[i];
      ConcatenarTodos(q, f, p);
      var a, b := Concatenar(q, f), f(xs[|xs| - 1]);
      assert forall j :: 0 <= j < |a + b| ==> (a + b)[j] == if j < |a| then a[j] else b[j - |a|];
    }
  }

  lemma Asociar<T>(a: seq<T>, b: seq<T>, c: seq<T>, e: seq<T>, f: seq<T>)
    ensures a + b + c + e + f == a + (b + c + e + f)
  {
  }

  lemma Asociar4<T>(a: seq<T>, b: seq<T>, c: seq<T>, e: seq<T>)
    ensures a + b + c + e == a + (b + c + e)
  {
  }

  lemma Asociar3<T>(a: seq<T>, b: seq<T>, c: seq<T>)
    ensures a + (b + c) == a + b + c && (a + b + c)[..|a + b|] == a + b
  {
  }

  /** f applied to each element together with its position counted from 1. */
  function Numerar<T, U>(xs: seq<T>, f: (nat, T) -> U): (r: seq<U>)
    ensures |r| == |xs|
  {
    if xs == [] then [] else Numerar(xs[..|xs| - 1], f) + [f(|xs|, xs[|xs| - 1])]
  }

  lemma {:induction false} NumerarElementos<T, U>(xs: seq<T>, f: (nat, T) -> U)
    ensures forall i :: 0 <= i < |xs| ==> Numerar(xs, f)[i] == f(i + 1, xs[i])
  {
    if xs != [] {
      var p := xs[..|xs| - 1];
      NumerarElementos(p, f);
      assert forall i :: 0 <= i < |p| ==> p[i] == xs[i];
    }
  }

  lemma NumerarUltimo<T, U>(xs: seq<T>, x: T, f: (nat, T) -> U)
    ensures Numerar(xs + [x], f) == Numerar(xs, f) + [f(|xs| + 1, x)]
  {
    assert (xs + [x])[..|xs|] == xs;
  }

  /** f of each element that satisfies p, in order. */
  function Elegidos<T, U>(s: seq<T>, p: T -> bool, f: T -> U): (r: seq<U>)
    ensures |r| <= |s|
  {
    if s == [] then [] else Elegidos(s[..|s| - 1], p, f) + (if p(s[|s| - 1]) then [f(s[|s| - 1])] else [])
  }

  /** The positions of the elements that satisfy p, in increasing order. */
  function IndicesDonde<T>(s: seq<T>, p: T -> bool): (r: seq<nat>)
    ensures forall k :: 0 <= k < |r| ==> r[k] < |s|
  {
    if s == [] then [] else IndicesDonde(s[..|s| - 1], p) + (if p(s[|s| - 1]) then [|s| - 1] else [])
  }

  lemma ElegidosUltimo<T, U>(s: seq<T>, x: T, p: T -> bool, f: T -> U)
    ensures Elegidos(s + [x], p, f) == Elegidos(s, p, f) + (if p(x) then [f(x)] else [])
  {
    assert (s + [x])[..|s|] == s;
  }

  /** The chosen elements are exactly those at the positions satisfying p: the positions increase,
      a position is among them exactly when its element satisfies p, and the k-th result is f of
      the element at the k-th position. */
  lemma {:induction false} ElegidosExactos<T, U>(s: seq<T>, p: T -> bool, f: T -> U)
    ensures |IndicesDonde(s, p)| == |Elegidos(s, p, f)|
    ensures forall k :: 0 <= k < |Elegidos(s, p, f)| ==> Elegidos(s, p, f)[k] == f(s[IndicesDonde(s, p)[k]])
    ensures forall k, l :: 0 <= k < l < |IndicesDonde(s, p)| ==> IndicesDonde(s, p)[k] < IndicesDonde(s, p)[l]
    ensures forall j :: 0 <= j < |s| ==> (j in IndicesDonde(s, p) <==> p(s[j]))
  {
    if s != [] {
      var n := |s| - 1;
      var q := s[..n];
      ElegidosExactos(q, p, f);
      var iq := IndicesDonde(q, p);
      var idx := IndicesDonde(s, p);
      assert idx == iq + (if p(s[n]) then [n] else []);
      forall k | 0 <= k < |iq| ensures s[iq[k]] == q[iq[k]] {
      }
      forall j | 0 <= j < n ensures (j in idx <==> p(s[j])) {
        assert s[j] == q[j];
        assert j in idx <==> j in iq;
      }
    }
  }

  /** Nothing is chosen exactly when no element satisfies p. */
  lemma ElegidosVacios<T, U>(s: seq<T>, p: T -> bool, f: T -> U)
    ensures Elegidos(s, p, f) == [] <==> forall j :: 0 <= j < |s| ==> !p(s[j])
  {
    ElegidosExactos(s, p, f);
    if Elegidos(s, p, f) != [] {
      assert IndicesDonde(s, p)[0] in IndicesDonde(s, p);
    } else {
      forall j | 0 <= j < |s| ensures !p(s[j]) {
        assert j !in IndicesDonde(s, p);
      }
    }
  }

  /** The keys k of s never decrease. */
  predicate OrdenadoPor<T>(s: seq<T>, k: T -> int)
  {
    forall i, j :: 0 <= i < j < |s| ==> k(s[i]) <= k(s[j])
  }

  /** Inserts x after every element whose key is not greater than its own. */
  function InsertarPor<T>(x: T, s: seq<T>, k: T -> int): (r: seq<T>)
    ensures |r| == |s| + 1 && multiset(r) == multiset(s) + multiset{x}
  {
    if s == [] then [x]
    else if k(x) < k(s[0]) then [x] + s
    else
      assert s == [s[0]] + s[1..];
      [s[0]] + InsertarPor(x, s[1..], k)
  }

  lemma OrdenadoResto<T>(s: seq<T>, k: T -> int)
    requires OrdenadoPor(s, k) && s != []
    ensures OrdenadoPor(s[1..], k)
    ensures forall j :: 0 <= j < |s| ==> k(s[0]) <= k(s[j])
  {
    var u := s[1..];
    forall i, j | 0 <= i < j < |u| ensures k(u[i]) <= k(u[j]) {
      assert u[i] == s[i + 1] && u[j] == s[j + 1];
    }
  }

  /** An element with a key not above the head of a sorted sequence can go in front. */
  lemma OrdenadoDelante<T>(y: T, t: seq<T>, k: T -> int)
    requires OrdenadoPor(t, k) && (t != [] ==> k(y) <= k(t[0]))
    ensures OrdenadoPor([y] + t, k)
  {
    var r := [y] + t;
    forall i, j | 0 <= i < j < |r| ensures k(r[i]) <= k(r[j]) {
      assert r[j] == t[j - 1];
      if i > 0 {
        assert r[i] == t[i - 1];
      }
    }
  }

  /** Inserting into a sorted sequence keeps it sorted; the first element is x or the old first. */
  lemma {:induction false} InsertarPorOrdenado<T>(x: T, s: seq<T>, k: T -> int)
    requires OrdenadoPor(s, k)
    ensures OrdenadoPor(InsertarPor(x, s, k), k)
    ensures InsertarPor(x, s, k)[0] == if s == [] || k(x) < k(s[0]) then x else s[0]
    decreases |s|
  {
    if s == [] {
    } else if k(x) < k(s[0]) {
      OrdenadoDelante(x, s, k);
    } else {
      var u := s[1..];
      OrdenadoResto(s, k);
      InsertarPorOrdenado(x, u, k);
      var t := InsertarPor(x, u, k);
      assert k(s[0]) <= k(t[0]) by {
        if u != [] {
          assert u[0] == s[1];
        }
      }
      OrdenadoDelante(s[0], t, k);
    }
  }

  /** A stable sort by key: each element in turn is inserted into the sorted prefix. */
  function OrdenarPor<T>(s: seq<T>, k: T -> int): (r: seq<T>)
    ensures |r| == |s| && multiset(r) == multiset(s) && OrdenadoPor(r, k)
  {
    if s == [] then []
    else
      var p := OrdenarPor(s[..|s| - 1], k);
      assert s == s[..|s| - 1] + [s[|s| - 1]];
      InsertarPorOrdenado(s[|s| - 1], p, k);
      InsertarPor(s[|s| - 1], p, k)
  }

  /** The elements with key v, in order. */
  function ConClave<T>(s: seq<T>, k: T -> int, v: int): seq<T>
  {
    if s == [] then [] else (if k(s[0]) == v then [s[0]] else []) + ConClave(s[1..], k, v)
  }

  /** The last element has key v exactly when it is the last element kept. */
  lemma {:induction false} ConClaveUltimo<T>(s: seq<T>, k: T -> int, v: int)
    requires s != []
    ensures ConClave(s, k, v) == ConClave(s[..|s| - 1], k, v) + (if k(s[|s| - 1]) == v then [s[|s| - 1]] else [])
    decreases |s|
  {
    if |s| > 1 {
      var u, w := s[1..], s[..|s| - 1];
      assert u[..|u| - 1] == w[1..];
      assert w[0] == s[0] && u[|u| - 1] == s[|s| - 1];
      ConClaveUltimo(u, k, v);
    }
  }

  lemma {:induction false} ConClaveMayor<T>(s: seq<T>, k: T -> int, v: int)
    requires OrdenadoPor(s, k) && s != [] && v < k(s[0])
    ensures ConClave(s, k, v) == []
    decreases |s|
  {
    if |s| > 1 {
      OrdenadoResto(s, k);
      ConClaveMayor(s[1..], k, v);
    }
  }

  lemma ConClaveDelante<T>(y: T, t: seq<T>, k: T -> int, v: int)
    ensures ConClave([y] + t, k, v) == (if k(y) == v then [y] else []) + ConClave(t, k, v)
  {
    assert ([y] + t)[1..] == t;
  }

  /** Inserting puts x after every element of the same key already there. */
  lemma {:induction false} InsertarPorEstable<T>(x: T, s: seq<T>, k: T -> int, v: int)
    requires OrdenadoPor(s, k)
    ensures ConClave(InsertarPor(x, s, k), k, v) == ConClave(s, k, v) + (if k(x) == v then [x] else [])
    decreases |s|
  {
    if s == [] {
    } else if k(x) < k(s[0]) {
      EstableDelante(x, s, k, v);
    } else {
      OrdenadoResto(s, k);
      InsertarPorEstable(x, s[1..], k, v);
      EstableDetras(x, s, k, v);
    }
  }

  lemma EstableDelante<T>(x: T, s: seq<T>, k: T -> int, v: int)
    requires OrdenadoPor(s, k) && s != [] && k(x) < k(s[0])
    ensures ConClave([x] + s, k, v) == ConClave(s, k, v) + (if k(x) == v then [x] else [])
  {
    ConClaveDelante(x, s, k, v);
    if k(x) == v {
      ConClaveMayor(s, k, v);
    }
  }

  lemma EstableDetras<T>(x: T, s: seq<T>, k: T -> int, v: int)
    requires s != [] && k(x) >= k(s[0])
    requires ConClave(InsertarPor(x, s[1..], k), k, v) == ConClave(s[1..], k, v) + (if k(x) == v then [x] else [])
    ensures ConClave(InsertarPor(x, s, k), k, v) == ConClave(s, k, v) + (if k(x) == v then [x] else [])
  {
    var t, u := InsertarPor(x, s[1..], k), s[1..];
    assert InsertarPor(x, s, k) == [s[0]] + t;
    assert [s[0]] + u == s;
    ConClaveDelante(s[0], t, k, v);
    ConClaveDelante(s[0], u, k, v);
    var h, e := (if k(s[0]) == v then [s[0]] else []), (if k(x) == v then [x] else []);
    var c := ConClave(u, k, v);
    assert ConClave(s, k, v) == h + c;
    assert ConClave(InsertarPor(x, s, k), k, v) == h + (c + e);
    Asociar3(h, c, e);
  }

  /** The sort is stable: elements with the same key keep their relative order. */
  lemma {:induction false} OrdenarPorEstable<T>(s: seq<T>, k: T -> int, v: int)
    ensures ConClave(OrdenarPor(s, k), k, v) == ConClave(s, k, v)
  {
    if s != [] {
      var p, x := s[..|s| - 1], s[|s| - 1];
      OrdenarPorEstable(p, k, v);
      InsertarPorEstable(x, OrdenarPor(p, k), k, v);
      ConClaveUltimo(s, k, v);
    }
  }

  lemma OrdenadoPrefijo<T>(p: seq<T>, x: T, k: T -> int)
    requires OrdenadoPor(p + [x], k)
    ensures OrdenadoPor(p, k)
    ensures forall i :: 0 <= i < |p| ==> k(p[i]) <= k(x)
  {
    var s := p + [x];
    forall i, j | 0 <= i < j < |p| ensures k(p[i]) <= k(p[j]) {
      assert p[i] == s[i] && p[j] == s[j];
    }
    forall i | 0 <= i < |p| ensures k(p[i]) <= k(x) {
      assert p[i] == s[i] && x == s[|p|];
    }
  }

  /** Sorting an already sorted sequence changes nothing. */
  lemma {:induction false} OrdenarPorOrdenada<T>(s: seq<T>, k: T -> int)
    requires OrdenadoPor(s, k)
    ensures OrdenarPor(s, k) == s
  {
    if s != [] {
      var p, x := s[..|s| - 1], s[|s| - 1];
      assert s == p + [x];
      OrdenadoPrefijo(p, x, k);
      OrdenarPorOrdenada(p, k);
      InsertarAlFinal(x, p, k);
    }
  }

  lemma {:induction false} InsertarAlFinal<T>(x: T, s: seq<T>, k: T -> int)
    requires forall i :: 0 <= i < |s| ==> k(s[i]) <= k(x)
    ensures InsertarPor(x, s, k) == s + [x]
    decreases |s|
  {
    if s != [] {
      InsertarAlFinal(x, s[1..], k);
      assert s == [s[0]] + s[1..];
    }
  }

  /** The elements of s in the opposite order. */
  function Invertida<T>(s: seq<T>): (r: seq<T>)
    ensures |r| == |s| && forall i :: 0 <= i < |s| ==> r[i] == s[|s| - 1 - i]
  {
    if s == [] then [] else [s[|s| - 1]] + Invertida(s[..|s| - 1])
  }

  /** Reversing a concatenation reverses the order of its parts. */
  lemma InvertidaUnion<T>(a: seq<T>, b: seq<T>)
    ensures Invertida(a + b) == Invertida(b) + Invertida(a)
  {
    var l, r := Invertida(a + b), Invertida(b) + Invertida(a);
    forall i | 0 <= i < |l| ensures l[i] == r[i] {
      if i < |b| {
        assert r[i] == Invertida(b)[i];
      } else {
        assert r[i] == Invertida(a)[i - |b|];
      }
    }
  }

  lemma InvertidaCorta<T>(s: seq<T>)
    requires |s| <= 1
    ensures Invertida(s) == s
  {
  }

  /** Three parts of at most one element each, reversed, come in the opposite order. */
  lemma InvertidaTres<T>(a: seq<T>, b: seq<T>, c: seq<T>)
    requires |a| <= 1 && |b| <= 1 && |c| <= 1
    ensures Invertida(a + b + c) == c + b + a
  {
    InvertidaUnion(a + b, c);
    InvertidaUnion(a, b);
    InvertidaCorta(a);
    InvertidaCorta(b);
    InvertidaCorta(c);
  }

  /** The keys strictly increase along s. */
  predicate Creciente<T>(s: seq<T>, k: T -> int)
  {
    forall i, j :: 0 <= i < j < |s| ==> k(s[i]) < k(s[j])
  }

  /** Three parts of at most one element each, with increasing keys, make an increasing sequence. */
  lemma CrecienteTres<T>(a: seq<T>, b: seq<T>, c: seq<T>, k: T -> int)
    requires |a| <= 1 && |b| <= 1 && |c| <= 1
    requires a != [] && b != [] ==> k(a[0]) < k(b[0])
    requires b != [] && c != [] ==> k(b[0]) < k(c[0])
    requires a != [] && c != [] ==> k(a[0]) < k(c[0])
    ensures Creciente(a + b + c, k)
  {
    var s := a + b + c;
    forall i, j | 0 <= i < j < |s| ensures k(s[i]) < k(s[j]) {
      if i < |a| {
        assert s[i] == a[0];
        if j < |a| + |b| {
          assert s[j] == b[0];
        } else {
          assert s[j] == c[0];
        }
      } else {
        assert i < |a| + |b| && s[i] == b[0] && s[j] == c[0];
      }
    }
  }

  /** a occurs in b in order, possibly with other elements in between. */
  predicate Incluida<T(==)>(a: seq<T>, b: seq<T>)
    decreases |b|
  {
    if a == [] then true
    else if b == [] then false
    else (a[0] == b[0] && Incluida(a[1..], b[1..])) || Incluida(a, b[1..])
  }

  lemma {:induction false} IncluidaTrasPrefijo<T>(a: seq<T>, x: seq<T>, b: seq<T>)
    requires Incluida(a, b)
    ensures Incluida(a, x + b)
    decreases |x|
  {
    if x != [] && a != [] {
      IncluidaTrasPrefijo(a, x[1..], b);
      assert (x + b)[1..] == x[1..] + b;
      assert Incluida(a, (x + b)[1..]);
    } else if x == [] {
      assert x + b == b;
    }
  }

  lemma {:induction false} IncluidaComun<T>(p: seq<T>, a: seq<T>, b: seq<T>)
    requires Incluida(a, b)
    ensures Incluida(p + a, p + b)
    decreases |p|
  {
    if p != [] {
      IncluidaComun(p[1..], a, b);
      assert (p + a)[1..] == p[1..] + a && (p + b)[1..] == p[1..] + b;
      assert (p + a)[0] == (p + b)[0] && Incluida((p + a)[1..], (p + b)[1..]);
    } else {
      assert p + a == a && p + b == b;
    }
  }

  lemma {:induction false} IncluidaReflexiva<T>(a: seq<T>)
    ensures Incluida(a, a)
  {
    if a != [] {
      IncluidaReflexiva(a[1..]);
    }
  }
}
