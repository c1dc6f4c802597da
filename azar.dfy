// java.util.Random and Collections.shuffle, with the random numbers supplied by the
// caller: every draw Random.nextInt(n) is a caller-chosen natural reduced into [0, n).
module Azar {
  import opened Secuencias

  /** The k-th seed of a sequence of draws; draws beyond the end count as 0. */
  function Semilla(semillas: seq<nat>, k: nat): nat
  {
    if k < |semillas| then semillas[k] else 0
  }

  /** The draws that remain after the first one. */
  function Resto(semillas: seq<nat>): seq<nat>
  {
    if semillas == [] then [] else semillas[1..]
  }

  /** The draws that remain after the first k. */
  function Quitar(semillas: seq<nat>, k: nat): seq<nat>
  {
    if k <= |semillas| then semillas[k..] else []
  }

  /** Dropping k draws and then one more drops k + 1, and the next draw is the k-th. */
  lemma QuitarUno(semillas: seq<nat>, k: nat)
    ensures Resto(Quitar(semillas, k)) == Quitar(semillas, k + 1)
    ensures Semilla(Quitar(semillas, k), 0) == Semilla(semillas, k)
  {
  }

  /** Random.nextInt(n). */
  function Elegir(semilla: nat, n: nat): (r: nat)
    requires n > 0
    ensures r < n
  {
    semilla % n
  }

  /** Collections.shuffle: for i from the size down to 2, swap element i - 1 with element nextInt(i). */
  function Mezclar<T>(s: seq<T>, semillas: seq<nat>): (r: seq<T>)
    ensures |r| == |s|
    decreases |s|
  {
    if |s| <= 1 then s
    else
      var i := |s| - 1;
      var j := Elegir(Semilla(semillas, 0), |s|);
      var t := s[i := s[j]][j := s[i]];
      Mezclar(t[..i], Resto(semillas)) + [t[i]]
  }

  /** A shuffle is a rearrangement: the same elements, each as often as before. */
  lemma {:induction false} MezclarPermuta<T>(s: seq<T>, semillas: seq<nat>)
    ensures multiset(Mezclar(s, semillas)) == multiset(s)
    decreases |s|
  {
    if |s| > 1 {
      var i := |s| - 1;
      var j := Elegir(Semilla(semillas, 0), |s|);
      var t := s[i := s[j]][j := s[i]];
      MezclarPermuta(t[..i], Resto(semillas));
      assert multiset(t) == multiset(s);
      assert t == t[..i] + [t[i]];
    }
  }

  /** The first step of the shuffle: swap the last element with the drawn one, then shuffle the
      rest with the remaining draws. */
  lemma MezclarDesplegar<T>(s: seq<T>, t: seq<T>, j: nat, semillas: seq<nat>)
    requires |s| >= 2 && j == Elegir(Semilla(semillas, 0), |s|)
    requires t == s[|s| - 1 := s[j]][j := s[|s| - 1]]
    ensures Mezclar(s, semillas) == Mezclar(t[..|s| - 1], Resto(semillas)) + [t[|s| - 1]]
  {
  }

  /** Every element of a shuffled sequence comes from the input, and the other way round. */
  lemma MezclarMismosElementos<T>(s: seq<T>, semillas: seq<nat>)
    ensures forall x :: x in Mezclar(s, semillas) <==> x in s
  {
    var r := Mezclar(s, semillas);
    MezclarPermuta(s, semillas);
    forall x ensures x in r <==> x in s {
      assert x in r <==> x in multiset(r);
      assert x in s <==> x in multiset(s);
    }
  }

  /** Shuffling keeps the elements of a sequence distinct when they were. */
  lemma MezclarDistintos<T>(s: seq<T>, semillas: seq<nat>)
    requires Distintos(s)
    ensures Distintos(Mezclar(s, semillas))
  {
    MezclarPermuta(s, semillas);
    DistintosPermutacion(s, Mezclar(s, semillas));
  }

  // The in-place shuffle

  /** Collections.shuffle on a list held in an array: for i from the size down to 2, element
      i - 1 is swapped with element nextInt(i). The result is the specified shuffle of the old contents. */
  method MezclarEnSitio<T>(a: array<T>, semillas: seq<nat>)
    modifies a
    ensures a[..] == Mezclar(old(a[..]), semillas)
  {
    ghost var objetivo := Mezclar(a[..], semillas);
    var i := a.Length;
    assert a[..i] == a[..] && a[i..] == [] && Quitar(semillas, 0) == semillas;
    while i > 1
      invariant 0 <= i <= a.Length
      invariant objetivo == Mezclar(a[..i], Quitar(semillas, a.Length - i)) + a[i..]
    {
      PasoMezcla(a, i, semillas, objetivo);
      i := i - 1;
    }
    assert Mezclar(a[..i], Quitar(semillas, a.Length - i)) == a[..i];
    assert a[..i] + a[i..] == a[..];
  }

  /** One iteration: swap element i - 1 with element nextInt(i). */
  method PasoMezcla<T>(a: array<T>, i: nat, semillas: seq<nat>, ghost objetivo: seq<T>)
    requires 2 <= i <= a.Length
    requires objetivo == Mezclar(a[..i], Quitar(semillas, a.Length - i)) + a[i..]
    modifies a
    ensures objetivo == Mezclar(a[..i - 1], Quitar(semillas, a.Length - (i - 1))) + a[i - 1..]
  {
    var j := Elegir(Semilla(semillas, a.Length - i), i);
    ghost var antes := a[..];
    Intercambiar(a, i - 1, j);
    ghost var despues := a[..];
    MezclarPaso(objetivo, antes, despues, i, j, semillas);
    assert despues[..i - 1] == a[..i - 1] && despues[i - 1..] == a[i - 1..];
  }

  /** Collections.swap. */
  method Intercambiar<T>(a: array<T>, i: nat, j: nat)
    requires i < a.Length && j < a.Length
    modifies a
    ensures a[..] == old(a[..])[i := old(a[j])][j := old(a[i])]
  {
    var t := a[i];
    a[i] := a[j];
    a[j] := t;
  }

  /** One swap of the loop is one unfolding of the shuffle: the loop invariant holds again with
      one element fewer left to shuffle and one draw more consumed. */
  lemma MezclarPaso<T>(objetivo: seq<T>, antes: seq<T>, despues: seq<T>, i: nat, j: nat, semillas: seq<nat>)
    requires 2 <= i <= |antes| && j == Elegir(Semilla(semillas, |antes| - i), i)
    requires despues == antes[i - 1 := antes[j]][j := antes[i - 1]]
    requires objetivo == Mezclar(antes[..i], Quitar(semillas, |antes| - i)) + antes[i..]
    ensures objetivo == Mezclar(despues[..i - 1], Quitar(semillas, |despues| - (i - 1))) + despues[i - 1..]
  {
    var q := Quitar(semillas, |antes| - i);
    QuitarUno(semillas, |antes| - i);
    var s := antes[..i];
    var t := s[i - 1 := s[j]][j := s[i - 1]];
    IntercambioEnPrefijo(antes, despues, i, j);
    MezclarDesplegar(s, t, j, q);
    var m := Mezclar(despues[..i - 1], Resto(q));
    calc {
      objetivo;
      Mezclar(s, q) + antes[i..];
      (m + [despues[i - 1]]) + despues[i..];
      { Asociar3(m, [despues[i - 1]], despues[i..]); }
      m + ([despues[i - 1]] + despues[i..]);
      m + despues[i - 1..];
    }
  }

  /** Swapping inside the first i elements swaps inside the prefix and leaves the rest alone. */
  lemma IntercambioEnPrefijo<T>(antes: seq<T>, despues: seq<T>, i: nat, j: nat)
    requires j < i <= |antes| && 1 <= i
    requires despues == antes[i - 1 := antes[j]][j := antes[i - 1]]
    ensures antes[..i][i - 1 := antes[..i][j]][j := antes[..i][i - 1]][..i - 1] == despues[..i - 1]
    ensures antes[..i][i - 1 := antes[..i][j]][j := antes[..i][i - 1]][i - 1] == despues[i - 1]
    ensures antes[i..] == despues[i..]
    ensures despues[i - 1..] == [despues[i - 1]] + despues[i..]
  {
  }

  /** Collections.shuffle on a fresh copy of a list: the shuffle of its elements. */
  method Mezclado<T>(xs: seq<T>, semillas: seq<nat>) returns (r: seq<T>)
    ensures r == Mezclar(xs, semillas)
  {
    var lista := new T[|xs|](k requires 0 <= k < |xs| => xs[k]);
    assert lista[..] == xs;
    MezclarEnSitio(lista, semillas);
    r := lista[..];
  }
}
