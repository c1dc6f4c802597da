// The java.lang.String operations the core relies on: trim, ASCII lower-casing,
// prefix and suffix tests, indexOf, split with a literal separator, and the
// decimal rendering of numbers used by String.valueOf and String.format.
module Texto {
  import opened Opcionales

  /** String.trim() removes every leading and trailing character whose code is at most U+0020. */
  predicate EsEspacio(c: char) { c <= ' ' }

  function RecortarInicio(s: string): (r: string)
    ensures |r| <= |s| && r == s[|s| - |r|..]
    ensures r == [] || !EsEspacio(r[0])
    ensures forall i :: 0 <= i < |s| - |r| ==> EsEspacio(s[i])
  {
    if s != [] && EsEspacio(s[0]) then RecortarInicio(s[1..]) else s
  }

  function RecortarFin(s: string): (r: string)
    ensures |r| <= |s| && r == s[..|r|]
    ensures r == [] || !EsEspacio(r[|r| - 1])
    ensures forall i :: |r| <= i < |s| ==> EsEspacio(s[i])
  {
    if s != [] && EsEspacio(s[|s| - 1]) then RecortarFin(s[..|s| - 1]) else s
  }

  /** String.trim(). */
  function Recortar(s: string): string
  {
    RecortarFin(RecortarInicio(s))
  }

  /** A string that neither starts nor ends with a character trim() would remove. */
  predicate SinBordes(s: string)
  {
    s == [] || (!EsEspacio(s[0]) && !EsEspacio(s[|s| - 1]))
  }

  /** What trim() returns has no blank borders. */
  lemma RecortarDaSinBordes(s: string)
    ensures SinBordes(Recortar(s)) && |Recortar(s)| <= |s|
  {
    var y := RecortarInicio(s);
    var r := RecortarFin(y);
    if r != [] {
      assert r[0] == y[0];
    }
  }

  lemma RecortarSinBordes(s: string)
    requires SinBordes(s)
    ensures Recortar(s) == s
  {
  }

  /** Trimming removes exactly a run of blanks on each side of a string that has no blank borders. */
  lemma {:induction false} RecortarRodeado(a: string, s: string, b: string)
    requires forall i :: 0 <= i < |a| ==> EsEspacio(a[i])
    requires forall i :: 0 <= i < |b| ==> EsEspacio(b[i])
    requires s != [] && SinBordes(s)
    ensures Recortar(a + s + b) == s
  {
    var x := a + s + b;
    assert x[|a|] == s[0];
    assert x[|a|..] == s + b;
    var y := RecortarInicio(x);
    assert y == s + b;
    assert y[|s| - 1] == s[|s| - 1];
    assert y[..|s|] == s;
  }

  /** trim().isEmpty(), stated on the characters: every one of them is removed by trim(). */
  predicate EnBlanco(s: string) { forall i :: 0 <= i < |s| ==> EsEspacio(s[i]) }

  /** EnBlanco is exactly trim().isEmpty(). */
  lemma EnBlancoSiiRecortadoVacio(s: string)
    ensures EnBlanco(s) <==> Recortar(s) == []
  {
    var y := RecortarInicio(s);
    if y != [] {
      assert !EsEspacio(y[0]);
      assert s[|s| - |y|] == y[0];
      assert RecortarFin(y) != [];
    }
  }

  /** Lower-casing as toLowerCase() does it for the ASCII letters. */
  function MinusculaAscii(c: char): char
  {
    if 'A' <= c <= 'Z' then (c as int + 32) as char else c
  }

  function Minusculas(s: string): (r: string)
    ensures |r| == |s|
    ensures forall i :: 0 <= i < |s| ==> r[i] == MinusculaAscii(s[i])
  {
    seq(|s|, i requires 0 <= i < |s| => MinusculaAscii(s[i]))
  }

  predicate EmpiezaCon(s: string, p: string) { |p| <= |s| && s[..|p|] == p }

  predicate TerminaCon(s: string, p: string) { |p| <= |s| && s[|s| - |p|..] == p }

  predicate OcurreEn(s: string, sep: string, i: int)
  {
    0 <= i && i + |sep| <= |s| && s[i..i + |sep|] == sep
  }

  /** The first occurrence of sep in s at or after position k. */
  function IndiceDesde(s: string, sep: string, k: nat): (r: Option<nat>)
    decreases |s| - k
    ensures r.Some? ==> k <= r.value && OcurreEn(s, sep, r.value)
    ensures r.Some? ==> forall j :: k <= j < r.value ==> !OcurreEn(s, sep, j)
    ensures r.None? ==> forall j :: k <= j ==> !OcurreEn(s, sep, j)
  {
    if k + |sep| > |s| then None
    else if OcurreEn(s, sep, k) then Some(k)
    else IndiceDesde(s, sep, k + 1)
  }

  /** String.indexOf(sep), with None for -1. */
  function IndiceDe(s: string, sep: string): Option<nat>
  {
    IndiceDesde(s, sep, 0)
  }

  /** String.contains(sep). */
  predicate Contiene(s: string, sep: string) { IndiceDe(s, sep).Some? }

  /** When the separator's first character does not occur in a, the first occurrence in a + sep + rest is right after a. */
  lemma IndiceTrasPrefijo(a: string, sep: string, rest: string)
    requires |sep| > 0 && sep[0] !in a
    ensures IndiceDe(a + sep + rest, sep) == Some(|a|)
  {
    var s := a + sep + rest;
    assert s[|a|..|a| + |sep|] == sep;
    assert OcurreEn(s, sep, |a|);
  }

  lemma IndiceAusente(a: string, sep: string)
    requires |sep| > 0 && sep[0] !in a
    ensures IndiceDe(a, sep) == None
  {
  }

  /** Every piece of s between occurrences of sep, left to right. */
  function Trozos(s: string, sep: string): seq<string>
    requires |sep| > 0
    decreases |s|
  {
    match IndiceDe(s, sep)
    case None => [s]
    case Some(i) => [s[..i]] + Trozos(s[i + |sep|..], sep)
  }

  function SinVaciosFinales(ps: seq<string>): (r: seq<string>)
    ensures |r| <= |ps| && r == ps[..|r|]
    ensures r == [] || r[|r| - 1] != []
    ensures forall i :: |r| <= i < |ps| ==> ps[i] == []
  {
    if ps != [] && ps[|ps| - 1] == [] then SinVaciosFinales(ps[..|ps| - 1]) else ps
  }

  /** String.split(sep) for a separator without regular-expression metacharacters:
      no match gives the whole input; otherwise trailing empty pieces are dropped. */
  function Dividir(s: string, sep: string): seq<string>
    requires |sep| > 0
  {
    if !Contiene(s, sep) then [s] else SinVaciosFinales(Trozos(s, sep))
  }

  lemma TrozosTrasPrefijo(a: string, sep: string, rest: string)
    requires |sep| > 0 && sep[0] !in a
    ensures Trozos(a + sep + rest, sep) == [a] + Trozos(rest, sep)
  {
    var s := a + sep + rest;
    IndiceTrasPrefijo(a, sep, rest);
    assert s[..|a|] == a;
    assert s[|a| + |sep|..] == rest;
  }

  lemma TrozosSinSeparador(a: string, sep: string)
    requires |sep| > 0 && sep[0] !in a
    ensures Trozos(a, sep) == [a]
  {
    IndiceAusente(a, sep);
  }

  /** Splitting two pieces joined by sep recovers them, when the second is not empty. */
  lemma DividirDos(a: string, sep: string, b: string)
    requires |sep| > 0 && sep[0] !in a && sep[0] !in b && b != []
    ensures Dividir(a + sep + b, sep) == [a, b]
  {
    TrozosTrasPrefijo(a, sep, b);
    TrozosSinSeparador(b, sep);
    IndiceTrasPrefijo(a, sep, b);
  }

  /** Splitting three pieces joined by sep recovers them, when the last is not empty. */
  lemma DividirTres(a: string, sep: string, b: string, c: string)
    requires |sep| > 0 && sep[0] !in a && sep[0] !in b && sep[0] !in c && c != []
    ensures Dividir(a + sep + b + sep + c, sep) == [a, b, c]
  {
    var s := a + sep + b + sep + c;
    assert s == a + sep + (b + sep + c);
    TrozosTrasPrefijo(a, sep, b + sep + c);
    TrozosTrasPrefijo(b, sep, c);
    TrozosSinSeparador(c, sep);
    assert Trozos(s, sep) == [a, b, c];
    IndiceTrasPrefijo(a, sep, b + sep + c);
    assert Contiene(s, sep);
    assert SinVaciosFinales([a, b, c]) == [a, b, c];
  }

  // Decimal digits

  predicate EsDigito(c: char) { '0' <= c <= '9' }

  predicate SoloDigitos(s: string) { forall i :: 0 <= i < |s| ==> EsDigito(s[i]) }

  function Digito(d: nat): (c: char)
    requires d < 10
    ensures EsDigito(c)
  {
    ('0' as int + d) as char
  }

  function ValorDigito(c: char): (d: nat)
    requires EsDigito(c)
    ensures d < 10 && Digito(d) == c
  {
    c as int - '0' as int
  }

  /** The decimal rendering of a natural number, as Long.toString gives it. */
  function NatATexto(n: nat): (r: string)
    ensures |r| > 0 && SoloDigitos(r)
    decreases n
  {
    if n < 10 then [Digito(n)] else NatATexto(n / 10) + [Digito(n % 10)]
  }

  /** Integer.parseInt on a string of ASCII digits. */
  function ValorDecimal(s: string): nat
    requires SoloDigitos(s)
  {
    if s == [] then 0 else ValorDecimal(s[..|s| - 1]) * 10 + ValorDigito(s[|s| - 1])
  }

  lemma {:induction false} ValorDeNatATexto(n: nat)
    ensures ValorDecimal(NatATexto(n)) == n
    decreases n
  {
    if n >= 10 {
      var s := NatATexto(n);
      assert s[..|s| - 1] == NatATexto(n / 10);
      ValorDeNatATexto(n / 10);
    }
  }

  /** String.format("%0" + ancho + "d", n): the decimal digits left-padded with zeros. */
  function Rellenar(n: nat, ancho: nat): (r: string)
    ensures |r| >= ancho && SoloDigitos(r)
  {
    var d := NatATexto(n);
    if |d| >= ancho then d else seq(ancho - |d|, _ => '0') + d
  }

  lemma {:induction false} RellenarDos(n: nat)
    requires n < 100
    ensures Rellenar(n, 2) == [Digito(n / 10), Digito(n % 10)]
  {
    if n >= 10 {
      assert NatATexto(n) == NatATexto(n / 10) + [Digito(n % 10)];
      assert NatATexto(n / 10) == [Digito(n / 10)];
    } else {
      assert NatATexto(n) == [Digito(n)];
    }
  }
}
