// The rotation cursor of the generator for station identifications, congratulations
// and promos: the numbered audio files of a folder, sorted by their number, read
// round-robin from a random starting position.
module Rotacion {
  import opened Opcionales
  import opened Texto
  import opened SistemaArchivos
  import opened Secuencias
  import opened Azar
  import opened InsercionesEspeciales

  // File numbers

  /** The value of two or three decimal digits, unfolded. */
  lemma ValorCorto(s: string)
    requires 2 <= |s| <= 3 && SoloDigitos(s)
    ensures |s| == 2 ==> ValorDecimal(s) == ValorDigito(s[0]) * 10 + ValorDigito(s[1])
    ensures |s| == 3 ==> ValorDecimal(s) == ValorDigito(s[0]) * 100 + ValorDigito(s[1]) * 10 + ValorDigito(s[2])
    ensures ValorDecimal(s) < 1000
  {
    var u := s[..|s| - 1];
    assert u[..|u| - 1][..0] == [];
    if |s| == 3 {
      assert u[..1] == [s[0]] && u[1] == s[1];
    } else {
      assert u == [s[0]];
    }
  }

  /** The regular expression ^(\d{2,3}): three leading digits when there are three, else two. */
  function NumeroInicial(nombre: string): (r: Option<nat>)
    ensures r.Some? ==> r.value < 1000
  {
    if |nombre| >= 3 && EsDigito(nombre[0]) && EsDigito(nombre[1]) && EsDigito(nombre[2]) then
      ValorCorto(nombre[..3]);
      Some(ValorDecimal(nombre[..3]))
    else if |nombre| >= 2 && EsDigito(nombre[0]) && EsDigito(nombre[1]) then
      ValorCorto(nombre[..2]);
      Some(ValorDecimal(nombre[..2]))
    else None
  }

  /** tieneNumeroAlInicio. */
  predicate TieneNumeroAlInicio(nombre: string)
  {
    NumeroInicial(nombre).Some?
  }

  /** The leftmost match of (\d{2,3}) at or after position k. */
  function NumeroDesde(nombre: string, k: nat): (r: Option<nat>)
    ensures r.Some? ==> r.value < 1000
    decreases |nombre| - k
  {
    if k >= |nombre| then None
    else match NumeroInicial(nombre[k..])
      case Some(v) => Some(v)
      case None => NumeroDesde(nombre, k + 1)
  }

  /** extraerNumeroDeArchivo followed by Integer.parseInt: the leading number, else the first
      number anywhere in the name, else 999. */
  function ExtraerNumero(nombre: string): (r: nat)
    ensures r < 1000
    ensures TieneNumeroAlInicio(nombre) ==> Some(r) == NumeroInicial(nombre)
    ensures !TieneNumeroAlInicio(nombre) && NumeroDesde(nombre, 0).Some? ==> Some(r) == NumeroDesde(nombre, 0)
    ensures !TieneNumeroAlInicio(nombre) && NumeroDesde(nombre, 0).None? ==> r == 999
  {
    match NumeroInicial(nombre)
    case Some(v) => v
    case None =>
      match NumeroDesde(nombre, 0)
      case Some(v) => v
      case None => 999
  }

  // Sorting by number

  /** The sort key of a file: its number. */
  function Clave(a: Archivo): int
  {
    ExtraerNumero(a.nombre)
  }

  /** Arrays.sort with the comparator on the file numbers, which is stable. */
  function OrdenarPorNumero(s: seq<Archivo>): (r: seq<Archivo>)
    ensures |r| == |s| && multiset(r) == multiset(s)
    ensures OrdenadoPor(r, Clave)
  {
    OrdenarPor(s, Clave)
  }

  /** Files with the same number keep their listing order. */
  lemma OrdenarEstable(s: seq<Archivo>, k: nat)
    ensures ConClave(OrdenarPorNumero(s), Clave, k) == ConClave(s, Clave, k)
  {
    OrdenarPorEstable(s, Clave, k);
  }

  /** A listing already in number order is kept as it is. */
  lemma OrdenarYaOrdenado(s: seq<Archivo>)
    requires OrdenadoPor(s, Clave)
    ensures OrdenarPorNumero(s) == s
  {
    OrdenarPorOrdenada(s, Clave);
  }

  // The cursor

  /** The state of a rotator: its folder-type prefix, its sorted files, the next position and
      whether any file was found. */
  datatype Cursor = Cursor(prefijo: string, archivos: seq<Archivo>, indice: int, inicializado: bool)

  predicate CursorValido(c: Cursor)
  {
    c.inicializado == (|c.archivos| > 0) && (if c.inicializado then 0 <= c.indice < |c.archivos| else c.indice == 0)
  }

  /** The files a rotator keeps: regular files with an audio extension whose name starts with
      two or three digits, in listing order. */
  function ArchivosNumerados(carpeta: string, es: seq<Entrada>): (r: seq<Archivo>)
    ensures |r| <= |es|
    ensures forall i :: 0 <= i < |r| ==> EsArchivoAudio(r[i].nombre) && TieneNumeroAlInicio(r[i].nombre)
  {
    var f := Filtrar(es, (e: Entrada) => e.esArchivo && EsArchivoAudio(e.nombre) && TieneNumeroAlInicio(e.nombre));
    seq(|f|, i requires 0 <= i < |f| => ArchivoDe(carpeta, f[i]))
  }

  /** The state right after construction: no files for a missing folder or a folder without
      numbered audio files, otherwise the files sorted by number and a start drawn in [0, n). */
  function CursorInicial(carpeta: string, prefijo: string, d: Disco, semilla: nat): (c: Cursor)
    ensures CursorValido(c) && c.prefijo == prefijo
    ensures c.inicializado ==> c.indice == Elegir(semilla, |c.archivos|)
  {
    if carpeta !in d.carpetas then Cursor(prefijo, [], 0, false)
    else
      var fs := OrdenarPorNumero(ArchivosNumerados(carpeta, d.carpetas[carpeta]));
      if fs == [] then Cursor(prefijo, [], 0, false) else Cursor(prefijo, fs, Elegir(semilla, |fs|), true)
  }

  /** The type and duration (seconds) by prefix, compared in lower case. */
  function TipoYDuracion(prefijo: string): (TipoInsercion, nat)
  {
    var p := Minusculas(prefijo);
    if p == "identificacion" then (Identificacion, 15)
    else if p == "felicitacion" then (Identificacion, 20)
    else if p == "promoa" || p == "promob" then (Promo, 30)
    else (Promo, 30)
  }

  /** The insertion a rotator makes of a file. */
  function InsercionDeArchivo(prefijo: string, a: Archivo): InsercionEspecial
  {
    var (tipo, duracion) := TipoYDuracion(prefijo);
    InsercionEspecial(QuitarExtension(a.nombre), a.ruta, duracion, tipo)
  }

  /** obtenerSiguiente: nothing when no file was found; otherwise the insertion of the current
      file, and the position moves to the next one, back to 0 after the last. */
  function Siguiente(c: Cursor): (r: (Option<InsercionEspecial>, Cursor))
    requires CursorValido(c)
    ensures CursorValido(r.1) && r.1.archivos == c.archivos && r.1.prefijo == c.prefijo
    ensures r.0.Some? <==> c.inicializado
  {
    if !c.inicializado || c.archivos == [] then (None, c)
    else (Some(InsercionDeArchivo(c.prefijo, c.archivos[c.indice])), c.(indice := (c.indice + 1) % |c.archivos|))
  }

  /** What k consecutive calls return, and the cursor after them. */
  function Iterar(c: Cursor, k: nat): (r: (seq<Option<InsercionEspecial>>, Cursor))
    requires CursorValido(c)
    ensures |r.0| == k && CursorValido(r.1) && r.1.archivos == c.archivos && r.1.prefijo == c.prefijo
  {
    if k == 0 then ([], c)
    else
      var (xs, c1) := Iterar(c, k - 1);
      var (x, c2) := Siguiente(c1);
      (xs + [x], c2)
  }

  /** Position i moved k steps forward in a cycle of n, for i < n and k <= n. */
  function Desplazar(i: int, k: nat, n: nat): int
  {
    if i + k < n then i + k else i + k - n
  }

  lemma Paso(i: int, n: nat)
    requires 0 <= i < n
    ensures (i + 1) % n == if i + 1 < n then i + 1 else 0
  {
  }

  /** The k-th call continues from the cursor the first k - 1 calls left. */
  lemma IterarUltimo(c: Cursor, k: nat)
    requires CursorValido(c) && k > 0
    ensures Iterar(c, k).0 == Iterar(c, k - 1).0 + [Siguiente(Iterar(c, k - 1).1).0]
    ensures Iterar(c, k).1 == Siguiente(Iterar(c, k - 1).1).1
  {
  }

  /** After k calls (k at most the number of files) the position is k steps further round the cycle. */
  lemma {:induction false} IterarCursor(c: Cursor, k: nat)
    requires CursorValido(c) && c.inicializado && k <= |c.archivos|
    ensures Iterar(c, k).1 == c.(indice := Desplazar(c.indice, k, |c.archivos|))
  {
    if k > 0 {
      var n := |c.archivos|;
      IterarCursor(c, k - 1);
      var c1 := Iterar(c, k - 1).1;
      var i := Desplazar(c.indice, k - 1, n);
      assert c1 == c.(indice := i);
      IterarUltimo(c, k);
      Paso(i, n);
      assert Siguiente(c1).1 == c.(indice := (i + 1) % n);
    }
  }

  /** The j-th of k consecutive calls returns the file at the start position moved j steps round
      the cycle. */
  lemma {:induction false} IterarPosiciones(c: Cursor, k: nat)
    requires CursorValido(c) && c.inicializado && k <= |c.archivos|
    ensures Iterar(c, k).1 == c.(indice := Desplazar(c.indice, k, |c.archivos|))
    ensures forall j :: 0 <= j < k ==>
      Iterar(c, k).0[j] == Some(InsercionDeArchivo(c.prefijo, c.archivos[Desplazar(c.indice, j, |c.archivos|)]))
  {
    IterarCursor(c, k);
    if k > 0 {
      IterarPosiciones(c, k - 1);
      var xs := Iterar(c, k - 1).0;
      var c1 := Iterar(c, k - 1).1;
      IterarUltimo(c, k);
      var x := Siguiente(c1).0;
      assert x == Some(InsercionDeArchivo(c.prefijo, c.archivos[Desplazar(c.indice, k - 1, |c.archivos|)]));
      forall j | 0 <= j < k
        ensures Iterar(c, k).0[j] == Some(InsercionDeArchivo(c.prefijo, c.archivos[Desplazar(c.indice, j, |c.archivos|)]))
      {
        if j < k - 1 {
          assert Iterar(c, k).0[j] == xs[j];
        } else {
          assert Iterar(c, k).0[j] == x;
        }
      }
    }
  }

  /** Reading the positions of one turn of the cycle visits the files rotated to start at i. */
  lemma Rotada<T>(s: seq<T>, i: nat)
    requires i < |s|
    ensures seq(|s|, j requires 0 <= j < |s| => s[Desplazar(i, j, |s|)]) == s[i..] + s[..i]
    ensures multiset(s[i..] + s[..i]) == multiset(s)
  {
    var n := |s|;
    var r := seq(n, j requires 0 <= j < n => s[Desplazar(i, j, n)]);
    forall j | 0 <= j < n ensures r[j] == (s[i..] + s[..i])[j] {
    }
    assert s == s[..i] + s[i..];
  }

  /** n consecutive calls on a rotator with n files return each file once, in sorted order
      rotated to the start position; the cursor is back where it started, so the next call
      repeats the first. */
  lemma VueltaCompleta(c: Cursor)
    requires CursorValido(c) && c.inicializado
    ensures Iterar(c, |c.archivos|).1 == c
    ensures Iterar(c, |c.archivos| + 1).0[|c.archivos|] == Iterar(c, |c.archivos|).0[0]
    ensures forall j :: 0 <= j < |c.archivos| ==>
      Iterar(c, |c.archivos|).0[j] == Some(InsercionDeArchivo(c.prefijo, (c.archivos[c.indice..] + c.archivos[..c.indice])[j]))
  {
    var n := |c.archivos|;
    IterarPosiciones(c, n);
    var xs := Iterar(c, n).0;
    assert Iterar(c, n).1 == c;
    assert Iterar(c, n + 1).0 == xs + [Siguiente(c).0];
    assert xs[0] == Siguiente(c).0;
    Rotada(c.archivos, c.indice);
    var r := seq(n, j requires 0 <= j < n => c.archivos[Desplazar(c.indice, j, n)]);
    assert forall j :: 0 <= j < n ==> r[j] == c.archivos[Desplazar(c.indice, j, n)];
  }

  /** A rotator that found no file answers nothing and does not change. */
  lemma SinArchivosNada(c: Cursor, k: nat)
    requires CursorValido(c) && !c.inicializado
    ensures Iterar(c, k).1 == c
    ensures forall j :: 0 <= j < k ==> Iterar(c, k).0[j] == None
  {
    if k > 0 {
      SinArchivosNada(c, k - 1);
    }
  }

  /** RotadorElementos. */
  class RotadorElementos {
    var rutaCarpeta: string
    var prefijoArchivo: string
    var indiceActual: int
    var archivosDisponibles: seq<Archivo>
    var inicializado: bool

    function Modelo(): Cursor
      reads this
    {
      Cursor(prefijoArchivo, archivosDisponibles, indiceActual, inicializado)
    }

    predicate Valid()
      reads this
    {
      CursorValido(Modelo())
    }

    /** RotadorElementos(ruta, prefijo) with inicializar(); semilla is the draw for the start position. */
    constructor (rutaCarpeta: string, prefijoArchivo: string, d: Disco, semilla: nat)
      ensures Valid() && Modelo() == CursorInicial(rutaCarpeta, prefijoArchivo, d, semilla)
      ensures this.rutaCarpeta == rutaCarpeta
    {
      var archivos: seq<Archivo> := [];
      var indice, listo := 0, false;
      if rutaCarpeta in d.carpetas {
        archivos := ArchivosNumerados(rutaCarpeta, d.carpetas[rutaCarpeta]);
        archivos := OrdenarPorNumero(archivos);
        if |archivos| > 0 {
          indice := semilla % |archivos|;
          listo := true;
        }
      }
      this.rutaCarpeta := rutaCarpeta;
      this.prefijoArchivo := prefijoArchivo;
      archivosDisponibles := archivos;
      indiceActual := indice;
      inicializado := listo;
    }

    method ObtenerSiguiente() returns (r: Option<InsercionEspecial>)
      requires Valid()
      modifies this
      ensures Valid() && (r, Modelo()) == Siguiente(old(Modelo()))
      ensures rutaCarpeta == old(rutaCarpeta)
    {
      if !inicializado || |archivosDisponibles| == 0 {
        return None;
      }
      var archivoActual := archivosDisponibles[indiceActual];
      r := Some(InsercionDeArchivo(prefijoArchivo, archivoActual));
      indiceActual := (indiceActual + 1) % |archivosDisponibles|;
    }
  }
}
