// Randomizador: random tracks and insertions picked from a folder of audio files, and the
// in-place shuffle of a list. Random.nextInt and Collections.shuffle take their draws from
// the caller (module Azar).
module Randomizador {
  import opened Opcionales
  import opened Texto
  import opened Secuencias
  import opened Azar
  import opened SistemaArchivos
  import opened Canciones
  import opened InsercionesEspeciales
  import Generacion

  // The audio files of a folder

  /** The listFiles filter: a regular file whose name has an audio extension. */
  predicate EsAudio(e: Entrada)
  {
    e.esArchivo && EsArchivoAudio(e.nombre)
  }

  /** The audio files of a folder, in listing order; none when the folder does not exist.
      This is the listing of the service's identifier search with the empty prefix. */
  function ArchivosAudio(carpeta: string, d: Disco): (r: seq<Archivo>)
    ensures carpeta in d.carpetas ==> |r| <= |d.carpetas[carpeta]|
  {
    if carpeta in d.carpetas then Generacion.Coincidencias("", carpeta, d.carpetas[carpeta]) else []
  }

  /** The listing holds exactly the audio files of the folder: each comes from an audio entry, each
      audio entry is there, so it is empty exactly when the folder is missing or has no audio file. */
  lemma ArchivosAudioExactos(carpeta: string, d: Disco)
    ensures forall k :: 0 <= k < |ArchivosAudio(carpeta, d)| ==>
      (exists j :: 0 <= j < |d.carpetas[carpeta]| && EsAudio(d.carpetas[carpeta][j])
        && ArchivosAudio(carpeta, d)[k] == ArchivoDe(carpeta, d.carpetas[carpeta][j]))
    ensures carpeta in d.carpetas ==> forall j :: 0 <= j < |d.carpetas[carpeta]| && EsAudio(d.carpetas[carpeta][j]) ==>
      ArchivoDe(carpeta, d.carpetas[carpeta][j]) in ArchivosAudio(carpeta, d)
    ensures ArchivosAudio(carpeta, d) == [] <==>
      carpeta !in d.carpetas || forall j :: 0 <= j < |d.carpetas[carpeta]| ==> !EsAudio(d.carpetas[carpeta][j])
  {
    if carpeta in d.carpetas {
      var es := d.carpetas[carpeta];
      var r := ArchivosAudio(carpeta, d);
      assert r == Generacion.Coincidencias("", carpeta, es);
      forall j | 0 <= j < |es| ensures Generacion.Coincide("", es[j]) == EsAudio(es[j]) {
        CoincideSinPrefijo(es[j]);
      }
      Generacion.CoincidenciasCompletas("", carpeta, es);
      forall k | 0 <= k < |r|
        ensures exists j :: 0 <= j < |es| && EsAudio(es[j]) && r[k] == ArchivoDe(carpeta, es[j])
      {
        Generacion.CoincidenciaDeLaCarpeta("", carpeta, es, k);
        var j :| 0 <= j < |es| && Generacion.Coincide("", es[j]) && r[k] == ArchivoDe(carpeta, es[j]);
        assert EsAudio(es[j]);
      }
    } else {
      assert ArchivosAudio(carpeta, d) == [];
    }
  }

  /** Each audio file's path is its folder's path followed by its name. */
  lemma ArchivosAudioEnCarpeta(carpeta: string, d: Disco)
    ensures forall a :: a in ArchivosAudio(carpeta, d) ==> a.ruta == RutaEn(carpeta, a.nombre)
  {
  }

  /** Within a folder whose entries have distinct names, the audio files have distinct paths. */
  lemma ArchivosAudioDistintos(carpeta: string, d: Disco)
    requires carpeta in d.carpetas
    requires forall i, j :: 0 <= i < j < |d.carpetas[carpeta]| ==> d.carpetas[carpeta][i].nombre != d.carpetas[carpeta][j].nombre
    ensures forall a, b :: a in ArchivosAudio(carpeta, d) && b in ArchivosAudio(carpeta, d) && a.ruta == b.ruta ==> a == b
    ensures Distintos(ArchivosAudio(carpeta, d))
  {
    var es := d.carpetas[carpeta];
    var r := ArchivosAudio(carpeta, d);
    ArchivosAudioEnCarpeta(carpeta, d);
    forall a, b | a in r && b in r && a.ruta == b.ruta ensures a == b {
      RutaEnInyectiva(carpeta, a.nombre, b.nombre);
    }
    forall i, j | 0 <= i < j < |r| ensures r[i] != r[j] {
      ArchivosAudioUnaVez(carpeta, es, i, j);
    }
  }

  /** Two files of the same folder with the same path have the same name. */
  lemma RutaEnInyectiva(carpeta: string, a: string, b: string)
    requires RutaEn(carpeta, a) == RutaEn(carpeta, b)
    ensures a == b
  {
    var n := |carpeta| + 1;
    assert RutaEn(carpeta, a)[n..] == a;
    assert RutaEn(carpeta, b)[n..] == b;
  }

  lemma CoincideSinPrefijo(e: Entrada)
    ensures Generacion.Coincide("", e) == EsAudio(e)
  {
    assert e.nombre[..0] == "";
  }

  /** The audio files of a listing with distinct entries are distinct. */
  lemma ArchivosAudioUnaVez(carpeta: string, es: seq<Entrada>, i: nat, j: nat)
    requires forall x, y :: 0 <= x < y < |es| ==> es[x].nombre != es[y].nombre
    requires i < j < |Generacion.Coincidencias("", carpeta, es)|
    ensures Generacion.Coincidencias("", carpeta, es)[i] != Generacion.Coincidencias("", carpeta, es)[j]
  {
    var f := Filtrar(es, Generacion.Filtro(""));
    assert Distintos(es) by {
      forall x, y | 0 <= x < y < |es| ensures es[x] != es[y] {
        assert es[x].nombre != es[y].nombre;
      }
    }
    FiltrarDistintos(es, Generacion.Filtro(""));
    assert f[i] != f[j];
    assert f[i] in multiset(es) && f[j] in multiset(es);
    var x :| 0 <= x < |es| && es[x] == f[i];
    var y :| 0 <= y < |es| && es[y] == f[j];
    assert x != y;
    assert f[i].nombre != f[j].nombre;
  }

  /** mezclarCanciones: shuffles a list of tracks in place. */
  method MezclarCanciones(canciones: array<Cancion>, semillas: seq<nat>)
    modifies canciones
    ensures canciones[..] == Mezclar(old(canciones[..]), semillas)
    ensures multiset(canciones[..]) == multiset(old(canciones[..]))
  {
    MezclarEnSitio(canciones, semillas);
    MezclarPermuta(old(canciones[..]), semillas);
  }

  /** Math.min(cantidad, size) as a loop bound: a negative request takes nothing. */
  function Cuantas(cantidad: int, n: nat): (r: nat)
    ensures r <= n && (cantidad >= 0 ==> r <= cantidad)
    ensures r < cantidad ==> r == n
  {
    if cantidad <= 0 then 0 else if cantidad < n then cantidad else n
  }

  /** seleccionarAleatorios: the first min(cantidad, size) elements of a shuffled copy; the list
      itself is left alone. */
  function SeleccionAleatoria<T>(lista: seq<T>, cantidad: nat, semillas: seq<nat>): seq<T>
  {
    Mezclar(lista, semillas)[..Cuantas(cantidad, |lista|)]
  }

  method SeleccionarAleatorios<T>(lista: seq<T>, cantidad: nat, semillas: seq<nat>) returns (r: seq<T>)
    ensures r == SeleccionAleatoria(lista, cantidad, semillas)
  {
    var copia := Mezclado(lista, semillas);
    var n := if cantidad < |copia| then cantidad else |copia|;
    r := copia[..n];
  }

  /** A selection has min(cantidad, size) elements, all drawn from the list without repetition:
      as a multiset it is part of the list, and the whole list when cantidad covers it. */
  lemma SeleccionAleatoriaEsSubmultiset<T>(lista: seq<T>, cantidad: nat, semillas: seq<nat>)
    ensures |SeleccionAleatoria(lista, cantidad, semillas)| == if cantidad < |lista| then cantidad else |lista|
    ensures multiset(SeleccionAleatoria(lista, cantidad, semillas)) <= multiset(lista)
    ensures cantidad >= |lista| ==> multiset(SeleccionAleatoria(lista, cantidad, semillas)) == multiset(lista)
  {
    var m := Mezclar(lista, semillas);
    var n := Cuantas(cantidad, |lista|);
    MezclarPermuta(lista, semillas);
    assert m == m[..n] + m[n..];
  }

  // Tracks

  const DuracionEstimada: nat := 210

  /** crearCancionDesdeArchivo: artist and title from the name without extension, no genre,
      three and a half minutes, the file's absolute path. */
  function CrearCancionDesdeArchivo(a: Archivo): (c: Cancion)
    ensures c.rutaArchivo == a.ruta && c.duracion == DuracionEstimada && c.genero == None
  {
    var (artista, titulo) := ArtistaYTitulo(QuitarExtension(a.nombre));
    Cancion(titulo, artista, a.ruta, DuracionEstimada, None)
  }

  /** A file of a folder makes the same track as the service's crearCancionDesdeRuta does from its
      path, except for the genre, which the randomizer leaves unset. */
  lemma CancionComoDeRuta(carpeta: string, e: Entrada, genero: Generos.Genero)
    requires Separador !in e.nombre
    ensures CrearCancionDesdeArchivo(ArchivoDe(carpeta, e))
      == Generacion.CrearCancionDesdeRuta(RutaEn(carpeta, e.nombre), genero).(genero := None)
  {
    NombreDeRutaEn(carpeta, e.nombre);
  }

  /** The files a request picks: the first min(cantidad, n) of the shuffled audio files. */
  function Seleccion(carpeta: string, cantidad: int, d: Disco, semillas: seq<nat>): seq<Archivo>
  {
    var archivos := ArchivosAudio(carpeta, d);
    Mezclar(archivos, semillas)[..Cuantas(cantidad, |archivos|)]
  }

  /** As many files as asked for when the folder has enough, otherwise all of them; none exactly
      when nothing is asked for or the folder has no audio file. */
  lemma SeleccionCantidad(carpeta: string, cantidad: int, d: Disco, semillas: seq<nat>)
    ensures |Seleccion(carpeta, cantidad, d, semillas)| <= |ArchivosAudio(carpeta, d)|
    ensures cantidad >= 0 ==> |Seleccion(carpeta, cantidad, d, semillas)| <= cantidad
    ensures |Seleccion(carpeta, cantidad, d, semillas)| < cantidad ==>
      multiset(Seleccion(carpeta, cantidad, d, semillas)) == multiset(ArchivosAudio(carpeta, d))
    ensures Seleccion(carpeta, cantidad, d, semillas) == [] <==> cantidad <= 0 || ArchivosAudio(carpeta, d) == []
  {
    var archivos := ArchivosAudio(carpeta, d);
    var m := Mezclar(archivos, semillas);
    var n := Cuantas(cantidad, |archivos|);
    if n < cantidad {
      MezclarPermuta(archivos, semillas);
      assert m[..n] == m;
    }
  }

  /** Every picked file is an audio file of the folder. */
  lemma SeleccionDeLaCarpeta(carpeta: string, cantidad: int, d: Disco, semillas: seq<nat>)
    ensures forall k :: 0 <= k < |Seleccion(carpeta, cantidad, d, semillas)| ==>
      (exists j :: 0 <= j < |d.carpetas[carpeta]| && EsAudio(d.carpetas[carpeta][j])
        && Seleccion(carpeta, cantidad, d, semillas)[k] == ArchivoDe(carpeta, d.carpetas[carpeta][j]))
  {
    var archivos := ArchivosAudio(carpeta, d);
    var s := Seleccion(carpeta, cantidad, d, semillas);
    ArchivosAudioExactos(carpeta, d);
    MezclarMismosElementos(archivos, semillas);
    forall k | 0 <= k < |s|
      ensures exists j :: 0 <= j < |d.carpetas[carpeta]| && EsAudio(d.carpetas[carpeta][j]) && s[k] == ArchivoDe(carpeta, d.carpetas[carpeta][j])
    {
      assert s[k] in Mezclar(archivos, semillas);
      var x :| 0 <= x < |archivos| && archivos[x] == s[k];
    }
  }

  /** No file is picked twice: the picked paths are distinct. */
  lemma SeleccionSinRepetir(carpeta: string, cantidad: int, d: Disco, semillas: seq<nat>)
    requires carpeta in d.carpetas
    requires forall i, j :: 0 <= i < j < |d.carpetas[carpeta]| ==> d.carpetas[carpeta][i].nombre != d.carpetas[carpeta][j].nombre
    ensures forall i, j :: 0 <= i < j < |Seleccion(carpeta, cantidad, d, semillas)| ==>
      Seleccion(carpeta, cantidad, d, semillas)[i].ruta != Seleccion(carpeta, cantidad, d, semillas)[j].ruta
  {
    var archivos := ArchivosAudio(carpeta, d);
    var m := Mezclar(archivos, semillas);
    var s := Seleccion(carpeta, cantidad, d, semillas);
    ArchivosAudioDistintos(carpeta, d);
    MezclarDistintos(archivos, semillas);
    MezclarMismosElementos(archivos, semillas);
    forall i, j | 0 <= i < j < |s| ensures s[i].ruta != s[j].ruta {
      assert s[i] == m[i] && s[j] == m[j];
      assert m[i] in archivos && m[j] in archivos;
    }
  }

  function CancionesDe(xs: seq<Archivo>): (r: seq<Cancion>)
    ensures |r| == |xs|
  {
    seq(|xs|, k requires 0 <= k < |xs| => CrearCancionDesdeArchivo(xs[k]))
  }

  lemma CancionesDeUltimo(xs: seq<Archivo>, x: Archivo)
    ensures CancionesDe(xs + [x]) == CancionesDe(xs) + [CrearCancionDesdeArchivo(x)]
  {
  }

  /** obtenerCancionesAleatorias: nothing for a missing folder or one without audio files;
      otherwise the tracks of the first min(cantidad, n) files of the shuffled listing. */
  method ObtenerCancionesAleatorias(rutaCarpeta: string, cantidad: int, d: Disco, semillas: seq<nat>)
    returns (canciones: seq<Cancion>)
    ensures canciones == CancionesDe(Seleccion(rutaCarpeta, cantidad, d, semillas))
  {
    canciones := [];
    if rutaCarpeta !in d.carpetas {
      return;
    }
    var archivos := ArchivosAudio(rutaCarpeta, d);
    if |archivos| == 0 {
      return;
    }
    var mezcla := Mezclado(archivos, semillas);
    canciones := PrimerasCanciones(mezcla, cantidad);
  }

  /** The loop of obtenerCancionesAleatorias: the tracks of the first min(cantidad, size) files. */
  method PrimerasCanciones(lista: seq<Archivo>, cantidad: int) returns (canciones: seq<Cancion>)
    ensures canciones == CancionesDe(lista[..Cuantas(cantidad, |lista|)])
  {
    canciones := [];
    var cantidadFinal := if cantidad < |lista| then cantidad else |lista|;
    var i := 0;
    while i < cantidadFinal
      invariant i <= Cuantas(cantidad, |lista|)
      invariant canciones == CancionesDe(lista[..i])
    {
      assert lista[..i + 1] == lista[..i] + [lista[i]];
      CancionesDeUltimo(lista[..i], lista[i]);
      canciones := canciones + [CrearCancionDesdeArchivo(lista[i])];
      i := i + 1;
    }
  }

  /** obtenerCancionAleatoria: the single track of a request for one; None when the folder is
      missing or has no audio file. */
  method ObtenerCancionAleatoria(rutaCarpeta: string, d: Disco, semillas: seq<nat>) returns (r: Option<Cancion>)
    ensures r.None? <==> ArchivosAudio(rutaCarpeta, d) == []
    ensures r.Some? ==> r.value.genero == None && r.value.duracion == DuracionEstimada
    ensures r.Some? ==>
      exists j :: 0 <= j < |d.carpetas[rutaCarpeta]| && EsAudio(d.carpetas[rutaCarpeta][j])
        && r.value == CrearCancionDesdeArchivo(ArchivoDe(rutaCarpeta, d.carpetas[rutaCarpeta][j]))
  {
    var canciones := ObtenerCancionesAleatorias(rutaCarpeta, 1, d, semillas);
    SeleccionCantidad(rutaCarpeta, 1, d, semillas);
    SeleccionDeLaCarpeta(rutaCarpeta, 1, d, semillas);
    if canciones == [] {
      r := None;
    } else {
      r := Some(canciones[0]);
      assert Seleccion(rutaCarpeta, 1, d, semillas)[0] in Seleccion(rutaCarpeta, 1, d, semillas);
    }
  }

  // Insertions

  /** The estimated duration of an insertion of each type, in seconds. */
  function DuracionSegunTipo(tipo: TipoInsercion): nat
  {
    match tipo
    case HimnoNacional => 90
    case HimnoGuerrero => 90
    case Poema => 120
    case LocucionHora => 10
    case Identificacion => 15
    case Promo => 30
  }

  /** The randomizer and the playlist service agree on the durations of the anthems, the poem
      and the promos, and disagree on time announcements (10 s against 30 s) and station
      identifications (15 s against 30 s). */
  lemma DuracionesComparadas(tipo: TipoInsercion)
    ensures DuracionSegunTipo(tipo) == Generacion.DuracionCeremonial(tipo) <==> tipo != LocucionHora && tipo != Identificacion
  {
  }

  /** crearInsercionDesdeArchivo: the service's insertion of that file, with the duration
      estimated for its type. */
  function CrearInsercionDesdeArchivo(a: Archivo, tipo: TipoInsercion): (r: InsercionEspecial)
    ensures r.tipo == tipo && r.rutaArchivo == a.ruta && r.duracion == DuracionSegunTipo(tipo)
    ensures r == Generacion.CrearInsercionDesdeArchivo(a, tipo).(duracion := DuracionSegunTipo(tipo))
  {
    InsercionEspecial(QuitarExtension(a.nombre), a.ruta, DuracionSegunTipo(tipo), tipo)
  }

  /** obtenerInsercionAleatoria: the insertion made from the file nextInt picks among the audio
      files, in listing order; None when the folder is missing or has none. */
  function ObtenerInsercionAleatoria(rutaCarpeta: string, tipo: TipoInsercion, d: Disco, semilla: nat)
    : (r: Option<InsercionEspecial>)
    ensures r.None? <==> ArchivosAudio(rutaCarpeta, d) == []
    ensures r.Some? ==> r.value.tipo == tipo && r.value.duracion == DuracionSegunTipo(tipo)
    ensures r.Some? ==> r.value.rutaArchivo in set a | a in ArchivosAudio(rutaCarpeta, d) :: a.ruta
  {
    var archivos := ArchivosAudio(rutaCarpeta, d);
    if archivos == [] then None
    else
      var a := archivos[Elegir(semilla, |archivos|)];
      assert a in archivos;
      Some(CrearInsercionDesdeArchivo(a, tipo))
  }

  /** For the anthems, the poem and the promos this is the service's search by identifier with
      the empty prefix, so both pick the same file for the same draw. */
  lemma InsercionAleatoriaComoElemento(rutaCarpeta: string, tipo: TipoInsercion, d: Disco, semilla: nat)
    requires tipo != LocucionHora && tipo != Identificacion
    ensures ObtenerInsercionAleatoria(rutaCarpeta, tipo, d, semilla)
      == Generacion.ObtenerElementoPorIdentificador("", tipo, rutaCarpeta, d, semilla)
  {
  }

  function InsercionesDe(xs: seq<Archivo>, tipo: TipoInsercion): (r: seq<InsercionEspecial>)
    ensures |r| == |xs|
  {
    seq(|xs|, k requires 0 <= k < |xs| => CrearInsercionDesdeArchivo(xs[k], tipo))
  }

  lemma InsercionesDeUltimo(xs: seq<Archivo>, x: Archivo, tipo: TipoInsercion)
    ensures InsercionesDe(xs + [x], tipo) == InsercionesDe(xs, tipo) + [CrearInsercionDesdeArchivo(x, tipo)]
  {
  }

  /** obtenerInsercionesAleatorias: as obtenerCancionesAleatorias, making insertions of one type. */
  method ObtenerInsercionesAleatorias(rutaCarpeta: string, tipo: TipoInsercion, cantidad: int, d: Disco, semillas: seq<nat>)
    returns (inserciones: seq<InsercionEspecial>)
    ensures inserciones == InsercionesDe(Seleccion(rutaCarpeta, cantidad, d, semillas), tipo)
  {
    inserciones := [];
    if rutaCarpeta !in d.carpetas {
      return;
    }
    var archivos := ArchivosAudio(rutaCarpeta, d);
    if |archivos| == 0 {
      return;
    }
    var mezcla := Mezclado(archivos, semillas);
    inserciones := PrimerasInserciones(mezcla, tipo, cantidad);
  }

  /** The loop of obtenerInsercionesAleatorias: the insertions of the first min(cantidad, size) files. */
  method PrimerasInserciones(lista: seq<Archivo>, tipo: TipoInsercion, cantidad: int) returns (inserciones: seq<InsercionEspecial>)
    ensures inserciones == InsercionesDe(lista[..Cuantas(cantidad, |lista|)], tipo)
  {
    inserciones := [];
    var cantidadFinal := if cantidad < |lista| then cantidad else |lista|;
    var i := 0;
    while i < cantidadFinal
      invariant i <= Cuantas(cantidad, |lista|)
      invariant inserciones == InsercionesDe(lista[..i], tipo)
    {
      assert lista[..i + 1] == lista[..i] + [lista[i]];
      InsercionesDeUltimo(lista[..i], lista[i], tipo);
      inserciones := inserciones + [CrearInsercionDesdeArchivo(lista[i], tipo)];
      i := i + 1;
    }
  }

  /** Every insertion of a request has the requested type and its estimated duration, and comes
      from a distinct audio file of the folder when the listing's names are distinct. */
  lemma InsercionesAleatoriasDeLaCarpeta(rutaCarpeta: string, tipo: TipoInsercion, cantidad: int, d: Disco, semillas: seq<nat>)
    requires rutaCarpeta in d.carpetas
    requires forall i, j :: 0 <= i < j < |d.carpetas[rutaCarpeta]| ==> d.carpetas[rutaCarpeta][i].nombre != d.carpetas[rutaCarpeta][j].nombre
    ensures forall k :: 0 <= k < |InsercionesDe(Seleccion(rutaCarpeta, cantidad, d, semillas), tipo)| ==>
      InsercionesDe(Seleccion(rutaCarpeta, cantidad, d, semillas), tipo)[k].tipo == tipo
      && InsercionesDe(Seleccion(rutaCarpeta, cantidad, d, semillas), tipo)[k].duracion == DuracionSegunTipo(tipo)
    ensures forall i, j :: 0 <= i < j < |InsercionesDe(Seleccion(rutaCarpeta, cantidad, d, semillas), tipo)| ==>
      InsercionesDe(Seleccion(rutaCarpeta, cantidad, d, semillas), tipo)[i].rutaArchivo
        != InsercionesDe(Seleccion(rutaCarpeta, cantidad, d, semillas), tipo)[j].rutaArchivo
  {
    SeleccionSinRepetir(rutaCarpeta, cantidad, d, semillas);
  }

  /** The tracks of a request have no genre, the estimated duration and distinct paths when the
      listing's names are distinct. */
  lemma CancionesAleatoriasSinRepetir(rutaCarpeta: string, cantidad: int, d: Disco, semillas: seq<nat>)
    requires rutaCarpeta in d.carpetas
    requires forall i, j :: 0 <= i < j < |d.carpetas[rutaCarpeta]| ==> d.carpetas[rutaCarpeta][i].nombre != d.carpetas[rutaCarpeta][j].nombre
    ensures forall k :: 0 <= k < |CancionesDe(Seleccion(rutaCarpeta, cantidad, d, semillas))| ==>
      CancionesDe(Seleccion(rutaCarpeta, cantidad, d, semillas))[k].genero == None
    ensures forall i, j :: 0 <= i < j < |CancionesDe(Seleccion(rutaCarpeta, cantidad, d, semillas))| ==>
      CancionesDe(Seleccion(rutaCarpeta, cantidad, d, semillas))[i].rutaArchivo
        != CancionesDe(Seleccion(rutaCarpeta, cantidad, d, semillas))[j].rutaArchivo
  {
    SeleccionSinRepetir(rutaCarpeta, cantidad, d, semillas);
  }
}
