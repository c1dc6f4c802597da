// The part of java.io.File the core reads: whether a folder exists, its listing
// (name and isFile of each entry), a file's length, getName(), getAbsolutePath(),
// and the audio-extension and extension-stripping rules applied to file names.
module SistemaArchivos {
  import opened Opcionales
  import opened Texto
  import opened Secuencias

  /** One entry of a folder listing. */
  datatype Entrada = Entrada(nombre: string, esArchivo: bool)

  /** The disk as the core sees it: each existing folder with its listing in listFiles() order,
      and the length() of each existing path, keyed by absolute path. A path exists() exactly
      when it has a length: a file's is its size in bytes, a folder's is whatever the platform
      reports (java.io.File leaves it unspecified). */
  datatype Disco = Disco(carpetas: map<string, seq<Entrada>>, tamanos: map<string, nat>)

  /** Every existing folder also exists as a path, so it has a length. */
  predicate DiscoCoherente(d: Disco)
  {
    forall p :: p in d.carpetas ==> p in d.tamanos
  }

  /** A java.io.File as the core uses it: getName() and getAbsolutePath(). */
  datatype Archivo = Archivo(nombre: string, ruta: string)

  const Separador: char := '/'

  /** The absolute path of an entry of a folder. */
  function RutaEn(carpeta: string, nombre: string): string
  {
    carpeta + [Separador] + nombre
  }

  function ArchivoDe(carpeta: string, e: Entrada): Archivo
  {
    Archivo(e.nombre, RutaEn(carpeta, e.nombre))
  }

  /** The last position of c in s. */
  function UltimaPosicion(s: string, c: char): (r: Option<nat>)
    ensures r.Some? ==> r.value < |s| && s[r.value] == c && c !in s[r.value + 1..]
    ensures r.None? ==> c !in s
  {
    if s == [] then None
    else if s[|s| - 1] == c then Some(|s| - 1)
    else
      var r := UltimaPosicion(s[..|s| - 1], c);
      assert s == s[..|s| - 1] + [s[|s| - 1]];
      r
  }

  /** File.getName(): what follows the last separator. */
  function NombreDe(ruta: string): string
  {
    match UltimaPosicion(ruta, Separador)
    case None => ruta
    case Some(i) => ruta[i + 1..]
  }

  lemma NombreDeRutaEn(carpeta: string, nombre: string)
    requires Separador !in nombre
    ensures NombreDe(RutaEn(carpeta, nombre)) == nombre
  {
    var r := RutaEn(carpeta, nombre);
    assert r[|carpeta|] == Separador;
    assert r[|carpeta| + 1..] == nombre;
  }

  /** getName().replaceFirst("[.][^.]+$", ""): drops the last '.' and what follows it,
      provided at least one character follows it. */
  function QuitarExtension(nombre: string): (r: string)
    ensures r == nombre || (|r| + 2 <= |nombre| && nombre[..|r|] == r && nombre[|r|] == '.' && '.' !in nombre[|r| + 1..])
  {
    match UltimaPosicion(nombre, '.')
    case None => nombre
    case Some(i) => if i < |nombre| - 1 then nombre[..i] else nombre
  }

  /** The lower-cased name ends with one of the five audio extensions. */
  predicate EsArchivoAudio(nombre: string)
  {
    var m := Minusculas(nombre);
    TerminaCon(m, ".mp3") || TerminaCon(m, ".wav") || TerminaCon(m, ".wma") || TerminaCon(m, ".ogg") || TerminaCon(m, ".aac")
  }

  /** Upper-case extensions are audio too: the test does not depend on letter case. */
  lemma EsArchivoAudioSinMayusculas(nombre: string)
    ensures EsArchivoAudio(Minusculas(nombre)) == EsArchivoAudio(nombre)
  {
    var m := Minusculas(nombre);
    assert Minusculas(m) == m;
  }

  /** For an audio file, the name without extension is the name minus its four-character extension. */
  lemma AudioSinExtension(nombre: string)
    requires EsArchivoAudio(nombre)
    ensures QuitarExtension(nombre) == nombre[..|nombre| - 4]
  {
    var n := |nombre|;
    var m := Minusculas(nombre);
    assert m[n - 4] == '.' && m[n - 3] != '.' && m[n - 2] != '.' && m[n - 1] != '.';
    assert nombre[n - 4] == '.';
    assert nombre[n - 3] != '.' && nombre[n - 2] != '.' && nombre[n - 1] != '.';
    var r := UltimaPosicion(nombre, '.');
    assert nombre[n - 3..] == [nombre[n - 3], nombre[n - 2], nombre[n - 1]];
    assert r.Some? && r.value == n - 4;
  }

  /** A name followed by "." and an extension without dots loses exactly that suffix. */
  lemma QuitarExtensionDe(base: string, extension: string)
    requires extension != [] && '.' !in extension
    ensures QuitarExtension(base + "." + extension) == base
  {
    var s := base + "." + extension;
    var n := |base|;
    assert s[n] == '.' && s[n + 1..] == extension;
    var r := UltimaPosicion(s, '.');
    assert r.Some?;
    assert forall j :: n < j < |s| ==> s[j] == extension[j - n - 1];
    var k, punto := r.value, s[n];
    var resto := s[k + 1..];
    assert k < n ==> punto in resto;
    assert s[..n] == base;
  }
}
