// A track of the playlist and the rule that derives artist and title from a file name.
module Canciones {
  import opened Opcionales
  import opened Texto
  import opened Generos

  /** A track: title, artist, path, duration in seconds, genre (None for a track created without one). */
  datatype Cancion = Cancion(titulo: string, artista: string, rutaArchivo: string, duracion: nat, genero: Option<Genero>)
  {
    /** toString(): "artist - title (genre name)"; a track without genre makes it fail. */
    function ToString(): string
      requires genero.Some?
    {
      artista + " - " + titulo + " (" + genero.value.Nombre() + ")"
    }
  }

  const SeparadorArtista: string := " - "

  const ArtistaDesconocido: string := "Artista Desconocido"

  /** The artist (and title) of the time-marker pseudo-track; the .lst writer recognises markers by this artist. */
  const ArtistaMarcador: string := "TIME_MARKER"

  /** The artist and title read from a file name without extension: split at the first " - "
      and trim both sides; without a separator the artist is unknown and the title is the whole name. */
  function ArtistaYTitulo(nombre: string): (r: (string, string))
    ensures !Contiene(nombre, SeparadorArtista) ==> r == (ArtistaDesconocido, nombre)
    ensures Contiene(nombre, SeparadorArtista) ==> SinBordes(r.0) && SinBordes(r.1) && |r.0| + |r.1| + 3 <= |nombre|
  {
    match IndiceDe(nombre, SeparadorArtista)
    case None => (ArtistaDesconocido, nombre)
    case Some(i) =>
      var a, t := Recortar(nombre[..i]), Recortar(nombre[i + 3..]);
      RecortarDaSinBordes(nombre[..i]);
      RecortarDaSinBordes(nombre[i + 3..]);
      (a, t)
  }

  /** Naming a file "artist - title" gives back that artist and title, each trimmed, when the
      artist has no separator of its own and does not end in " -" (either would move the first
      separator); the title may hold further separators. */
  lemma {:induction false} ArtistaYTituloSeparados(artista: string, titulo: string)
    requires !Contiene(artista, SeparadorArtista) && !TerminaCon(artista, " -")
    ensures ArtistaYTitulo(artista + SeparadorArtista + titulo) == (Recortar(artista), Recortar(titulo))
  {
    var s := artista + SeparadorArtista + titulo;
    var n := |artista|;
    PrimerSeparador(artista, titulo);
    assert s[..n] == artista && s[n + 3..] == titulo;
  }

  /** The first separator of "artist - title" is the one after the artist. */
  lemma PrimerSeparador(artista: string, titulo: string)
    requires !Contiene(artista, SeparadorArtista) && !TerminaCon(artista, " -")
    ensures IndiceDe(artista + SeparadorArtista + titulo, SeparadorArtista) == Some(|artista|)
  {
    var s := artista + SeparadorArtista + titulo;
    assert s[|artista|..|artista| + 3] == SeparadorArtista;
    assert OcurreEn(s, SeparadorArtista, |artista|);
    forall j | 0 <= j < |artista| ensures !OcurreEn(s, SeparadorArtista, j) {
      NoOcurreEnArtista(artista, titulo, j);
    }
    match IndiceDe(s, SeparadorArtista)
    case None =>
    case Some(v) => assert !(v < |artista|) && !(|artista| < v);
  }

  /** No separator starts inside the artist of "artist - title". */
  lemma NoOcurreEnArtista(artista: string, titulo: string, j: nat)
    requires !Contiene(artista, SeparadorArtista) && !TerminaCon(artista, " -")
    requires j < |artista|
    ensures !OcurreEn(artista + SeparadorArtista + titulo, SeparadorArtista, j)
  {
    var s := artista + SeparadorArtista + titulo;
    var n := |artista|;
    if j + 3 <= n {
      assert s[j..j + 3] == artista[j..j + 3];
      assert !OcurreEn(artista, SeparadorArtista, j);
    } else if j == n - 1 {
      assert s[j + 1] == ' ' && SeparadorArtista[1] == '-';
      assert s[j..j + 3][1] == s[j + 1];
    } else {
      assert s[j] == artista[n - 2] && s[j + 1] == artista[n - 1];
      assert artista[n - 2..] == [artista[n - 2], artista[n - 1]];
      assert s[j..j + 3][0] == s[j] && s[j..j + 3][1] == s[j + 1];
    }
  }
}
