// The generation rules of GeneradorListaService stated on values: tracks and insertions made
// from files, the insertion pattern over the four rotators, the weaving pass that follows every
// third track with a time marker and the pattern's items, block population without repeated
// paths, and the opening and closing sequences.
module Generacion {
  import opened Opcionales
  import opened Texto
  import opened Tiempo
  import opened SistemaArchivos
  import opened Secuencias
  import opened Azar
  import opened Generos
  import opened Canciones
  import opened InsercionesEspeciales
  import opened BloquesHora
  import opened ListasReproduccion
  import opened Archivos
  import opened Rotacion

  const CancionesPorHora: nat := 15
  const CadaNCanciones: nat := 3
  const ToleranciaMinutosDefault: int := 5
  /** Three minutes and thirty seconds. */
  const DuracionCancion: nat := 210

  // Tracks and insertions made from files

  /** crearCancionDesdeRuta: artist and title from the file name without extension, the given
      genre, 210 seconds. */
  function CrearCancionDesdeRuta(ruta: string, genero: Genero): (c: Cancion)
    ensures c.rutaArchivo == ruta && c.duracion == DuracionCancion && c.genero == Some(genero)
    ensures !Contiene(QuitarExtension(NombreDe(ruta)), SeparadorArtista) ==>
      c.artista == ArtistaDesconocido && c.titulo == QuitarExtension(NombreDe(ruta))
  {
    var (artista, titulo) := ArtistaYTitulo(QuitarExtension(NombreDe(ruta)));
    Cancion(titulo, artista, ruta, DuracionCancion, Some(genero))
  }

  /** A file named "artist - title.ext" in a folder gives back that artist and title. */
  lemma CancionDeArchivoNombrado(carpeta: string, artista: string, titulo: string, extension: string, genero: Genero)
    requires SinBordes(artista) && SinBordes(titulo)
    requires !Contiene(artista, SeparadorArtista) && !TerminaCon(artista, " -")
    requires extension != [] && '.' !in extension
    requires Separador !in artista + SeparadorArtista + titulo + "." + extension
    ensures var c := CrearCancionDesdeRuta(RutaEn(carpeta, artista + SeparadorArtista + titulo + "." + extension), genero);
      c.artista == artista && c.titulo == titulo
  {
    var base := artista + SeparadorArtista + titulo;
    NombreDeRutaEn(carpeta, base + "." + extension);
    QuitarExtensionDe(base, extension);
    ArtistaYTituloSeparados(artista, titulo);
    RecortarSinBordes(artista);
    RecortarSinBordes(titulo);
  }

  /** crearMarcadorTiempo: the one-second pseudo-track that marks a time announcement. */
  function MarcadorTiempo(): (r: Cancion)
    ensures r.artista == ArtistaMarcador
  {
    Cancion(ArtistaMarcador, ArtistaMarcador, ".time", 1, Some(Variado))
  }

  /** The .lst writer turns every time marker into the marker line. */
  lemma MarcadorSeEscribe(d: Disco)
    ensures LineasCancion(MarcadorTiempo(), d) == [LineaMarcador]
  {
  }

  /** convertirInsercionACancion: the insertion's name as title, its type's display name as artist. */
  function ConvertirInsercionACancion(i: InsercionEspecial): (r: Cancion)
    ensures r.artista != ArtistaMarcador && r.rutaArchivo == i.rutaArchivo && r.duracion == i.duracion
  {
    NombreNoEsMarcador(i.tipo);
    Cancion(i.nombre, i.tipo.Nombre(), i.rutaArchivo, i.duracion, Some(Variado))
  }

  /** No type is displayed as the marker artist. */
  lemma NombreNoEsMarcador(t: TipoInsercion)
    ensures t.Nombre() != ArtistaMarcador
  {
    assert ArtistaMarcador[0] == 'T';
  }

  /** A woven insertion is written as a plain file entry, and only when its file exists. */
  lemma InsercionConvertidaSeEscribe(i: InsercionEspecial, d: Disco)
    ensures LineasCancion(ConvertirInsercionACancion(i), d) ==
      if i.rutaArchivo in d.tamanos then [LineaEntrada(d.tamanos[i.rutaArchivo], i.rutaArchivo)] else []
  {
    NombreNoEsMarcador(i.tipo);
  }

  function Convertidas(els: seq<InsercionEspecial>): seq<Cancion>
  {
    seq(|els|, k requires 0 <= k < |els| => ConvertirInsercionACancion(els[k]))
  }

  /** The duration of an opening or closing item: 90 seconds for either anthem, 120 for the poem,
      30 for anything else. */
  function DuracionCeremonial(tipo: TipoInsercion): nat
  {
    match tipo
    case HimnoNacional => 90
    case HimnoGuerrero => 90
    case Poema => 120
    case _ => 30
  }

  /** crearInsercionDesdeArchivo. */
  function CrearInsercionDesdeArchivo(a: Archivo, tipo: TipoInsercion): (r: InsercionEspecial)
    ensures r.tipo == tipo && r.rutaArchivo == a.ruta && r.duracion == DuracionCeremonial(tipo)
    ensures r.nombre == a.nombre || (|r.nombre| < |a.nombre| && EmpiezaCon(a.nombre, r.nombre))
  {
    InsercionEspecial(QuitarExtension(a.nombre), a.ruta, DuracionCeremonial(tipo), tipo)
  }

  // The rotators and the pattern

  const PrefijoIdentificaciones: string := "identificacion"
  const PrefijoFelicitaciones: string := "felicitacion"
  const PrefijoPromosA: string := "promoa"
  const PrefijoPromosB: string := "promob"

  /** The four rotators of the service; None for one never created. */
  datatype Rotores = Rotores(
    identificaciones: Option<Cursor>, felicitaciones: Option<Cursor>, promosA: Option<Cursor>, promosB: Option<Cursor>)

  predicate RotorValido(r: Option<Cursor>, prefijo: string)
  {
    r.Some? ==> CursorValido(r.value) && r.value.prefijo == prefijo
  }

  predicate RotoresValidos(rs: Rotores)
  {
    RotorValido(rs.identificaciones, PrefijoIdentificaciones) && RotorValido(rs.felicitaciones, PrefijoFelicitaciones)
    && RotorValido(rs.promosA, PrefijoPromosA) && RotorValido(rs.promosB, PrefijoPromosB)
  }

  /** One call of obtenerSiguiente on a rotator that may be null. */
  function Consultar(r: Option<Cursor>): (x: (Option<InsercionEspecial>, Option<Cursor>))
    requires r.Some? ==> CursorValido(r.value)
    ensures x.0.Some? <==> r.Some? && r.value.inicializado
    ensures r.None? ==> x.1.None?
    ensures r.Some? ==> (x.1.Some? && CursorValido(x.1.value) && x.1.value.prefijo == r.value.prefijo
      && x.1.value.archivos == r.value.archivos)
  {
    match r
    case None => (None, None)
    case Some(c) =>
      var (e, c2) := Siguiente(c);
      (e, Some(c2))
  }

  /** The value as a one-element sequence, or nothing. */
  function SiHay<T>(x: Option<T>): (r: seq<T>)
    ensures |r| <= 1
  {
    if x.Some? then [x.value] else []
  }

  /** 1 when the rotator exists and found files, else 0. */
  function Activo(r: Option<Cursor>): nat
  {
    if r.Some? && r.value.inicializado then 1 else 0
  }

  /** The type and duration a rotator with a fixed prefix gives its items. */
  lemma TiposDeRotores()
    ensures TipoYDuracion(PrefijoIdentificaciones) == (Identificacion, 15)
    ensures TipoYDuracion(PrefijoFelicitaciones) == (Identificacion, 20)
    ensures TipoYDuracion(PrefijoPromosA) == (Promo, 30)
    ensures TipoYDuracion(PrefijoPromosB) == (Promo, 30)
  {
    assert Minusculas(PrefijoIdentificaciones) == PrefijoIdentificaciones;
    assert Minusculas(PrefijoFelicitaciones) == PrefijoFelicitaciones;
    assert Minusculas(PrefijoPromosA) == PrefijoPromosA;
    assert Minusculas(PrefijoPromosB) == PrefijoPromosB;
  }

  /** obtenerElementosSegunPatronCorregido: at phase n, phase n mod 3 = 0 asks the identification
      and then the congratulation rotator, the other two phases promo A and then promo B; a
      missing rotator or an empty answer adds nothing. */
  function Patron(n: nat, rs: Rotores): (r: (seq<InsercionEspecial>, Rotores))
    requires RotoresValidos(rs)
    ensures RotoresValidos(r.1) && |r.0| <= 2
    ensures n % 3 == 0 ==> (r.1.promosA == rs.promosA && r.1.promosB == rs.promosB
      && |r.0| == Activo(rs.identificaciones) + Activo(rs.felicitaciones))
    ensures n % 3 != 0 ==> (r.1.identificaciones == rs.identificaciones && r.1.felicitaciones == rs.felicitaciones
      && |r.0| == Activo(rs.promosA) + Activo(rs.promosB))
  {
    if n % 3 == 0 then
      var (a, id) := Consultar(rs.identificaciones);
      var (b, fel) := Consultar(rs.felicitaciones);
      (SiHay(a) + SiHay(b), rs.(identificaciones := id, felicitaciones := fel))
    else
      var (a, pa) := Consultar(rs.promosA);
      var (b, pb) := Consultar(rs.promosB);
      (SiHay(a) + SiHay(b), rs.(promosA := pa, promosB := pb))
  }

  /** Phase 0 of each cycle of three yields identifications (15 s, then 20 s for the
      congratulation); the other two yield 30-second promos. */
  lemma PatronTipos(n: nat, rs: Rotores)
    requires RotoresValidos(rs)
    ensures forall k :: 0 <= k < |Patron(n, rs).0| ==>
      Patron(n, rs).0[k].tipo == (if n % 3 == 0 then Identificacion else Promo)
    ensures n % 3 != 0 ==> forall k :: 0 <= k < |Patron(n, rs).0| ==> Patron(n, rs).0[k].duracion == 30
    ensures n % 3 == 0 && Activo(rs.identificaciones) == 1 ==> Patron(n, rs).0[0].duracion == 15
    ensures n % 3 == 0 && Activo(rs.felicitaciones) == 1 ==> Patron(n, rs).0[|Patron(n, rs).0| - 1].duracion == 20
  {
    TiposDeRotores();
  }

  // The weaving pass

  /** insertarElementosEspecialesCorregido on one block's tracks from phase fase, stated by groups of
      three: each complete group is followed by the time marker and the converted items of the
      pattern at the current phase, and the phase advances once per group; a final group of
      fewer than three tracks is followed by nothing. The result is the new track list, the
      phase after it and the rotators after it. */
  function Tejer(cs: seq<Cancion>, fase: nat, rs: Rotores): (r: (seq<Cancion>, nat, Rotores))
    requires RotoresValidos(rs)
    ensures RotoresValidos(r.2)
    decreases |cs|
  {
    if |cs| < 3 then (cs, fase, rs)
    else
      var (els, rs1) := Patron(fase, rs);
      var (resto, fase2, rs2) := Tejer(cs[3..], fase + 1, rs1);
      (cs[..3] + [MarcadorTiempo()] + Convertidas(els) + resto, fase2, rs2)
  }

  /** The phase advances once per complete group of three, and each group gains the marker and
      at most two items. */
  lemma {:induction false} TejerMedidas(cs: seq<Cancion>, fase: nat, rs: Rotores)
    requires RotoresValidos(rs)
    ensures Tejer(cs, fase, rs).1 == fase + |cs| / 3
    ensures |cs| + |cs| / 3 <= |Tejer(cs, fase, rs).0| <= |cs| + 3 * (|cs| / 3)
    decreases |cs|
  {
    if |cs| >= 3 {
      var (els, rs1) := Patron(fase, rs);
      TejerMedidas(cs[3..], fase + 1, rs1);
      assert |cs[3..]| / 3 == |cs| / 3 - 1;
    }
  }

  /** Weaving a number of tracks that is a multiple of three and then the rest is weaving the
      whole: the pass over a block can be followed group by group. */
  lemma {:induction false} TejerUnion(a: seq<Cancion>, b: seq<Cancion>, fase: nat, rs: Rotores)
    requires RotoresValidos(rs) && |a| % 3 == 0
    ensures var (x, f1, rs1) := Tejer(a, fase, rs);
      var (y, f2, rs2) := Tejer(b, f1, rs1);
      Tejer(a + b, fase, rs) == (x + y, f2, rs2)
    decreases |a|
  {
    if a == [] {
      assert a + b == b;
      assert Tejer(a, fase, rs) == ([], fase, rs);
      var y := Tejer(b, fase, rs).0;
      assert [] + y == y;
    } else {
      var (els, rs1) := Patron(fase, rs);
      assert (a + b)[..3] == a[..3] && (a + b)[3..] == a[3..] + b;
      TejerUnion(a[3..], b, fase + 1, rs1);
      var cabeza := a[..3] + [MarcadorTiempo()] + Convertidas(els);
      var (x1, f1, r1) := Tejer(a[3..], fase + 1, rs1);
      var (y, f2, r2) := Tejer(b, f1, r1);
      assert Tejer(a[3..] + b, fase + 1, rs1) == (x1 + y, f2, r2);
      assert Tejer(a, fase, rs) == (cabeza + x1, f1, r1);
      assert Tejer(a + b, fase, rs) == (cabeza + (x1 + y), f2, r2);
      Asociar3(cabeza, x1, y);
    }
  }

  /** A block of fewer than three tracks keeps them, and neither the phase nor any rotator moves. */
  lemma TejerCorto(cs: seq<Cancion>, fase: nat, rs: Rotores)
    requires RotoresValidos(rs) && |cs| < 3
    ensures Tejer(cs, fase, rs) == (cs, fase, rs)
  {
  }

  /** The original tracks stay in the woven list, in their order. */
  lemma {:induction false} TejerConservaCanciones(cs: seq<Cancion>, fase: nat, rs: Rotores)
    requires RotoresValidos(rs)
    ensures Incluida(cs, Tejer(cs, fase, rs).0)
    decreases |cs|
  {
    if |cs| < 3 {
      IncluidaReflexiva(cs);
    } else {
      var (els, rs1) := Patron(fase, rs);
      var resto := Tejer(cs[3..], fase + 1, rs1).0;
      TejerConservaCanciones(cs[3..], fase + 1, rs1);
      var extra := [MarcadorTiempo()] + Convertidas(els);
      IncluidaTrasPrefijo(cs[3..], extra, resto);
      IncluidaComun(cs[..3], cs[3..], extra + resto);
      assert cs[..3] + cs[3..] == cs;
      assert Tejer(cs, fase, rs).0 == cs[..3] + [MarcadorTiempo()] + Convertidas(els) + resto;
      Asociar4(cs[..3], [MarcadorTiempo()], Convertidas(els), resto);
    }
  }

  /** The first group of a block of three or more: the three tracks, the marker, then the items
      of the pattern at the starting phase. */
  lemma TejerPrimerGrupo(cs: seq<Cancion>, fase: nat, rs: Rotores)
    requires RotoresValidos(rs) && |cs| >= 3
    ensures var els := Patron(fase, rs).0;
      Tejer(cs, fase, rs).0[..4 + |els|] == cs[..3] + [MarcadorTiempo()] + Convertidas(els)
  {
    var (els, rs1) := Patron(fase, rs);
    var cabeza := cs[..3] + [MarcadorTiempo()] + Convertidas(els);
    var resto := Tejer(cs[3..], fase + 1, rs1).0;
    assert Tejer(cs, fase, rs).0 == cabeza + resto;
    assert |cabeza| == 4 + |els|;
    assert (cabeza + resto)[..|cabeza|] == cabeza;
  }

  /** Weaving one more complete group after a prefix of complete groups. */
  lemma TejerGrupo(cs: seq<Cancion>, q: nat, fase: nat, rs: Rotores, t: seq<Cancion>, f: nat, r: Rotores)
    requires RotoresValidos(rs) && q % 3 == 0 && q + 3 <= |cs|
    requires Tejer(cs[..q], fase, rs) == (t, f, r)
    ensures RotoresValidos(r)
    ensures Tejer(cs[..q + 3], fase, rs) == (t + cs[q..q + 3] + [MarcadorTiempo()] + Convertidas(Patron(f, r).0), f + 1, Patron(f, r).1)
  {
    var a, b := cs[..q], cs[q..q + 3];
    assert cs[..q + 3] == a + b;
    TejerUnion(a, b, fase, rs);
    var (els, r2) := Patron(f, r);
    assert b[..3] == b && b[3..] == [];
    assert Tejer(b, f, r) == (b + [MarcadorTiempo()] + Convertidas(els) + [], f + 1, r2);
    assert b + [MarcadorTiempo()] + Convertidas(els) + [] == b + [MarcadorTiempo()] + Convertidas(els);
    Asociar4(t, b, [MarcadorTiempo()], Convertidas(els));
  }

  /** The last fewer than three tracks of a block are kept after the groups before them, and
      move neither the phase nor any rotator. */
  lemma TejerResto(cs: seq<Cancion>, q: nat, fase: nat, rs: Rotores, t: seq<Cancion>, f: nat, r: Rotores)
    requires RotoresValidos(rs) && q % 3 == 0 && q <= |cs| < q + 3
    requires Tejer(cs[..q], fase, rs) == (t, f, r)
    ensures Tejer(cs, fase, rs) == (t + cs[q..], f, r)
  {
    assert cs == cs[..q] + cs[q..];
    TejerUnion(cs[..q], cs[q..], fase, rs);
    TejerCorto(cs[q..], f, r);
  }

  /** The number of insertion points of a sequence of blocks: one per complete group of three. */
  function Puntos(bs: seq<Bloque>): nat
  {
    if bs == [] then 0 else Puntos(bs[..|bs| - 1]) + |bs[|bs| - 1].canciones| / 3
  }

  /** The weaving pass over the blocks in order, the phase and the rotators carried from one
      block to the next; every block also loses its separate insertions. */
  function TejerBloques(bs: seq<Bloque>, fase: nat, rs: Rotores): (r: (seq<Bloque>, nat, Rotores))
    requires RotoresValidos(rs)
    ensures |r.0| == |bs| && RotoresValidos(r.2)
    ensures forall i :: 0 <= i < |bs| ==> r.0[i] == bs[i].(canciones := r.0[i].canciones, inserciones := [])
  {
    if bs == [] then ([], fase, rs)
    else
      var (p, f1, rs1) := TejerBloques(bs[..|bs| - 1], fase, rs);
      var b := bs[|bs| - 1];
      var (cs, f2, rs2) := Tejer(b.canciones, f1, rs1);
      (p + [b.(canciones := cs, inserciones := [])], f2, rs2)
  }

  /** The phase advances by the number of insertion points of all the blocks. */
  lemma {:induction false} TejerBloquesFase(bs: seq<Bloque>, fase: nat, rs: Rotores)
    requires RotoresValidos(rs)
    ensures TejerBloques(bs, fase, rs).1 == fase + Puntos(bs)
  {
    if bs != [] {
      var (p, f1, rs1) := TejerBloques(bs[..|bs| - 1], fase, rs);
      TejerBloquesFase(bs[..|bs| - 1], fase, rs);
      TejerMedidas(bs[|bs| - 1].canciones, f1, rs1);
    }
  }

  /** One more block of the weaving pass: its own tracks woven from the phase and rotators the
      blocks before it left. */
  lemma TejerBloquesPaso(bs: seq<Bloque>, fase: nat, rs: Rotores, k: nat, p: seq<Bloque>, f: nat, r: Rotores)
    requires RotoresValidos(rs) && k < |bs|
    requires TejerBloques(bs[..k], fase, rs) == (p, f, r)
    ensures RotoresValidos(r)
    ensures TejerBloques(bs[..k + 1], fase, rs)
      == (p + [bs[k].(canciones := Tejer(bs[k].canciones, f, r).0, inserciones := [])],
          Tejer(bs[k].canciones, f, r).1, Tejer(bs[k].canciones, f, r).2)
  {
    assert bs[..k + 1][..k] == bs[..k];
  }

  /** Block i of the pass is the weaving of its own tracks from the phase reached by the blocks
      before it. */
  lemma {:induction false} TejerBloquesCadaUno(bs: seq<Bloque>, fase: nat, rs: Rotores, i: nat)
    requires RotoresValidos(rs) && i < |bs|
    ensures var (_, f, r) := TejerBloques(bs[..i], fase, rs);
      TejerBloques(bs, fase, rs).0[i].canciones == Tejer(bs[i].canciones, f, r).0
    decreases |bs|
  {
    if i < |bs| - 1 {
      assert bs[..|bs| - 1][..i] == bs[..i] && bs[..|bs| - 1][i] == bs[i];
      TejerBloquesCadaUno(bs[..|bs| - 1], fase, rs, i);
    } else {
      assert bs[..i] == bs[..|bs| - 1];
    }
  }

  /** After weaving no block keeps separate insertions, so the insertions of a playlist are only its
      opening and its closing. */
  lemma TejidosSinInserciones(l: Lista, fase: nat, rs: Rotores)
    requires RotoresValidos(rs)
    ensures TotalInserciones(l.(bloques := TejerBloques(l.bloques, fase, rs).0)) == |l.apertura| + |l.cierre|
  {
    SumaInsercionesVacias(TejerBloques(l.bloques, fase, rs).0);
  }

  // Block population

  /** The paths the population loop accepts from the candidates, in order: a path already used
      is skipped, and the loop stops once cupo paths were taken. */
  function Aceptadas(cands: seq<string>, usadas: set<string>, cupo: nat): (r: seq<string>)
    ensures |r| <= cupo && |r| <= |cands|
    ensures Distintos(r)
    ensures forall k :: 0 <= k < |r| ==> r[k] !in usadas && r[k] in cands
    ensures |r| < cupo ==> forall x :: x in cands ==> x in usadas || x in r
    decreases |cands|
  {
    if cands == [] || cupo == 0 then []
    else if cands[0] in usadas then
      var r := Aceptadas(cands[1..], usadas, cupo);
      assert forall x :: x in cands ==> x == cands[0] || x in cands[1..];
      r
    else
      var resto := Aceptadas(cands[1..], usadas + {cands[0]}, cupo - 1);
      var r := [cands[0]] + resto;
      assert forall x :: x in cands ==> x == cands[0] || x in cands[1..];
      assert forall k :: 1 <= k < |r| ==> r[k] == resto[k - 1];
      r
  }

  /** One step of the population loop over the candidates from position k on. */
  lemma AceptadasPaso(cands: seq<string>, usadas: set<string>, cupo: nat, k: nat)
    requires k < |cands| && cupo > 0
    ensures Aceptadas(cands[k..], usadas, cupo) ==
      if cands[k] in usadas then Aceptadas(cands[k + 1..], usadas, cupo)
      else [cands[k]] + Aceptadas(cands[k + 1..], usadas + {cands[k]}, cupo - 1)
  {
    assert cands[k..][1..] == cands[k + 1..];
  }

  function CancionesDeRutas(rutas: seq<string>, genero: Genero): seq<Cancion>
  {
    seq(|rutas|, k requires 0 <= k < |rutas| => CrearCancionDesdeRuta(rutas[k], genero))
  }

  /** One more accepted path adds its track at the end. */
  lemma CancionesDeRutasUltima(rutas: seq<string>, ruta: string, genero: Genero)
    ensures CancionesDeRutas(rutas + [ruta], genero) == CancionesDeRutas(rutas, genero) + [CrearCancionDesdeRuta(ruta, genero)]
  {
  }

  /** The paths of a sequence of tracks. */
  function RutasDe(cs: seq<Cancion>): (r: seq<string>)
    ensures |r| == |cs| && forall k :: 0 <= k < |cs| ==> r[k] == cs[k].rutaArchivo
  {
    seq(|cs|, k requires 0 <= k < |cs| => cs[k].rutaArchivo)
  }

  /** The tracks of a block keep the paths they were made from. */
  lemma RutasDeCanciones(rutas: seq<string>, genero: Genero)
    ensures RutasDe(CancionesDeRutas(rutas, genero)) == rutas
  {
  }

  /** The audio paths of a folder listing (none for a folder that does not exist), shuffled. */
  function Candidatos(carpeta: string, d: Disco, semillas: seq<nat>): seq<string>
  {
    Mezclar(if carpeta in d.carpetas then RutasAudio(carpeta, d.carpetas[carpeta]) else [], semillas)
  }

  function Elementos(s: seq<string>): set<string>
  {
    set x | x in s
  }

  /** generarContenidoBloqueConVerificacion on a block state and the set of used paths: a block
      without folder is left as it is; otherwise its tracks become those made from the accepted
      candidates (at most 15), and their paths join the used set. */
  function PoblarBloque(b: Bloque, usadas: set<string>, d: Disco, semillas: seq<nat>): (r: (Bloque, set<string>))
    ensures r.0 == b.(canciones := r.0.canciones)
    ensures b.rutaCarpeta == "" ==> r == (b, usadas)
    ensures b.rutaCarpeta != "" ==> (|r.0.canciones| <= CancionesPorHora && Distintos(RutasDe(r.0.canciones))
      && r.1 == usadas + Elementos(RutasDe(r.0.canciones))
      && forall k :: 0 <= k < |r.0.canciones| ==> r.0.canciones[k].rutaArchivo !in usadas)
    ensures b.rutaCarpeta != "" && b.rutaCarpeta !in d.carpetas ==> r.0.canciones == []
    ensures b.rutaCarpeta != "" && b.rutaCarpeta in d.carpetas ==> |r.0.canciones| <= |RutasAudio(b.rutaCarpeta, d.carpetas[b.rutaCarpeta])|
  {
    if b.rutaCarpeta == "" then (b, usadas)
    else
      var rutas := Aceptadas(Candidatos(b.rutaCarpeta, d, semillas), usadas, CancionesPorHora);
      RutasDeCanciones(rutas, b.genero);
      (b.(canciones := CancionesDeRutas(rutas, b.genero)), usadas + Elementos(rutas))
  }

  /** Each accepted path is an audio file of the block's folder. */
  lemma PoblarDeLaCarpeta(b: Bloque, usadas: set<string>, d: Disco, semillas: seq<nat>)
    requires b.rutaCarpeta != ""
    ensures forall k :: 0 <= k < |PoblarBloque(b, usadas, d, semillas).0.canciones| ==>
      PoblarBloque(b, usadas, d, semillas).0.canciones[k].rutaArchivo in RutasAudio(b.rutaCarpeta, d.carpetas[b.rutaCarpeta])
  {
    var audio := if b.rutaCarpeta in d.carpetas then RutasAudio(b.rutaCarpeta, d.carpetas[b.rutaCarpeta]) else [];
    MezclarMismosElementos(audio, semillas);
  }

  /** When fewer than 15 tracks were taken, every audio file of the folder not used before is in the block. */
  lemma PoblarCompleto(b: Bloque, usadas: set<string>, d: Disco, semillas: seq<nat>, ruta: string)
    requires b.rutaCarpeta in d.carpetas && b.rutaCarpeta != ""
    requires ruta in RutasAudio(b.rutaCarpeta, d.carpetas[b.rutaCarpeta]) && ruta !in usadas
    requires |PoblarBloque(b, usadas, d, semillas).0.canciones| < CancionesPorHora
    ensures ruta in RutasDe(PoblarBloque(b, usadas, d, semillas).0.canciones)
  {
    MezclarMismosElementos(RutasAudio(b.rutaCarpeta, d.carpetas[b.rutaCarpeta]), semillas);
  }

  /** The draws of the i-th shuffle, none when there are fewer. */
  function Mezcla(mezclas: seq<seq<nat>>, i: nat): seq<nat>
  {
    if i < |mezclas| then mezclas[i] else []
  }

  /** generarContenidoBloqueConVerificacion on every block in order, the used set carried along. */
  function PoblarBloques(bs: seq<Bloque>, usadas: set<string>, d: Disco, mezclas: seq<seq<nat>>): (r: (seq<Bloque>, set<string>))
    ensures |r.0| == |bs|
    ensures forall i :: 0 <= i < |bs| ==> r.0[i] == bs[i].(canciones := r.0[i].canciones)
    ensures usadas <= r.1
  {
    if bs == [] then ([], usadas)
    else
      var (p, u) := PoblarBloques(bs[..|bs| - 1], usadas, d, mezclas);
      var (b, u2) := PoblarBloque(bs[|bs| - 1], u, d, Mezcla(mezclas, |bs| - 1));
      (p + [b], u2)
  }

  /** One more block of the population loop: the prefix up to it, then the block populated with
      the used set the prefix left. */
  lemma PoblarBloquesPaso(bs: seq<Bloque>, usadas: set<string>, d: Disco, mezclas: seq<seq<nat>>, k: nat)
    requires k < |bs|
    ensures var (p, u) := PoblarBloques(bs[..k], usadas, d, mezclas);
      var (b, u2) := PoblarBloque(bs[k], u, d, Mezcla(mezclas, k));
      PoblarBloques(bs[..k + 1], usadas, d, mezclas) == (p + [b], u2)
  {
    assert bs[..k + 1][..k] == bs[..k];
  }

  /** All the paths of the tracks of a sequence of blocks, block after block. */
  function RutasBloques(bs: seq<Bloque>): seq<string>
  {
    Concatenar(bs, (b: Bloque) => RutasDe(b.canciones))
  }

  /** Within one generation no path is accepted twice, in one block or in two: starting from
      blocks without tracks, the paths of all blocks are distinct, none was used before, and the
      used set becomes the old one plus exactly these paths. */
  lemma {:induction false} SinRepetidas(bs: seq<Bloque>, usadas: set<string>, d: Disco, mezclas: seq<seq<nat>>)
    requires forall i :: 0 <= i < |bs| ==> bs[i].canciones == []
    ensures var (p, u) := PoblarBloques(bs, usadas, d, mezclas);
      Distintos(RutasBloques(p)) && u == usadas + Elementos(RutasBloques(p))
      && forall k :: 0 <= k < |RutasBloques(p)| ==> RutasBloques(p)[k] !in usadas
  {
    if bs != [] {
      var q := bs[..|bs| - 1];
      assert forall i :: 0 <= i < |q| ==> q[i] == bs[i];
      SinRepetidas(q, usadas, d, mezclas);
      var (p, u) := PoblarBloques(q, usadas, d, mezclas);
      var (b, u2) := PoblarBloque(bs[|bs| - 1], u, d, Mezcla(mezclas, |bs| - 1));
      assert PoblarBloques(bs, usadas, d, mezclas) == (p + [b], u2);
      RutasUltimoBloque(p, b);
      SinRepetidasPaso(RutasBloques(p), usadas, u, bs[|bs| - 1], d, Mezcla(mezclas, |bs| - 1), b, u2);
    }
  }

  lemma RutasUltimoBloque(p: seq<Bloque>, b: Bloque)
    ensures RutasBloques(p + [b]) == RutasBloques(p) + RutasDe(b.canciones)
  {
    var f := (b: Bloque) => RutasDe(b.canciones);
    ConcatenarUnion(p, [b], f);
    assert [b][..0] == [];
    assert Concatenar([b], f) == [] + f(b);
  }

  /** One step of SinRepetidas: the paths accepted for the next block extend a distinct set of used paths. */
  lemma SinRepetidasPaso(antes: seq<string>, usadas: set<string>, u: set<string>, b: Bloque, d: Disco, semillas: seq<nat>,
                         b2: Bloque, u2: set<string>)
    requires b.canciones == []
    requires Distintos(antes) && u == usadas + Elementos(antes)
    requires forall k :: 0 <= k < |antes| ==> antes[k] !in usadas
    requires (b2, u2) == PoblarBloque(b, u, d, semillas)
    ensures Distintos(antes + RutasDe(b2.canciones)) && u2 == usadas + Elementos(antes + RutasDe(b2.canciones))
    ensures forall k :: 0 <= k < |antes + RutasDe(b2.canciones)| ==> (antes + RutasDe(b2.canciones))[k] !in usadas
  {
    var nuevas := RutasDe(b2.canciones);
    if b.rutaCarpeta == "" {
      assert nuevas == [];
      assert antes + nuevas == antes;
    } else {
      assert Distintos(nuevas) && u2 == u + Elementos(nuevas);
      assert forall k :: 0 <= k < |nuevas| ==> nuevas[k] !in u;
      UnirUsadas(antes, nuevas, usadas, u);
    }
  }

  /** Appending distinct paths none of which was used before keeps the whole sequence distinct and outside the initial set. */
  lemma UnirUsadas(antes: seq<string>, nuevas: seq<string>, usadas: set<string>, u: set<string>)
    requires Distintos(antes) && Distintos(nuevas) && u == usadas + Elementos(antes)
    requires forall k :: 0 <= k < |antes| ==> antes[k] !in usadas
    requires forall k :: 0 <= k < |nuevas| ==> nuevas[k] !in u
    ensures Distintos(antes + nuevas) && u + Elementos(nuevas) == usadas + Elementos(antes + nuevas)
    ensures forall k :: 0 <= k < |antes + nuevas| ==> (antes + nuevas)[k] !in usadas
  {
    assert forall k :: 0 <= k < |antes| ==> antes[k] in u;
    DistintosUnion(antes, nuevas);
    assert Elementos(antes + nuevas) == Elementos(antes) + Elementos(nuevas);
  }

  lemma DistintosUnion(a: seq<string>, b: seq<string>)
    requires Distintos(a) && Distintos(b)
    requires forall i, j :: 0 <= i < |a| && 0 <= j < |b| ==> a[i] != b[j]
    ensures Distintos(a + b)
  {
    var c := a + b;
    forall i, j | 0 <= i < j < |c| ensures c[i] != c[j] {
      if j < |a| {
        assert c[i] == a[i] && c[j] == a[j];
      } else if i >= |a| {
        assert c[i] == b[i - |a|] && c[j] == b[j - |a|];
      } else {
        assert c[i] == a[i] && c[j] == b[j - |a|];
      }
    }
  }

  // Opening and closing

  /** A listing entry that obtenerElementoPorIdentificador accepts for an identifier: a regular
      file whose name starts with it and has an audio extension. */
  predicate Coincide(id: string, e: Entrada)
  {
    e.esArchivo && EmpiezaCon(e.nombre, id) && EsArchivoAudio(e.nombre)
  }

  function Filtro(id: string): Entrada -> bool
  {
    (e: Entrada) => Coincide(id, e)
  }

  /** The accepted files of a folder listing, in listing order. */
  function Coincidencias(id: string, carpeta: string, es: seq<Entrada>): (r: seq<Archivo>)
    ensures |r| <= |es|
  {
    var f := Filtrar(es, Filtro(id));
    seq(|f|, k requires 0 <= k < |f| => ArchivoDe(carpeta, f[k]))
  }

  /** Every match is an accepted entry of the listing, placed in the folder. */
  lemma CoincidenciaDeLaCarpeta(id: string, carpeta: string, es: seq<Entrada>, k: nat)
    requires k < |Coincidencias(id, carpeta, es)|
    ensures exists j :: 0 <= j < |es| && Coincide(id, es[j]) && Coincidencias(id, carpeta, es)[k] == ArchivoDe(carpeta, es[j])
  {
    var f := Filtrar(es, Filtro(id));
    var r := Coincidencias(id, carpeta, es);
    assert Filtro(id)(f[k]) && r[k] == ArchivoDe(carpeta, f[k]);
    assert f[k] in multiset(es);
    var j :| 0 <= j < |es| && es[j] == f[k];
    assert Coincide(id, es[j]) && r[k] == ArchivoDe(carpeta, es[j]);
  }

  /** Every accepted entry is among the matches, so there are none exactly when no entry is accepted. */
  lemma CoincidenciasCompletas(id: string, carpeta: string, es: seq<Entrada>)
    ensures forall j :: 0 <= j < |es| && Coincide(id, es[j]) ==> ArchivoDe(carpeta, es[j]) in Coincidencias(id, carpeta, es)
    ensures Coincidencias(id, carpeta, es) == [] <==> forall j :: 0 <= j < |es| ==> !Coincide(id, es[j])
  {
    var p := Filtro(id);
    var f := Filtrar(es, p);
    forall j | 0 <= j < |es| && Coincide(id, es[j]) ensures ArchivoDe(carpeta, es[j]) in Coincidencias(id, carpeta, es) {
      FiltrarCompleto(es, p, j);
      var k :| 0 <= k < |f| && f[k] == es[j];
      assert Coincidencias(id, carpeta, es)[k] == ArchivoDe(carpeta, es[j]);
    }
    if f != [] {
      assert Filtro(id)(f[0]) && f[0] in multiset(es);
      var j :| 0 <= j < |es| && es[j] == f[0];
      assert Coincide(id, es[j]);
    }
  }

  /** Some accepted file for the identifier exists in the folder. */
  predicate Presente(id: string, carpeta: string, d: Disco)
  {
    carpeta in d.carpetas && exists j :: 0 <= j < |d.carpetas[carpeta]| && Coincide(id, d.carpetas[carpeta][j])
  }

  /** obtenerElementoPorIdentificador: nothing for a missing folder or one without an accepted
      file; otherwise the insertion of the given type made from the file the draw picks among the
      accepted ones. */
  function ObtenerElementoPorIdentificador(id: string, tipo: TipoInsercion, carpeta: string, d: Disco, semilla: nat): (r: Option<InsercionEspecial>)
    ensures r.Some? ==> r.value.tipo == tipo && r.value.duracion == DuracionCeremonial(tipo)
  {
    if carpeta !in d.carpetas then None
    else
      var archivos := Coincidencias(id, carpeta, d.carpetas[carpeta]);
      if archivos == [] then None
      else Some(CrearInsercionDesdeArchivo(archivos[Elegir(semilla, |archivos|)], tipo))
  }

  /** An element is found exactly when an accepted file is present, and it is made from one of them. */
  lemma ElementoPresente(id: string, tipo: TipoInsercion, carpeta: string, d: Disco, semilla: nat)
    ensures ObtenerElementoPorIdentificador(id, tipo, carpeta, d, semilla).Some? <==> Presente(id, carpeta, d)
    ensures ObtenerElementoPorIdentificador(id, tipo, carpeta, d, semilla).Some? ==>
      exists j :: 0 <= j < |d.carpetas[carpeta]| && Coincide(id, d.carpetas[carpeta][j])
        && ObtenerElementoPorIdentificador(id, tipo, carpeta, d, semilla).value
          == CrearInsercionDesdeArchivo(ArchivoDe(carpeta, d.carpetas[carpeta][j]), tipo)
  {
    if carpeta in d.carpetas {
      var es := d.carpetas[carpeta];
      var archivos := Coincidencias(id, carpeta, es);
      CoincidenciasCompletas(id, carpeta, es);
      if archivos != [] {
        CoincidenciaDeLaCarpeta(id, carpeta, es, Elegir(semilla, |archivos|));
      }
    }
  }

  /** One ceremonial slot: the insertion obtenerElementoPorIdentificador finds, if any; there
      is one exactly when an accepted file is present. */
  function Hueco(id: string, tipo: TipoInsercion, carpeta: string, d: Disco, semilla: nat): (r: seq<InsercionEspecial>)
    ensures |r| == (if Presente(id, carpeta, d) then 1 else 0)
    ensures r != [] ==> r[0].tipo == tipo
  {
    ElementoPresente(id, tipo, carpeta, d, semilla);
    SiHay(ObtenerElementoPorIdentificador(id, tipo, carpeta, d, semilla))
  }

  /** The position of a ceremonial type in the opening. */
  function Orden(t: TipoInsercion): int
  {
    match t
    case HimnoNacional => 0
    case HimnoGuerrero => 1
    case Poema => 2
    case _ => 3
  }

  function OrdenApertura(x: InsercionEspecial): int
  {
    Orden(x.tipo)
  }

  function OrdenCierre(x: InsercionEspecial): int
  {
    -Orden(x.tipo)
  }

  /** Anthem, anthem and poem, at most one of each, are in opening order one way and in closing order the other. */
  lemma CeremoniaEnOrden(a: seq<InsercionEspecial>, b: seq<InsercionEspecial>, c: seq<InsercionEspecial>)
    requires |a| <= 1 && |b| <= 1 && |c| <= 1
    requires a != [] ==> a[0].tipo == HimnoNacional
    requires b != [] ==> b[0].tipo == HimnoGuerrero
    requires c != [] ==> c[0].tipo == Poema
    ensures Creciente(a + b + c, OrdenApertura)
    ensures Creciente(c + b + a, OrdenCierre)
  {
    CrecienteTres(a, b, c, OrdenApertura);
    CrecienteTres(c, b, a, OrdenCierre);
  }

  /** generarApertura: national anthem ("01"), state anthem ("02") and poem ("03"), each only
      when present, one draw for each. */
  function Apertura(carpeta: string, d: Disco, semillas: seq<nat>): (r: seq<InsercionEspecial>)
    ensures |r| == (if Presente("01", carpeta, d) then 1 else 0) + (if Presente("02", carpeta, d) then 1 else 0)
      + (if Presente("03", carpeta, d) then 1 else 0)
    ensures Creciente(r, OrdenApertura)
  {
    var a := Hueco("01", HimnoNacional, carpeta, d, Semilla(semillas, 0));
    var b := Hueco("02", HimnoGuerrero, carpeta, d, Semilla(semillas, 1));
    var c := Hueco("03", Poema, carpeta, d, Semilla(semillas, 2));
    CeremoniaEnOrden(a, b, c);
    a + b + c
  }

  /** generarCierre: the same three in reverse order, poem first, each with a draw of its own. */
  function Cierre(carpeta: string, d: Disco, semillas: seq<nat>): (r: seq<InsercionEspecial>)
    ensures |r| == (if Presente("01", carpeta, d) then 1 else 0) + (if Presente("02", carpeta, d) then 1 else 0)
      + (if Presente("03", carpeta, d) then 1 else 0)
    ensures Creciente(r, OrdenCierre)
  {
    var c := Hueco("03", Poema, carpeta, d, Semilla(semillas, 0));
    var b := Hueco("02", HimnoGuerrero, carpeta, d, Semilla(semillas, 1));
    var a := Hueco("01", HimnoNacional, carpeta, d, Semilla(semillas, 2));
    CeremoniaEnOrden(a, b, c);
    c + b + a
  }

  /** With the draws taken in the opposite order, the closing is the opening reversed. */
  lemma CierreInvertido(carpeta: string, d: Disco, x1: nat, x2: nat, x3: nat)
    ensures Cierre(carpeta, d, [x3, x2, x1]) == Invertida(Apertura(carpeta, d, [x1, x2, x3]))
  {
    var a := Hueco("01", HimnoNacional, carpeta, d, x1);
    var b := Hueco("02", HimnoGuerrero, carpeta, d, x2);
    var c := Hueco("03", Poema, carpeta, d, x3);
    assert Semilla([x1, x2, x3], 0) == x1 && Semilla([x1, x2, x3], 1) == x2 && Semilla([x1, x2, x3], 2) == x3;
    assert Semilla([x3, x2, x1], 0) == x3 && Semilla([x3, x2, x1], 1) == x2 && Semilla([x3, x2, x1], 2) == x1;
    assert Apertura(carpeta, d, [x1, x2, x3]) == a + b + c;
    assert Cierre(carpeta, d, [x3, x2, x1]) == c + b + a;
    InvertidaTres(a, b, c);
  }

  // Configuration and the whole generation

  /** ConfiguracionBloque: one block's start, end, genre and folder ("" for none). */
  datatype ConfiguracionBloque = ConfiguracionBloque(horaInicio: Hora, horaFin: Hora, genero: Genero, rutaCarpeta: string)

  /** The block configurarBloques makes from one configuration: no tracks, no insertions, a
      tolerance of 5 minutes. */
  function BloqueDeConfiguracion(c: ConfiguracionBloque): Bloque
  {
    Bloque(c.horaInicio, c.horaFin, c.genero, c.rutaCarpeta, [], [], ToleranciaMinutosDefault)
  }

  function BloquesDeConfiguracion(cfg: seq<ConfiguracionBloque>): seq<Bloque>
  {
    seq(|cfg|, i requires 0 <= i < |cfg| => BloqueDeConfiguracion(cfg[i]))
  }

  /** crearConfiguracionEstandar: thirteen one-hour blocks from 07:00, genre Variado, no folder. */
  function ConfiguracionEstandar(): seq<ConfiguracionBloque>
  {
    seq(13, i requires 0 <= i < 13 => ConfiguracionBloque(DeHM(7 + i, 0), DeHM(8 + i, 0), Variado, ""))
  }

  /** The standard configuration covers 07:00 to 20:00 without gaps, every block an hour long. */
  lemma ConfiguracionEstandarContigua()
    ensures |ConfiguracionEstandar()| == 13
    ensures ConfiguracionEstandar()[0].horaInicio == DeHM(7, 0) && ConfiguracionEstandar()[12].horaFin == DeHM(20, 0)
    ensures forall i :: 0 <= i < 12 ==> ConfiguracionEstandar()[i].horaFin == ConfiguracionEstandar()[i + 1].horaInicio
    ensures forall i :: 0 <= i < 13 ==> ConfiguracionEstandar()[i].horaFin - ConfiguracionEstandar()[i].horaInicio == 3600
  {
  }

  /** The folders of the service: ceremonial elements and the four rotators ("" for an unset one). */
  datatype Rutas = Rutas(
    elementosEspeciales: string, identificaciones: string, felicitaciones: string, promosA: string, promosB: string)

  /** One rotator after inicializarRotadores: a new one over its folder when the folder is set,
      otherwise the one kept from before (possibly none). */
  function RotorIniciado(r: Option<Cursor>, ruta: string, prefijo: string, d: Disco, semilla: nat): (x: Option<Cursor>)
    ensures RotorValido(r, prefijo) ==> RotorValido(x, prefijo)
    ensures ruta != "" ==> x.Some? && x.value == CursorInicial(ruta, prefijo, d, semilla)
    ensures ruta == "" ==> x == r
  {
    if ruta != "" then Some(CursorInicial(ruta, prefijo, d, semilla)) else r
  }

  function RotoresIniciales(rs: Rotores, rutas: Rutas, d: Disco, semillas: seq<nat>): (r: Rotores)
    ensures RotoresValidos(rs) ==> RotoresValidos(r)
  {
    Rotores(
      RotorIniciado(rs.identificaciones, rutas.identificaciones, PrefijoIdentificaciones, d, Semilla(semillas, 0)),
      RotorIniciado(rs.felicitaciones, rutas.felicitaciones, PrefijoFelicitaciones, d, Semilla(semillas, 1)),
      RotorIniciado(rs.promosA, rutas.promosA, PrefijoPromosA, d, Semilla(semillas, 2)),
      RotorIniciado(rs.promosB, rutas.promosB, PrefijoPromosB, d, Semilla(semillas, 3)))
  }

  /** The draws of one generation: the starts of the four rotators, the opening's three picks, one
      shuffle per block, the closing's three picks. */
  datatype Sorteos = Sorteos(rotadores: seq<nat>, apertura: seq<nat>, mezclas: seq<seq<nat>>, cierre: seq<nat>)

  /** The blocks of a generation right after population, with the used paths. */
  function Poblados(cfg: seq<ConfiguracionBloque>, d: Disco, az: Sorteos): (seq<Bloque>, set<string>)
  {
    PoblarBloques(BloquesDeConfiguracion(cfg), {}, d, az.mezclas)
  }

  /** generarListaCompleta: a new playlist for the date, the used set cleared, the rotators
      initialised, one block per configuration, the opening, every block populated, the pattern
      woven in with one counter for the whole day, and the closing. Returns the playlist, the
      rotators and the used paths the service keeps. The rotators given are those the service
      already holds. */
  function ListaGenerada(fecha: Fecha, cfg: seq<ConfiguracionBloque>, rutas: Rutas, rs0: Rotores, d: Disco, az: Sorteos): (r: (Lista, Rotores, set<string>))
    requires RotoresValidos(rs0)
    ensures RotoresValidos(r.1)
    ensures r.0.fecha == fecha && r.0.horaInicio == DeHM(7, 0) && r.0.horaFin == DeHM(20, 7) && r.0.rutaArchivoLst == None
    ensures r.0.apertura == Apertura(rutas.elementosEspeciales, d, az.apertura)
    ensures r.0.cierre == Cierre(rutas.elementosEspeciales, d, az.cierre)
    ensures |r.0.bloques| == |cfg|
    ensures forall i :: 0 <= i < |cfg| ==> r.0.bloques[i] == BloqueDeConfiguracion(cfg[i]).(canciones := r.0.bloques[i].canciones)
  {
    var rs := RotoresIniciales(rs0, rutas, d, az.rotadores);
    var apertura := Apertura(rutas.elementosEspeciales, d, az.apertura);
    var (pobladas, usadas) := Poblados(cfg, d, az);
    var (tejidas, _, rs2) := TejerBloques(pobladas, 0, rs);
    var cierre := Cierre(rutas.elementosEspeciales, d, az.cierre);
    (Lista(fecha, DeHM(7, 0), DeHM(20, 7), tejidas, apertura, cierre, None), rs2, usadas)
  }

  /** ListaGenerada assembled from its stages: the rotators initialised, the populated blocks
      with their used paths, and the weaving from phase 0. */
  lemma ListaGeneradaPartes(fecha: Fecha, cfg: seq<ConfiguracionBloque>, rutas: Rutas, rs0: Rotores, d: Disco, az: Sorteos,
                            rs: Rotores, poblados: seq<Bloque>, usadas: set<string>)
    requires RotoresValidos(rs0)
    requires rs == RotoresIniciales(rs0, rutas, d, az.rotadores)
    requires (poblados, usadas) == Poblados(cfg, d, az)
    ensures ListaGenerada(fecha, cfg, rutas, rs0, d, az)
      == (Lista(fecha, DeHM(7, 0), DeHM(20, 7), TejerBloques(poblados, 0, rs).0, Apertura(rutas.elementosEspeciales, d, az.apertura),
                Cierre(rutas.elementosEspeciales, d, az.cierre), None),
          TejerBloques(poblados, 0, rs).2, usadas)
  {
  }

  /** The insertions of a generated playlist are only its opening and closing (at most six). */
  lemma GeneradaInserciones(fecha: Fecha, cfg: seq<ConfiguracionBloque>, rutas: Rutas, rs0: Rotores, d: Disco, az: Sorteos)
    requires RotoresValidos(rs0)
    ensures var l := ListaGenerada(fecha, cfg, rutas, rs0, d, az).0;
      TotalInserciones(l) == |l.apertura| + |l.cierre| && TotalInserciones(l) <= 6
  {
    var l := ListaGenerada(fecha, cfg, rutas, rs0, d, az).0;
    SumaInsercionesVacias(l.bloques);
  }

  /** No song path is used twice in a day: the populated blocks' paths are distinct, the used set
      the service keeps is exactly those paths, and every block of the playlist keeps its
      populated songs in order. */
  lemma GeneradaSinRepetidas(fecha: Fecha, cfg: seq<ConfiguracionBloque>, rutas: Rutas, rs0: Rotores, d: Disco, az: Sorteos)
    requires RotoresValidos(rs0)
    ensures var (p, u) := Poblados(cfg, d, az);
      var (l, _, usadas) := ListaGenerada(fecha, cfg, rutas, rs0, d, az);
      Distintos(RutasBloques(p)) && usadas == Elementos(RutasBloques(p)) && |p| == |l.bloques|
      && forall i :: 0 <= i < |p| ==> Incluida(p[i].canciones, l.bloques[i].canciones)
  {
    var bs := BloquesDeConfiguracion(cfg);
    SinRepetidas(bs, {}, d, az.mezclas);
    var (p, u) := Poblados(cfg, d, az);
    var rs := RotoresIniciales(rs0, rutas, d, az.rotadores);
    forall i | 0 <= i < |p| ensures Incluida(p[i].canciones, TejerBloques(p, 0, rs).0[i].canciones) {
      TejerBloquesCadaUno(p, 0, rs, i);
      var (_, f, r) := TejerBloques(p[..i], 0, rs);
      TejerConservaCanciones(p[i].canciones, f, r);
    }
  }
}
