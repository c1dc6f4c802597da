// The ZaraRadio .lst serialiser and the configuration export: the exact lines written
// for a playlist, the output file name, and the audio-file listing of a folder.
// A written file is a sequence of lines, each ended by "\n"; the .lst text is
// prefixed with a byte-order mark.
module Archivos {
  import opened Opcionales
  import opened Texto
  import opened Tiempo
  import opened SistemaArchivos
  import opened Secuencias
  import opened Generos
  import opened Canciones
  import opened InsercionesEspeciales
  import opened BloquesHora
  import opened ListasReproduccion

  const ExtensionLst: string := ".lst"

  /** The byte-order mark written before anything else. */
  const Bom: char := '\U{FEFF}'

  /** The whole line written for a time marker. */
  const LineaMarcador: string := "-1 .time"

  // File names

  /** The file actually written: the destination itself when it ends with ".lst"
      (case-sensitive), otherwise the destination followed by "_yyyy-MM-dd.lst". */
  function NombreArchivoLst(ruta: string, fecha: Fecha): (r: string)
    ensures TerminaCon(r, ExtensionLst) && EmpiezaCon(r, ruta)
    ensures r == ruta <==> TerminaCon(ruta, ExtensionLst)
  {
    if TerminaCon(ruta, ExtensionLst) then ruta
    else
      var r := ruta + "_" + FormatoFecha(fecha) + ExtensionLst;
      assert r[|r| - 4..] == ExtensionLst;
      r
  }

  /** esArchivoLst: not null, and ".lst" at the end whatever the letter case. */
  predicate EsArchivoLst(ruta: Option<string>)
  {
    ruta.Some? && TerminaCon(Minusculas(ruta.value), ExtensionLst)
  }

  /** Naming the output twice changes nothing, and the name is always accepted as a .lst file. */
  lemma NombreArchivoLstEstable(ruta: string, fecha: Fecha, otra: Fecha)
    ensures NombreArchivoLst(NombreArchivoLst(ruta, fecha), otra) == NombreArchivoLst(ruta, fecha)
    ensures EsArchivoLst(Some(NombreArchivoLst(ruta, fecha)))
  {
    var r := NombreArchivoLst(ruta, fecha);
    assert TerminaCon(r, ExtensionLst);
    LstEnMinusculas(r);
  }

  /** Lower-casing keeps a ".lst" ending, which has no capital letters. */
  lemma LstEnMinusculas(r: string)
    requires TerminaCon(r, ExtensionLst)
    ensures EsArchivoLst(Some(r))
  {
    var m := Minusculas(r);
    var n := |r|;
    forall k | n - 4 <= k < n ensures m[k] == r[k] {
      assert r[k] == ExtensionLst[k - (n - 4)];
    }
    assert m[n - 4..] == r[n - 4..];
  }

  /** The .lst test ignores letter case and rejects null. */
  lemma EsArchivoLstSinMayusculas(ruta: string)
    ensures EsArchivoLst(Some(Minusculas(ruta))) == EsArchivoLst(Some(ruta))
    ensures !EsArchivoLst(None)
  {
    var m := Minusculas(ruta);
    assert Minusculas(m) == m;
  }

  // Audio listing

  /** The absolute paths of the entries of a listing whose name has an audio extension,
      in listing order (folders with such a name included: the filter looks at names only). */
  function RutasAudio(carpeta: string, es: seq<Entrada>): (r: seq<string>)
    ensures |r| <= |es|
    ensures forall k :: 0 <= k < |r| ==> exists i :: 0 <= i < |es| && EsArchivoAudio(es[i].nombre) && r[k] == RutaEn(carpeta, es[i].nombre)
  {
    if es == [] then []
    else
      var p := RutasAudio(carpeta, es[..|es| - 1]);
      var e := es[|es| - 1];
      if EsArchivoAudio(e.nombre) then p + [RutaEn(carpeta, e.nombre)] else p
  }

  /** Every audio entry of the listing is reported. */
  lemma {:induction false} RutasAudioCompletas(carpeta: string, es: seq<Entrada>, i: nat)
    requires i < |es| && EsArchivoAudio(es[i].nombre)
    ensures RutaEn(carpeta, es[i].nombre) in RutasAudio(carpeta, es)
  {
    if i < |es| - 1 {
      assert es[..|es| - 1][i] == es[i];
      RutasAudioCompletas(carpeta, es[..|es| - 1], i);
    }
  }

  /** obtenerArchivosAudio: nothing for a folder that does not exist, otherwise the audio paths of its listing. */
  method ObtenerArchivosAudio(rutaCarpeta: string, d: Disco) returns (archivos: seq<string>)
    ensures rutaCarpeta !in d.carpetas ==> archivos == []
    ensures rutaCarpeta in d.carpetas ==> archivos == RutasAudio(rutaCarpeta, d.carpetas[rutaCarpeta])
  {
    archivos := [];
    if rutaCarpeta !in d.carpetas {
      return;
    }
    var lista := d.carpetas[rutaCarpeta];
    for k := 0 to |lista|
      invariant archivos == RutasAudio(rutaCarpeta, lista[..k])
    {
      assert lista[..k + 1][..k] == lista[..k];
      if EsArchivoAudio(lista[k].nombre) {
        archivos := archivos + [RutaEn(rutaCarpeta, lista[k].nombre)];
      }
    }
    assert lista[..|lista|] == lista;
  }

  // The lines of a .lst file

  /** The size of a file, 0 when it does not exist. */
  function Tamano(ruta: string, d: Disco): nat
  {
    if ruta in d.tamanos then d.tamanos[ruta] else 0
  }

  /** A file entry: its size in bytes, a space, its path. */
  function LineaEntrada(tamano: nat, ruta: string): string
  {
    NatATexto(tamano) + " " + ruta
  }

  /** The five header lines and the blank line after them. */
  function LineasCabecera(l: Lista): seq<string>
  {
    [ "#ZaraRadio List File",
      "#Generated by Generador de Listas",
      "#Date: " + FormatoFecha(l.fecha),
      "#Start: " + FormatoHMS(l.horaInicio),
      "#End: " + FormatoHMS(l.horaFin),
      "" ]
  }

  /** A track whose entry will be written: a time marker, or a path that exists. */
  predicate Escribible(c: Cancion, d: Disco)
  {
    c.artista == ArtistaMarcador || c.rutaArchivo in d.tamanos
  }

  /** A track whose path names a folder (a folder named like an audio file, which the audio
      listing does not exclude) is written like a file: exists() holds for a folder. */
  lemma CarpetaSeEscribe(c: Cancion, d: Disco)
    requires DiscoCoherente(d) && c.rutaArchivo in d.carpetas
    ensures Escribible(c, d) && |LineasCancion(c, d)| == 1
  {
  }

  /** The lines of one track: the marker line for any track whose artist is the marker,
      nothing for a missing file, otherwise its entry. */
  function LineasCancion(c: Cancion, d: Disco): (r: seq<string>)
    ensures |r| == 1 <==> Escribible(c, d)
    ensures |r| <= 1
    ensures c.artista == ArtistaMarcador ==> r == [LineaMarcador]
  {
    if c.artista == ArtistaMarcador then [LineaMarcador]
    else if c.rutaArchivo !in d.tamanos then []
    else [LineaEntrada(d.tamanos[c.rutaArchivo], c.rutaArchivo)]
  }

  function LineasCanciones(cs: seq<Cancion>, d: Disco): seq<string>
  {
    Concatenar(cs, c => LineasCancion(c, d))
  }

  /** The two lines of an insertion: the comment "#type: name", then its entry (size 0 when the file is missing). */
  function LineasInsercion(i: InsercionEspecial, d: Disco): seq<string>
  {
    ["#" + i.tipo.Nombre() + ": " + i.nombre, LineaEntrada(Tamano(i.rutaArchivo, d), i.rutaArchivo)]
  }

  function LineasInserciones(ins: seq<InsercionEspecial>, d: Disco): seq<string>
  {
    Concatenar(ins, i => LineasInsercion(i, d))
  }

  /** The comment that opens a block. */
  function CabeceraBloque(b: Bloque): string
  {
    "#Bloque: " + FormatoHMS(b.horaInicio) + " - " + FormatoHMS(b.horaFin) + " (" + b.genero.Nombre() + ")"
  }

  /** A block: its comment, its tracks, its insertions, a blank line. */
  function LineasBloque(b: Bloque, d: Disco): seq<string>
  {
    [CabeceraBloque(b)] + LineasCanciones(b.canciones, d) + LineasInserciones(b.inserciones, d) + [""]
  }

  function LineasBloques(bs: seq<Bloque>, d: Disco): seq<string>
  {
    Concatenar(bs, b => LineasBloque(b, d))
  }

  /** The lines of the .lst file: header, opening, every block in order, closing. */
  function ContenidoLst(l: Lista, d: Disco): seq<string>
  {
    LineasCabecera(l) + LineasInserciones(l.apertura, d) + LineasBloques(l.bloques, d) + LineasInserciones(l.cierre, d)
  }

  /** The text of a file made of these lines, each ended by a line feed. */
  function Unir(ls: seq<string>): string
  {
    if ls == [] then "" else Unir(ls[..|ls| - 1]) + ls[|ls| - 1] + "\n"
  }

  /** The text of the .lst file: the byte-order mark, then the lines. */
  function TextoLst(l: Lista, d: Disco): string
  {
    [Bom] + Unir(ContenidoLst(l, d))
  }

  // The writer, appending to a buffer of lines as the BufferedWriter does

  method EscribirCabeceraLst(lineas: seq<string>, lista: ListaReproduccion) returns (r: seq<string>)
    ensures r == lineas + LineasCabecera(lista.Valor())
  {
    var fecha := "#Date: " + FormatoFecha(lista.fecha);
    var inicio := "#Start: " + FormatoHMS(lista.horaInicio);
    var fin := "#End: " + FormatoHMS(lista.horaFin);
    ghost var v := lista.Valor();
    assert v.fecha == lista.fecha && v.horaInicio == lista.horaInicio && v.horaFin == lista.horaFin;
    r := lineas + ["#ZaraRadio List File", "#Generated by Generador de Listas", fecha, inicio, fin, ""];
  }

  method EscribirCancionLst(lineas: seq<string>, c: Cancion, d: Disco) returns (r: seq<string>)
    ensures r == lineas + LineasCancion(c, d)
  {
    if c.artista == ArtistaMarcador {
      return lineas + [LineaMarcador];
    }
    if c.rutaArchivo !in d.tamanos {
      return lineas;
    }
    var peso := Tamano(c.rutaArchivo, d);
    r := lineas + [NatATexto(peso) + " " + c.rutaArchivo];
  }

  method EscribirInserciones(lineas: seq<string>, ins: seq<InsercionEspecial>, d: Disco) returns (r: seq<string>)
    ensures r == lineas + LineasInserciones(ins, d)
  {
    r := lineas;
    for k := 0 to |ins|
      invariant r == lineas + LineasInserciones(ins[..k], d)
    {
      ConcatenarUltimo(ins, k, i => LineasInsercion(i, d));
      var i := ins[k];
      r := r + ["#" + i.tipo.Nombre() + ": " + i.nombre];
      var peso := Tamano(i.rutaArchivo, d);
      r := r + [NatATexto(peso) + " " + i.rutaArchivo];
    }
    assert ins[..|ins|] == ins;
  }

  method EscribirBloqueHora(lineas: seq<string>, bloque: BloqueHora, d: Disco) returns (r: seq<string>)
    ensures r == lineas + LineasBloque(bloque.Valor(), d)
  {
    ghost var b := bloque.Valor();
    ghost var cabecera := [CabeceraBloque(b)];
    r := lineas + ["#Bloque: " + FormatoHMS(bloque.horaInicio) + " - " + FormatoHMS(bloque.horaFin) + " (" + bloque.genero.Nombre() + ")"];
    assert r == lineas + cabecera;
    r := EscribirCancionesLst(r, bloque.canciones, d);
    ghost var x := LineasCanciones(b.canciones, d);
    r := EscribirInserciones(r, bloque.inserciones, d);
    ghost var y := LineasInserciones(b.inserciones, d);
    r := r + [""];
    assert r == lineas + cabecera + x + y + [""];
    Asociar(lineas, cabecera, x, y, [""]);
  }

  /** The loop of escribirBloqueHora over the block's tracks. */
  method EscribirCancionesLst(lineas: seq<string>, cs: seq<Cancion>, d: Disco) returns (r: seq<string>)
    ensures r == lineas + LineasCanciones(cs, d)
  {
    r := lineas;
    for k := 0 to |cs|
      invariant r == lineas + LineasCanciones(cs[..k], d)
    {
      ConcatenarUltimo(cs, k, c => LineasCancion(c, d));
      r := EscribirCancionLst(r, cs[k], d);
    }
    assert cs[..|cs|] == cs;
  }

  /** The loop of guardarListaLst over the blocks, in list order. */
  method EscribirBloques(lineas: seq<string>, bs: seq<BloqueHora>, d: Disco) returns (r: seq<string>)
    ensures r == lineas + LineasBloques(EstadosDe(bs), d)
  {
    ghost var estados := EstadosDe(bs);
    r := lineas;
    for k := 0 to |bs|
      invariant r == lineas + LineasBloques(estados[..k], d)
    {
      ConcatenarUltimo(estados, k, b => LineasBloque(b, d));
      assert estados[k] == bs[k].Valor();
      Asociar3(lineas, LineasBloques(estados[..k], d), LineasBloque(estados[k], d));
      r := EscribirBloqueHora(r, bs[k], d);
    }
    assert estados[..|bs|] == estados;
  }

  /** The lines escribirCabeceraLst, escribirInserciones and escribirBloqueHora put in the file, in order. */
  method EscribirContenidoLst(lista: ListaReproduccion, d: Disco) returns (lineas: seq<string>)
    ensures lineas == ContenidoLst(lista.Valor(), d)
  {
    ghost var l := lista.Valor();
    assert l.apertura == lista.apertura && l.cierre == lista.cierre && l.bloques == EstadosDe(lista.bloques);
    lineas := EscribirCabeceraLst([], lista);
    ghost var c := lineas;
    lineas := EscribirInserciones(lineas, lista.apertura, d);
    ghost var x := lineas;
    lineas := EscribirBloques(lineas, lista.bloques, d);
    ghost var y := lineas;
    lineas := EscribirInserciones(lineas, lista.cierre, d);
    assert c == LineasCabecera(l);
    assert x == LineasCabecera(l) + LineasInserciones(l.apertura, d);
    assert y == LineasCabecera(l) + LineasInserciones(l.apertura, d) + LineasBloques(l.bloques, d);
  }

  /** Where a save's IOException arises, if anywhere: nowhere, while opening the file or writing
      to it, or while closing it (the buffered writer's final flush). */
  datatype Escritura = Completa | FalloAlEscribir | FalloAlCerrar

  /** guardarListaLst: the output name and the text handed to the writer. The playlist records
      the name once everything is written, before the writer is closed: a failure while writing
      leaves the playlist as it was, a failure at close returns false with the name recorded. */
  method GuardarListaLst(lista: ListaReproduccion, rutaDestino: string, d: Disco, escritura: Escritura)
    returns (ok: bool, nombreArchivo: string, texto: string)
    modifies lista
    ensures ok <==> escritura == Completa
    ensures nombreArchivo == NombreArchivoLst(rutaDestino, old(lista.fecha))
    ensures escritura != FalloAlEscribir ==> texto == TextoLst(old(lista.Valor()), d)
    ensures escritura != FalloAlEscribir ==> lista.Valor() == old(lista.Valor()).(rutaArchivoLst := Some(nombreArchivo))
    ensures escritura == FalloAlEscribir ==> lista.Valor() == old(lista.Valor())
  {
    nombreArchivo := rutaDestino;
    if !TerminaCon(nombreArchivo, ExtensionLst) {
      nombreArchivo := nombreArchivo + "_" + FormatoFecha(lista.fecha) + ExtensionLst;
    }
    if escritura == FalloAlEscribir {
      return false, nombreArchivo, "";
    }
    var lineas := EscribirContenidoLst(lista, d);
    texto := [Bom] + Unir(lineas);
    lista.SetRutaArchivoLst(nombreArchivo);
    ok := escritura == Completa;
  }

  // Reading the lines back

  /** A reference reader for a file entry: the digits before the first space are the size,
      the rest of the line is the path. */
  function LeerEntrada(linea: string): Option<(nat, string)>
  {
    match IndiceDe(linea, " ")
    case None => None
    case Some(i) => if i > 0 && SoloDigitos(linea[..i]) then Some((ValorDecimal(linea[..i]), linea[i + 1..])) else None
  }

  /** An entry line reads back as the size and path it was written from. */
  lemma LeerLineaEntrada(tamano: nat, ruta: string)
    ensures LeerEntrada(LineaEntrada(tamano, ruta)) == Some((tamano, ruta))
  {
    var n := NatATexto(tamano);
    assert forall k :: 0 <= k < |n| ==> n[k] != ' ';
    IndiceTrasPrefijo(n, " ", ruta);
    var s := LineaEntrada(tamano, ruta);
    assert s[..|n|] == n && s[|n| + 1..] == ruta;
    ValorDeNatATexto(tamano);
  }

  /** The marker line is not a file entry. */
  lemma MarcadorNoEsEntrada()
    ensures LeerEntrada(LineaMarcador) == None
  {
    assert LineaMarcador[..2] == "-1" && !EsDigito(LineaMarcador[0]);
    assert OcurreEn(LineaMarcador, " ", 2);
    assert IndiceDe(LineaMarcador, " ") == Some(2);
  }

  /** The four kinds of line a .lst file holds: blank, comment, time marker, file entry. */
  predicate LineaLst(s: string)
  {
    s == "" || EmpiezaCon(s, "#") || s == LineaMarcador || LeerEntrada(s).Some?
  }

  predicate LineasLst(ls: seq<string>)
  {
    forall i :: 0 <= i < |ls| ==> LineaLst(ls[i])
  }

  lemma LineasLstUnion(a: seq<string>, b: seq<string>)
    requires LineasLst(a) && LineasLst(b)
    ensures LineasLst(a + b)
  {
    forall i | 0 <= i < |a + b| ensures LineaLst((a + b)[i]) {
      if i < |a| {
        assert (a + b)[i] == a[i];
      } else {
        assert (a + b)[i] == b[i - |a|];
      }
    }
  }

  lemma CancionFormato(c: Cancion, d: Disco)
    ensures LineasLst(LineasCancion(c, d))
  {
    if c.artista != ArtistaMarcador && c.rutaArchivo in d.tamanos {
      LeerLineaEntrada(d.tamanos[c.rutaArchivo], c.rutaArchivo);
    }
  }

  lemma InsercionFormato(i: InsercionEspecial, d: Disco)
    ensures LineasLst(LineasInsercion(i, d))
  {
    LeerLineaEntrada(Tamano(i.rutaArchivo, d), i.rutaArchivo);
    assert EmpiezaCon(LineasInsercion(i, d)[0], "#");
  }

  lemma CancionesFormato(cs: seq<Cancion>, d: Disco)
    ensures LineasLst(LineasCanciones(cs, d))
  {
    forall i | 0 <= i < |cs| ensures LineasLst(LineasCancion(cs[i], d)) {
      CancionFormato(cs[i], d);
    }
    ConcatenarTodos(cs, c => LineasCancion(c, d), LineaLst);
  }

  lemma InsercionesFormato(ins: seq<InsercionEspecial>, d: Disco)
    ensures LineasLst(LineasInserciones(ins, d))
  {
    forall i | 0 <= i < |ins| ensures LineasLst(LineasInsercion(ins[i], d)) {
      InsercionFormato(ins[i], d);
    }
    ConcatenarTodos(ins, i => LineasInsercion(i, d), LineaLst);
  }

  lemma BloqueFormato(b: Bloque, d: Disco)
    ensures LineasLst(LineasBloque(b, d))
  {
    CancionesFormato(b.canciones, d);
    InsercionesFormato(b.inserciones, d);
    var c := [CabeceraBloque(b)];
    assert EmpiezaCon(c[0], "#");
    var x, y := LineasCanciones(b.canciones, d), LineasInserciones(b.inserciones, d);
    LineasLstUnion(c, x);
    LineasLstUnion(c + x, y);
    LineasLstUnion(c + x + y, [""]);
  }

  lemma BloquesFormato(bs: seq<Bloque>, d: Disco)
    ensures LineasLst(LineasBloques(bs, d))
  {
    forall i | 0 <= i < |bs| ensures LineasLst(LineasBloque(bs[i], d)) {
      BloqueFormato(bs[i], d);
    }
    ConcatenarTodos(bs, b => LineasBloque(b, d), LineaLst);
  }

  /** Every line of a .lst file is blank, a comment, the time marker or a readable file entry. */
  lemma ContenidoLstFormato(l: Lista, d: Disco)
    ensures LineasLst(ContenidoLst(l, d))
  {
    var c := LineasCabecera(l);
    assert forall i :: 0 <= i < 5 ==> EmpiezaCon(c[i], "#");
    InsercionesFormato(l.apertura, d);
    BloquesFormato(l.bloques, d);
    InsercionesFormato(l.cierre, d);
    var x, y, z := LineasInserciones(l.apertura, d), LineasBloques(l.bloques, d), LineasInserciones(l.cierre, d);
    LineasLstUnion(c, x);
    LineasLstUnion(c + x, y);
    LineasLstUnion(c + x + y, z);
  }

  /** An insertion always takes two lines, whether or not its file exists. */
  lemma InsercionesLongitud(ins: seq<InsercionEspecial>, d: Disco)
    ensures |LineasInserciones(ins, d)| == 2 * |ins|
  {
    ConcatenarLongitud(ins, i => LineasInsercion(i, d), 2);
  }

  /** A track takes at most one line, and no track is dropped exactly when every track is a
      marker or a file that exists. */
  lemma {:induction false} CancionesCompletas(cs: seq<Cancion>, d: Disco)
    ensures |LineasCanciones(cs, d)| <= |cs|
    ensures |LineasCanciones(cs, d)| == |cs| <==> forall i :: 0 <= i < |cs| ==> Escribible(cs[i], d)
  {
    if cs != [] {
      var p := cs[..|cs| - 1];
      CancionesCompletas(p, d);
      assert forall i :: 0 <= i < |p| ==> p[i] == cs[i];
      assert LineasCanciones(cs, d) == LineasCanciones(p, d) + LineasCancion(cs[|cs| - 1], d);
    }
  }

  lemma {:induction false} UnirConcatenado(a: seq<string>, b: seq<string>)
    ensures Unir(a + b) == Unir(a) + Unir(b)
    decreases |b|
  {
    if b == [] {
      assert a + b == a;
    } else {
      var c := a + b;
      assert c[..|c| - 1] == a + b[..|b| - 1];
      UnirConcatenado(a, b[..|b| - 1]);
    }
  }

  /** The .lst lines open with the six header lines. */
  lemma CabeceraLst(l: Lista, d: Disco)
    ensures ContenidoLst(l, d)[..6] == LineasCabecera(l)
  {
    var c := LineasCabecera(l);
    var resto := LineasInserciones(l.apertura, d) + LineasBloques(l.bloques, d) + LineasInserciones(l.cierre, d);
    Asociar4(c, LineasInserciones(l.apertura, d), LineasBloques(l.bloques, d), LineasInserciones(l.cierre, d));
    assert ContenidoLst(l, d) == c + resto;
    assert (c + resto)[..|c|] == c;
  }

  /** The start and end times in the header parse back to the playlist's own. */
  lemma CabeceraHoras(l: Lista)
    ensures ParsearHora(LineasCabecera(l)[3][8..]) == Some(l.horaInicio)
    ensures ParsearHora(LineasCabecera(l)[4][6..]) == Some(l.horaFin)
  {
    var c := LineasCabecera(l);
    assert c[3][8..] == FormatoHMS(l.horaInicio);
    assert c[4][6..] == FormatoHMS(l.horaFin);
    ParsearFormatoHMS(l.horaInicio);
    ParsearFormatoHMS(l.horaFin);
  }

  /** The .lst text is the byte-order mark followed by the header text. */
  lemma TextoLstEmpieza(l: Lista, d: Disco)
    ensures EmpiezaCon(TextoLst(l, d), [Bom] + Unir(LineasCabecera(l)))
  {
    var c := LineasCabecera(l);
    var resto := LineasInserciones(l.apertura, d) + LineasBloques(l.bloques, d) + LineasInserciones(l.cierre, d);
    Asociar4(c, LineasInserciones(l.apertura, d), LineasBloques(l.bloques, d), LineasInserciones(l.cierre, d));
    assert ContenidoLst(l, d) == c + resto;
    UnirConcatenado(c, resto);
    Asociar3([Bom], Unir(c), Unir(resto));
  }

  /** The lines of a sequence of blocks are the lines of each block, in order. */
  lemma BloquesConcatenados(a: seq<Bloque>, b: seq<Bloque>, d: Disco)
    ensures LineasBloques(a + b, d) == LineasBloques(a, d) + LineasBloques(b, d)
  {
    ConcatenarUnion(a, b, x => LineasBloque(x, d));
  }

  // The configuration export

  /** One configuration line: "Bloque NN: HH:mm:ss - HH:mm:ss | genre | folder". */
  function LineaConfiguracion(n: nat, inicio: Hora, fin: Hora, genero: Genero, ruta: string): string
  {
    "Bloque " + Rellenar(n, 2) + ": " + FormatoHMS(inicio) + " - " + FormatoHMS(fin) + " | " + genero.Nombre() + " | " + ruta
  }

  /** The line of the n-th exported block. */
  function LineaDeBloque(n: nat, b: Bloque): string
  {
    LineaConfiguracion(n, b.horaInicio, b.horaFin, b.genero, b.rutaCarpeta)
  }

  /** The four comment lines and the blank line that open the export. */
  function CabeceraExportacion(l: Lista): seq<string>
  {
    [ "# Configuración de Lista ZaraRadio",
      "# Fecha: " + FormatoFecha(l.fecha),
      "# Hora inicio: " + FormatoHMS(l.horaInicio),
      "# Hora fin: " + FormatoHMS(l.horaFin),
      "" ]
  }

  /** exportarConfiguracion: the opening lines, then one line per block numbered from 01. */
  function LineasExportacion(l: Lista): seq<string>
  {
    CabeceraExportacion(l) + Numerar(l.bloques, LineaDeBloque)
  }

  /** Block i of the playlist is written on line 5 + i, with the number i + 1, and there is
      one line per block after the five header lines. */
  lemma ExportacionNumerada(l: Lista)
    ensures |LineasExportacion(l)| == 5 + |l.bloques|
    ensures forall i :: 0 <= i < |l.bloques| ==> LineasExportacion(l)[5 + i] == LineaDeBloque(i + 1, l.bloques[i])
  {
    var cabecera := CabeceraExportacion(l);
    var numeradas := Numerar(l.bloques, LineaDeBloque);
    NumerarElementos(l.bloques, LineaDeBloque);
    assert |cabecera| == 5;
    assert LineasExportacion(l) == cabecera + numeradas;
    forall i | 0 <= i < |l.bloques|
      ensures LineasExportacion(l)[5 + i] == LineaDeBloque(i + 1, l.bloques[i])
    {
      assert (cabecera + numeradas)[5 + i] == numeradas[i];
    }
  }

  method EscribirCabeceraExportacion(lista: ListaReproduccion) returns (lineas: seq<string>)
    ensures lineas == CabeceraExportacion(lista.Valor())
  {
    lineas := ["# Configuración de Lista ZaraRadio"];
    lineas := lineas + ["# Fecha: " + FormatoFecha(lista.fecha)];
    lineas := lineas + ["# Hora inicio: " + FormatoHMS(lista.horaInicio)];
    lineas := lineas + ["# Hora fin: " + FormatoHMS(lista.horaFin), ""];
  }

  /** The loop of exportarConfiguracion over the blocks, numbering them from 01. */
  method EscribirLineasBloques(lineas: seq<string>, bs: seq<BloqueHora>) returns (r: seq<string>)
    ensures r == lineas + Numerar(EstadosDe(bs), LineaDeBloque)
  {
    ghost var estados := EstadosDe(bs);
    r := lineas;
    for i := 0 to |bs|
      invariant r == lineas + Numerar(estados[..i], LineaDeBloque)
    {
      assert estados[..i + 1][..i] == estados[..i];
      assert estados[i] == bs[i].Valor();
      Asociar3(lineas, Numerar(estados[..i], LineaDeBloque), [LineaDeBloque(i + 1, estados[i])]);
      var bloque := bs[i];
      r := r + [LineaConfiguracion(i + 1, bloque.horaInicio, bloque.horaFin, bloque.genero, bloque.rutaCarpeta)];
    }
    assert estados[..|bs|] == estados;
  }

  /** exportarConfiguracion: when the file can be written, its text. */
  method ExportarConfiguracion(lista: ListaReproduccion, escrituraOk: bool) returns (ok: bool, texto: string)
    ensures ok == escrituraOk
    ensures ok ==> texto == Unir(LineasExportacion(lista.Valor()))
  {
    if !escrituraOk {
      return false, "";
    }
    var lineas := EscribirCabeceraExportacion(lista);
    lineas := EscribirLineasBloques(lineas, lista.bloques);
    texto := Unir(lineas);
    ok := true;
  }
}
