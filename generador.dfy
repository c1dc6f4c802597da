// GeneradorListaService as an object: the used-path set, the configured folders and the four
// rotators it holds between generations, and the methods that build a playlist in place. Each
// method is proved against the value-level rules of module Generacion.
module Generador {
  import opened Opcionales
  import opened Tiempo
  import opened SistemaArchivos
  import opened Secuencias
  import opened Azar
  import opened Generos
  import opened Canciones
  import opened InsercionesEspeciales
  import opened BloquesHora
  import opened ListasReproduccion
  import opened Archivos
  import opened Rotacion
  import opened Generacion

  /** The state of a rotator the service may not hold. */
  function ModeloDe(r: RotadorElementos?): Option<Cursor>
    reads r
  {
    if r == null then None else Some(r.Modelo())
  }

  /** Two rotators the service holds are never the same object. */
  predicate Separados(a: RotadorElementos?, b: RotadorElementos?)
  {
    a != null && b != null ==> a != b
  }

  class GeneradorListaService {
    var cancionesUsadas: set<string>
    var rutaElementosEspeciales: string
    var rutaIdentificaciones: string
    var rutaFelicitaciones: string
    var rutaPromosA: string
    var rutaPromosB: string
    var rotadorIdentificaciones: RotadorElementos?
    var rotadorFelicitaciones: RotadorElementos?
    var rotadorPromosA: RotadorElementos?
    var rotadorPromosB: RotadorElementos?

    /** The rotator objects the service holds. */
    function Rotadores(): set<RotadorElementos>
      reads this
    {
      (if rotadorIdentificaciones == null then {} else {rotadorIdentificaciones})
      + (if rotadorFelicitaciones == null then {} else {rotadorFelicitaciones})
      + (if rotadorPromosA == null then {} else {rotadorPromosA})
      + (if rotadorPromosB == null then {} else {rotadorPromosB})
    }

    function RotoresModelo(): Rotores
      reads this, Rotadores()
    {
      Rotores(ModeloDe(rotadorIdentificaciones), ModeloDe(rotadorFelicitaciones),
        ModeloDe(rotadorPromosA), ModeloDe(rotadorPromosB))
    }

    function RutasServicio(): Rutas
      reads this
    {
      Rutas(rutaElementosEspeciales, rutaIdentificaciones, rutaFelicitaciones, rutaPromosA, rutaPromosB)
    }

    /** Every rotator held is in a valid state over the prefix of its kind, and no two of them are
        the same object, so asking one never moves another. */
    predicate Valid()
      reads this, Rotadores()
    {
      RotoresValidos(RotoresModelo())
      && Separados(rotadorIdentificaciones, rotadorFelicitaciones) && Separados(rotadorIdentificaciones, rotadorPromosA)
      && Separados(rotadorIdentificaciones, rotadorPromosB) && Separados(rotadorFelicitaciones, rotadorPromosA)
      && Separados(rotadorFelicitaciones, rotadorPromosB) && Separados(rotadorPromosA, rotadorPromosB)
    }

    /** GeneradorListaService(): no folders set, no rotators, nothing used. */
    constructor ()
      ensures Valid() && RotoresModelo() == Rotores(None, None, None, None)
      ensures RutasServicio() == Rutas("", "", "", "", "") && cancionesUsadas == {}
    {
      cancionesUsadas := {};
      rutaElementosEspeciales := "";
      rutaIdentificaciones := "";
      rutaFelicitaciones := "";
      rutaPromosA := "";
      rutaPromosB := "";
      rotadorIdentificaciones := null;
      rotadorFelicitaciones := null;
      rotadorPromosA := null;
      rotadorPromosB := null;
    }

    method SetRutaElementosEspeciales(ruta: string)
      modifies this
      ensures RutasServicio() == old(RutasServicio()).(elementosEspeciales := ruta)
      ensures Rotadores() == old(Rotadores()) && RotoresModelo() == old(RotoresModelo()) && Valid() == old(Valid())
      ensures cancionesUsadas == old(cancionesUsadas)
    {
      rutaElementosEspeciales := ruta;
    }

    method SetRutaIdentificaciones(ruta: string)
      modifies this
      ensures RutasServicio() == old(RutasServicio()).(identificaciones := ruta)
      ensures Rotadores() == old(Rotadores()) && RotoresModelo() == old(RotoresModelo()) && Valid() == old(Valid())
      ensures cancionesUsadas == old(cancionesUsadas)
    {
      rutaIdentificaciones := ruta;
    }

    method SetRutaFelicitaciones(ruta: string)
      modifies this
      ensures RutasServicio() == old(RutasServicio()).(felicitaciones := ruta)
      ensures Rotadores() == old(Rotadores()) && RotoresModelo() == old(RotoresModelo()) && Valid() == old(Valid())
      ensures cancionesUsadas == old(cancionesUsadas)
    {
      rutaFelicitaciones := ruta;
    }

    method SetRutaPromosA(ruta: string)
      modifies this
      ensures RutasServicio() == old(RutasServicio()).(promosA := ruta)
      ensures Rotadores() == old(Rotadores()) && RotoresModelo() == old(RotoresModelo()) && Valid() == old(Valid())
      ensures cancionesUsadas == old(cancionesUsadas)
    {
      rutaPromosA := ruta;
    }

    method SetRutaPromosB(ruta: string)
      modifies this
      ensures RutasServicio() == old(RutasServicio()).(promosB := ruta)
      ensures Rotadores() == old(Rotadores()) && RotoresModelo() == old(RotoresModelo()) && Valid() == old(Valid())
      ensures cancionesUsadas == old(cancionesUsadas)
    {
      rutaPromosB := ruta;
    }

    /** generarListaCompleta: a new playlist for the date built in the order of the source (used
        paths cleared, rotators initialised, blocks configured, opening, population, weaving,
        closing), exactly the generation of ListaGenerada from the folders and rotators the
        service held; the service keeps the rotators and the used paths it ends with. */
    method GenerarListaCompleta(fecha: Fecha, cfg: seq<ConfiguracionBloque>, d: Disco, az: Sorteos)
      returns (lista: ListaReproduccion)
      requires Valid()
      modifies this, Rotadores()
      ensures Valid() && fresh(lista)
      ensures (lista.Valor(), RotoresModelo(), cancionesUsadas)
        == ListaGenerada(fecha, cfg, old(RutasServicio()), old(RotoresModelo()), d, az)
      ensures RutasServicio() == old(RutasServicio())
    {
      ghost var rutas, rs0 := RutasServicio(), RotoresModelo();
      lista := new ListaReproduccion(fecha);
      cancionesUsadas := {};
      InicializarRotadores(d, az.rotadores);
      ghost var rs := RotoresModelo();
      assert rs == RotoresIniciales(rs0, rutas, d, az.rotadores);
      ArmarLista(lista, cfg, d, az);
      ghost var p := Poblados(cfg, d, az);
      ListaGeneradaPartes(fecha, cfg, rutas, rs0, d, az, rs, p.0, p.1);
    }

    /** The blocks, opening, population, weaving and closing of generarListaCompleta on a playlist,
        from the used paths and rotators the service holds. */
    method ArmarLista(lista: ListaReproduccion, cfg: seq<ConfiguracionBloque>, d: Disco, az: Sorteos)
      requires Valid()
      modifies this, lista, Rotadores()
      ensures Valid()
      ensures var p := PoblarBloques(BloquesDeConfiguracion(cfg), old(cancionesUsadas), d, az.mezclas);
        lista.Valor() == old(lista.Valor()).(bloques := TejerBloques(p.0, 0, old(RotoresModelo())).0,
          apertura := Apertura(rutaElementosEspeciales, d, az.apertura), cierre := Cierre(rutaElementosEspeciales, d, az.cierre))
        && RotoresModelo() == TejerBloques(p.0, 0, old(RotoresModelo())).2 && cancionesUsadas == p.1
      ensures RutasServicio() == old(RutasServicio())
    {
      ghost var rs := RotoresModelo();
      assert RotoresValidos(rs);
      PrepararBloques(lista, cfg, d, az);
      assert RotoresModelo() == rs;
      assert Valid();
      TerminarLista(lista, d, az);
    }

    /** The first half of generarListaCompleta: the blocks configured, the opening, and every
        block populated. */
    method PrepararBloques(lista: ListaReproduccion, cfg: seq<ConfiguracionBloque>, d: Disco, az: Sorteos)
      modifies this, lista
      ensures lista.Valor() == old(lista.Valor()).(bloques := PoblarBloques(BloquesDeConfiguracion(cfg), old(cancionesUsadas), d, az.mezclas).0,
                                                   apertura := Apertura(rutaElementosEspeciales, d, az.apertura))
      ensures cancionesUsadas == PoblarBloques(BloquesDeConfiguracion(cfg), old(cancionesUsadas), d, az.mezclas).1
      ensures forall i, j :: 0 <= i < j < |lista.bloques| ==> lista.bloques[i] != lista.bloques[j]
      ensures forall i :: 0 <= i < |lista.bloques| ==> fresh(lista.bloques[i])
      ensures Sostenidos() == old(Sostenidos()) && RutasServicio() == old(RutasServicio())
    {
      ConfigurarBloques(lista, cfg);
      GenerarApertura(lista, d, az.apertura);
      GenerarContenidoBloques(lista, d, az.mezclas);
    }

    /** The second half of generarListaCompleta: the pattern woven in from phase 0, and the closing. */
    method TerminarLista(lista: ListaReproduccion, d: Disco, az: Sorteos)
      requires Valid()
      requires forall i, j :: 0 <= i < j < |lista.bloques| ==> lista.bloques[i] != lista.bloques[j]
      modifies lista, lista.bloques, Rotadores()
      ensures Valid()
      ensures lista.Valor() == old(lista.Valor()).(bloques := TejerBloques(old(lista.Valor()).bloques, 0, old(RotoresModelo())).0,
                                                   cierre := Cierre(rutaElementosEspeciales, d, az.cierre))
      ensures RotoresModelo() == TejerBloques(old(lista.Valor()).bloques, 0, old(RotoresModelo())).2
    {
      ghost var l0, rs0 := lista.Valor(), RotoresModelo();
      InsertarElementosEspeciales(lista);
      ghost var l1, rs1 := lista.Valor(), RotoresModelo();
      assert l1 == l0.(bloques := TejerBloques(l0.bloques, 0, rs0).0);
      assert RotoresValidos(rs1);
      GenerarCierre(lista, d, az.cierre);
      assert lista.Valor() == l1.(cierre := Cierre(rutaElementosEspeciales, d, az.cierre));
      assert RotoresModelo() == rs1;
      assert Valid();
    }

    /** inicializarRotadores: a new rotator for every folder that is set, the old one kept for
        every folder that is not; semillas holds the four start draws. */
    method InicializarRotadores(d: Disco, semillas: seq<nat>)
      requires Valid()
      modifies this
      ensures Valid()
      ensures RotoresModelo() == RotoresIniciales(old(RotoresModelo()), old(RutasServicio()), d, semillas)
      ensures RutasServicio() == old(RutasServicio()) && cancionesUsadas == old(cancionesUsadas)
      ensures rotadorIdentificaciones == old(rotadorIdentificaciones) || fresh(rotadorIdentificaciones)
      ensures rotadorFelicitaciones == old(rotadorFelicitaciones) || fresh(rotadorFelicitaciones)
      ensures rotadorPromosA == old(rotadorPromosA) || fresh(rotadorPromosA)
      ensures rotadorPromosB == old(rotadorPromosB) || fresh(rotadorPromosB)
    {
      var id, fel, pa, pb := NuevosRotadores(d, semillas);
      ghost var m := Rotores(ModeloDe(id), ModeloDe(fel), ModeloDe(pa), ModeloDe(pb));
      rotadorIdentificaciones, rotadorFelicitaciones, rotadorPromosA, rotadorPromosB := id, fel, pa, pb;
      assert RotoresModelo() == m;
    }

    /** The four rotators inicializarRotadores leaves, before they are stored. */
    method NuevosRotadores(d: Disco, semillas: seq<nat>) returns (id: RotadorElementos?, fel: RotadorElementos?, pa: RotadorElementos?, pb: RotadorElementos?)
      requires Valid()
      ensures Rotores(ModeloDe(id), ModeloDe(fel), ModeloDe(pa), ModeloDe(pb)) == RotoresIniciales(RotoresModelo(), RutasServicio(), d, semillas)
      ensures RotoresValidos(Rotores(ModeloDe(id), ModeloDe(fel), ModeloDe(pa), ModeloDe(pb)))
      ensures Separados(id, fel) && Separados(id, pa) && Separados(id, pb) && Separados(fel, pa) && Separados(fel, pb) && Separados(pa, pb)
      ensures id == rotadorIdentificaciones || fresh(id)
      ensures fel == rotadorFelicitaciones || fresh(fel)
      ensures pa == rotadorPromosA || fresh(pa)
      ensures pb == rotadorPromosB || fresh(pb)
    {
      id := Iniciar(rotadorIdentificaciones, rutaIdentificaciones, PrefijoIdentificaciones, d, Semilla(semillas, 0));
      fel := Iniciar(rotadorFelicitaciones, rutaFelicitaciones, PrefijoFelicitaciones, d, Semilla(semillas, 1));
      pa := Iniciar(rotadorPromosA, rutaPromosA, PrefijoPromosA, d, Semilla(semillas, 2));
      pb := Iniciar(rotadorPromosB, rutaPromosB, PrefijoPromosB, d, Semilla(semillas, 3));
    }

    /** obtenerElementosSegunPatronCorregido: the items of the pattern at phase n, each rotator
        asked at most once; the rotators move exactly as the pattern says. */
    method ObtenerElementosSegunPatron(n: nat) returns (elementos: seq<InsercionEspecial>)
      requires Valid()
      modifies Rotadores()
      ensures Valid()
      ensures (elementos, RotoresModelo()) == Patron(n, old(RotoresModelo()))
    {
      elementos := [];
      var posicion := n % 3;
      if posicion == 0 {
        var identificacion := Preguntar(rotadorIdentificaciones);
        var felicitacion := Preguntar(rotadorFelicitaciones);
        elementos := SiHay(identificacion) + SiHay(felicitacion);
      } else {
        var promoA := Preguntar(rotadorPromosA);
        var promoB := Preguntar(rotadorPromosB);
        elementos := SiHay(promoA) + SiHay(promoB);
      }
    }

    /** One block of insertarElementosEspecialesCorregido: after every third track of the block a
        time marker and the items of the pattern at the global phase, which then advances; the
        block's separate insertions are cleared; the phase reached is returned. */
    method InsertarEnBloque(bloque: BloqueHora, contador: nat) returns (siguiente: nat)
      requires Valid()
      modifies bloque, Rotadores()
      ensures Valid()
      ensures Tejer(old(bloque.canciones), contador, old(RotoresModelo())) == (bloque.canciones, siguiente, RotoresModelo())
      ensures bloque.Valor() == old(bloque.Valor()).(canciones := bloque.canciones, inserciones := [])
    {
      var originales := bloque.canciones;
      var conInserciones;
      conInserciones, siguiente := TejerCanciones(originales, contador);
      bloque.SetCanciones(conInserciones);
      bloque.SetInserciones([]);
    }

    /** insertarElementosEspecialesCorregido: every block woven in order, the global phase starting
        at 0 and carried, with the rotators, from one block to the next. */
    method InsertarElementosEspeciales(lista: ListaReproduccion)
      requires Valid()
      requires forall i, j :: 0 <= i < j < |lista.bloques| ==> lista.bloques[i] != lista.bloques[j]
      modifies lista.bloques, Rotadores()
      ensures Valid()
      ensures TejerBloques(old(lista.Valor()).bloques, 0, old(RotoresModelo())).2 == RotoresModelo()
      ensures lista.Valor() == old(lista.Valor()).(bloques := TejerBloques(old(lista.Valor()).bloques, 0, old(RotoresModelo())).0)
    {
      ghost var antes := lista.Valor();
      var contador := TejerTodos(lista.bloques, 0);
      assert lista.Valor() == antes.(bloques := EstadosDe(lista.bloques));
    }

    /** The same loop over the blocks themselves, from phase contador; the phase reached is returned. */
    method TejerTodos(bloques: seq<BloqueHora>, contador: nat) returns (siguiente: nat)
      requires Valid()
      requires forall i, j :: 0 <= i < j < |bloques| ==> bloques[i] != bloques[j]
      modifies bloques, Rotadores()
      ensures Valid()
      ensures TejerBloques(old(EstadosDe(bloques)), contador, old(RotoresModelo())) == (EstadosDe(bloques), siguiente, RotoresModelo())
    {
      ghost var antes := EstadosDe(bloques);
      ghost var hechos: seq<Bloque> := [];
      siguiente := contador;
      for k := 0 to |bloques|
        invariant Valid()
        invariant TejerBloques(antes[..k], contador, old(RotoresModelo())) == (hechos, siguiente, RotoresModelo())
        invariant forall i :: 0 <= i < |bloques| ==> bloques[i].Valor() == if i < k then hechos[i] else antes[i]
      {
        siguiente, hechos := TejerBloqueEnLista(bloques, k, contador, old(RotoresModelo()), antes, hechos, siguiente);
      }
      assert antes[..|bloques|] == antes;
      assert EstadosDe(bloques) == hechos;
    }

    /** One block of that loop: woven from the phase and rotators the blocks before it left. */
    method TejerBloqueEnLista(bloques: seq<BloqueHora>, k: nat, contador: nat, ghost rs0: Rotores,
                              ghost antes: seq<Bloque>, ghost hechos: seq<Bloque>, siguiente: nat)
      returns (siguiente2: nat, ghost hechos2: seq<Bloque>)
      requires Valid() && RotoresValidos(rs0) && k < |bloques| == |antes|
      requires forall i, j :: 0 <= i < j < |bloques| ==> bloques[i] != bloques[j]
      requires TejerBloques(antes[..k], contador, rs0) == (hechos, siguiente, RotoresModelo())
      requires forall i :: 0 <= i < |bloques| ==> bloques[i].Valor() == if i < k then hechos[i] else antes[i]
      modifies bloques[k], Rotadores()
      ensures Valid()
      ensures TejerBloques(antes[..k + 1], contador, rs0) == (hechos2, siguiente2, RotoresModelo())
      ensures forall i :: 0 <= i < |bloques| ==> bloques[i].Valor() == if i < k + 1 then hechos2[i] else antes[i]
    {
      ghost var rm := RotoresModelo();
      TejerBloquesPaso(antes, contador, rs0, k, hechos, siguiente, rm);
      siguiente2 := InsertarEnBloque(bloques[k], siguiente);
      hechos2 := hechos + [bloques[k].Valor()];
    }

    /** The loop of insertarElementosEspecialesCorregido over one block's tracks, as a woven
        sequence; exactly the weaving of the tracks from phase contador. */
    method TejerCanciones(originales: seq<Cancion>, contador: nat) returns (resultado: seq<Cancion>, siguiente: nat)
      requires Valid()
      modifies Rotadores()
      ensures Valid()
      ensures (resultado, siguiente, RotoresModelo()) == Tejer(originales, contador, old(RotoresModelo()))
    {
      ghost var rs0 := RotoresModelo();
      resultado := [];
      siguiente := contador;
      ghost var q := 0;
      ghost var tejido: seq<Cancion> := [];
      for i := 0 to |originales|
        invariant Valid()
        invariant q <= i <= q + 2 && q % 3 == 0 && q <= |originales|
        invariant Tejer(originales[..q], contador, rs0) == (tejido, siguiente, RotoresModelo())
        invariant resultado == tejido + originales[q..i]
      {
        resultado, siguiente, q, tejido := ProcesarCancion(originales, i, contador, rs0, q, tejido, resultado, siguiente);
      }
      ghost var rm := RotoresModelo();
      TejerResto(originales, q, contador, rs0, tejido, siguiente, rm);
      assert resultado == tejido + originales[q..];
    }

    /** One track of that loop: added, and followed by the locution when it is the third of its
        group. */
    method ProcesarCancion(originales: seq<Cancion>, i: nat, contador: nat, ghost rs0: Rotores, ghost q: nat,
                           ghost tejido: seq<Cancion>, resultado: seq<Cancion>, siguiente: nat)
      returns (r: seq<Cancion>, s: nat, ghost q2: nat, ghost t2: seq<Cancion>)
      requires Valid() && RotoresValidos(rs0) && i < |originales|
      requires q <= i <= q + 2 && q % 3 == 0
      requires Tejer(originales[..q], contador, rs0) == (tejido, siguiente, RotoresModelo())
      requires resultado == tejido + originales[q..i]
      modifies Rotadores()
      ensures Valid()
      ensures q2 <= i + 1 <= q2 + 2 && q2 % 3 == 0
      ensures Tejer(originales[..q2], contador, rs0) == (t2, s, RotoresModelo())
      ensures r == t2 + originales[q2..i + 1]
    {
      assert originales[q..i + 1] == originales[q..i] + [originales[i]];
      Asociar3(tejido, originales[q..i], [originales[i]]);
      r := resultado + [originales[i]];
      s := siguiente;
      q2 := q;
      t2 := tejido;
      CierraGrupo(q, i);
      if (i + 1) % CadaNCanciones == 0 {
        r, s := CerrarGrupo(originales, contador, rs0, q, tejido, siguiente, r);
        q2 := i + 1;
        t2 := r;
      }
    }

    /** The end of a group of three in that loop: the locution follows the group, and the phase advances. */
    method CerrarGrupo(originales: seq<Cancion>, contador: nat, ghost rs0: Rotores, ghost q: nat,
                       ghost tejido: seq<Cancion>, siguiente: nat, resultado: seq<Cancion>)
      returns (r: seq<Cancion>, s: nat)
      requires Valid() && RotoresValidos(rs0) && q % 3 == 0 && q + 3 <= |originales|
      requires Tejer(originales[..q], contador, rs0) == (tejido, siguiente, RotoresModelo())
      requires resultado == tejido + originales[q..q + 3]
      modifies Rotadores()
      ensures Valid()
      ensures Tejer(originales[..q + 3], contador, rs0) == (r, s, RotoresModelo())
    {
      ghost var rm := RotoresModelo();
      TejerGrupo(originales, q, contador, rs0, tejido, siguiente, rm);
      r := InsertarLocucion(resultado, siguiente);
      s := siguiente + 1;
    }

    /** One locution of insertarElementosEspecialesCorregido: the time marker, then the items of
        the pattern at phase numero as tracks. */
    method InsertarLocucion(cs: seq<Cancion>, numero: nat) returns (r: seq<Cancion>)
      requires Valid()
      modifies Rotadores()
      ensures Valid()
      ensures r == cs + [MarcadorTiempo()] + Convertidas(Patron(numero, old(RotoresModelo())).0)
      ensures RotoresModelo() == Patron(numero, old(RotoresModelo())).1
    {
      var elementos := ObtenerElementosSegunPatron(numero);
      r := AgregarConvertidas(cs + [MarcadorTiempo()], elementos);
    }

    /** The rotator objects held, as references. */
    function Sostenidos(): (RotadorElementos?, RotadorElementos?, RotadorElementos?, RotadorElementos?)
      reads this
    {
      (rotadorIdentificaciones, rotadorFelicitaciones, rotadorPromosA, rotadorPromosB)
    }

    /** configurarBloques: the playlist's blocks replaced by one new block per configuration, in
        order, each with the default tolerance. */
    method ConfigurarBloques(lista: ListaReproduccion, cfg: seq<ConfiguracionBloque>)
      modifies lista
      ensures lista.Valor() == old(lista.Valor()).(bloques := BloquesDeConfiguracion(cfg))
      ensures forall i :: 0 <= i < |lista.bloques| ==> fresh(lista.bloques[i])
      ensures forall i, j :: 0 <= i < j < |lista.bloques| ==> lista.bloques[i] != lista.bloques[j]
    {
      lista.bloques := [];
      for k := 0 to |cfg|
        invariant |lista.bloques| == k
        invariant forall i :: 0 <= i < k ==> fresh(lista.bloques[i])
        invariant forall i, j :: 0 <= i < j < k ==> lista.bloques[i] != lista.bloques[j]
        invariant forall i :: 0 <= i < k ==> lista.bloques[i].Valor() == BloqueDeConfiguracion(cfg[i])
        invariant lista.fecha == old(lista.fecha) && lista.horaInicio == old(lista.horaInicio) && lista.horaFin == old(lista.horaFin)
        invariant lista.apertura == old(lista.apertura) && lista.cierre == old(lista.cierre)
        invariant lista.rutaArchivoLst == old(lista.rutaArchivoLst)
      {
        var bloque := NuevoBloque(cfg[k]);
        ghost var previos := lista.bloques;
        lista.AgregarBloque(bloque);
        assert lista.bloques == previos + [bloque];
      }
      assert EstadosDe(lista.bloques) == BloquesDeConfiguracion(cfg);
    }

    /** generarApertura: the opening from the ceremonial folder, stored in the playlist. */
    method GenerarApertura(lista: ListaReproduccion, d: Disco, semillas: seq<nat>)
      modifies lista
      ensures lista.Valor() == old(lista.Valor()).(apertura := Apertura(rutaElementosEspeciales, d, semillas))
      ensures lista.bloques == old(lista.bloques)
    {
      var himnoNacional := ObtenerElementoPorIdentificador("01", HimnoNacional, rutaElementosEspeciales, d, Semilla(semillas, 0));
      var himnoGuerrero := ObtenerElementoPorIdentificador("02", HimnoGuerrero, rutaElementosEspeciales, d, Semilla(semillas, 1));
      var poema := ObtenerElementoPorIdentificador("03", Poema, rutaElementosEspeciales, d, Semilla(semillas, 2));
      lista.SetApertura(SiHay(himnoNacional) + SiHay(himnoGuerrero) + SiHay(poema));
    }

    /** generarCierre: the closing, poem first and national anthem last, stored in the playlist. */
    method GenerarCierre(lista: ListaReproduccion, d: Disco, semillas: seq<nat>)
      modifies lista
      ensures lista.Valor() == old(lista.Valor()).(cierre := Cierre(rutaElementosEspeciales, d, semillas))
      ensures lista.bloques == old(lista.bloques)
    {
      var poema := ObtenerElementoPorIdentificador("03", Poema, rutaElementosEspeciales, d, Semilla(semillas, 0));
      var himnoGuerrero := ObtenerElementoPorIdentificador("02", HimnoGuerrero, rutaElementosEspeciales, d, Semilla(semillas, 1));
      var himnoNacional := ObtenerElementoPorIdentificador("01", HimnoNacional, rutaElementosEspeciales, d, Semilla(semillas, 2));
      lista.SetCierre(SiHay(poema) + SiHay(himnoGuerrero) + SiHay(himnoNacional));
    }

    /** generarContenidoBloqueConVerificacion: a block without folder is left alone; otherwise the
        folder's audio paths are shuffled and walked in order, stopping at 15 tracks (or once more
        attempts than twice the candidates were made, which the proof shows never happens), and
        every path not used before becomes a track of the block and is marked used. */
    method GenerarContenidoBloqueConVerificacion(bloque: BloqueHora, d: Disco, semillas: seq<nat>)
      modifies this, bloque
      ensures (bloque.Valor(), cancionesUsadas) == PoblarBloque(old(bloque.Valor()), old(cancionesUsadas), d, semillas)
      ensures Sostenidos() == old(Sostenidos()) && RutasServicio() == old(RutasServicio())
    {
      if bloque.rutaCarpeta == "" {
        return;
      }
      var archivos := ObtenerArchivosAudio(bloque.rutaCarpeta, d);
      archivos := Mezclado(archivos, semillas);
      var canciones, usadas := AceptarCanciones(archivos, cancionesUsadas, bloque.genero);
      cancionesUsadas := usadas;
      bloque.SetCanciones(canciones);
    }

    /** The loop of generarListaCompleta that populates every block in order, one shuffle per block. */
    method GenerarContenidoBloques(lista: ListaReproduccion, d: Disco, mezclas: seq<seq<nat>>)
      requires forall i, j :: 0 <= i < j < |lista.bloques| ==> lista.bloques[i] != lista.bloques[j]
      modifies this, lista.bloques
      ensures var (p, u) := PoblarBloques(old(lista.Valor()).bloques, old(cancionesUsadas), d, mezclas);
        lista.Valor() == old(lista.Valor()).(bloques := p) && cancionesUsadas == u
      ensures Sostenidos() == old(Sostenidos()) && RutasServicio() == old(RutasServicio())
    {
      ghost var antes := lista.Valor();
      PoblarTodos(lista.bloques, d, mezclas);
      assert lista.Valor() == antes.(bloques := EstadosDe(lista.bloques));
    }

    /** The same loop over the blocks themselves. */
    method PoblarTodos(bloques: seq<BloqueHora>, d: Disco, mezclas: seq<seq<nat>>)
      requires forall i, j :: 0 <= i < j < |bloques| ==> bloques[i] != bloques[j]
      modifies this, bloques
      ensures (EstadosDe(bloques), cancionesUsadas) == PoblarBloques(old(EstadosDe(bloques)), old(cancionesUsadas), d, mezclas)
      ensures Sostenidos() == old(Sostenidos()) && RutasServicio() == old(RutasServicio())
    {
      ghost var antes := EstadosDe(bloques);
      ghost var usadas0 := cancionesUsadas;
      ghost var hechos: seq<Bloque> := [];
      assert antes[..0] == [];
      for k := 0 to |bloques|
        invariant (hechos, cancionesUsadas) == PoblarBloques(antes[..k], usadas0, d, mezclas)
        invariant forall i :: 0 <= i < |bloques| ==> bloques[i].Valor() == if i < k then hechos[i] else antes[i]
        invariant Sostenidos() == old(Sostenidos()) && RutasServicio() == old(RutasServicio())
      {
        hechos := PoblarBloqueEnLista(bloques, k, d, mezclas, usadas0, antes, hechos);
      }
      assert antes[..|bloques|] == antes;
      assert EstadosDe(bloques) == hechos;
    }

    /** One block of that loop: populated from the used paths the blocks before it left. */
    method PoblarBloqueEnLista(bloques: seq<BloqueHora>, k: nat, d: Disco, mezclas: seq<seq<nat>>, ghost usadas0: set<string>,
                               ghost antes: seq<Bloque>, ghost hechos: seq<Bloque>)
      returns (ghost hechos2: seq<Bloque>)
      requires k < |bloques| == |antes|
      requires forall i, j :: 0 <= i < j < |bloques| ==> bloques[i] != bloques[j]
      requires (hechos, cancionesUsadas) == PoblarBloques(antes[..k], usadas0, d, mezclas)
      requires forall i :: 0 <= i < |bloques| ==> bloques[i].Valor() == if i < k then hechos[i] else antes[i]
      modifies this, bloques[k]
      ensures (hechos2, cancionesUsadas) == PoblarBloques(antes[..k + 1], usadas0, d, mezclas)
      ensures forall i :: 0 <= i < |bloques| ==> bloques[i].Valor() == if i < k + 1 then hechos2[i] else antes[i]
      ensures Sostenidos() == old(Sostenidos()) && RutasServicio() == old(RutasServicio())
    {
      PoblarBloquesPaso(antes, usadas0, d, mezclas, k);
      GenerarContenidoBloqueConVerificacion(bloques[k], d, Mezcla(mezclas, k));
      hechos2 := hechos + [bloques[k].Valor()];
    }
  }

  /** The loop of generarContenidoBloqueConVerificacion over the shuffled paths: it stops at 15
      tracks, and its attempt guard (more attempts than twice the paths) is shown never to fire;
      every path not used before becomes a track and is marked used. */
  method AceptarCanciones(archivos: seq<string>, usadas: set<string>, genero: Genero)
    returns (canciones: seq<Cancion>, nuevas: set<string>)
    ensures canciones == CancionesDeRutas(Aceptadas(archivos, usadas, CancionesPorHora), genero)
    ensures nuevas == usadas + Elementos(Aceptadas(archivos, usadas, CancionesPorHora))
  {
    canciones := [];
    nuevas := usadas;
    ghost var rutas: seq<string> := [];
    var intentos := 0;
    var maxIntentos := |archivos| * 2;
    var k := 0;
    while k < |archivos|
      invariant 0 <= k <= |archivos| && intentos == k
      invariant |rutas| <= CancionesPorHora && canciones == CancionesDeRutas(rutas, genero)
      invariant rutas + Aceptadas(archivos[k..], nuevas, CancionesPorHora - |rutas|)
        == Aceptadas(archivos, usadas, CancionesPorHora)
      invariant nuevas == usadas + Elementos(rutas)
    {
      if |canciones| >= CancionesPorHora {
        break;
      }
      var disparo := intentos > maxIntentos;
      intentos := intentos + 1;
      if disparo {
        assert false;
        break;
      }
      canciones, nuevas, rutas := AceptarSiguiente(archivos, usadas, genero, k, canciones, nuevas, rutas);
      k := k + 1;
    }
    assert Aceptadas(archivos[k..], nuevas, CancionesPorHora - |rutas|) == [];
  }

  /** One path of the acceptance loop: a path not used before becomes a track and is marked used,
      a used one is skipped; either way the loop's invariant holds one path further on. */
  method AceptarSiguiente(archivos: seq<string>, ghost usadas: set<string>, genero: Genero, k: nat,
                          canciones: seq<Cancion>, nuevas: set<string>, ghost rutas: seq<string>)
    returns (canciones2: seq<Cancion>, nuevas2: set<string>, ghost rutas2: seq<string>)
    requires k < |archivos| && |rutas| < CancionesPorHora && canciones == CancionesDeRutas(rutas, genero)
    requires rutas + Aceptadas(archivos[k..], nuevas, CancionesPorHora - |rutas|)
      == Aceptadas(archivos, usadas, CancionesPorHora)
    requires nuevas == usadas + Elementos(rutas)
    ensures |rutas2| <= CancionesPorHora && canciones2 == CancionesDeRutas(rutas2, genero)
    ensures rutas2 + Aceptadas(archivos[k + 1..], nuevas2, CancionesPorHora - |rutas2|)
      == Aceptadas(archivos, usadas, CancionesPorHora)
    ensures nuevas2 == usadas + Elementos(rutas2)
  {
    var ruta := archivos[k];
    canciones2, nuevas2, rutas2 := canciones, nuevas, rutas;
    if ruta !in nuevas {
      canciones2 := canciones + [CrearCancionDesdeRuta(ruta, genero)];
      rutas2 := rutas + [ruta];
      nuevas2 := nuevas + {ruta};
      AceptarRuta(archivos, usadas, k, rutas, nuevas, genero, rutas2, nuevas2);
    } else {
      SaltarRuta(archivos, usadas, k, rutas, nuevas);
    }
  }

  /** One accepted path keeps the acceptance loop's invariant: the path joins the accepted prefix,
      the used set and the tracks. */
  lemma AceptarRuta(archivos: seq<string>, usadas: set<string>, k: nat, rutas: seq<string>, nuevas: set<string>,
                    genero: Genero, rutas2: seq<string>, nuevas2: set<string>)
    requires k < |archivos| && |rutas| < CancionesPorHora && archivos[k] !in nuevas
    requires rutas + Aceptadas(archivos[k..], nuevas, CancionesPorHora - |rutas|)
      == Aceptadas(archivos, usadas, CancionesPorHora)
    requires nuevas == usadas + Elementos(rutas)
    requires rutas2 == rutas + [archivos[k]] && nuevas2 == nuevas + {archivos[k]}
    ensures |rutas2| <= CancionesPorHora
    ensures rutas2 + Aceptadas(archivos[k + 1..], nuevas2, CancionesPorHora - |rutas2|)
      == Aceptadas(archivos, usadas, CancionesPorHora)
    ensures nuevas2 == usadas + Elementos(rutas2)
    ensures CancionesDeRutas(rutas2, genero) == CancionesDeRutas(rutas, genero) + [CrearCancionDesdeRuta(archivos[k], genero)]
  {
    var ruta := archivos[k];
    var cupo := CancionesPorHora - |rutas|;
    assert CancionesPorHora - |rutas2| == cupo - 1;
    var resto := Aceptadas(archivos[k + 1..], nuevas2, cupo - 1);
    assert Aceptadas(archivos[k..], nuevas, cupo) == [ruta] + resto by {
      AceptadasPaso(archivos, nuevas, cupo, k);
    }
    assert rutas2 + resto == Aceptadas(archivos, usadas, CancionesPorHora) by {
      Asociar3(rutas, [ruta], resto);
    }
    assert nuevas2 == usadas + Elementos(rutas2) by {
      assert Elementos(rutas + [ruta]) == Elementos(rutas) + {ruta};
    }
    CancionesDeRutasUltima(rutas, ruta, genero);
  }

  /** A path used before leaves the acceptance loop's invariant as it was, one path further on. */
  lemma SaltarRuta(archivos: seq<string>, usadas: set<string>, k: nat, rutas: seq<string>, nuevas: set<string>)
    requires k < |archivos| && |rutas| < CancionesPorHora && archivos[k] in nuevas
    requires rutas + Aceptadas(archivos[k..], nuevas, CancionesPorHora - |rutas|)
      == Aceptadas(archivos, usadas, CancionesPorHora)
    ensures rutas + Aceptadas(archivos[k + 1..], nuevas, CancionesPorHora - |rutas|)
      == Aceptadas(archivos, usadas, CancionesPorHora)
  {
    AceptadasPaso(archivos, nuevas, CancionesPorHora - |rutas|, k);
  }

  /** Counting tracks by threes from the start of a group: the track after i closes the group
      exactly when it is the group's third. */
  lemma CierraGrupo(q: nat, i: nat)
    requires q % 3 == 0 && q <= i <= q + 2
    ensures (i + 1) % 3 == 0 <==> i + 1 == q + 3
  {
  }

  /** The inner loop of insertarElementosEspecialesCorregido: every item of the pattern, in order,
      appended as a track. */
  method AgregarConvertidas(cs: seq<Cancion>, elementos: seq<InsercionEspecial>) returns (r: seq<Cancion>)
    ensures r == cs + Convertidas(elementos)
  {
    r := cs;
    for j := 0 to |elementos|
      invariant r == cs + Convertidas(elementos[..j])
    {
      assert Convertidas(elementos[..j + 1]) == Convertidas(elementos[..j]) + [ConvertirInsercionACancion(elementos[j])];
      r := r + [ConvertirInsercionACancion(elementos[j])];
    }
    assert elementos[..|elementos|] == elementos;
  }

  /** One block of configurarBloques, before it is added to the playlist. */
  method NuevoBloque(config: ConfiguracionBloque) returns (bloque: BloqueHora)
    ensures fresh(bloque) && bloque.Valor() == BloqueDeConfiguracion(config)
  {
    bloque := new BloqueHora(config.horaInicio, config.horaFin, config.genero, config.rutaCarpeta);
    bloque.SetToleranciaMinutos(ToleranciaMinutosDefault);
  }

  /** One rotator of the pattern: asked when the service holds it, skipped when it does not. */
  method Preguntar(r: RotadorElementos?) returns (x: Option<InsercionEspecial>)
    requires r != null ==> r.Valid()
    modifies r
    ensures r != null ==> r.Valid()
    ensures (x, ModeloDe(r)) == Consultar(old(ModeloDe(r)))
  {
    x := None;
    if r != null {
      x := r.ObtenerSiguiente();
    }
  }

  /** One rotator of inicializarRotadores: a new one over the folder when it is set, else the one held. */
  method Iniciar(r: RotadorElementos?, ruta: string, prefijo: string, d: Disco, semilla: nat) returns (x: RotadorElementos?)
    requires RotorValido(ModeloDe(r), prefijo)
    ensures RotorValido(ModeloDe(x), prefijo)
    ensures ruta == "" ==> x == r
    ensures ruta != "" ==> x != null && fresh(x)
    ensures ModeloDe(x) == RotorIniciado(ModeloDe(r), ruta, prefijo, d, semilla)
  {
    x := r;
    if ruta != "" {
      x := new RotadorElementos(ruta, prefijo, d, semilla);
    }
  }
}
