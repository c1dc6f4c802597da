// The schedule table of the main window: its rows (ConfiguracionHora), editing a row's time
// range and cascading the change to the rows after it, the block lines of the configuration
// file (written and read back), the validation before generating, and the block
// configuration handed to the generator.
module Controlador {
  import opened Opcionales
  import opened Texto
  import opened Tiempo
  import opened Generos
  import opened Secuencias
  import Generacion
  import Archivos

  /** The state of one row of the table: start, end, genre and folder ("" for none). */
  datatype Fila = Fila(horaInicio: Hora, horaFin: Hora, genero: Genero, rutaCarpeta: string)

  /** A row of the table, edited in place. */
  class ConfiguracionHora {
    var horaInicio: Hora
    var horaFin: Hora
    var genero: Genero
    var rutaCarpeta: string

    function Valor(): Fila
      reads this
    {
      Fila(horaInicio, horaFin, genero, rutaCarpeta)
    }

    constructor (horaInicio: Hora, horaFin: Hora, genero: Genero, rutaCarpeta: string)
      ensures Valor() == Fila(horaInicio, horaFin, genero, rutaCarpeta)
    {
      this.horaInicio := horaInicio;
      this.horaFin := horaFin;
      this.genero := genero;
      this.rutaCarpeta := rutaCarpeta;
    }

    /** getHoraTexto(): the time range as the table shows it, "HH:mm - HH:mm". */
    function HoraTexto(): string
      reads this
    {
      FormatoHM(horaInicio) + SeparadorHoras + FormatoHM(horaFin)
    }

    method SetHoraInicio(h: Hora)
      modifies this
      ensures Valor() == old(Valor()).(horaInicio := h)
    {
      horaInicio := h;
    }

    method SetHoraFin(h: Hora)
      modifies this
      ensures Valor() == old(Valor()).(horaFin := h)
    {
      horaFin := h;
    }
  }

  const SeparadorHoras: string := " - "

  /** The states of a sequence of rows. */
  function FilasDe(cs: seq<ConfiguracionHora>): (r: seq<Fila>)
    reads cs
    ensures |r| == |cs| && forall i :: 0 <= i < |cs| ==> r[i] == cs[i].Valor()
  {
    seq(|cs|, i requires 0 <= i < |cs| reads cs => cs[i].Valor())
  }

  lemma FilasDeUltimo(cs: seq<ConfiguracionHora>, c: ConfiguracionHora)
    ensures FilasDe(cs + [c]) == FilasDe(cs) + [c.Valor()]
  {
    assert (cs + [c])[..|cs|] == cs;
  }

  /** No row object appears twice: each row of the table is its own object. */
  predicate SinRepetir(cs: seq<ConfiguracionHora>)
    decreases |cs|
  {
    cs == [] || (cs[|cs| - 1] !in cs[..|cs| - 1] && SinRepetir(cs[..|cs| - 1]))
  }

  lemma {:induction false} SinRepetirDistintas(cs: seq<ConfiguracionHora>, i: nat, j: nat)
    requires SinRepetir(cs) && i < |cs| && j < |cs| && i != j
    ensures cs[i] != cs[j]
    decreases |cs|
  {
    var n := |cs| - 1;
    if i < n && j < n {
      SinRepetirDistintas(cs[..n], i, j);
    } else if i == n {
      assert cs[j] == cs[..n][j];
    } else {
      assert cs[i] == cs[..n][i];
    }
  }

  /** List.indexOf: the first position of a row object, None when it is not in the table. */
  function Posicion(cs: seq<ConfiguracionHora>, c: ConfiguracionHora): (r: Option<nat>)
    ensures r.Some? ==> r.value < |cs| && cs[r.value] == c && forall j :: 0 <= j < r.value ==> cs[j] != c
    ensures r.None? ==> c !in cs
  {
    if cs == [] then None
    else if cs[0] == c then Some(0)
    else match Posicion(cs[1..], c)
      case None => None
      case Some(i) => Some(i + 1)
  }

  // Editing a row's time range

  /** A time range as both procesarCambioHorario and procesarLineaBloque read it: split on " - "
      into exactly two pieces, each a time once trimmed. */
  function LeerRango(texto: string): Option<(Hora, Hora)>
  {
    var partes := Dividir(texto, SeparadorHoras);
    if |partes| != 2 then None
    else
      match ParsearHora(Recortar(partes[0]))
      case None => None
      case Some(inicio) =>
        match ParsearHora(Recortar(partes[1]))
        case None => None
        case Some(fin) => Some((inicio, fin))
  }

  /** procesarCambioHorario on the edited text: the range read from it, refused (None) unless
      the end is strictly after the start. */
  function CambioHorario(texto: string): (r: Option<(Hora, Hora)>)
    ensures r.Some? <==> LeerRango(texto).Some? && LeerRango(texto).value.0 < LeerRango(texto).value.1
    ensures r.Some? ==> r == LeerRango(texto)
  {
    match LeerRango(texto)
    case None => None
    case Some((inicio, fin)) => if fin <= inicio then None else Some((inicio, fin))
  }

  /** A field that trim() leaves alone and that holds no blank: a formatted time. */
  predicate CampoLimpio(x: string)
  {
    x != [] && SinBordes(x) && ' ' !in x
  }

  lemma FormatoHMSLimpio(t: Hora)
    ensures CampoLimpio(FormatoHMS(t))
  {
    FormatoHMSCaracteres(t);
  }

  lemma FormatoHMLimpio(t: Hora)
    ensures CampoLimpio(FormatoHM(t))
  {
    FormatoHMCaracteres(t);
  }

  /** Two clean fields that parse as times, joined by " - ", read back as those two times. */
  lemma LeerRangoDe(x: string, y: string, a: Hora, b: Hora)
    requires CampoLimpio(x) && CampoLimpio(y)
    requires ParsearHora(x) == Some(a) && ParsearHora(y) == Some(b)
    ensures LeerRango(x + SeparadorHoras + y) == Some((a, b))
  {
    DividirDos(x, SeparadorHoras, y);
    RecortarSinBordes(x);
    RecortarSinBordes(y);
  }

  /** "HH:mm:ss - HH:mm:ss" reads back as the two times written. */
  lemma LeerRangoHMS(a: Hora, b: Hora)
    ensures LeerRango(FormatoHMS(a) + SeparadorHoras + FormatoHMS(b)) == Some((a, b))
  {
    FormatoHMSLimpio(a);
    FormatoHMSLimpio(b);
    ParsearFormatoHMS(a);
    ParsearFormatoHMS(b);
    LeerRangoDe(FormatoHMS(a), FormatoHMS(b), a, b);
  }

  /** A range written as "HH:mm:ss - HH:mm:ss" is accepted exactly when the end is after the
      start, and then gives those two times. */
  lemma CambioHorarioHMS(a: Hora, b: Hora)
    ensures CambioHorario(FormatoHMS(a) + SeparadorHoras + FormatoHMS(b)) == if a < b then Some((a, b)) else None
  {
    LeerRangoHMS(a, b);
  }

  /** The text a row shows (getHoraTexto), typed back unchanged, gives the row's own times when
      they are whole minutes and the end is after the start, and is refused otherwise. */
  lemma CambioHorarioHoraTexto(a: Hora, b: Hora)
    requires a % 60 == 0 && b % 60 == 0
    ensures CambioHorario(FormatoHM(a) + SeparadorHoras + FormatoHM(b)) == if a < b then Some((a, b)) else None
  {
    FormatoHMLimpio(a);
    FormatoHMLimpio(b);
    ParsearFormatoHM(a);
    ParsearFormatoHM(b);
    LeerRangoDe(FormatoHM(a), FormatoHM(b), a, b);
  }

  // Cascading a change to the following rows

  /** A row moved to start at inicio, keeping its own duration (the end wraps past midnight). */
  function Reencadenar(f: Fila, inicio: Hora): Fila
  {
    f.(horaInicio := inicio, horaFin := Sumar(inicio, Entre(f.horaInicio, f.horaFin)))
  }

  /** The end of the last row, or fin when there is none. */
  function FinUltima(fs: seq<Fila>, fin: Hora): Hora
  {
    if fs == [] then fin else fs[|fs| - 1].horaFin
  }

  /** The rows moved one after the other, the first to start at fin. */
  function Encadenar(fs: seq<Fila>, fin: Hora): (r: seq<Fila>)
    ensures |r| == |fs|
  {
    if fs == [] then []
    else
      var p := Encadenar(fs[..|fs| - 1], fin);
      p + [Reencadenar(fs[|fs| - 1], FinUltima(p, fin))]
  }

  lemma EncadenarUltimo(fs: seq<Fila>, x: Fila, fin: Hora)
    ensures Encadenar(fs + [x], fin) == Encadenar(fs, fin) + [Reencadenar(x, FinUltima(Encadenar(fs, fin), fin))]
  {
    assert (fs + [x])[..|fs|] == fs;
  }

  /** A row that has the same genre and folder as another and lasts as long modulo a day. */
  predicate MismoContenido(nueva: Fila, vieja: Fila)
  {
    nueva.genero == vieja.genero && nueva.rutaCarpeta == vieja.rutaCarpeta
    && (nueva.horaFin - nueva.horaInicio) % SegundosDia == (vieja.horaFin - vieja.horaInicio) % SegundosDia
  }

  /** The moved rows keep their genre and folder, and each lasts as long as before modulo a day. */
  lemma {:induction false} EncadenarConserva(fs: seq<Fila>, fin: Hora)
    ensures forall j :: 0 <= j < |fs| ==> MismoContenido(Encadenar(fs, fin)[j], fs[j])
    decreases |fs|
  {
    if fs != [] {
      var n := |fs|;
      var p := Encadenar(fs[..n - 1], fin);
      EncadenarConserva(fs[..n - 1], fin);
      var y := Reencadenar(fs[n - 1], FinUltima(p, fin));
      MismaDuracion(y.horaFin, y.horaInicio, fs[n - 1].horaFin - fs[n - 1].horaInicio);
      assert Encadenar(fs, fin) == p + [y];
    }
  }

  /** The first moved row starts at fin and each of the others where the one before it ends. */
  lemma {:induction false} EncadenarContiguo(fs: seq<Fila>, fin: Hora)
    ensures fs != [] ==> Encadenar(fs, fin)[0].horaInicio == fin
    ensures forall j :: 0 <= j < |fs| - 1 ==> Encadenar(fs, fin)[j + 1].horaInicio == Encadenar(fs, fin)[j].horaFin
    decreases |fs|
  {
    if fs != [] {
      var n := |fs|;
      var p := Encadenar(fs[..n - 1], fin);
      EncadenarContiguo(fs[..n - 1], fin);
      assert Encadenar(fs, fin) == p + [Reencadenar(fs[n - 1], FinUltima(p, fin))];
    }
  }

  lemma MismaDuracion(fin: Hora, inicio: Hora, d: int)
    requires fin == Sumar(inicio, d)
    ensures (fin - inicio) % SegundosDia == d % SegundosDia
  {
    var k := (inicio + d) / SegundosDia;
    assert inicio + d == k * SegundosDia + fin;
    assert fin - inicio == d - k * SegundosDia;
  }

  /** actualizarHorariosSecuenciales on the rows, given the position of the edited row (None when
      it is not in the table): nothing changes when it is absent or last; otherwise every later
      row is moved to start where the one before it now ends. */
  function Cascada(filas: seq<Fila>, k: Option<nat>): (r: seq<Fila>)
    ensures |r| == |filas|
  {
    match k
    case None => filas
    case Some(i) => if i + 1 >= |filas| then filas else filas[..i + 1] + Encadenar(filas[i + 1..], filas[i].horaFin)
  }

  /** Replacing the first row after the moved ones by its moved form extends the moved part. */
  lemma ReemplazarSiguiente(pre: seq<Fila>, hechas: seq<Fila>, x: Fila, resto: seq<Fila>)
    requires resto != []
    ensures (pre + hechas + resto)[|pre| + |hechas| := x] == pre + (hechas + [x]) + resto[1..]
  {
  }

  /** When the moved part reaches the last row, the rows are the cascade from row i. */
  /** The state of the cascade loop after rows actual+1..i-1 of antes have been moved: they are
      chained from fin0, the rest is untouched, and horaFin is where the moved part ends. */
  ghost predicate Tramo(filas: seq<Fila>, antes: seq<Fila>, actual: nat, i: nat, fin0: Hora, horaFin: Hora)
  {
    actual + 1 <= i <= |antes|
    && horaFin == FinUltima(Encadenar(antes[actual + 1..i], fin0), fin0)
    && filas == antes[..actual + 1] + Encadenar(antes[actual + 1..i], fin0) + antes[i..]
  }

  lemma TramoInicial(antes: seq<Fila>, actual: nat)
    requires actual + 1 < |antes|
    ensures Tramo(antes, antes, actual, actual + 1, antes[actual].horaFin, antes[actual].horaFin)
  {
    assert antes == antes[..actual + 1] + Encadenar(antes[actual + 1..actual + 1], antes[actual].horaFin) + antes[actual + 1..];
  }

  lemma TramoFinal(filas: seq<Fila>, antes: seq<Fila>, actual: nat, i: nat, fin0: Hora, horaFin: Hora)
    requires actual + 1 < |antes| == i && fin0 == antes[actual].horaFin
    requires Tramo(filas, antes, actual, i, fin0, horaFin)
    ensures filas == Cascada(antes, Some(actual))
  {
    CascadaCompleta(antes, actual, Encadenar(antes[actual + 1..|antes|], fin0), antes[|antes|..]);
  }

  lemma CascadaCompleta(filas: seq<Fila>, i: nat, hechas: seq<Fila>, resto: seq<Fila>)
    requires i + 1 < |filas| && resto == [] && hechas == Encadenar(filas[i + 1..|filas|], filas[i].horaFin)
    ensures filas[..i + 1] + hechas + resto == Cascada(filas, Some(i))
  {
    assert filas[i + 1..|filas|] == filas[i + 1..];
  }

  /** After a cascade from row i: the rows up to i are unchanged, every row keeps its genre, its
      folder and its duration modulo a day, and from row i on each row starts where the previous
      one ends. */
  lemma CascadaPropiedades(filas: seq<Fila>, i: nat)
    requires i < |filas|
    ensures Cascada(filas, Some(i))[..i + 1] == filas[..i + 1]
    ensures forall j :: 0 <= j < |filas| ==> MismoContenido(Cascada(filas, Some(i))[j], filas[j])
    ensures forall j :: i <= j < |filas| - 1 ==> Cascada(filas, Some(i))[j + 1].horaInicio == Cascada(filas, Some(i))[j].horaFin
  {
    if i + 1 < |filas| {
      var pre := filas[..i + 1];
      var resto := filas[i + 1..];
      var e := Encadenar(resto, filas[i].horaFin);
      assert filas == pre + resto;
      EncadenarConserva(resto, filas[i].horaFin);
      EncadenarContiguo(resto, filas[i].horaFin);
      ConservaTras(pre, resto, e);
      ContiguaTras(pre, e);
    } else {
      forall j | 0 <= j < |filas|
        ensures MismoContenido(filas[j], filas[j])
      {
      }
    }
  }

  /** Replacing the tail of a table by rows with the same content keeps the content of every row. */
  lemma ConservaTras(pre: seq<Fila>, resto: seq<Fila>, e: seq<Fila>)
    requires |e| == |resto|
    requires forall j :: 0 <= j < |e| ==> MismoContenido(e[j], resto[j])
    ensures forall j :: 0 <= j < |pre + e| ==> MismoContenido((pre + e)[j], (pre + resto)[j])
  {
    forall j | 0 <= j < |pre + e|
      ensures MismoContenido((pre + e)[j], (pre + resto)[j])
    {
      if j >= |pre| {
        assert (pre + e)[j] == e[j - |pre|] && (pre + resto)[j] == resto[j - |pre|];
      }
    }
  }

  /** A chained tail whose first row starts where the last row of pre ends keeps the table
      chained from the last row of pre on. */
  lemma ContiguaTras(pre: seq<Fila>, e: seq<Fila>)
    requires pre != [] && (e != [] ==> e[0].horaInicio == pre[|pre| - 1].horaFin)
    requires forall j :: 0 <= j < |e| - 1 ==> e[j + 1].horaInicio == e[j].horaFin
    ensures forall j :: |pre| - 1 <= j < |pre + e| - 1 ==> (pre + e)[j + 1].horaInicio == (pre + e)[j].horaFin
  {
    forall j | |pre| - 1 <= j < |pre + e| - 1
      ensures (pre + e)[j + 1].horaInicio == (pre + e)[j].horaFin
    {
      assert (pre + e)[j + 1] == e[j + 1 - |pre|];
      if j >= |pre| {
        assert (pre + e)[j] == e[j - |pre|];
      }
    }
  }

  // Genre lookup

  /** The first genre of gs with that display name. */
  function BuscarEn(gs: seq<Genero>, nombre: string): (r: Option<Genero>)
    ensures r.Some? ==> r.value in gs && r.value.Nombre() == nombre
    ensures r.None? ==> forall g :: g in gs ==> g.Nombre() != nombre
  {
    if gs == [] then None
    else if gs[0].Nombre() == nombre then Some(gs[0])
    else BuscarEn(gs[1..], nombre)
  }

  /** buscarGeneroPorNombre: the genre whose display name is exactly nombre, Variado when none is. */
  function BuscarGeneroPorNombre(nombre: string): (g: Genero)
    ensures g.Nombre() == nombre || (g == Variado && forall h: Genero :: h.Nombre() != nombre)
  {
    ValoresCompletos();
    match BuscarEn(Valores, nombre)
    case Some(g) => g
    case None => Variado
  }

  /** Two genres with the same display name are the same genre. */
  lemma NombreInyectivo(g: Genero, h: Genero)
    requires g.Nombre() == h.Nombre()
    ensures g == h
  {
    assert |g.Nombre()| == |h.Nombre()|;
    assert g.Nombre()[0] == h.Nombre()[0];
  }

  /** Looking up a genre's own display name finds that genre. */
  lemma BuscarNombrePropio(g: Genero)
    ensures BuscarGeneroPorNombre(g.Nombre()) == g
  {
    NombreInyectivo(BuscarGeneroPorNombre(g.Nombre()), g);
  }

  // Reading a block line of the configuration file

  const SeparadorCampos: string := "|"
  const SeparadorNumero: string := ": "

  /** procesarLineaBloque: the row a line "Bloque NN: start - end | genre | folder" describes.
      None when the line does not have exactly three '|'-fields, when the first field (trimmed)
      has no ": ", or when what follows it is not a range of two times; the genre falls back to
      Variado and the folder is taken trimmed. */
  function LeerLineaBloque(linea: string): (r: Option<Fila>)
    ensures |Dividir(linea, SeparadorCampos)| != 3 ==> r == None
    ensures r.Some? ==>
              && |Dividir(linea, SeparadorCampos)| == 3
              && SinBordes(r.value.rutaCarpeta)
              && LeerCampoHoras(Recortar(Dividir(linea, SeparadorCampos)[0])) == Some((r.value.horaInicio, r.value.horaFin))
  {
    var partes := Dividir(linea, SeparadorCampos);
    if |partes| != 3 then None
    else
      match LeerCampoHoras(Recortar(partes[0]))
      case None => None
      case Some(rango) =>
        RecortarDaSinBordes(partes[2]);
        Some(Fila(rango.0, rango.1, BuscarGeneroPorNombre(Recortar(partes[1])), Recortar(partes[2])))
  }

  /** The time field of a block line: the range after its first ": ". */
  function LeerCampoHoras(parteHora: string): (r: Option<(Hora, Hora)>)
    ensures !Contiene(parteHora, SeparadorNumero) ==> r == None
    ensures r.Some? ==> LeerRango(parteHora[IndiceDe(parteHora, SeparadorNumero).value + 2..]) == r
  {
    match IndiceDe(parteHora, SeparadorNumero)
    case None => None
    case Some(k) => if k + 2 > |parteHora| then None else LeerRango(parteHora[k + 2..])
  }

  /** The time field of a written line: "Bloque NN: HH:mm:ss - HH:mm:ss". */
  function CampoHoras(n: nat, inicio: Hora, fin: Hora): string
  {
    PrefijoBloque(n) + SeparadorNumero + FormatoHMS(inicio) + SeparadorHoras + FormatoHMS(fin)
  }

  function PrefijoBloque(n: nat): string
  {
    "Bloque " + Rellenar(n, 2)
  }

  /** A formatted time holds neither a blank nor a '|'. */
  lemma FormatoHMSSinBarra(t: Hora)
    ensures |FormatoHMS(t)| == 8
    ensures forall i :: 0 <= i < 8 ==> !EsEspacio(FormatoHMS(t)[i]) && FormatoHMS(t)[i] != '|'
  {
    FormatoHMSCaracteres(t);
  }

  lemma PrefijoSinDosPuntos(n: nat)
    ensures ':' !in PrefijoBloque(n) && '|' !in PrefijoBloque(n)
  {
    var p := PrefijoBloque(n);
    var d := Rellenar(n, 2);
    assert p == "Bloque " + d;
    forall i | 0 <= i < |p| ensures p[i] != ':' && p[i] != '|' {
      if i >= 7 {
        assert p[i] == d[i - 7];
        assert EsDigito(d[i - 7]);
      }
    }
  }

  /** The time field of a written line reads back as its two times. */
  lemma CampoHorasLeido(n: nat, inicio: Hora, fin: Hora)
    ensures LeerCampoHoras(CampoHoras(n, inicio, fin)) == Some((inicio, fin))
  {
    var p := PrefijoBloque(n);
    var x := FormatoHMS(inicio);
    var y := FormatoHMS(fin);
    PrefijoSinDosPuntos(n);
    FormatoHMSLimpio(inicio);
    FormatoHMSLimpio(fin);
    ParsearFormatoHMS(inicio);
    ParsearFormatoHMS(fin);
    Asociar4(p + SeparadorNumero, x, SeparadorHoras, y);
    LeerCampoTras(p, x, y, inicio, fin);
  }

  /** A time field "p: x - y" with no ':' in p and two clean times reads back as those times. */
  lemma LeerCampoTras(p: string, x: string, y: string, a: Hora, b: Hora)
    requires ':' !in p && CampoLimpio(x) && CampoLimpio(y)
    requires ParsearHora(x) == Some(a) && ParsearHora(y) == Some(b)
    ensures LeerCampoHoras(p + SeparadorNumero + (x + SeparadorHoras + y)) == Some((a, b))
  {
    var q := x + SeparadorHoras + y;
    IndiceTrasNumero(p, q);
    LeerRangoDe(x, y, a, b);
    LeerCampoHorasDe(p + SeparadorNumero + q, |p|);
  }

  /** LeerCampoHoras step by step: with the first ": " at k, the field reads as the range after it. */
  lemma LeerCampoHorasDe(campo: string, k: nat)
    requires IndiceDe(campo, SeparadorNumero) == Some(k) && k + 2 <= |campo|
    ensures LeerCampoHoras(campo) == LeerRango(campo[k + 2..])
  {
  }

  /** Joining pieces without '|' by ": " and " - " gives a field without '|'; its borders are the
      first piece's first character and the last piece's last. */
  lemma CampoUnido(p: string, x: string, y: string)
    requires '|' !in p && '|' !in x && '|' !in y
    requires p != [] && !EsEspacio(p[0]) && y != [] && !EsEspacio(y[|y| - 1])
    ensures '|' !in p + SeparadorNumero + x + SeparadorHoras + y
    ensures SinBordes(p + SeparadorNumero + x + SeparadorHoras + y)
  {
    var c := p + SeparadorNumero + x + SeparadorHoras + y;
    assert c[0] == p[0] && c[|c| - 1] == y[|y| - 1];
  }

  /** The time field holds no '|' and has no blank borders. */
  lemma CampoHorasLimpio(n: nat, inicio: Hora, fin: Hora)
    ensures '|' !in CampoHoras(n, inicio, fin)
    ensures CampoHoras(n, inicio, fin) != [] && SinBordes(CampoHoras(n, inicio, fin))
  {
    var p := PrefijoBloque(n);
    var x := FormatoHMS(inicio);
    var y := FormatoHMS(fin);
    assert '|' !in p && p[0] == 'B' by {
      PrefijoSinDosPuntos(n);
    }
    assert '|' !in x by {
      FormatoHMSSinBarra(inicio);
    }
    assert '|' !in y && |y| == 8 && !EsEspacio(y[7]) by {
      FormatoHMSSinBarra(fin);
    }
    CampoUnido(p, x, y);
  }

  /** The first ": " after a prefix without ':' is the one right after it. */
  lemma IndiceTrasNumero(p: string, q: string)
    requires ':' !in p
    ensures IndiceDe(p + SeparadorNumero + q, SeparadorNumero) == Some(|p|)
    ensures |p| + 2 <= |p + SeparadorNumero + q| && (p + SeparadorNumero + q)[|p| + 2..] == q
  {
    IndiceTrasPrefijo(p, SeparadorNumero, q);
  }

  /** The first ": " of the time field is the one after the block number, and what follows it is
      the written range. */
  lemma CampoHorasIndice(n: nat, inicio: Hora, fin: Hora)
    ensures IndiceDe(CampoHoras(n, inicio, fin), SeparadorNumero) == Some(|PrefijoBloque(n)|)
    ensures CampoHoras(n, inicio, fin)[|PrefijoBloque(n)| + 2..] == FormatoHMS(inicio) + SeparadorHoras + FormatoHMS(fin)
  {
    var p := PrefijoBloque(n);
    var q := FormatoHMS(inicio) + SeparadorHoras + FormatoHMS(fin);
    Asociar4(p + SeparadorNumero, FormatoHMS(inicio), SeparadorHoras, FormatoHMS(fin));
    PrefijoSinDosPuntos(n);
    IndiceTrasNumero(p, q);
  }

  /** " | " is a '|' with a blank on each side. */
  lemma TresCampos(campo: string, nombre: string, ruta: string)
    ensures campo + " | " + nombre + " | " + ruta
      == (campo + " ") + SeparadorCampos + (" " + nombre + " ") + SeparadorCampos + (" " + ruta)
  {
  }

  /** The three '|'-fields of a written line, each with the blanks around it. */
  lemma LineaEnCampos(n: nat, f: Fila)
    requires '|' !in f.rutaCarpeta && f.rutaCarpeta != []
    ensures Dividir(Archivos.LineaConfiguracion(n, f.horaInicio, f.horaFin, f.genero, f.rutaCarpeta), SeparadorCampos)
      == [CampoHoras(n, f.horaInicio, f.horaFin) + " ", " " + f.genero.Nombre() + " ", " " + f.rutaCarpeta]
  {
    var campo := CampoHoras(n, f.horaInicio, f.horaFin);
    var a := campo + " ";
    var b := " " + f.genero.Nombre() + " ";
    var c := " " + f.rutaCarpeta;
    assert Archivos.LineaConfiguracion(n, f.horaInicio, f.horaFin, f.genero, f.rutaCarpeta)
      == campo + " | " + f.genero.Nombre() + " | " + f.rutaCarpeta;
    TresCampos(campo, f.genero.Nombre(), f.rutaCarpeta);
    assert '|' !in a by {
      CampoHorasLimpio(n, f.horaInicio, f.horaFin);
    }
    assert '|' !in b by {
      NombreCampoLimpio(f.genero);
    }
    DividirTres(a, SeparadorCampos, b, c);
  }

  /** Round trip of the configuration file: a block line as exportarConfiguracionCompleta writes it
      reads back as the same start, end, genre and folder, for a folder with no '|' and no blanks
      at its ends. */
  lemma LeerLineaEscrita(n: nat, f: Fila)
    requires f.rutaCarpeta != [] && SinBordes(f.rutaCarpeta) && '|' !in f.rutaCarpeta
    ensures LeerLineaBloque(Archivos.LineaConfiguracion(n, f.horaInicio, f.horaFin, f.genero, f.rutaCarpeta)) == Some(f)
  {
    var campo := CampoHoras(n, f.horaInicio, f.horaFin);
    LineaEnCampos(n, f);
    CamposRecortados(n, f);
    CampoHorasLeido(n, f.horaInicio, f.horaFin);
    LeerLineaDe(Archivos.LineaConfiguracion(n, f.horaInicio, f.horaFin, f.genero, f.rutaCarpeta),
      [campo + " ", " " + f.genero.Nombre() + " ", " " + f.rutaCarpeta], f);
  }

  /** Trimming the three fields of a written line gives back the time field, the genre's name
      (which finds the genre) and the folder. */
  lemma CamposRecortados(n: nat, f: Fila)
    requires f.rutaCarpeta != [] && SinBordes(f.rutaCarpeta)
    ensures Recortar(CampoHoras(n, f.horaInicio, f.horaFin) + " ") == CampoHoras(n, f.horaInicio, f.horaFin)
    ensures BuscarGeneroPorNombre(Recortar(" " + f.genero.Nombre() + " ")) == f.genero
    ensures Recortar(" " + f.rutaCarpeta) == f.rutaCarpeta
  {
    CampoHorasLimpio(n, f.horaInicio, f.horaFin);
    RecortarTrasBlanco(CampoHoras(n, f.horaInicio, f.horaFin));
    NombreCampoLimpio(f.genero);
    RecortarEntreBlancos(f.genero.Nombre());
    BuscarNombrePropio(f.genero);
    RecortarTrasInicial(f.rutaCarpeta);
  }

  lemma RecortarTrasBlanco(s: string)
    requires s != [] && SinBordes(s)
    ensures Recortar(s + " ") == s
  {
    RecortarRodeado([], s, " ");
    assert [] + s + " " == s + " ";
  }

  lemma RecortarEntreBlancos(s: string)
    requires s != [] && SinBordes(s)
    ensures Recortar(" " + s + " ") == s
  {
    RecortarRodeado(" ", s, " ");
  }

  lemma RecortarTrasInicial(s: string)
    requires s != [] && SinBordes(s)
    ensures Recortar(" " + s) == s
  {
    RecortarRodeado(" ", s, []);
    assert " " + s + [] == " " + s;
  }

  /** LeerLineaBloque step by step: three fields, the first trimmed has its ": " at k and a range
      after it, the second names the genre and the third trims to the folder. */
  lemma LeerLineaDe(linea: string, partes: seq<string>, f: Fila)
    requires Dividir(linea, SeparadorCampos) == partes && |partes| == 3
    requires LeerCampoHoras(Recortar(partes[0])) == Some((f.horaInicio, f.horaFin))
    requires BuscarGeneroPorNombre(Recortar(partes[1])) == f.genero
    requires Recortar(partes[2]) == f.rutaCarpeta
    ensures LeerLineaBloque(linea) == Some(f)
  {
  }

  // The block configuration handed to the generator

  /** The generator's block for a row: its times, genre and folder as entered. */
  function BloqueDeFila(f: Fila): Generacion.ConfiguracionBloque
  {
    Generacion.ConfiguracionBloque(f.horaInicio, f.horaFin, f.genero, f.rutaCarpeta)
  }

  predicate ConCarpeta(f: Fila) { !EnBlanco(f.rutaCarpeta) }

  /** crearConfiguracionBloques on the rows: one block per row whose folder is not blank, in order. */
  function ConfiguracionDeFilas(filas: seq<Fila>): seq<Generacion.ConfiguracionBloque>
  {
    Elegidos(filas, ConCarpeta, BloqueDeFila)
  }

  /** The positions of the rows with a folder, in increasing order. */
  function IndicesConCarpeta(filas: seq<Fila>): seq<nat>
  {
    IndicesDonde(filas, ConCarpeta)
  }

  /** The configuration keeps exactly the rows with a non-blank folder, in their order: the k-th
      block is the row at the k-th such position, the positions increase, and a position is among
      them exactly when its row has a folder. */
  lemma ConfiguracionDeFilasExacta(filas: seq<Fila>)
    ensures |IndicesConCarpeta(filas)| == |ConfiguracionDeFilas(filas)|
    ensures forall k :: 0 <= k < |ConfiguracionDeFilas(filas)| ==>
      ConfiguracionDeFilas(filas)[k] == BloqueDeFila(filas[IndicesConCarpeta(filas)[k]])
    ensures forall k, l :: 0 <= k < l < |IndicesConCarpeta(filas)| ==> IndicesConCarpeta(filas)[k] < IndicesConCarpeta(filas)[l]
    ensures forall j :: 0 <= j < |filas| ==> (j in IndicesConCarpeta(filas) <==> !EnBlanco(filas[j].rutaCarpeta))
  {
    ElegidosExactos(filas, ConCarpeta, BloqueDeFila);
  }

  /** The configuration is empty exactly when every row's folder is blank. */
  lemma ConfiguracionVacia(filas: seq<Fila>)
    ensures ConfiguracionDeFilas(filas) == [] <==> forall j :: 0 <= j < |filas| ==> EnBlanco(filas[j].rutaCarpeta)
  {
    ElegidosVacios(filas, ConCarpeta, BloqueDeFila);
  }

  /** The line exportarConfiguracionCompleta writes for the n-th configured block. */
  function LineaDeBloque(n: nat, b: Generacion.ConfiguracionBloque): string
  {
    Archivos.LineaConfiguracion(n, b.horaInicio, b.horaFin, b.genero, b.rutaCarpeta)
  }

  /** The block lines of the export: the configured rows numbered from 01 in table order; each
      line reads back as its row when the folder has no '|' and no blanks at its ends. */
  lemma LineasExportadas(filas: seq<Fila>)
    requires forall j :: 0 <= j < |filas| ==> SinBordes(filas[j].rutaCarpeta) && '|' !in filas[j].rutaCarpeta
    ensures |Numerar(ConfiguracionDeFilas(filas), LineaDeBloque)| == |IndicesConCarpeta(filas)|
    ensures forall k :: 0 <= k < |IndicesConCarpeta(filas)| ==>
      var f := filas[IndicesConCarpeta(filas)[k]];
      Numerar(ConfiguracionDeFilas(filas), LineaDeBloque)[k]
        == Archivos.LineaConfiguracion(k + 1, f.horaInicio, f.horaFin, f.genero, f.rutaCarpeta)
      && LeerLineaBloque(Numerar(ConfiguracionDeFilas(filas), LineaDeBloque)[k]) == Some(f)
  {
    ConfiguracionDeFilasExacta(filas);
    forall k | 0 <= k < |IndicesConCarpeta(filas)|
      ensures var f := filas[IndicesConCarpeta(filas)[k]];
        Numerar(ConfiguracionDeFilas(filas), LineaDeBloque)[k]
          == Archivos.LineaConfiguracion(k + 1, f.horaInicio, f.horaFin, f.genero, f.rutaCarpeta)
        && LeerLineaBloque(Numerar(ConfiguracionDeFilas(filas), LineaDeBloque)[k]) == Some(f)
    {
      LineaExportada(filas, k);
    }
  }

  /** The k-th block line of the export is the line of the k-th configured row, numbered k + 1,
      and reads back as that row. */
  lemma LineaExportada(filas: seq<Fila>, k: nat)
    requires forall j :: 0 <= j < |filas| ==> SinBordes(filas[j].rutaCarpeta) && '|' !in filas[j].rutaCarpeta
    requires k < |IndicesConCarpeta(filas)|
    ensures k < |Numerar(ConfiguracionDeFilas(filas), LineaDeBloque)|
    ensures var f := filas[IndicesConCarpeta(filas)[k]];
      Numerar(ConfiguracionDeFilas(filas), LineaDeBloque)[k]
        == Archivos.LineaConfiguracion(k + 1, f.horaInicio, f.horaFin, f.genero, f.rutaCarpeta)
      && LeerLineaBloque(Numerar(ConfiguracionDeFilas(filas), LineaDeBloque)[k]) == Some(f)
  {
    ConfiguracionDeFilasExacta(filas);
    var c := ConfiguracionDeFilas(filas);
    var j := IndicesConCarpeta(filas)[k];
    var f := filas[j];
    assert j in IndicesConCarpeta(filas);
    assert c[k] == BloqueDeFila(f);
    NumerarElementos(c, LineaDeBloque);
    assert Numerar(c, LineaDeBloque)[k] == LineaDeBloque(k + 1, BloqueDeFila(f));
    LeerLineaEscrita(k + 1, f);
  }

  // Validation before generating

  predicate HayCarpeta(filas: seq<Fila>)
  {
    exists j :: 0 <= j < |filas| && ConCarpeta(filas[j])
  }

  function ErrorSi(falta: bool, mensaje: string): seq<string>
  {
    if falta then [mensaje] else []
  }

  /** The messages validarConfiguracion collects, in order: one per blank special folder, then
      one when no row has a folder. */
  function ErroresConfiguracion(t: Generacion.Rutas, filas: seq<Fila>): (r: seq<string>)
    ensures |r| <= 6
  {
    ErrorSi(EnBlanco(t.elementosEspeciales), "- Elementos Especiales (Himnos y Poemas)")
    + ErrorSi(EnBlanco(t.identificaciones), "- Identificaciones")
    + ErrorSi(EnBlanco(t.felicitaciones), "- Felicitaciones")
    + ErrorSi(EnBlanco(t.promosA), "- Promos A")
    + ErrorSi(EnBlanco(t.promosB), "- Promos B")
    + ErrorSi(!HayCarpeta(filas), "- Al menos una hora debe tener carpeta configurada")
  }

  predicate CarpetasEspecialesCompletas(t: Generacion.Rutas)
  {
    !EnBlanco(t.elementosEspeciales) && !EnBlanco(t.identificaciones) && !EnBlanco(t.felicitaciones)
    && !EnBlanco(t.promosA) && !EnBlanco(t.promosB)
  }

  /** There is nothing to report exactly when the five special folders are set and some row has a
      folder; without such a row there is at least one message. */
  lemma SinErroresSii(t: Generacion.Rutas, filas: seq<Fila>)
    ensures ErroresConfiguracion(t, filas) == [] <==> CarpetasEspecialesCompletas(t) && HayCarpeta(filas)
    ensures |ErroresConfiguracion(t, filas)| >= (if HayCarpeta(filas) then 0 else 1)
  {
  }

  /** validarConfiguracion: there is nothing to report exactly when the five special folders are
      set and the generator would receive at least one block. */
  lemma ValidaSiiHayBloques(t: Generacion.Rutas, filas: seq<Fila>)
    ensures ErroresConfiguracion(t, filas) == [] <==> CarpetasEspecialesCompletas(t) && ConfiguracionDeFilas(filas) != []
  {
    SinErroresSii(t, filas);
    ConfiguracionVacia(filas);
  }

  // The initial table

  /** inicializarHorarios: thirteen one-hour rows from 07:00 to 20:00, genre Variado, no folder. */
  function HorariosIniciales(): (r: seq<Fila>)
    ensures |r| == 13
  {
    seq(13, i requires 0 <= i < 13 => Fila(DeHM(7 + i, 0), DeHM(8 + i, 0), Variado, ""))
  }

  /** The initial table is the generator's standard configuration, row by row. */
  lemma HorariosInicialesEstandar()
    ensures forall i :: 0 <= i < 13 ==> BloqueDeFila(HorariosIniciales()[i]) == Generacion.ConfiguracionEstandar()[i]
  {
  }

  /** With no folder in any row, the initial table yields no block, so it does not pass
      validation whatever the special folders are. */
  lemma HorariosInicialesSinBloques(t: Generacion.Rutas)
    ensures ConfiguracionDeFilas(HorariosIniciales()) == []
    ensures ErroresConfiguracion(t, HorariosIniciales()) != []
  {
    var h := HorariosIniciales();
    forall j | 0 <= j < |h|
      ensures EnBlanco(h[j].rutaCarpeta)
    {
      assert h[j].rutaCarpeta == "";
    }
    ConfiguracionVacia(h);
    ValidaSiiHayBloques(t, h);
  }

  // The main window's state

  /** The part of the main window the core depends on: the five special-folder fields and the
      schedule table (datosHoras). */
  class MainController {
    var txtElementosEspeciales: string
    var txtIdentificaciones: string
    var txtFelicitaciones: string
    var txtPromosA: string
    var txtPromosB: string
    var datosHoras: seq<ConfiguracionHora>

    /** No row object appears twice in the table. */
    predicate Valid()
      reads this
    {
      SinRepetir(datosHoras)
    }

    function Filas(): seq<Fila>
      reads this, datosHoras
    {
      FilasDe(datosHoras)
    }

    function Textos(): Generacion.Rutas
      reads this
    {
      Generacion.Rutas(txtElementosEspeciales, txtIdentificaciones, txtFelicitaciones, txtPromosA, txtPromosB)
    }

    /** initialize(): empty folder fields and the initial table. */
    constructor ()
      ensures Valid() && Filas() == HorariosIniciales()
      ensures Textos() == Generacion.Rutas("", "", "", "", "")
    {
      txtElementosEspeciales, txtIdentificaciones, txtFelicitaciones := "", "", "";
      txtPromosA, txtPromosB := "", "";
      datosHoras := [];
      new;
      InicializarHorarios();
    }

    /** inicializarHorarios: the table is replaced by thirteen fresh rows, the initial table. */
    method InicializarHorarios()
      modifies this
      ensures Valid() && Filas() == HorariosIniciales()
      ensures forall c :: c in datosHoras ==> fresh(c)
      ensures Textos() == old(Textos())
    {
      datosHoras := [];
      var hora := 7;
      while hora < 20
        invariant 7 <= hora <= 20 && |datosHoras| == hora - 7
        invariant Valid() && forall c :: c in datosHoras ==> fresh(c)
        invariant Filas() == HorariosIniciales()[..hora - 7]
        invariant Textos() == old(Textos())
      {
        var config := new ConfiguracionHora(DeHM(hora, 0), DeHM(hora + 1, 0), Variado, "");
        datosHoras := datosHoras + [config];
        hora := hora + 1;
      }
    }

    /** procesarCambioHorario: the row takes the edited range when it is accepted, and is left
        as it was otherwise. */
    method ProcesarCambioHorario(config: ConfiguracionHora, nuevoHorario: string) returns (ok: bool)
      modifies config
      ensures ok == CambioHorario(nuevoHorario).Some?
      ensures ok ==> config.Valor() == old(config.Valor()).(
        horaInicio := CambioHorario(nuevoHorario).value.0, horaFin := CambioHorario(nuevoHorario).value.1)
      ensures !ok ==> config.Valor() == old(config.Valor())
    {
      var rango := CambioHorario(nuevoHorario);
      if rango.None? {
        return false;
      }
      config.SetHoraInicio(rango.value.0);
      config.SetHoraFin(rango.value.1);
      ok := true;
    }

    /** actualizarHorariosSecuenciales: the table's rows become the cascade from the edited row. */
    method ActualizarHorariosSecuenciales(configCambiado: ConfiguracionHora)
      requires Valid()
      modifies datosHoras
      ensures Filas() == Cascada(old(Filas()), Posicion(datosHoras, configCambiado))
    {
      CascadaDesde(datosHoras, configCambiado);
    }

    /** The body of actualizarHorariosSecuenciales on the table's row objects. */
    static method CascadaDesde(ds: seq<ConfiguracionHora>, configCambiado: ConfiguracionHora)
      requires SinRepetir(ds)
      modifies ds
      ensures FilasDe(ds) == Cascada(old(FilasDe(ds)), Posicion(ds, configCambiado))
    {
      var indiceActual := Posicion(ds, configCambiado);
      if indiceActual.None? || indiceActual.value == |ds| - 1 {
        return;
      }
      var horaFinActual := configCambiado.horaFin;
      Cascadear(ds, indiceActual.value, horaFinActual);
    }

    /** The loop of actualizarHorariosSecuenciales over the rows after row actual, whose end is
        horaFinActual. */
    static method Cascadear(ds: seq<ConfiguracionHora>, actual: nat, horaFinActual: Hora)
      requires SinRepetir(ds) && actual + 1 < |ds| && horaFinActual == ds[actual].horaFin
      modifies ds
      ensures FilasDe(ds) == Cascada(old(FilasDe(ds)), Some(actual))
    {
      ghost var antes := FilasDe(ds);
      ghost var fin0 := antes[actual].horaFin;
      var horaFin := horaFinActual;
      var i := actual + 1;
      TramoInicial(antes, actual);
      while i < |ds|
        invariant actual + 1 <= i <= |ds| == |antes|
        invariant Tramo(FilasDe(ds), antes, actual, i, fin0, horaFin)
      {
        horaFin := PasoCascada(ds, i, actual, antes, fin0, horaFin);
        i := i + 1;
      }
      TramoFinal(FilasDe(ds), antes, actual, i, fin0, horaFin);
    }

    /** One iteration of the cascade loop: row i is moved to start where the moved part ends. */
    static method PasoCascada(ds: seq<ConfiguracionHora>, i: nat, actual: nat, ghost antes: seq<Fila>,
                              ghost fin0: Hora, horaFinActual: Hora)
      returns (fin: Hora)
      requires SinRepetir(ds) && actual + 1 <= i < |ds| == |antes|
      requires Tramo(FilasDe(ds), antes, actual, i, fin0, horaFinActual)
      modifies ds[i]
      ensures Tramo(FilasDe(ds), antes, actual, i + 1, fin0, fin)
    {
      ghost var hechas := Encadenar(antes[actual + 1..i], fin0);
      assert antes[actual + 1..i + 1] == antes[actual + 1..i] + [antes[i]];
      EncadenarUltimo(antes[actual + 1..i], antes[i], fin0);
      ghost var hechas2 := hechas + [Reencadenar(antes[i], horaFinActual)];
      assert |antes[..actual + 1] + hechas| == i;
      ReemplazarSiguiente(antes[..actual + 1], hechas, hechas2[|hechas|], antes[i..]);
      assert antes[i..][1..] == antes[i + 1..];
      assert ds[i].Valor() == antes[i];
      fin := MoverFila(ds, i, horaFinActual);
    }

    /** One row of the cascade: row i of the table moved to start at inicio with its own
        duration, every other row as it was; returns the row's new end. */
    static method MoverFila(ds: seq<ConfiguracionHora>, i: nat, inicio: Hora) returns (fin: Hora)
      requires i < |ds| && SinRepetir(ds)
      modifies ds[i]
      ensures FilasDe(ds) == old(FilasDe(ds))[i := Reencadenar(old(ds[i].Valor()), inicio)]
      ensures fin == Reencadenar(old(ds[i].Valor()), inicio).horaFin
    {
      var c := ds[i];
      var duracion := Entre(c.horaInicio, c.horaFin);
      c.SetHoraInicio(inicio);
      c.SetHoraFin(Sumar(inicio, duracion));
      fin := c.horaFin;
      forall j | 0 <= j < |ds| && j != i ensures ds[j].Valor() == old(ds[j].Valor()) {
        SinRepetirDistintas(ds, i, j);
      }
    }

    /** procesarLineaBloque: a line that reads as a row appends that row, as a new object, to the
        table; any other line leaves the table as it was. */
    method ProcesarLineaBloque(linea: string)
      requires Valid()
      modifies this
      ensures Valid() && Textos() == old(Textos())
      ensures LeerLineaBloque(linea).None? ==> datosHoras == old(datosHoras)
      ensures LeerLineaBloque(linea).Some? ==>
        |datosHoras| == |old(datosHoras)| + 1 && datosHoras[..|old(datosHoras)|] == old(datosHoras)
        && fresh(datosHoras[|old(datosHoras)|])
        && Filas() == old(Filas()) + [LeerLineaBloque(linea).value]
    {
      var fila := LeerLineaBloque(linea);
      if fila.Some? {
        AgregarFila(fila.value);
      }
    }

    /** datosHoras.add(new ConfiguracionHora(...)): a fresh row holding f goes to the end. */
    method AgregarFila(f: Fila)
      requires Valid()
      modifies this
      ensures Valid() && Textos() == old(Textos())
      ensures |datosHoras| == |old(datosHoras)| + 1 && datosHoras[..|old(datosHoras)|] == old(datosHoras)
      ensures fresh(datosHoras[|old(datosHoras)|])
      ensures Filas() == old(Filas()) + [f]
    {
      ghost var antes := datosHoras;
      var config := new ConfiguracionHora(f.horaInicio, f.horaFin, f.genero, f.rutaCarpeta);
      assert config !in antes;
      datosHoras := datosHoras + [config];
      assert datosHoras[..|antes|] == antes;
      FilasDeUltimo(antes, config);
      assert FilasDe(antes) == old(FilasDe(antes));
    }

    /** crearConfiguracionBloques: the generator's blocks for the rows with a folder. */
    method CrearConfiguracionBloques() returns (configuracion: seq<Generacion.ConfiguracionBloque>)
      ensures configuracion == ConfiguracionDeFilas(Filas())
    {
      ghost var filas := Filas();
      configuracion := [];
      var i := 0;
      while i < |datosHoras|
        invariant 0 <= i <= |datosHoras| == |filas|
        invariant configuracion == ConfiguracionDeFilas(filas[..i])
      {
        var config := datosHoras[i];
        assert config.Valor() == filas[i];
        assert filas[..i + 1] == filas[..i] + [filas[i]];
        ElegidosUltimo(filas[..i], filas[i], ConCarpeta, BloqueDeFila);
        if !EnBlanco(config.rutaCarpeta) {
          configuracion := configuracion + [BloqueDeFila(config.Valor())];
        }
        i := i + 1;
      }
      assert filas[..i] == filas;
    }

    /** The block lines exportarConfiguracionCompleta writes: the configured rows, numbered from 01. */
    method LineasBloquesExportacion() returns (lineas: seq<string>)
      ensures lineas == Numerar(ConfiguracionDeFilas(Filas()), LineaDeBloque)
    {
      lineas := LineasNumeradas(datosHoras, LineaDeBloque);
    }

    /** The loop of the export over the row objects: each row with a folder gives the line formato
        writes for it under the next block number. */
    static method LineasNumeradas(ds: seq<ConfiguracionHora>, formato: (nat, Generacion.ConfiguracionBloque) -> string)
      returns (lineas: seq<string>)
      ensures lineas == Numerar(ConfiguracionDeFilas(FilasDe(ds)), formato)
    {
      ghost var filas := FilasDe(ds);
      lineas := [];
      var numeroBloque := 1;
      var i := 0;
      while i < |ds|
        invariant 0 <= i <= |ds| == |filas|
        invariant lineas == Numerar(ConfiguracionDeFilas(filas[..i]), formato)
        invariant numeroBloque == |ConfiguracionDeFilas(filas[..i])| + 1
      {
        var config := ds[i];
        assert config.Valor() == filas[i];
        assert filas[..i + 1] == filas[..i] + [filas[i]];
        ElegidosUltimo(filas[..i], filas[i], ConCarpeta, BloqueDeFila);
        ghost var hechas := ConfiguracionDeFilas(filas[..i]);
        assert ConfiguracionDeFilas(filas[..i + 1]) == hechas + (if ConCarpeta(filas[i]) then [BloqueDeFila(filas[i])] else []);
        if !EnBlanco(config.rutaCarpeta) {
          assert ConCarpeta(filas[i]);
          NumerarUltimo(hechas, BloqueDeFila(filas[i]), formato);
          lineas := lineas + [formato(numeroBloque, BloqueDeFila(config.Valor()))];
          numeroBloque := numeroBloque + 1;
          assert lineas == Numerar(hechas + [BloqueDeFila(filas[i])], formato);
          assert lineas == Numerar(ConfiguracionDeFilas(filas[..i + 1]), formato);
        } else {
          assert !ConCarpeta(filas[i]);
          assert ConfiguracionDeFilas(filas[..i + 1]) == hechas;
          assert lineas == Numerar(ConfiguracionDeFilas(filas[..i + 1]), formato);
        }
        i := i + 1;
      }
      assert filas[..i] == filas;
    }

    /** validarConfiguracion: true exactly when there is nothing to report. */
    method ValidarConfiguracion() returns (ok: bool)
      ensures ok <==> ErroresConfiguracion(Textos(), Filas()) == []
    {
      ghost var filas := Filas();
      var faltanEspeciales := EnBlanco(txtElementosEspeciales) || EnBlanco(txtIdentificaciones)
        || EnBlanco(txtFelicitaciones) || EnBlanco(txtPromosA) || EnBlanco(txtPromosB);
      var hayAlMenosUnaHora := false;
      var i := 0;
      while i < |datosHoras|
        invariant 0 <= i <= |datosHoras| == |filas| && !hayAlMenosUnaHora
        invariant forall j :: 0 <= j < i ==> !ConCarpeta(filas[j])
      {
        if !EnBlanco(datosHoras[i].rutaCarpeta) {
          hayAlMenosUnaHora := true;
          assert ConCarpeta(filas[i]);
          break;
        }
        i := i + 1;
      }
      assert hayAlMenosUnaHora <==> HayCarpeta(filas);
      assert faltanEspeciales <==> !CarpetasEspecialesCompletas(Textos());
      SinErroresSii(Textos(), filas);
      ok := !faltanEspeciales && hayAlMenosUnaHora;
    }
  }
}
