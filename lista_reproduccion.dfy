// A day's playlist: date, nominal start and end, the hour blocks, the opening and
// closing ceremonial items and the path of the written .lst file.
module ListasReproduccion {
  import opened Opcionales
  import opened Tiempo
  import opened Generos
  import opened InsercionesEspeciales
  import opened BloquesHora

  /** The state of a playlist at one moment, with the state of each of its blocks. */
  datatype Lista = Lista(
    fecha: Fecha, horaInicio: Hora, horaFin: Hora, bloques: seq<Bloque>,
    apertura: seq<InsercionEspecial>, cierre: seq<InsercionEspecial>, rutaArchivoLst: Option<string>)

  function SumaCanciones(bs: seq<Bloque>): nat
  {
    if bs == [] then 0 else SumaCanciones(bs[..|bs| - 1]) + |bs[|bs| - 1].canciones|
  }

  function SumaInserciones(bs: seq<Bloque>): nat
  {
    if bs == [] then 0 else SumaInserciones(bs[..|bs| - 1]) + |bs[|bs| - 1].inserciones|
  }

  /** The totals over a concatenation of blocks add up. */
  lemma {:induction false} SumasConcatenadas(a: seq<Bloque>, b: seq<Bloque>)
    ensures SumaCanciones(a + b) == SumaCanciones(a) + SumaCanciones(b)
    ensures SumaInserciones(a + b) == SumaInserciones(a) + SumaInserciones(b)
    decreases |b|
  {
    if b != [] {
      var c := a + b;
      assert c[..|c| - 1] == a + b[..|b| - 1];
      SumasConcatenadas(a, b[..|b| - 1]);
    } else {
      assert a + b == a;
    }
  }

  /** Blocks without insertions contribute nothing to the insertion total. */
  lemma {:induction false} SumaInsercionesVacias(bs: seq<Bloque>)
    requires forall i :: 0 <= i < |bs| ==> bs[i].inserciones == []
    ensures SumaInserciones(bs) == 0
  {
    if bs != [] {
      SumaInsercionesVacias(bs[..|bs| - 1]);
    }
  }

  /** getTotalInserciones() over a state. */
  function TotalInserciones(l: Lista): nat
  {
    |l.apertura| + |l.cierre| + SumaInserciones(l.bloques)
  }

  function EstadosDe(bs: seq<BloqueHora>): (r: seq<Bloque>)
    reads bs
    ensures |r| == |bs| && forall i :: 0 <= i < |bs| ==> r[i] == bs[i].Valor()
  {
    if bs == [] then [] else EstadosDe(bs[..|bs| - 1]) + [bs[|bs| - 1].Valor()]
  }

  class ListaReproduccion {
    var fecha: Fecha
    var horaInicio: Hora
    var horaFin: Hora
    var bloques: seq<BloqueHora>
    var apertura: seq<InsercionEspecial>
    var cierre: seq<InsercionEspecial>
    var rutaArchivoLst: Option<string>

    function Valor(): Lista
      reads this, bloques
    {
      Lista(fecha, horaInicio, horaFin, EstadosDe(bloques), apertura, cierre, rutaArchivoLst)
    }

    /** ListaReproduccion(fecha): no blocks, empty opening and closing, 07:00 to 20:07.
        The constructor without arguments is this one with the current date. */
    constructor (fecha: Fecha)
      ensures Valor() == Lista(fecha, DeHM(7, 0), DeHM(20, 7), [], [], [], None)
    {
      this.fecha := fecha;
      horaInicio := DeHM(7, 0);
      horaFin := DeHM(20, 7);
      bloques := [];
      apertura := [];
      cierre := [];
      rutaArchivoLst := None;
    }

    /** inicializarBloquesEstandar(): thirteen new blocks, hour h to h + 1 for h from 7 to 19, genre Variado, no folder. */
    method InicializarBloquesEstandar()
      modifies this
      ensures |bloques| == 13
      ensures forall i :: 0 <= i < 13 ==> fresh(bloques[i])
      ensures forall i, j :: 0 <= i < j < 13 ==> bloques[i] != bloques[j]
      ensures forall i :: 0 <= i < 13 ==>
        bloques[i].Valor() == Bloque(DeHM(7 + i, 0), DeHM(8 + i, 0), Variado, "", [], [], ToleranciaPorDefecto)
      ensures fecha == old(fecha) && horaInicio == old(horaInicio) && horaFin == old(horaFin)
      ensures apertura == old(apertura) && cierre == old(cierre) && rutaArchivoLst == old(rutaArchivoLst)
    {
      bloques := [];
      var hora := 7;
      while hora < 20
        invariant 7 <= hora <= 20 && |bloques| == hora - 7
        invariant forall i :: 0 <= i < |bloques| ==> fresh(bloques[i])
        invariant forall i, j :: 0 <= i < j < |bloques| ==> bloques[i] != bloques[j]
        invariant forall i :: 0 <= i < |bloques| ==>
          bloques[i].Valor() == Bloque(DeHM(7 + i, 0), DeHM(8 + i, 0), Variado, "", [], [], ToleranciaPorDefecto)
        invariant fecha == old(fecha) && horaInicio == old(horaInicio) && horaFin == old(horaFin)
        invariant apertura == old(apertura) && cierre == old(cierre) && rutaArchivoLst == old(rutaArchivoLst)
      {
        var bloque := new BloqueHora(DeHM(hora, 0), DeHM(hora + 1, 0), Variado, "");
        bloques := bloques + [bloque];
        hora := hora + 1;
      }
    }

    method AgregarBloque(b: BloqueHora)
      modifies this
      ensures bloques == old(bloques) + [b]
      ensures fecha == old(fecha) && horaInicio == old(horaInicio) && horaFin == old(horaFin)
      ensures apertura == old(apertura) && cierre == old(cierre) && rutaArchivoLst == old(rutaArchivoLst)
    {
      bloques := bloques + [b];
    }

    method SetApertura(apertura: seq<InsercionEspecial>)
      modifies this
      ensures Valor() == old(Valor()).(apertura := apertura)
      ensures bloques == old(bloques)
    {
      this.apertura := apertura;
    }

    method SetCierre(cierre: seq<InsercionEspecial>)
      modifies this
      ensures Valor() == old(Valor()).(cierre := cierre)
      ensures bloques == old(bloques)
    {
      this.cierre := cierre;
    }

    method SetRutaArchivoLst(ruta: string)
      modifies this
      ensures Valor() == old(Valor()).(rutaArchivoLst := Some(ruta))
    {
      rutaArchivoLst := Some(ruta);
    }

    /** getTotalCanciones(): the number of tracks over all blocks. */
    function TotalCanciones(): nat
      reads this, bloques
    {
      SumaCanciones(EstadosDe(bloques))
    }

    /** getTotalInserciones(): opening, closing and every block's insertions. */
    function GetTotalInserciones(): nat
      reads this, bloques
    {
      TotalInserciones(Valor())
    }
  }
}
