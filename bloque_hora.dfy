// An hour block of the playlist: time range, genre, source folder, its tracks and its
// insertions, updated in place by the generator.
module BloquesHora {
  import opened Texto
  import opened Tiempo
  import opened Generos
  import opened Canciones
  import opened InsercionesEspeciales

  const ToleranciaPorDefecto: int := 5

  /** The state of a block at one moment. */
  datatype Bloque = Bloque(
    horaInicio: Hora, horaFin: Hora, genero: Genero, rutaCarpeta: string,
    canciones: seq<Cancion>, inserciones: seq<InsercionEspecial>, toleranciaMinutos: int)

  /** toString(): "start - end: genre (n canciones)", the times as LocalTime.toString() renders them. */
  function TextoBloque(b: Bloque): string
  {
    TextoHora(b.horaInicio) + " - " + TextoHora(b.horaFin) + ": " + b.genero.Nombre()
      + " (" + NatATexto(|b.canciones|) + " canciones)"
  }

  class BloqueHora {
    var horaInicio: Hora
    var horaFin: Hora
    var genero: Genero
    var rutaCarpeta: string
    var canciones: seq<Cancion>
    var inserciones: seq<InsercionEspecial>
    var toleranciaMinutos: int

    function Valor(): Bloque
      reads this
    {
      Bloque(horaInicio, horaFin, genero, rutaCarpeta, canciones, inserciones, toleranciaMinutos)
    }

    /** BloqueHora(start, end, genre, folder): no tracks, no insertions, a tolerance of 5 minutes. */
    constructor (horaInicio: Hora, horaFin: Hora, genero: Genero, rutaCarpeta: string)
      ensures Valor() == Bloque(horaInicio, horaFin, genero, rutaCarpeta, [], [], ToleranciaPorDefecto)
    {
      this.horaInicio := horaInicio;
      this.horaFin := horaFin;
      this.genero := genero;
      this.rutaCarpeta := rutaCarpeta;
      this.canciones := [];
      this.inserciones := [];
      this.toleranciaMinutos := ToleranciaPorDefecto;
    }

    method SetCanciones(canciones: seq<Cancion>)
      modifies this
      ensures Valor() == old(Valor()).(canciones := canciones)
    {
      this.canciones := canciones;
    }

    method AgregarCancion(c: Cancion)
      modifies this
      ensures Valor() == old(Valor()).(canciones := old(canciones) + [c])
    {
      canciones := canciones + [c];
    }

    method SetInserciones(inserciones: seq<InsercionEspecial>)
      modifies this
      ensures Valor() == old(Valor()).(inserciones := inserciones)
    {
      this.inserciones := inserciones;
    }

    method AgregarInsercion(i: InsercionEspecial)
      modifies this
      ensures Valor() == old(Valor()).(inserciones := old(inserciones) + [i])
    {
      inserciones := inserciones + [i];
    }

    method SetToleranciaMinutos(t: int)
      modifies this
      ensures Valor() == old(Valor()).(toleranciaMinutos := t)
    {
      toleranciaMinutos := t;
    }
  }
}
