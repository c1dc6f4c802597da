// The thirteen music genres a block can carry, with their display names.
module Generos {
  import opened Texto

  datatype Genero =
    | Infantiles | Cumbias | Baladas | Rock | Pop | Salsa | Regional
    | Clasica | Jazz | Electronica | Ranchera | Boleros | Variado
  {
    /** getNombre(): the display name, also used by toString(). */
    function Nombre(): string
    {
      match this
      case Infantiles => "Infantiles"
      case Cumbias => "Cumbias"
      case Baladas => "Baladas"
      case Rock => "Rock"
      case Pop => "Pop"
      case Salsa => "Salsa"
      case Regional => "Regional"
      case Clasica => "Clásica"
      case Jazz => "Jazz"
      case Electronica => "Electrónica"
      case Ranchera => "Ranchera"
      case Boleros => "Boleros"
      case Variado => "Variado"
    }
  }

  /** Genero.values(), in declaration order. */
  const Valores: seq<Genero> :=
    [Infantiles, Cumbias, Baladas, Rock, Pop, Salsa, Regional, Clasica, Jazz, Electronica, Ranchera, Boleros, Variado]

  /** Every genre is listed exactly once. */
  lemma ValoresCompletos()
    ensures |Valores| == 13
    ensures forall g: Genero :: g in Valores
    ensures forall i, j :: 0 <= i < j < |Valores| ==> Valores[i] != Valores[j]
  {
    forall g: Genero ensures g in Valores {
      match g
      case Infantiles => assert Valores[0] == g;
      case Cumbias => assert Valores[1] == g;
      case Baladas => assert Valores[2] == g;
      case Rock => assert Valores[3] == g;
      case Pop => assert Valores[4] == g;
      case Salsa => assert Valores[5] == g;
      case Regional => assert Valores[6] == g;
      case Clasica => assert Valores[7] == g;
      case Jazz => assert Valores[8] == g;
      case Electronica => assert Valores[9] == g;
      case Ranchera => assert Valores[10] == g;
      case Boleros => assert Valores[11] == g;
      case Variado => assert Valores[12] == g;
    }
  }

  /** A display name is not blank, needs no trimming and has no '|' (the field separator of the configuration file). */
  lemma NombreCampoLimpio(g: Genero)
    ensures g.Nombre() != [] && SinBordes(g.Nombre()) && '|' !in g.Nombre()
  {
  }
}
