// Special insertions (anthems, poem, time announcements, station identifications and
// promos) and the six insertion types with their display names.
module InsercionesEspeciales {

  datatype TipoInsercion = HimnoNacional | HimnoGuerrero | Poema | LocucionHora | Identificacion | Promo
  {
    /** getNombre(): the display name. */
    function Nombre(): string
    {
      match this
      case HimnoNacional => "Himno Nacional"
      case HimnoGuerrero => "Himno de Guerrero"
      case Poema => "Poema"
      case LocucionHora => "Locución de Hora"
      case Identificacion => "Identificación"
      case Promo => "Promo"
    }
  }

  /** Distinct types have distinct display names. */
  lemma NombresTipoDistintos(a: TipoInsercion, b: TipoInsercion)
    ensures a.Nombre() == b.Nombre() ==> a == b
  {
  }

  /** An insertion: display name, absolute path, duration in seconds and type. */
  datatype InsercionEspecial = InsercionEspecial(nombre: string, rutaArchivo: string, duracion: nat, tipo: TipoInsercion)
  {
    /** toString(): "name (type name)". */
    function ToString(): string
    {
      nombre + " (" + tipo.Nombre() + ")"
    }
  }
}
