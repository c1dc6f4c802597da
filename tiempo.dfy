// java.time as the core uses it: LocalTime at second precision, its HH:mm:ss and
// HH:mm renderings, LocalTime.parse, LocalTime.plus(Duration) and
// Duration.between, and LocalDate rendered as yyyy-MM-dd.
module Tiempo {
  import opened Opcionales
  import opened Texto

  const SegundosDia: int := 86400

  /** A time of day, in seconds since midnight. */
  type Hora = t: int | 0 <= t < SegundosDia

  function DeHM(h: nat, m: nat): Hora
    requires h < 24 && m < 60
  {
    h * 3600 + m * 60
  }

  function DeHMS(h: nat, m: nat, s: nat): Hora
    requires h < 24 && m < 60 && s < 60
  {
    h * 3600 + m * 60 + s
  }

  /** The hour, minute and second fields of a time of day. */
  lemma Campos(t: Hora)
    ensures t / 3600 < 24 && (t % 3600) / 60 < 60 && t % 60 < 60
    ensures t == DeHMS(t / 3600, (t % 3600) / 60, t % 60)
  {
  }

  /** DateTimeFormatter "HH:mm:ss". */
  function FormatoHMS(t: Hora): string
  {
    Rellenar(t / 3600, 2) + ":" + Rellenar((t % 3600) / 60, 2) + ":" + Rellenar(t % 60, 2)
  }

  /** DateTimeFormatter "HH:mm" (the seconds are dropped). */
  function FormatoHM(t: Hora): string
  {
    Rellenar(t / 3600, 2) + ":" + Rellenar((t % 3600) / 60, 2)
  }

  /** LocalTime.toString(): HH:mm when the seconds are zero, HH:mm:ss otherwise. */
  function TextoHora(t: Hora): string
  {
    if t % 60 == 0 then FormatoHM(t) else FormatoHMS(t)
  }

  /** On the hour, LocalTime.toString() gives the two-digit hour and ":00". */
  lemma TextoHoraEnPunto(h: nat)
    requires h < 24
    ensures TextoHora(DeHM(h, 0)) == Rellenar(h, 2) + ":00"
  {
    var t := DeHM(h, 0);
    assert t / 3600 == h && t % 3600 == 0 && t % 60 == 0;
    RellenarDos(0);
  }

  /** Exactly two ASCII digits. */
  function LeerDos(s: string): Option<nat>
  {
    if |s| == 2 && EsDigito(s[0]) && EsDigito(s[1]) then Some(ValorDigito(s[0]) * 10 + ValorDigito(s[1])) else None
  }

  /** LocalTime.parse with ISO_LOCAL_TIME, for the forms HH:mm and HH:mm:ss. */
  function ParsearHora(s: string): Option<Hora>
  {
    if |s| == 5 && s[2] == ':' then
      match (LeerDos(s[..2]), LeerDos(s[3..]))
      case (Some(h), Some(m)) => if h < 24 && m < 60 then Some(DeHM(h, m)) else None
      case _ => None
    else if |s| == 8 && s[2] == ':' && s[5] == ':' then
      match (LeerDos(s[..2]), LeerDos(s[3..5]), LeerDos(s[6..]))
      case (Some(h), Some(m), Some(sec)) => if h < 24 && m < 60 && sec < 60 then Some(DeHMS(h, m, sec)) else None
      case _ => None
    else None
  }

  lemma LeerDosRellenar(n: nat)
    requires n < 100
    ensures LeerDos(Rellenar(n, 2)) == Some(n)
  {
    RellenarDos(n);
  }

  /** Parsing the HH:mm:ss rendering of a time gives the time back. */
  lemma ParsearFormatoHMS(t: Hora)
    ensures ParsearHora(FormatoHMS(t)) == Some(t)
  {
    Campos(t);
    var h, m, s := Rellenar(t / 3600, 2), Rellenar((t % 3600) / 60, 2), Rellenar(t % 60, 2);
    LeerDosRellenar(t / 3600);
    LeerDosRellenar((t % 3600) / 60);
    LeerDosRellenar(t % 60);
    RellenarDos(t / 3600);
    RellenarDos((t % 3600) / 60);
    RellenarDos(t % 60);
    var f := FormatoHMS(t);
    assert f[..2] == h && f[3..5] == m && f[6..] == s;
  }

  /** Parsing the HH:mm rendering of a time gives the time back when its seconds are zero. */
  lemma ParsearFormatoHM(t: Hora)
    requires t % 60 == 0
    ensures ParsearHora(FormatoHM(t)) == Some(t)
  {
    Campos(t);
    var h, m := Rellenar(t / 3600, 2), Rellenar((t % 3600) / 60, 2);
    LeerDosRellenar(t / 3600);
    LeerDosRellenar((t % 3600) / 60);
    RellenarDos(t / 3600);
    RellenarDos((t % 3600) / 60);
    var f := FormatoHM(t);
    assert f[..2] == h && f[3..] == m;
  }

  /** The HH:mm:ss rendering has no blank and no character other than digits and ':'. */
  lemma FormatoHMSCaracteres(t: Hora)
    ensures |FormatoHMS(t)| == 8
    ensures forall i :: 0 <= i < 8 ==> EsDigito(FormatoHMS(t)[i]) || FormatoHMS(t)[i] == ':'
  {
    Campos(t);
    RellenarDos(t / 3600);
    RellenarDos((t % 3600) / 60);
    RellenarDos(t % 60);
  }

  lemma FormatoHMCaracteres(t: Hora)
    ensures |FormatoHM(t)| == 5
    ensures forall i :: 0 <= i < 5 ==> EsDigito(FormatoHM(t)[i]) || FormatoHM(t)[i] == ':'
  {
    Campos(t);
    RellenarDos(t / 3600);
    RellenarDos((t % 3600) / 60);
  }

  /** Duration.between(a, b) in seconds: negative when b is earlier than a. */
  function Entre(a: Hora, b: Hora): int
  {
    b - a
  }

  /** LocalTime.plus(Duration): the time of day wraps around midnight in both directions. */
  function Sumar(t: Hora, d: int): (r: Hora)
    ensures (r - t - d) % SegundosDia == 0
  {
    (t + d) % SegundosDia
  }

  /** A LocalDate. */
  datatype Fecha = Fecha(anio: nat, mes: nat, dia: nat)

  /** DateTimeFormatter "yyyy-MM-dd" for years of at most four digits. */
  function FormatoFecha(f: Fecha): string
  {
    Rellenar(f.anio, 4) + "-" + Rellenar(f.mes, 2) + "-" + Rellenar(f.dia, 2)
  }
}
