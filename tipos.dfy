/**
 * Shared shapes of the parking system: the zone and report records of the
 * store, the closed sets of states and report types, and the traffic datum
 * an access point reports (src/types/index.ts, src/lib/utils.ts).
 */
module Tipos {

  datatype Option<+T> = None | Some(value: T)

  /** Four-level occupancy status of a zone. */
  datatype EstadoZona = Disponible | Moderado | Critico | Lleno

  /** Three-level state of an access road. */
  datatype EstadoTrafico = Fluido | Moderado | Congestionado

  /** The closed set of crowdsourced report types. */
  datatype TipoReporte = FilaModerada | CongestionSevera | Lleno | HayCupos | Accidente

  /** The wire name of each report type. */
  function NombreTipo(t: TipoReporte): string
  {
    match t
    case FilaModerada => "fila_moderada"
    case CongestionSevera => "congestion_severa"
    case Lleno => "lleno"
    case HayCupos => "hay_cupos"
    case Accidente => "accidente"
  }

  /** Parses a wire name; any other string is not a report type. */
  function TipoDesdeNombre(s: string): (t: Option<TipoReporte>)
    ensures t.Some? ==> NombreTipo(t.value) == s
  {
    if s == "fila_moderada" then Some(FilaModerada)
    else if s == "congestion_severa" then Some(CongestionSevera)
    else if s == "lleno" then Some(TipoReporte.Lleno)
    else if s == "hay_cupos" then Some(HayCupos)
    else if s == "accidente" then Some(Accidente)
    else None
  }

  /** Every report type survives printing and parsing its name. */
  lemma NombreTipoIdaYVuelta(t: TipoReporte)
    ensures TipoDesdeNombre(NombreTipo(t)) == Some(t)
  {
    match t
    case FilaModerada =>
    case CongestionSevera =>
      assert "congestion_severa"[0] != "fila_moderada"[0];
    case Lleno =>
      assert "lleno"[0] != "fila_moderada"[0] && "lleno"[0] != "congestion_severa"[0];
    case HayCupos =>
      assert "hay_cupos"[0] != "fila_moderada"[0] && "hay_cupos"[0] != "congestion_severa"[0];
      assert "hay_cupos"[0] != "lleno"[0];
    case Accidente =>
      assert "accidente"[0] != "fila_moderada"[0] && "accidente"[0] != "congestion_severa"[0];
      assert "accidente"[0] != "lleno"[0] && "accidente"[0] != "hay_cupos"[0];
  }

  /**
   * A zone as the store keeps it: static attributes, the two capacities
   * and the two mutable occupancy counters.
   */
  datatype Zona = Zona(
    id: string,
    nombre: string,
    slug: string,
    ubicacion: string,
    accesoMasCercano: string,
    capacidadCarro: int,
    capacidadMoto: int,
    ocupacionCarro: int,
    ocupacionMoto: int,
    activa: bool)

  /** The occupancy invariant the store is meant to keep for both vehicle types. */
  predicate OcupacionEnRango(z: Zona)
  {
    0 <= z.ocupacionCarro <= z.capacidadCarro && 0 <= z.ocupacionMoto <= z.capacidadMoto
  }

  /** The active zones, in their stored order. */
  function Activas(zs: seq<Zona>): (r: seq<Zona>)
    ensures forall z :: z in r <==> z in zs && z.activa
    ensures |r| <= |zs|
  {
    if zs == [] then []
    else if zs[0].activa then [zs[0]] + Activas(zs[1..])
    else Activas(zs[1..])
  }

  /** A stored report; times are milliseconds since the epoch. */
  datatype Reporte = Reporte(
    id: nat,
    zonaId: string,
    tipo: TipoReporte,
    lat: Option<real>,
    lng: Option<real>,
    usuarioAnonId: Option<string>,
    confianza: real,
    activo: bool,
    createdAt: int,
    expiraEn: int)

  /** A relative age, bucketed into seconds, minutes or hours. */
  datatype Relativo = Segundos(n: int) | Minutos(n: int) | Horas(n: int)

  /** How long ago a traffic datum was queried: just now, or an age. */
  datatype Hace = Ahora | Hace(edad: Relativo)

  /** The traffic datum reported for one access point. */
  datatype AccesoTrafico = AccesoTrafico(
    punto: string,
    via: string,
    currentSpeed: real,
    freeFlowSpeed: real,
    congestionado: bool,
    ratio: real,
    estado: EstadoTrafico,
    consultadoHace: Hace,
    esMock: bool)
}
