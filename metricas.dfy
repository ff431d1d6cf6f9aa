/**
 * Occupancy and traffic metrics (src/lib/utils.ts): the rounded occupancy
 * percentage, the four-level zone status, report lifetimes, the traffic
 * state of a speed pair and relative-time buckets. Times are integer
 * milliseconds; the caller passes "now".
 */
module Metricas {
  import opened Tipos

  const MS_POR_SEGUNDO := 1000
  const MS_POR_MINUTO := 60000

  /** Math.round on exact reals: the nearest integer, halves rounded up. */
  function Redondear(x: real): (n: int)
    ensures n as real - 0.5 <= x < n as real + 0.5
  {
    (x + 0.5).Floor
  }

  lemma RedondearMonotono(x: real, y: real)
    requires x <= y
    ensures Redondear(x) <= Redondear(y)
  {
  }

  lemma RedondearEntero(n: int)
    ensures Redondear(n as real) == n
  {
  }

  // ─── Zones ───

  /**
   * Occupancy percentage with one decimal: 0 for a zone without capacity,
   * otherwise the ratio scaled to 1000, rounded, divided by 10.
   */
  function CalcularPorcentaje(ocupacion: int, capacidad: int): (p: real)
    ensures capacidad > 0 && 0 <= ocupacion <= capacidad ==> 0.0 <= p <= 100.0
  {
    if capacidad == 0 then 0.0
    else
      var x := ocupacion as real / capacidad as real * 1000.0;
      assert capacidad > 0 && 0 <= ocupacion <= capacidad ==> 0 <= Redondear(x) <= 1000 by {
        if capacidad > 0 && 0 <= ocupacion <= capacidad {
          CocienteEnUnidad(ocupacion, capacidad);
          RedondearMonotono(0.0, x);
          RedondearMonotono(x, 1000.0);
          RedondearEntero(0);
          RedondearEntero(1000);
        }
      }
      Redondear(x) as real / 10.0
  }

  lemma CocienteEnUnidad(o: int, c: int)
    requires 0 <= o <= c && c > 0
    ensures 0.0 <= o as real / c as real <= 1.0
  {
    assert o as real <= c as real;
    assert o as real / c as real <= c as real / c as real;
  }

  /** A zone without capacity is at 0 %, whatever its occupancy. */
  lemma PorcentajeSinCapacidad(ocupacion: int)
    ensures CalcularPorcentaje(ocupacion, 0) == 0.0
  {
  }

  /** A zone filled to capacity is at exactly 100 %. */
  lemma PorcentajeLleno(capacidad: int)
    requires capacidad > 0
    ensures CalcularPorcentaje(capacidad, capacidad) == 100.0
  {
    assert capacidad as real / capacidad as real == 1.0;
    RedondearEntero(1000);
  }

  /**
   * The rounding law: for a positive capacity the percentage is 100·o/c
   * to within half of its last decimal.
   */
  lemma {:induction false} PorcentajeCercano(ocupacion: int, capacidad: int)
    requires capacidad > 0
    ensures var exacto := 100.0 * ocupacion as real / capacidad as real;
            exacto - 0.05 < CalcularPorcentaje(ocupacion, capacidad) <= exacto + 0.05
  {
    var x := ocupacion as real / capacidad as real * 1000.0;
    var n := Redondear(x);
    assert n as real - 0.5 <= x < n as real + 0.5;
    assert 100.0 * ocupacion as real / capacidad as real == x / 10.0;
  }

  /** More occupancy in the same zone never lowers the percentage. */
  lemma PorcentajeMonotono(o1: int, o2: int, capacidad: int)
    requires capacidad > 0 && o1 <= o2
    ensures CalcularPorcentaje(o1, capacidad) <= CalcularPorcentaje(o2, capacidad)
  {
    assert o1 as real / capacidad as real <= o2 as real / capacidad as real;
    RedondearMonotono(o1 as real / capacidad as real * 1000.0, o2 as real / capacidad as real * 1000.0);
  }

  /** The zone status for a percentage: inclusive lower bounds 100, 90, 70. */
  function EstadoDeZona(porcentaje: real): (e: EstadoZona)
    ensures e == Disponible <==> porcentaje < 70.0
    ensures e == EstadoZona.Lleno <==> porcentaje >= 100.0
  {
    if porcentaje >= 100.0 then EstadoZona.Lleno
    else if porcentaje >= 90.0 then Critico
    else if porcentaje >= 70.0 then EstadoZona.Moderado
    else Disponible
  }

  /** Severity rank of a zone status. */
  function Severidad(e: EstadoZona): (n: nat)
    ensures n <= 3
  {
    match e
    case Disponible => 0
    case Moderado => 1
    case Critico => 2
    case Lleno => 3
  }

  /** Each status is exactly one band of percentages. */
  lemma EstadoDeZonaBandas(p: real)
    ensures EstadoDeZona(p) == EstadoZona.Lleno <==> p >= 100.0
    ensures EstadoDeZona(p) == Critico <==> 90.0 <= p < 100.0
    ensures EstadoDeZona(p) == EstadoZona.Moderado <==> 70.0 <= p < 90.0
    ensures EstadoDeZona(p) == Disponible <==> p < 70.0
  {
  }

  /** A higher percentage never gives a less severe status. */
  lemma EstadoDeZonaMonotono(p: real, q: real)
    requires p <= q
    ensures Severidad(EstadoDeZona(p)) <= Severidad(EstadoDeZona(q))
  {
  }

  // ─── Reports ───

  /** Lifetime in minutes of a report given its type name; 15 for any other name. */
  function TtlReporte(tipo: string): (minutos: int)
    ensures TipoDesdeNombre(tipo).None? ==> minutos == 15
    ensures 10 <= minutos <= 45
  {
    match TipoDesdeNombre(tipo)
    case Some(t) => TtlPorTipo(t)
    case None => 15
  }

  /** The lifetime table. */
  function TtlPorTipo(t: TipoReporte): (minutos: int)
    ensures 10 <= minutos <= 45
    ensures minutos == 10 <==> t == HayCupos
    ensures minutos == 45 <==> t == Accidente
  {
    match t
    case FilaModerada => 15
    case CongestionSevera => 20
    case Lleno => 30
    case HayCupos => 10
    case Accidente => 45
  }

  /** Looking a type up by its name gives that type's entry of the table. */
  lemma TtlReporteSegunTabla(t: TipoReporte)
    ensures TtlReporte(NombreTipo(t)) == TtlPorTipo(t)
    ensures t == FilaModerada ==> TtlPorTipo(t) == 15
    ensures t == CongestionSevera ==> TtlPorTipo(t) == 20
    ensures t == TipoReporte.Lleno ==> TtlPorTipo(t) == 30
    ensures t == HayCupos ==> TtlPorTipo(t) == 10
    ensures t == Accidente ==> TtlPorTipo(t) == 45
  {
    NombreTipoIdaYVuelta(t);
  }

  /** A report has expired once now is strictly after its expiry instant. */
  predicate ReporteExpirado(expiraEn: int, ahora: int)
  {
    ahora > expiraEn
  }

  /** Expiry instant of a report created now: now plus its lifetime in minutes. */
  function CalcularExpiracion(tipo: string, ahora: int): (expiraEn: int)
    ensures ahora + 10 * MS_POR_MINUTO <= expiraEn <= ahora + 45 * MS_POR_MINUTO
  {
    ahora + TtlReporte(tipo) * MS_POR_MINUTO
  }

  /**
   * A new report expires exactly once its lifetime has passed; whatever its
   * type, it is still live 10 minutes after creation and expired once 45
   * minutes have passed.
   */
  lemma VigenciaDeReporte(tipo: string, creado: int, t: int)
    ensures var expira := CalcularExpiracion(tipo, creado);
            ReporteExpirado(expira, t) <==> t > creado + TtlReporte(tipo) * MS_POR_MINUTO
    ensures t <= creado + 10 * MS_POR_MINUTO ==> !ReporteExpirado(CalcularExpiracion(tipo, creado), t)
    ensures t > creado + 45 * MS_POR_MINUTO ==> ReporteExpirado(CalcularExpiracion(tipo, creado), t)
  {
  }

  /**
   * Accident reports live 45 minutes, "spots available" reports 10; a
   * report is not expired at its exact expiry instant and is expired one
   * millisecond later.
   */
  lemma VigenciaEjemplos(creado: int)
    ensures var e := CalcularExpiracion("accidente", creado);
            !ReporteExpirado(e, e) && ReporteExpirado(e, e + 1)
    ensures !ReporteExpirado(CalcularExpiracion("accidente", creado), creado + 44 * MS_POR_MINUTO)
    ensures ReporteExpirado(CalcularExpiracion("accidente", creado), creado + 46 * MS_POR_MINUTO)
    ensures ReporteExpirado(CalcularExpiracion("hay_cupos", creado), creado + 11 * MS_POR_MINUTO)
  {
    NombreTipoIdaYVuelta(Accidente);
    NombreTipoIdaYVuelta(HayCupos);
    assert NombreTipo(Accidente) == "accidente";
    assert NombreTipo(HayCupos) == "hay_cupos";
  }

  // ─── Traffic ───

  /** The traffic state of a speed pair together with its rounded ratio. */
  datatype EvaluacionTrafico = EvaluacionTrafico(congestionado: bool, estado: EstadoTrafico, ratio: real)

  /** Current over free-flow speed; 1 when the free-flow speed is not positive. */
  function Ratio(currentSpeed: real, freeFlowSpeed: real): (r: real)
    ensures freeFlowSpeed <= 0.0 ==> r == 1.0
    ensures freeFlowSpeed > 0.0 && 0.0 <= currentSpeed <= freeFlowSpeed ==> 0.0 <= r <= 1.0
    ensures freeFlowSpeed > 0.0 && currentSpeed > freeFlowSpeed ==> r > 1.0
  {
    if freeFlowSpeed > 0.0 then
      var r := currentSpeed / freeFlowSpeed;
      assert r * freeFlowSpeed == currentSpeed;
      r
    else 1.0
  }

  /**
   * The state is chosen on the unrounded ratio (fluid from 0.7, moderate
   * from 0.5, congested below); the flag is set below 0.7, so it covers
   * both the moderate and the congested state; the ratio returned is
   * rounded to two decimals.
   */
  function EvaluarTrafico(currentSpeed: real, freeFlowSpeed: real): (e: EvaluacionTrafico)
    ensures e.congestionado <==> e.estado != Fluido
    ensures e.estado == Fluido <==> Ratio(currentSpeed, freeFlowSpeed) >= 0.7
    ensures e.estado == Congestionado <==> Ratio(currentSpeed, freeFlowSpeed) < 0.5
    ensures var r := Ratio(currentSpeed, freeFlowSpeed); r - 0.005 < e.ratio <= r + 0.005
  {
    var ratio := Ratio(currentSpeed, freeFlowSpeed);
    var redondeado := Redondear(ratio * 100.0) as real / 100.0;
    var estado :=
      if ratio >= 0.7 then Fluido
      else if ratio >= 0.5 then EstadoTrafico.Moderado
      else Congestionado;
    EvaluacionTrafico(ratio < 0.7, estado, redondeado)
  }

  /** Without a positive free-flow speed the road counts as fluid and not congested. */
  lemma SinVelocidadLibreEsFluido(currentSpeed: real, freeFlowSpeed: real)
    requires freeFlowSpeed <= 0.0
    ensures EvaluarTrafico(currentSpeed, freeFlowSpeed).estado == Fluido
    ensures !EvaluarTrafico(currentSpeed, freeFlowSpeed).congestionado
    ensures EvaluarTrafico(currentSpeed, freeFlowSpeed).ratio == 1.0
  {
    RedondearEntero(100);
  }

  /**
   * The state follows the unrounded ratio: 69.6 over 100 reports ratio
   * 0.70 but is moderate and congested.
   */
  lemma EstadoSobreRatioSinRedondear()
    ensures EvaluarTrafico(69.6, 100.0).ratio == 0.7
    ensures EvaluarTrafico(69.6, 100.0).estado == EstadoTrafico.Moderado
    ensures EvaluarTrafico(69.6, 100.0).congestionado
  {
    assert Redondear(69.6) == 70;
  }

  /** The synthetic speeds of src/lib/tomtom.ts: 35/50 is fluid, 18/45 is congested. */
  lemma EvaluacionEjemplos()
    ensures EvaluarTrafico(35.0, 50.0) == EvaluacionTrafico(false, Fluido, 0.7)
    ensures EvaluarTrafico(18.0, 45.0) == EvaluacionTrafico(true, Congestionado, 0.4)
  {
    assert 35.0 / 50.0 == 0.7;
    assert Redondear(70.0) == 70;
    assert 18.0 / 45.0 == 0.4;
    assert Redondear(40.0) == 40;
  }

  // ─── Relative time ───

  /**
   * Age of a past instant, bucketed: whole seconds below a minute, whole
   * minutes below an hour, whole hours otherwise (floor at every step).
   */
  function TiempoRelativo(ahora: int, fecha: int): (r: Relativo)
    ensures var s := (ahora - fecha) / MS_POR_SEGUNDO;
            && (r.Segundos? <==> s < 60)
            && (r.Minutos? <==> 60 <= s < 3600)
            && (r.Horas? <==> s >= 3600)
            && (r.Segundos? ==> r.n == s)
            && (r.Minutos? ==> r.n == s / 60)
            && (r.Horas? ==> r.n == s / 3600)
  {
    var diffSeg := (ahora - fecha) / MS_POR_SEGUNDO;
    if diffSeg < 60 then Segundos(diffSeg)
    else
      var diffMin := diffSeg / 60;
      if diffMin < 60 then Minutos(diffMin)
      else
        DivisionEncadenada(diffSeg);
        Horas(diffMin / 60)
  }

  /** Dividing by 60 twice is dividing by 3600, and a quotient below 60 means below 3600. */
  lemma DivisionEncadenada(s: int)
    requires s >= 0
    ensures s / 60 / 60 == s / 3600
    ensures s / 60 < 60 <==> s < 3600
  {
    var q := s / 3600;
    var r := s % 3600;
    assert s == 3600 * q + r && 0 <= r < 3600;
    assert s == 60 * (60 * q + r / 60) + r % 60;
    assert s / 60 == 60 * q + r / 60;
  }
}
