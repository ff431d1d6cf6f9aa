/**
 * The zone listing (src/app/api/zonas/route.ts): the active zones ordered
 * by name, each with its per-type metrics, its status and its active
 * reports, and running totals over all of them.
 */
module Zonas {
  import opened Tipos
  import opened Metricas
  import opened Orden
  import Reportes

  /** Lexicographic order on code points. */
  predicate LexLe(a: string, b: string)
  {
    a == [] || (b != [] && (a[0] < b[0] || (a[0] == b[0] && LexLe(a[1..], b[1..]))))
  }

  lemma {:induction false} LexLeTotal(a: string, b: string)
    ensures LexLe(a, b) || LexLe(b, a)
  {
    if a != [] && b != [] && a[0] == b[0] {
      LexLeTotal(a[1..], b[1..]);
    }
  }

  lemma {:induction false} LexLeTransitiva(a: string, b: string, c: string)
    requires LexLe(a, b) && LexLe(b, c)
    ensures LexLe(a, c)
  {
    if a != [] && b != [] && c != [] && a[0] == b[0] && b[0] == c[0] {
      LexLeTransitiva(a[1..], b[1..], c[1..]);
    }
  }

  /** Zones by name, ascending. */
  predicate PorNombre(a: Zona, b: Zona)
  {
    LexLe(a.nombre, b.nombre)
  }

  lemma PorNombreEsPreorden()
    ensures Total(PorNombre) && Transitiva(PorNombre)
  {
    forall a: Zona, b: Zona ensures PorNombre(a, b) || PorNombre(b, a) {
      LexLeTotal(a.nombre, b.nombre);
    }
    forall a: Zona, b: Zona, c: Zona | PorNombre(a, b) && PorNombre(b, c) ensures PorNombre(a, c) {
      LexLeTransitiva(a.nombre, b.nombre, c.nombre);
    }
  }

  /** The zones the query returns: the active ones, by name. */
  function ZonasVisibles(zs: seq<Zona>): (r: seq<Zona>)
    ensures multiset(r) == multiset(Activas(zs))
    ensures |r| <= |zs|
  {
    Ordenar(Activas(zs), PorNombre)
  }

  /** The reports of one zone, in stored order. */
  function DeZona(rs: seq<Reporte>, zonaId: string): (r: seq<Reporte>)
    ensures forall x :: x in r <==> x in rs && x.zonaId == zonaId
  {
    if rs == [] then []
    else if rs[0].zonaId == zonaId then [rs[0]] + DeZona(rs[1..], zonaId)
    else DeZona(rs[1..], zonaId)
  }

  datatype OcupacionTipo = OcupacionTipo(capacidad: int, ocupacion: int, disponibles: int, porcentaje: real)

  datatype ReporteResumen = ReporteResumen(id: nat, tipo: TipoReporte, confianza: real, expiraEn: int, createdAt: int)

  datatype ZonaMetricas = ZonaMetricas(
    id: string,
    nombre: string,
    slug: string,
    ubicacion: string,
    accesoMasCercano: string,
    carro: OcupacionTipo,
    moto: OcupacionTipo,
    estado: EstadoZona,
    reportesActivos: nat,
    reportes: seq<ReporteResumen>)

  datatype RespuestaZonas = RespuestaZonas(zonas: seq<ZonaMetricas>, totalCeldas: int, totalOcupadas: int, porcentajeGlobal: real)

  function Resumir(r: Reporte): ReporteResumen
  {
    ReporteResumen(r.id, r.tipo, r.confianza, r.expiraEn, r.createdAt)
  }

  /** The combined percentage of both vehicle types together. */
  function PorcentajeCombinado(z: Zona): real
  {
    CalcularPorcentaje(z.ocupacionCarro + z.ocupacionMoto, z.capacidadCarro + z.capacidadMoto)
  }

  /** The per-zone projection of the listing. */
  function Proyectar(z: Zona, rs: seq<Reporte>, ahora: int): (p: ZonaMetricas)
    ensures p.id == z.id && p.reportesActivos == |p.reportes|
  {
    var activos := Reportes.Activos(DeZona(rs, z.id), ahora);
    ZonaMetricas(z.id, z.nombre, z.slug, z.ubicacion, z.accesoMasCercano,
                 OcupacionTipo(z.capacidadCarro, z.ocupacionCarro, z.capacidadCarro - z.ocupacionCarro,
                               CalcularPorcentaje(z.ocupacionCarro, z.capacidadCarro)),
                 OcupacionTipo(z.capacidadMoto, z.ocupacionMoto, z.capacidadMoto - z.ocupacionMoto,
                               CalcularPorcentaje(z.ocupacionMoto, z.capacidadMoto)),
                 EstadoDeZona(PorcentajeCombinado(z)),
                 |activos|,
                 Resumenes(activos))
  }

  function Resumenes(rs: seq<Reporte>): (r: seq<ReporteResumen>)
    ensures |r| == |rs|
    ensures forall k :: 0 <= k < |rs| ==> r[k] == Resumir(rs[k])
  {
    if rs == [] then [] else [Resumir(rs[0])] + Resumenes(rs[1..])
  }

  /** The projections of the zones, in order. */
  function Proyecciones(zs: seq<Zona>, rs: seq<Reporte>, ahora: int): (r: seq<ZonaMetricas>)
    ensures |r| == |zs|
  {
    if zs == [] then [] else Proyecciones(zs[..|zs| - 1], rs, ahora) + [Proyectar(zs[|zs| - 1], rs, ahora)]
  }

  lemma {:induction false} ProyeccionesIndice(zs: seq<Zona>, rs: seq<Reporte>, ahora: int)
    ensures |Proyecciones(zs, rs, ahora)| == |zs|
    ensures forall k :: 0 <= k < |zs| ==> Proyecciones(zs, rs, ahora)[k] == Proyectar(zs[k], rs, ahora)
  {
    if zs != [] {
      var previo := zs[..|zs| - 1];
      ProyeccionesIndice(previo, rs, ahora);
      var antes := Proyecciones(previo, rs, ahora);
      var ultimo := Proyectar(zs[|zs| - 1], rs, ahora);
      var p := Proyecciones(zs, rs, ahora);
      assert p == antes + [ultimo];
      forall k | 0 <= k < |zs| ensures p[k] == Proyectar(zs[k], rs, ahora) {
        if k < |zs| - 1 {
          assert p[k] == antes[k];
          assert zs[k] == previo[k];
        } else {
          assert p[k] == ultimo;
        }
      }
    }
  }

  /** Cells of both types over the zones. */
  function SumaCeldas(zs: seq<Zona>): int
  {
    if zs == [] then 0 else SumaCeldas(zs[..|zs| - 1]) + zs[|zs| - 1].capacidadCarro + zs[|zs| - 1].capacidadMoto
  }

  /** Occupied cells of both types over the zones. */
  function SumaOcupadas(zs: seq<Zona>): int
  {
    if zs == [] then 0 else SumaOcupadas(zs[..|zs| - 1]) + zs[|zs| - 1].ocupacionCarro + zs[|zs| - 1].ocupacionMoto
  }

  /** Extending a prefix of the zones by the next one extends its projections and its totals by that zone. */
  lemma PrefijoSiguiente(vis: seq<Zona>, i: nat, rs: seq<Reporte>, ahora: int)
    requires i < |vis|
    ensures Proyecciones(vis[..i + 1], rs, ahora) == Proyecciones(vis[..i], rs, ahora) + [Proyectar(vis[i], rs, ahora)]
    ensures SumaCeldas(vis[..i + 1]) == SumaCeldas(vis[..i]) + vis[i].capacidadCarro + vis[i].capacidadMoto
    ensures SumaOcupadas(vis[..i + 1]) == SumaOcupadas(vis[..i]) + vis[i].ocupacionCarro + vis[i].ocupacionMoto
  {
    assert vis[..i + 1][..i] == vis[..i];
  }

  /**
   * GET /api/zonas: projects each visible zone in order while adding its
   * cells and its occupied cells to the running totals.
   */
  method ObtenerZonas(zonas: seq<Zona>, reportes: seq<Reporte>, ahora: int) returns (r: RespuestaZonas)
    ensures var vis := ZonasVisibles(zonas);
            && r.zonas == Proyecciones(vis, reportes, ahora)
            && r.totalCeldas == SumaCeldas(vis)
            && r.totalOcupadas == SumaOcupadas(vis)
            && r.porcentajeGlobal == CalcularPorcentaje(SumaOcupadas(vis), SumaCeldas(vis))
  {
    var vis := ZonasVisibles(zonas);
    var totalCeldas := 0;
    var totalOcupadas := 0;
    var zonasConMetricas: seq<ZonaMetricas> := [];
    var i := 0;
    while i < |vis|
      invariant 0 <= i <= |vis|
      invariant zonasConMetricas == Proyecciones(vis[..i], reportes, ahora)
      invariant totalCeldas == SumaCeldas(vis[..i])
      invariant totalOcupadas == SumaOcupadas(vis[..i])
    {
      var zona := vis[i];
      PrefijoSiguiente(vis, i, reportes, ahora);
      totalCeldas := totalCeldas + zona.capacidadCarro + zona.capacidadMoto;
      totalOcupadas := totalOcupadas + zona.ocupacionCarro + zona.ocupacionMoto;
      zonasConMetricas := zonasConMetricas + [Proyectar(zona, reportes, ahora)];
      i := i + 1;
    }
    assert vis[..|vis|] == vis;
    var porcentajeGlobal := CalcularPorcentaje(totalOcupadas, totalCeldas);
    r := RespuestaZonas(zonasConMetricas, totalCeldas, totalOcupadas, porcentajeGlobal);
  }

  // ─── Properties ───

  /** The listing holds exactly the active zones, by name ascending. */
  lemma VisiblesExactasYOrdenadas(zs: seq<Zona>)
    ensures forall z :: z in ZonasVisibles(zs) <==> z in zs && z.activa
    ensures forall i, j :: 0 <= i < j < |ZonasVisibles(zs)| ==>
              LexLe(ZonasVisibles(zs)[i].nombre, ZonasVisibles(zs)[j].nombre)
  {
    forall z ensures z in ZonasVisibles(zs) <==> z in Activas(zs) {
      OrdenarMismosElementos(Activas(zs), PorNombre, z);
    }
    PorNombreEsPreorden();
    OrdenarOrdenada(Activas(zs), PorNombre);
  }

  /**
   * Each projection: free cells are capacity minus occupancy per type and
   * the status comes from the combined percentage of both types.
   */
  lemma ProyectarOcupacion(z: Zona, rs: seq<Reporte>, ahora: int)
    ensures var p := Proyectar(z, rs, ahora);
            && p.carro.disponibles == z.capacidadCarro - z.ocupacionCarro
            && p.moto.disponibles == z.capacidadMoto - z.ocupacionMoto
            && p.carro.porcentaje == CalcularPorcentaje(z.ocupacionCarro, z.capacidadCarro)
            && p.moto.porcentaje == CalcularPorcentaje(z.ocupacionMoto, z.capacidadMoto)
            && p.estado == EstadoDeZona(CalcularPorcentaje(z.ocupacionCarro + z.ocupacionMoto,
                                                           z.capacidadCarro + z.capacidadMoto))
  {
  }

  /**
   * Each projection lists one summary per active report of the zone,
   * newest first, and reportesActivos counts them.
   */
  lemma ProyectarReportes(z: Zona, rs: seq<Reporte>, ahora: int)
    ensures var p := Proyectar(z, rs, ahora);
            var activos := Reportes.Activos(DeZona(rs, z.id), ahora);
            && (forall x :: x in activos <==> x in rs && x.zonaId == z.id && Reportes.Vigente(x, ahora))
            && |p.reportes| == |activos| && p.reportesActivos == |activos|
            && (forall k :: 0 <= k < |activos| ==> p.reportes[k] == Resumir(activos[k]))
            && (forall i, j :: 0 <= i < j < |p.reportes| ==> p.reportes[i].createdAt >= p.reportes[j].createdAt)
  {
    Reportes.ActivosExactosYOrdenados(DeZona(rs, z.id), ahora);
  }

  /** When every zone keeps its occupancy in range, so do the totals, and the global percentage lies in [0, 100]. */
  lemma {:induction false} TotalesEnRango(zs: seq<Zona>)
    requires forall i :: 0 <= i < |zs| ==> OcupacionEnRango(zs[i])
    ensures 0 <= SumaOcupadas(zs) <= SumaCeldas(zs)
    ensures 0.0 <= CalcularPorcentaje(SumaOcupadas(zs), SumaCeldas(zs)) <= 100.0
  {
    if zs != [] {
      TotalesEnRango(zs[..|zs| - 1]);
    }
    if SumaCeldas(zs) == 0 {
      PorcentajeSinCapacidad(SumaOcupadas(zs));
    }
  }

  /**
   * The status uses the combined percentage, not the fuller vehicle type:
   * a zone with all 10 car cells taken and 90 free motorcycle cells is
   * reported available although its car side is full.
   */
  lemma EstadoCombinadoNoEsElPeorTipo(z: Zona)
    requires z.capacidadCarro == 10 && z.ocupacionCarro == 10
    requires z.capacidadMoto == 90 && z.ocupacionMoto == 0
    ensures EstadoDeZona(CalcularPorcentaje(z.ocupacionCarro, z.capacidadCarro)) == EstadoZona.Lleno
    ensures PorcentajeCombinado(z) == 10.0
    ensures EstadoDeZona(PorcentajeCombinado(z)) == Disponible
  {
    PorcentajeLleno(10);
    assert CalcularPorcentaje(10, 100) == 10.0 by {
      RedondearEntero(100);
    }
  }
}
