/**
 * The summary bar (src/components/BarraKPI.tsx): free cells over all
 * zones, the worst access road and the label and colour of the access
 * indicator.
 */
module BarraKpi {
  import opened Tipos
  import Zonas

  /** The free cells the bar shows: all cells less all occupied ones. */
  function TotalDisponibles(r: Zonas.RespuestaZonas): (n: int)
    ensures r.totalOcupadas <= r.totalCeldas ==> n >= 0
    ensures n + r.totalOcupadas == r.totalCeldas
  {
    r.totalCeldas - r.totalOcupadas
  }

  /** The free cells of both types over the projected zones. */
  function SumaLibres(ms: seq<Zonas.ZonaMetricas>): int
  {
    if ms == [] then 0
    else SumaLibres(ms[..|ms| - 1]) + ms[|ms| - 1].carro.disponibles + ms[|ms| - 1].moto.disponibles
  }

  /** The rank of a traffic state: fluid 0, moderate 1, congested 2. */
  function Rango(e: EstadoTrafico): (n: nat)
    ensures n <= 2
    ensures n == 0 <==> e == Fluido
    ensures n == 2 <==> e == Congestionado
  {
    match e
    case Fluido => 0
    case Moderado => 1
    case Congestionado => 2
  }

  /** The reduce over the accesses: a later access replaces the current one only when its rank is strictly higher. */
  function PeorDesde(peor: AccesoTrafico, s: seq<AccesoTrafico>): AccesoTrafico
  {
    if s == [] then peor
    else
      var p := PeorDesde(peor, s[..|s| - 1]);
      var acc := s[|s| - 1];
      if Rango(acc.estado) > Rango(p.estado) then acc else p
  }

  /** The worst access, starting the reduce from the first one; none for an empty list. */
  function PeorAcceso(s: seq<AccesoTrafico>): (r: Option<AccesoTrafico>)
    ensures r.Some? <==> s != []
    ensures r.Some? ==> r.value in s
  {
    if s == [] then None
    else
      PeorDesdeMaximo(s[0], s);
      Some(PeorDesde(s[0], s))
  }

  /** The indicator's text: "Fluidos", "Congestionado" or "Moderado". */
  datatype Etiqueta = Fluidos | Congestionados | Moderados

  predicate TodosFluidos(s: seq<AccesoTrafico>)
  {
    forall i :: 0 <= i < |s| ==> s[i].estado == Fluido
  }

  predicate AlgunoCongestionado(s: seq<AccesoTrafico>)
  {
    exists i :: 0 <= i < |s| && s[i].estado == Congestionado
  }

  function EstadoAccesos(s: seq<AccesoTrafico>): (e: Etiqueta)
    ensures s == [] ==> e == Fluidos
    ensures e == Moderados ==> exists i :: 0 <= i < |s| && s[i].estado == EstadoTrafico.Moderado
  {
    if TodosFluidos(s) then Fluidos
    else if AlgunoCongestionado(s) then Congestionados
    else Moderados
  }

  /** The indicator's colour, named by the state it stands for; fluid when there is no access. */
  function ColorAcceso(s: seq<AccesoTrafico>): (c: EstadoTrafico)
    ensures s == [] ==> c == Fluido
    ensures c != Fluido ==> exists i :: 0 <= i < |s| && s[i].estado == c
  {
    match PeorAcceso(s)
    case None => Fluido
    case Some(a) => a.estado
  }

  // ─── Properties ───

  /**
   * The reduce ends either on its starting value, which then outranks or
   * ties every access, or on an access of strictly higher rank that
   * outranks or ties every access and strictly outranks every earlier one.
   */
  lemma {:induction false} PeorDesdeMaximo(peor: AccesoTrafico, s: seq<AccesoTrafico>)
    ensures var r := PeorDesde(peor, s);
            (r == peor && forall j :: 0 <= j < |s| ==> Rango(s[j].estado) <= Rango(peor.estado))
            || (exists k :: 0 <= k < |s| && r == s[k] && Rango(peor.estado) < Rango(r.estado)
                  && (forall j :: 0 <= j < k ==> Rango(s[j].estado) < Rango(r.estado))
                  && (forall j :: 0 <= j < |s| ==> Rango(s[j].estado) <= Rango(r.estado)))
  {
    if s != [] {
      var previos := s[..|s| - 1];
      var acc := s[|s| - 1];
      PeorDesdeMaximo(peor, previos);
      var p := PeorDesde(peor, previos);
      assert forall j :: 0 <= j < |previos| ==> previos[j] == s[j];
      if Rango(acc.estado) > Rango(p.estado) {
        assert PeorDesde(peor, s) == acc;
        if p == peor && forall j :: 0 <= j < |previos| ==> Rango(previos[j].estado) <= Rango(peor.estado) {
        } else {
          var k :| 0 <= k < |previos| && p == previos[k] && Rango(peor.estado) < Rango(p.estado)
                   && (forall j :: 0 <= j < |previos| ==> Rango(previos[j].estado) <= Rango(p.estado));
        }
        assert s[|s| - 1] == acc;
      } else {
        assert PeorDesde(peor, s) == p;
      }
    }
  }

  /**
   * The worst access exists exactly when there is some access; it is one
   * of them, no access outranks it, and every access before it has a
   * lower rank (the earliest wins ties).
   */
  lemma PeorAccesoEsElPrimerMaximo(s: seq<AccesoTrafico>)
    ensures PeorAcceso(s).Some? <==> s != []
    ensures PeorAcceso(s).Some? ==>
              exists k :: 0 <= k < |s| && PeorAcceso(s).value == s[k]
                && (forall j :: 0 <= j < k ==> Rango(s[j].estado) < Rango(s[k].estado))
                && (forall j :: 0 <= j < |s| ==> Rango(s[j].estado) <= Rango(s[k].estado))
  {
    if s != [] {
      PeorDesdeMaximo(s[0], s);
      if PeorDesde(s[0], s) == s[0] && forall j :: 0 <= j < |s| ==> Rango(s[j].estado) <= Rango(s[0].estado) {
        assert PeorAcceso(s).value == s[0];
      }
    }
  }

  /**
   * The colour agrees with the label: fluid exactly when every access is
   * fluid (also for no access), congested exactly when some access is
   * congested, moderate otherwise.
   */
  lemma ColorSegunEtiqueta(s: seq<AccesoTrafico>)
    ensures EstadoAccesos(s) == Fluidos <==> ColorAcceso(s) == Fluido
    ensures EstadoAccesos(s) == Congestionados <==> ColorAcceso(s) == Congestionado
    ensures EstadoAccesos(s) == Moderados <==> ColorAcceso(s) == EstadoTrafico.Moderado
  {
    PeorAccesoEsElPrimerMaximo(s);
    if s != [] {
      var k :| 0 <= k < |s| && PeorAcceso(s).value == s[k]
               && (forall j :: 0 <= j < |s| ==> Rango(s[j].estado) <= Rango(s[k].estado));
      assert ColorAcceso(s) == s[k].estado;
      if AlgunoCongestionado(s) {
        var i :| 0 <= i < |s| && s[i].estado == Congestionado;
        assert Rango(s[i].estado) == 2;
      }
    }
  }

  /** The label's cases: "Fluidos" also for no access, and neither a fluid nor a congested access makes "Moderado". */
  lemma EtiquetaCasos(s: seq<AccesoTrafico>)
    ensures EstadoAccesos([]) == Fluidos
    ensures EstadoAccesos(s) == Fluidos <==> forall i :: 0 <= i < |s| ==> s[i].estado == Fluido
    ensures EstadoAccesos(s) == Congestionados <==>
              (exists i :: 0 <= i < |s| && s[i].estado != Fluido) && (exists i :: 0 <= i < |s| && s[i].estado == Congestionado)
    ensures EstadoAccesos(s) == Moderados ==> (exists i :: 0 <= i < |s| && s[i].estado == EstadoTrafico.Moderado)
  {
    if EstadoAccesos(s) == Moderados {
      var i :| 0 <= i < |s| && s[i].estado != Fluido;
      assert s[i].estado == EstadoTrafico.Moderado;
    }
  }

  /** The free cells of the projected zones are their cells less their occupied cells. */
  lemma {:induction false} LibresDeProyecciones(zs: seq<Zona>, rs: seq<Reporte>, ahora: int)
    ensures SumaLibres(Zonas.Proyecciones(zs, rs, ahora)) == Zonas.SumaCeldas(zs) - Zonas.SumaOcupadas(zs)
  {
    if zs != [] {
      var previos := zs[..|zs| - 1];
      LibresDeProyecciones(previos, rs, ahora);
      var p := Zonas.Proyecciones(zs, rs, ahora);
      assert p == Zonas.Proyecciones(previos, rs, ahora) + [Zonas.Proyectar(zs[|zs| - 1], rs, ahora)];
      assert p[..|p| - 1] == Zonas.Proyecciones(previos, rs, ahora);
    }
  }

  /** For a listing as the zones endpoint builds it, the bar's free cells are the sum of the zones' free cells. */
  lemma TotalDisponiblesEsSumaDeZonas(zonas: seq<Zona>, reportes: seq<Reporte>, ahora: int, r: Zonas.RespuestaZonas)
    requires var vis := Zonas.ZonasVisibles(zonas);
             r.zonas == Zonas.Proyecciones(vis, reportes, ahora)
             && r.totalCeldas == Zonas.SumaCeldas(vis) && r.totalOcupadas == Zonas.SumaOcupadas(vis)
    ensures TotalDisponibles(r) == SumaLibres(r.zonas)
  {
    LibresDeProyecciones(Zonas.ZonasVisibles(zonas), reportes, ahora);
  }
}
