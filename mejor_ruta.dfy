/**
 * The route recommender (src/app/api/mejor-ruta/route.ts): every active
 * zone with free cells for the chosen vehicle type is scored by its
 * availability and the state of its nearest access, the scored zones are
 * sorted by score, highest first, and the head is recommended with the
 * second as alternative.
 */
module MejorRuta {
  import opened Tipos
  import opened Metricas
  import opened Orden

  datatype TipoVehiculo = Carro | Moto

  function NombreVehiculo(t: TipoVehiculo): string
  {
    match t
    case Carro => "carro"
    case Moto => "moto"
  }

  /** The query parameter: absent means car; anything but the two names is refused. */
  function ParsearTipo(param: Option<string>): (t: Option<TipoVehiculo>)
    ensures param.None? ==> t == Some(Carro)
    ensures param.Some? ==> (t.Some? <==> param.value == "carro" || param.value == "moto")
    ensures param.Some? && t.Some? ==> NombreVehiculo(t.value) == param.value
  {
    if param.None? then Some(Carro)
    else if param.value == "carro" then Some(Carro)
    else if param.value == "moto" then Some(Moto)
    else None
  }

  lemma ParsearTipoIdaYVuelta(t: TipoVehiculo)
    ensures ParsearTipo(Some(NombreVehiculo(t))) == Some(t)
  {
    if t == Moto {
      assert "moto"[0] != "carro"[0];
    }
  }

  /** The score of an access state. */
  function TraficoScore(e: EstadoTrafico): (score: real)
    ensures 0.2 <= score <= 1.0
    ensures score == 1.0 <==> e == Fluido
    ensures score == 0.2 <==> e == Congestionado
  {
    match e
    case Fluido => 1.0
    case Moderado => 0.5
    case Congestionado => 0.2
  }

  /**
   * The traffic data keyed by access point; when a point appears twice the
   * later datum wins, as building a map from pairs does.
   */
  function MapaTrafico(ts: seq<AccesoTrafico>): (m: map<string, AccesoTrafico>)
    ensures forall k :: k in m ==> m[k].punto == k
  {
    if ts == [] then map[]
    else MapaTrafico(ts[..|ts| - 1])[ts[|ts| - 1].punto := ts[|ts| - 1]]
  }

  /**
   * The map has a key for every point in the data, and holds for it the
   * last datum of that point.
   */
  lemma {:induction false} MapaTraficoUltimoGana(ts: seq<AccesoTrafico>)
    ensures forall k :: k in MapaTrafico(ts) <==> exists i :: 0 <= i < |ts| && ts[i].punto == k
    ensures forall k :: k in MapaTrafico(ts) ==>
              exists i :: 0 <= i < |ts| && ts[i] == MapaTrafico(ts)[k] && ts[i].punto == k
                          && forall j :: i < j < |ts| ==> ts[j].punto != k
  {
    if ts != [] {
      var previo := ts[..|ts| - 1];
      var n := |ts| - 1;
      var m0 := MapaTrafico(previo);
      var m := MapaTrafico(ts);
      MapaTraficoUltimoGana(previo);
      assert m == m0[ts[n].punto := ts[n]];
      forall k ensures k in m <==> exists i :: 0 <= i < |ts| && ts[i].punto == k {
        if k in m && k != ts[n].punto {
          var i :| 0 <= i < |previo| && previo[i].punto == k;
          assert ts[i].punto == k;
        }
        if exists i :: 0 <= i < |ts| && ts[i].punto == k {
          var i :| 0 <= i < |ts| && ts[i].punto == k;
          if i < n {
            assert previo[i].punto == k;
          }
        }
      }
      forall k | k in m
        ensures exists i :: 0 <= i < |ts| && ts[i] == m[k] && ts[i].punto == k
                            && forall j :: i < j < |ts| ==> ts[j].punto != k
      {
        if k == ts[n].punto {
          assert ts[n] == m[k];
        } else {
          var i :| 0 <= i < |previo| && previo[i] == m0[k] && previo[i].punto == k
                   && forall j :: i < j < |previo| ==> previo[j].punto != k;
          assert ts[i] == m[k];
          assert forall j :: i < j < |ts| ==> ts[j].punto != k by {
            forall j | i < j < |ts| ensures ts[j].punto != k {
              if j < n {
                assert previo[j] == ts[j];
              }
            }
          }
        }
      }
    }
  }

  function Capacidad(z: Zona, t: TipoVehiculo): int
  {
    if t == Carro then z.capacidadCarro else z.capacidadMoto
  }

  function Ocupacion(z: Zona, t: TipoVehiculo): int
  {
    if t == Carro then z.ocupacionCarro else z.ocupacionMoto
  }

  function Disponibles(z: Zona, t: TipoVehiculo): int
  {
    Capacidad(z, t) - Ocupacion(z, t)
  }

  function DisponibilidadScore(z: Zona, t: TipoVehiculo): real
    requires Capacidad(z, t) != 0
  {
    Disponibles(z, t) as real / Capacidad(z, t) as real
  }

  /** The traffic score of a zone's nearest access, 0.5 when it has no datum. */
  function TraficoDeZona(z: Zona, mapa: map<string, AccesoTrafico>): real
  {
    if z.accesoMasCercano in mapa then TraficoScore(mapa[z.accesoMasCercano].estado) else 0.5
  }

  datatype ZonaResumen = ZonaResumen(id: string, nombre: string, slug: string, ubicacion: string,
                                     disponibles: int, porcentaje: real, estado: EstadoZona)

  datatype AccesoResumen = AccesoResumen(via: string, estado: EstadoTrafico, velocidadActual: real, congestionado: bool)

  /** A scored zone. */
  datatype Candidato = Candidato(zona: ZonaResumen, acceso: Option<AccesoResumen>, scoreFinal: real)

  /** The candidate a zone yields, or nothing without capacity or free cells for the type. */
  function Puntuar(z: Zona, t: TipoVehiculo, mapa: map<string, AccesoTrafico>): (r: Option<Candidato>)
    ensures r.Some? <==> Capacidad(z, t) != 0 && Disponibles(z, t) > 0
    ensures r.Some? ==>
              && r.value.scoreFinal == 0.6 * DisponibilidadScore(z, t) + 0.4 * TraficoDeZona(z, mapa)
              && r.value.zona.id == z.id && r.value.zona.disponibles == Disponibles(z, t)
              && r.value.zona.estado == EstadoDeZona(CalcularPorcentaje(Ocupacion(z, t), Capacidad(z, t)))
              && (r.value.acceso.Some? <==> z.accesoMasCercano in mapa)
  {
    var capacidad := Capacidad(z, t);
    var ocupacion := Ocupacion(z, t);
    if capacidad == 0 then None
    else
      var disponibles := capacidad - ocupacion;
      if disponibles <= 0 then None
      else
        var disponibilidadScore := disponibles as real / capacidad as real;
        var traficoScore := if z.accesoMasCercano in mapa then TraficoScore(mapa[z.accesoMasCercano].estado) else 0.5;
        var pctTotal := CalcularPorcentaje(ocupacion, capacidad);
        var acceso := if z.accesoMasCercano in mapa then
            var d := mapa[z.accesoMasCercano];
            Some(AccesoResumen(d.via, d.estado, d.currentSpeed, d.congestionado))
          else None;
        Some(Candidato(ZonaResumen(z.id, z.nombre, z.slug, z.ubicacion, disponibles, pctTotal, EstadoDeZona(pctTotal)),
                       acceso, disponibilidadScore * 0.6 + traficoScore * 0.4))
  }

  /** The candidates, in zone order. */
  function Candidatos(zs: seq<Zona>, t: TipoVehiculo, mapa: map<string, AccesoTrafico>): (r: seq<Candidato>)
    ensures forall c :: c in r <==> exists z :: z in zs && Puntuar(z, t, mapa) == Some(c)
    ensures |r| <= |zs|
  {
    if zs == [] then []
    else
      var resto := Candidatos(zs[1..], t, mapa);
      assert forall z :: z in zs <==> z == zs[0] || z in zs[1..];
      match Puntuar(zs[0], t, mapa)
      case None => resto
      case Some(c) => [c] + resto
  }

  /** Ahead of b when scoring no lower. */
  predicate MayorScore(a: Candidato, b: Candidato)
  {
    a.scoreFinal >= b.scoreFinal
  }

  lemma MayorScoreEsPreorden()
    ensures Total(MayorScore) && Transitiva(MayorScore)
  {
  }

  /** The ranked list: a stable sort by score, highest first. */
  function Ranking(zs: seq<Zona>, t: TipoVehiculo, trafico: seq<AccesoTrafico>): (r: seq<Candidato>)
    ensures multiset(r) == multiset(Candidatos(Activas(zs), t, MapaTrafico(trafico)))
    ensures |r| <= |zs|
  {
    Ordenar(Candidatos(Activas(zs), t, MapaTrafico(trafico)), MayorScore)
  }

  /** Which phrase the rationale uses, with the access road it names when there is one. */
  datatype TextoTrafico = TieneTrafico(via: string) | AccesoFluido(viaNombrada: Option<string>)

  datatype Razon = Razon(nombreZona: string, disponibles: int, trafico: TextoTrafico)

  datatype Alternativa = Alternativa(zona: string, disponibles: int, acceso: string, estadoAcceso: Option<EstadoTrafico>)

  datatype Recomendacion = Recomendacion(zona: ZonaResumen, acceso: Option<AccesoResumen>, razon: Razon,
                                         score: real, alternativa: Option<Alternativa>)

  /** The response: 400, 404, or the recommendation for the vehicle type. */
  datatype Respuesta = TipoInvalido | SinDisponibilidad | Ok(recomendacion: Recomendacion, tipoVehiculo: TipoVehiculo)

  /** The rationale: the zone's name and free cells, and the access phrase. */
  function RazonDe(c: Candidato): (r: Razon)
    ensures r.nombreZona == c.zona.nombre && r.disponibles == c.zona.disponibles
    ensures r.trafico.TieneTrafico? ==> c.acceso.Some? && r.trafico.via == c.acceso.value.via
    ensures r.trafico.AccesoFluido? ==> (r.trafico.viaNombrada.Some? <==> c.acceso.Some?)
  {
    Razon(c.zona.nombre, c.zona.disponibles,
          if c.acceso.Some? && c.acceso.value.congestionado then TieneTrafico(c.acceso.value.via)
          else AccesoFluido(if c.acceso.Some? then Some(c.acceso.value.via) else None))
  }

  /** Rounds to two decimals, halves upward. */
  function RedondearCentesimas(x: real): (r: real)
    ensures x - 0.005 < r <= x + 0.005
  {
    Redondear(x * 100.0) as real / 100.0
  }

  /** The runner-up as the response shows it; an unknown access is named "desconocido". */
  function AlternativaDe(c: Candidato): (a: Alternativa)
    ensures a.zona == c.zona.nombre && a.disponibles == c.zona.disponibles
    ensures a.estadoAcceso.None? <==> c.acceso.None?
    ensures c.acceso.None? ==> a.acceso == "desconocido"
    ensures c.acceso.Some? ==> a.acceso == c.acceso.value.via && a.estadoAcceso == Some(c.acceso.value.estado)
  {
    Alternativa(c.zona.nombre, c.zona.disponibles,
                if c.acceso.Some? then c.acceso.value.via else "desconocido",
                if c.acceso.Some? then Some(c.acceso.value.estado) else None)
  }

  /** GET /api/mejor-ruta over the stored zones and the traffic data of the access points. */
  function MejorRuta(param: Option<string>, zonas: seq<Zona>, trafico: seq<AccesoTrafico>): (res: Respuesta)
    ensures res == TipoInvalido <==> ParsearTipo(param).None?
    ensures res.Ok? ==> ParsearTipo(param) == Some(res.tipoVehiculo)
                        && Ranking(zonas, res.tipoVehiculo, trafico) != []
                        && res.recomendacion.zona == Ranking(zonas, res.tipoVehiculo, trafico)[0].zona
  {
    var t := ParsearTipo(param);
    if t.None? then TipoInvalido
    else
      var ranking := Ranking(zonas, t.value, trafico);
      if ranking == [] then SinDisponibilidad
      else
        var mejor := ranking[0];
        Ok(Recomendacion(mejor.zona, mejor.acceso, RazonDe(mejor), RedondearCentesimas(mejor.scoreFinal),
                         if |ranking| >= 2 then Some(AlternativaDe(ranking[1])) else None),
           t.value)
  }

  // ─── Properties ───

  /**
   * A zone is ranked exactly when it is active and has non-zero capacity
   * and free cells for the type; zones without are never ranked.
   */
  lemma RankingMiembros(zs: seq<Zona>, t: TipoVehiculo, trafico: seq<AccesoTrafico>, c: Candidato)
    ensures c in Ranking(zs, t, trafico) <==>
              exists z :: z in zs && z.activa && Capacidad(z, t) != 0 && Disponibles(z, t) > 0
                          && Puntuar(z, t, MapaTrafico(trafico)) == Some(c)
  {
    OrdenarMismosElementos(Candidatos(Activas(zs), t, MapaTrafico(trafico)), MayorScore, c);
  }

  /** The ranked list is non-increasing in score, so its head has the highest score. */
  lemma RankingNoCreciente(zs: seq<Zona>, t: TipoVehiculo, trafico: seq<AccesoTrafico>)
    ensures var r := Ranking(zs, t, trafico);
            && (forall i, j :: 0 <= i < j < |r| ==> r[i].scoreFinal >= r[j].scoreFinal)
            && (forall c :: c in r ==> c.scoreFinal <= r[0].scoreFinal)
  {
    MayorScoreEsPreorden();
    OrdenarOrdenada(Candidatos(Activas(zs), t, MapaTrafico(trafico)), MayorScore);
    var r := Ranking(zs, t, trafico);
    forall c | c in r ensures c.scoreFinal <= r[0].scoreFinal {
      var i :| 0 <= i < |r| && r[i] == c;
      if i > 0 {
        assert MayorScore(r[0], r[i]);
      }
    }
  }

  /** Ties keep zone order: the candidates of equal score appear as in the stored zones. */
  lemma RankingEstable(zs: seq<Zona>, t: TipoVehiculo, trafico: seq<AccesoTrafico>, v: Candidato)
    ensures Equivalentes(Ranking(zs, t, trafico), v, MayorScore)
         == Equivalentes(Candidatos(Activas(zs), t, MapaTrafico(trafico)), v, MayorScore)
  {
    MayorScoreEsPreorden();
    OrdenarEstable(Candidatos(Activas(zs), t, MapaTrafico(trafico)), v, MayorScore);
  }

  /** With occupancies at least zero, a ranked zone's availability score lies in (0, 1]. */
  lemma DisponibilidadEnRango(z: Zona, t: TipoVehiculo)
    requires Capacidad(z, t) != 0 && Disponibles(z, t) > 0 && Ocupacion(z, t) >= 0
    ensures 0.0 < DisponibilidadScore(z, t) <= 1.0
  {
    CocienteEnUnidad(Disponibles(z, t), Capacidad(z, t));
    assert Disponibles(z, t) as real / Capacidad(z, t) as real > 0.0;
  }

  /** A zone's traffic score is its access state's score, or 0.5 without a datum. */
  lemma TraficoDeZonaValores(z: Zona, mapa: map<string, AccesoTrafico>)
    ensures z.accesoMasCercano !in mapa ==> TraficoDeZona(z, mapa) == 0.5
    ensures z.accesoMasCercano in mapa ==>
              var e := mapa[z.accesoMasCercano].estado;
              TraficoDeZona(z, mapa) == (if e == Fluido then 1.0 else if e == EstadoTrafico.Moderado then 0.5 else 0.2)
    ensures 0.2 <= TraficoDeZona(z, mapa) <= 1.0
  {
  }

  /** The final score of a ranked zone with in-range occupancy lies in (0.08, 1]. */
  lemma ScoreEnRango(z: Zona, t: TipoVehiculo, mapa: map<string, AccesoTrafico>)
    requires Capacidad(z, t) != 0 && Disponibles(z, t) > 0 && Ocupacion(z, t) >= 0
    ensures 0.08 < Puntuar(z, t, mapa).value.scoreFinal <= 1.0
  {
    DisponibilidadEnRango(z, t);
    TraficoDeZonaValores(z, mapa);
  }

  /**
   * The response: 400 exactly for an unknown type, 404 exactly when
   * nothing is ranked; otherwise the head recommended with its score
   * rounded to two decimals, and the second, if any, as alternative.
   */
  lemma MejorRutaRespuesta(param: Option<string>, zonas: seq<Zona>, trafico: seq<AccesoTrafico>)
    ensures MejorRuta(param, zonas, trafico) == TipoInvalido <==>
              param.Some? && param.value != "carro" && param.value != "moto"
    ensures ParsearTipo(param).Some? ==>
              var t := ParsearTipo(param).value;
              var r := Ranking(zonas, t, trafico);
              var res := MejorRuta(param, zonas, trafico);
              && (res == SinDisponibilidad <==> r == [])
              && (r != [] ==>
                    && res.Ok? && res.tipoVehiculo == t
                    && res.recomendacion.zona == r[0].zona
                    && r[0].scoreFinal - 0.005 < res.recomendacion.score <= r[0].scoreFinal + 0.005
                    && (res.recomendacion.alternativa.Some? <==> |r| >= 2)
                    && (|r| >= 2 ==> res.recomendacion.alternativa.value.zona == r[1].zona.nombre))
  {
  }

  /** The "has traffic" phrase is used exactly when the recommended access is flagged congested. */
  lemma RazonSiiCongestionado(c: Candidato)
    ensures RazonDe(c).trafico.TieneTrafico? <==> c.acceso.Some? && c.acceso.value.congestionado
  {
  }

  /**
   * For traffic data as the traffic service builds them, the phrase is
   * also used for a moderate access.
   */
  lemma RazonModeradoTieneTrafico(z: Zona, t: TipoVehiculo, trafico: seq<AccesoTrafico>)
    requires forall i :: 0 <= i < |trafico| ==> (trafico[i].congestionado <==> trafico[i].estado != Fluido)
    requires Capacidad(z, t) != 0 && Disponibles(z, t) > 0
    requires z.accesoMasCercano in MapaTrafico(trafico)
    requires MapaTrafico(trafico)[z.accesoMasCercano].estado == EstadoTrafico.Moderado
    ensures RazonDe(Puntuar(z, t, MapaTrafico(trafico)).value).trafico.TieneTrafico?
  {
    var m := MapaTrafico(trafico);
    MapaTraficoUltimoGana(trafico);
    var i :| 0 <= i < |trafico| && trafico[i] == m[z.accesoMasCercano] && trafico[i].punto == z.accesoMasCercano
             && forall j :: i < j < |trafico| ==> trafico[j].punto != z.accesoMasCercano;
  }

  /** Two distinct access data build the map holding both. */
  lemma MapaDeDos(ta: AccesoTrafico, tb: AccesoTrafico)
    requires ta.punto != tb.punto
    ensures MapaTrafico([ta, tb]) == map[ta.punto := ta, tb.punto := tb]
  {
    assert [ta, tb][..1] == [ta];
    assert [ta][..0] == [];
    assert MapaTrafico([ta]) == map[][ta.punto := ta];
    assert MapaTrafico([ta, tb]) == MapaTrafico([ta])[tb.punto := tb];
  }

  /** A fluid access scores 0.88 at 8 free of 10, a congested one 0.62 at 9 free of 10. */
  lemma EjemploPuntajes(a: Zona, b: Zona, m: map<string, AccesoTrafico>)
    requires a.capacidadCarro == 10 && a.ocupacionCarro == 2
    requires a.accesoMasCercano in m && m[a.accesoMasCercano].estado == Fluido
    requires b.capacidadCarro == 10 && b.ocupacionCarro == 1
    requires b.accesoMasCercano in m && m[b.accesoMasCercano].estado == Congestionado
    ensures Puntuar(a, Carro, m).value.scoreFinal == 0.88
    ensures Puntuar(b, Carro, m).value.scoreFinal == 0.62
  {
    assert DisponibilidadScore(a, Carro) == 0.8;
    assert DisponibilidadScore(b, Carro) == 0.9;
  }

  /** Sorting the two candidates puts the higher score first, whatever their order. */
  lemma OrdenarDos(ca: Candidato, cb: Candidato)
    requires ca.scoreFinal > cb.scoreFinal
    ensures Ordenar([cb, ca], MayorScore) == [ca, cb]
  {
    assert [cb, ca][1..] == [ca];
    assert [ca][1..] == [];
    assert Ordenar([ca], MayorScore) == [ca];
    assert Insertar(cb, [ca], MayorScore) == [ca] + Insertar(cb, [], MayorScore);
  }

  /**
   * Two car zones of 10 cells: one with 8 free and a fluid access
   * (0.88), listed second, and one with 9 free and a congested access
   * (0.62): the first is recommended and the second is the alternative.
   */
  lemma EjemploRecomendacion(a: Zona, b: Zona, ta: AccesoTrafico, tb: AccesoTrafico)
    requires a.activa && a.capacidadCarro == 10 && a.ocupacionCarro == 2 && a.accesoMasCercano == ta.punto
    requires b.activa && b.capacidadCarro == 10 && b.ocupacionCarro == 1 && b.accesoMasCercano == tb.punto
    requires ta.punto != tb.punto && ta.estado == Fluido && tb.estado == Congestionado
    ensures Puntuar(a, Carro, MapaTrafico([ta, tb])).value.scoreFinal == 0.88
    ensures Puntuar(b, Carro, MapaTrafico([ta, tb])).value.scoreFinal == 0.62
    ensures var res := MejorRuta(Some("carro"), [b, a], [ta, tb]);
            && res.Ok?
            && res.recomendacion.zona.id == a.id
            && res.recomendacion.alternativa == Some(AlternativaDe(Puntuar(b, Carro, MapaTrafico([ta, tb])).value))
  {
    MapaDeDos(ta, tb);
    var m := MapaTrafico([ta, tb]);
    EjemploPuntajes(a, b, m);
    var ca := Puntuar(a, Carro, m).value;
    var cb := Puntuar(b, Carro, m).value;
    assert [b, a][1..] == [a];
    assert [a][1..] == [];
    assert Activas([a]) == [a];
    assert Activas([b, a]) == [b, a];
    assert Candidatos([a], Carro, m) == [ca];
    assert Candidatos([b, a], Carro, m) == [cb, ca];
    OrdenarDos(ca, cb);
    assert Ranking([b, a], Carro, [ta, tb]) == [ca, cb];
  }
}
