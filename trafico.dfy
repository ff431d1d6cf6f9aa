/**
 * The traffic service (src/lib/tomtom.ts): a per-access-point snapshot
 * table with a 60-second lifetime in front of an external provider, with a
 * fixed synthetic speed pair per point when the provider is unconfigured or
 * fails. The provider's answer is an input of each call.
 */
module Trafico {
  import opened Tipos
  import opened Metricas

  const CACHE_TTL_SEGUNDOS := 60
  const CACHE_TTL_MS := CACHE_TTL_SEGUNDOS * MS_POR_SEGUNDO

  /** A monitored access road; its coordinates only feed the provider call. */
  datatype PuntoAcceso = PuntoAcceso(punto: string, via: string)

  const PUNTOS_ACCESO: seq<PuntoAcceso> := [
    PuntoAcceso("vegas", "Av. Las Vegas"),
    PuntoAcceso("cra49", "Cra 49 / Regional")
  ]

  datatype Velocidades = Velocidades(currentSpeed: real, freeFlowSpeed: real)

  /** The synthetic speeds per point, and 30/50 for any other point. */
  function MockPara(punto: string): Velocidades
  {
    if punto == "vegas" then Velocidades(35.0, 50.0)
    else if punto == "cra49" then Velocidades(18.0, 45.0)
    else Velocidades(30.0, 50.0)
  }

  /** The stored row of one point: speeds, their flag and when they were queried. */
  datatype Snapshot = Snapshot(currentSpeed: real, freeFlowSpeed: real, congestionado: bool, consultadoEn: int)

  /**
   * What the provider does on this call: no key configured, a failure
   * (exception or non-ok answer), or the speeds it returned.
   */
  datatype RespuestaProveedor = SinClave | Fallo | Exito(currentSpeed: real, freeFlowSpeed: real)

  /** The stored snapshot of a point is strictly younger than the lifetime. */
  predicate Fresco(store: map<string, Snapshot>, punto: string, ahora: int)
  {
    punto in store && ahora - store[punto].consultadoEn < CACHE_TTL_MS
  }

  /** The datum for a point built from a speed pair. */
  function Dato(acceso: PuntoAcceso, v: Velocidades, hace: Hace, esMock: bool): (d: AccesoTrafico)
    ensures d.punto == acceso.punto && d.via == acceso.via
    ensures d.currentSpeed == v.currentSpeed && d.freeFlowSpeed == v.freeFlowSpeed
    ensures d.congestionado <==> d.estado != Fluido
  {
    var e := EvaluarTrafico(v.currentSpeed, v.freeFlowSpeed);
    AccesoTrafico(acceso.punto, acceso.via, v.currentSpeed, v.freeFlowSpeed,
                  e.congestionado, e.ratio, e.estado, hace, esMock)
  }

  /** The row written for a point from a speed pair queried now. */
  function Fila(v: Velocidades, ahora: int): Snapshot
  {
    Snapshot(v.currentSpeed, v.freeFlowSpeed, EvaluarTrafico(v.currentSpeed, v.freeFlowSpeed).congestionado, ahora)
  }

  /** The provider is asked when the cache is bypassed or stale and a key is configured. */
  predicate LlamaAlProveedor(store: map<string, Snapshot>, punto: string, forzarRefresh: bool,
                             ahora: int, respuesta: RespuestaProveedor)
  {
    (forzarRefresh || !Fresco(store, punto, ahora)) && !respuesta.SinClave?
  }

  /**
   * One lookup: the datum returned and the table afterwards. A fresh
   * snapshot is served unless a refresh is forced; otherwise the
   * provider's speeds, or on any failure the synthetic ones, are written
   * for this point with the current time.
   */
  function Consulta(store: map<string, Snapshot>, acceso: PuntoAcceso, forzarRefresh: bool,
                    ahora: int, respuesta: RespuestaProveedor): (r: (map<string, Snapshot>, AccesoTrafico))
    ensures r.1.punto == acceso.punto && r.1.via == acceso.via
    ensures r.0.Keys == store.Keys + {acceso.punto}
    ensures r.1.esMock <==> (forzarRefresh || !Fresco(store, acceso.punto, ahora)) && !respuesta.Exito?
    ensures r.1.consultadoHace == Ahora <==> forzarRefresh || !Fresco(store, acceso.punto, ahora)
  {
    if !forzarRefresh && Fresco(store, acceso.punto, ahora) then
      var c := store[acceso.punto];
      (store, Dato(acceso, Velocidades(c.currentSpeed, c.freeFlowSpeed),
                   Hace(TiempoRelativo(ahora, c.consultadoEn)), false))
    else if respuesta.Exito? then
      var v := Velocidades(respuesta.currentSpeed, respuesta.freeFlowSpeed);
      (store[acceso.punto := Fila(v, ahora)], Dato(acceso, v, Ahora, false))
    else
      var v := MockPara(acceso.punto);
      (store[acceso.punto := Fila(v, ahora)], Dato(acceso, v, Ahora, true))
  }

  /** The table of snapshots, shared by every request. */
  class CacheTrafico {
    var store: map<string, Snapshot>
    /** How many times the external provider has been asked. */
    ghost var llamadasProveedor: nat

    constructor ()
      ensures store == map[] && llamadasProveedor == 0
    {
      store := map[];
      llamadasProveedor := 0;
    }

    /** Looks one access point up, refreshing its snapshot when needed. */
    method ObtenerTrafico(acceso: PuntoAcceso, forzarRefresh: bool, ahora: int, respuesta: RespuestaProveedor)
      returns (d: AccesoTrafico)
      modifies this
      ensures (store, d) == Consulta(old(store), acceso, forzarRefresh, ahora, respuesta)
      ensures llamadasProveedor == old(llamadasProveedor)
                + (if LlamaAlProveedor(old(store), acceso.punto, forzarRefresh, ahora, respuesta) then 1 else 0)
    {
      if !forzarRefresh {
        if acceso.punto in store {
          var cache := store[acceso.punto];
          if ahora - cache.consultadoEn < CACHE_TTL_MS {
            var e := EvaluarTrafico(cache.currentSpeed, cache.freeFlowSpeed);
            d := AccesoTrafico(acceso.punto, acceso.via, cache.currentSpeed, cache.freeFlowSpeed,
                               e.congestionado, e.ratio, e.estado, Hace(TiempoRelativo(ahora, cache.consultadoEn)), false);
            return;
          }
        }
      }

      if !respuesta.SinClave? {
        llamadasProveedor := llamadasProveedor + 1;
        if respuesta.Exito? {
          var currentSpeed, freeFlowSpeed := respuesta.currentSpeed, respuesta.freeFlowSpeed;
          var congReal := EvaluarTrafico(currentSpeed, freeFlowSpeed).congestionado;
          store := store[acceso.punto := Snapshot(currentSpeed, freeFlowSpeed, congReal, ahora)];
          var e := EvaluarTrafico(currentSpeed, freeFlowSpeed);
          d := AccesoTrafico(acceso.punto, acceso.via, currentSpeed, freeFlowSpeed,
                             e.congestionado, e.ratio, e.estado, Ahora, false);
          return;
        }
      }

      var mock := MockPara(acceso.punto);
      var e := EvaluarTrafico(mock.currentSpeed, mock.freeFlowSpeed);
      store := store[acceso.punto := Snapshot(mock.currentSpeed, mock.freeFlowSpeed, e.congestionado, ahora)];
      d := AccesoTrafico(acceso.punto, acceso.via, mock.currentSpeed, mock.freeFlowSpeed,
                         e.congestionado, e.ratio, e.estado, Ahora, true);
    }

    /**
     * Looks every monitored point up, in their configured order, with one
     * provider answer per point. Each point's result is the one a lone
     * lookup on the table as it was would give, since no lookup touches
     * another point's row.
     */
    method ObtenerTraficoTodos(forzarRefresh: bool, ahora: int, respuestas: seq<RespuestaProveedor>)
      returns (ds: seq<AccesoTrafico>)
      requires |respuestas| == |PUNTOS_ACCESO|
      modifies this
      ensures |ds| == |PUNTOS_ACCESO|
      ensures forall i :: 0 <= i < |ds| ==> ds[i].punto == PUNTOS_ACCESO[i].punto
      ensures forall i :: 0 <= i < |ds| ==>
                ds[i] == Consulta(old(store), PUNTOS_ACCESO[i], forzarRefresh, ahora, respuestas[i]).1
      ensures forall i :: 0 <= i < |PUNTOS_ACCESO| ==>
                var p := PUNTOS_ACCESO[i].punto;
                p in store && store[p] == Consulta(old(store), PUNTOS_ACCESO[i], forzarRefresh, ahora, respuestas[i]).0[p]
      ensures forall k :: k !in PuntosMonitoreados() ==> (k in store <==> k in old(store))
      ensures forall k :: k !in PuntosMonitoreados() && k in store ==> store[k] == old(store)[k]
    {
      assert PUNTOS_ACCESO[0].punto != PUNTOS_ACCESO[1].punto by {
        assert PUNTOS_ACCESO[0].punto[0] != PUNTOS_ACCESO[1].punto[0];
      }
      ds := [];
      var i := 0;
      while i < |PUNTOS_ACCESO|
        invariant 0 <= i <= |PUNTOS_ACCESO|
        invariant |ds| == i
        invariant forall j :: 0 <= j < i ==>
                    ds[j] == Consulta(old(store), PUNTOS_ACCESO[j], forzarRefresh, ahora, respuestas[j]).1
        invariant forall j :: 0 <= j < i ==>
                    var p := PUNTOS_ACCESO[j].punto;
                    p in store && store[p] == Consulta(old(store), PUNTOS_ACCESO[j], forzarRefresh, ahora, respuestas[j]).0[p]
        invariant forall k :: (k !in PuntosMonitoreados() || (exists j :: i <= j < |PUNTOS_ACCESO| && PUNTOS_ACCESO[j].punto == k)) ==>
                    (k in store <==> k in old(store)) && (k in store ==> store[k] == old(store)[k])
      {
        ghost var antes := store;
        ConsultaLocal(antes, old(store), PUNTOS_ACCESO[i], forzarRefresh, ahora, respuestas[i]);
        var d := ObtenerTrafico(PUNTOS_ACCESO[i], forzarRefresh, ahora, respuestas[i]);
        ConsultaSoloSuPunto(antes, PUNTOS_ACCESO[i], forzarRefresh, ahora, respuestas[i]);
        ds := ds + [d];
        i := i + 1;
      }
      forall j | 0 <= j < |ds| ensures ds[j].punto == PUNTOS_ACCESO[j].punto {
        ConsultaDevuelveSuPunto(old(store), PUNTOS_ACCESO[j], forzarRefresh, ahora, respuestas[j]);
      }
    }

    /** Looks up a point by key; an unknown key gives nothing and touches nothing. */
    method ObtenerTraficoPunto(punto: string, forzarRefresh: bool, ahora: int, respuesta: RespuestaProveedor)
      returns (r: Option<AccesoTrafico>)
      modifies this
      ensures BuscarPunto(PUNTOS_ACCESO, punto).None? ==> r.None? && store == old(store)
      ensures BuscarPunto(PUNTOS_ACCESO, punto).Some? ==>
                var acceso := BuscarPunto(PUNTOS_ACCESO, punto).value;
                r.Some? && (store, r.value) == Consulta(old(store), acceso, forzarRefresh, ahora, respuesta)
    {
      var acceso := BuscarPunto(PUNTOS_ACCESO, punto);
      if acceso.None? {
        return None;
      }
      var d := ObtenerTrafico(acceso.value, forzarRefresh, ahora, respuesta);
      r := Some(d);
    }
  }

  ghost function PuntosMonitoreados(): set<string>
  {
    set i | 0 <= i < |PUNTOS_ACCESO| :: PUNTOS_ACCESO[i].punto
  }

  /** The first configured point with this key, if any. */
  function BuscarPunto(puntos: seq<PuntoAcceso>, punto: string): (r: Option<PuntoAcceso>)
    ensures r.None? <==> forall i :: 0 <= i < |puntos| ==> puntos[i].punto != punto
    ensures r.Some? ==> exists i :: 0 <= i < |puntos| && puntos[i] == r.value && r.value.punto == punto
  {
    if puntos == [] then None
    else if puntos[0].punto == punto then Some(puntos[0])
    else
      var r := BuscarPunto(puntos[1..], punto);
      assert r.Some? ==> exists i :: 1 <= i < |puntos| && puntos[i] == r.value by {
        if r.Some? {
          var i :| 0 <= i < |puntos[1..]| && puntos[1..][i] == r.value;
          assert puntos[i + 1] == r.value;
        }
      }
      r
  }

  // ─── Properties of one lookup ───

  /** The datum is always for the point asked about. */
  lemma ConsultaDevuelveSuPunto(store: map<string, Snapshot>, acceso: PuntoAcceso, forzarRefresh: bool,
                                ahora: int, respuesta: RespuestaProveedor)
    ensures Consulta(store, acceso, forzarRefresh, ahora, respuesta).1.punto == acceso.punto
    ensures Consulta(store, acceso, forzarRefresh, ahora, respuesta).1.via == acceso.via
  {
  }

  /**
   * A cache hit: without a forced refresh a snapshot strictly younger than
   * 60 s is served with its stored speeds as not synthetic, the table is
   * unchanged and the provider is not asked.
   */
  lemma ConsultaAciertoCache(store: map<string, Snapshot>, acceso: PuntoAcceso, ahora: int,
                             respuesta: RespuestaProveedor)
    requires acceso.punto in store && ahora - store[acceso.punto].consultadoEn < 60000
    ensures var (s, d) := Consulta(store, acceso, false, ahora, respuesta);
            && s == store
            && d.currentSpeed == store[acceso.punto].currentSpeed
            && d.freeFlowSpeed == store[acceso.punto].freeFlowSpeed
            && !d.esMock
            && d.consultadoHace == Hace(TiempoRelativo(ahora, store[acceso.punto].consultadoEn))
    ensures !LlamaAlProveedor(store, acceso.punto, false, ahora, respuesta)
  {
  }

  /** A snapshot exactly 60 s old is stale, and a forced refresh never reads the table. */
  lemma ConsultaSinCache(store: map<string, Snapshot>, acceso: PuntoAcceso, forzarRefresh: bool,
                         ahora: int, respuesta: RespuestaProveedor)
    requires forzarRefresh || acceso.punto !in store || ahora - store[acceso.punto].consultadoEn >= 60000
    ensures var (s, d) := Consulta(store, acceso, forzarRefresh, ahora, respuesta);
            && d.consultadoHace == Ahora
            && acceso.punto in s && s[acceso.punto].consultadoEn == ahora
  {
  }

  /** On provider success the fetched speeds are stored with the current time and served live. */
  lemma ConsultaExito(store: map<string, Snapshot>, acceso: PuntoAcceso, forzarRefresh: bool,
                      ahora: int, c: real, f: real)
    requires forzarRefresh || !Fresco(store, acceso.punto, ahora)
    ensures var (s, d) := Consulta(store, acceso, forzarRefresh, ahora, Exito(c, f));
            && s == store[acceso.punto := Snapshot(c, f, EvaluarTrafico(c, f).congestionado, ahora)]
            && d.currentSpeed == c && d.freeFlowSpeed == f
            && !d.esMock && d.consultadoHace == Ahora
  {
  }

  /**
   * Without a key, or on any provider failure, the synthetic pair is
   * stored with the current time and served as synthetic.
   */
  lemma ConsultaMock(store: map<string, Snapshot>, acceso: PuntoAcceso, forzarRefresh: bool,
                     ahora: int, respuesta: RespuestaProveedor)
    requires forzarRefresh || !Fresco(store, acceso.punto, ahora)
    requires !respuesta.Exito?
    ensures var (s, d) := Consulta(store, acceso, forzarRefresh, ahora, respuesta);
            var m := MockPara(acceso.punto);
            && s == store[acceso.punto := Snapshot(m.currentSpeed, m.freeFlowSpeed, d.congestionado, ahora)]
            && d.currentSpeed == m.currentSpeed && d.freeFlowSpeed == m.freeFlowSpeed
            && d.esMock && d.consultadoHace == Ahora
  {
  }

  /** The synthetic pairs: vegas is fluid and not congested, cra49 is congested. */
  lemma MockEstados()
    ensures MockPara("vegas") == Velocidades(35.0, 50.0)
    ensures MockPara("cra49") == Velocidades(18.0, 45.0)
    ensures MockPara("") == Velocidades(30.0, 50.0)
    ensures EvaluarTrafico(35.0, 50.0).estado == Fluido && !EvaluarTrafico(35.0, 50.0).congestionado
    ensures EvaluarTrafico(18.0, 45.0).estado == Congestionado && EvaluarTrafico(18.0, 45.0).congestionado
  {
    EvaluacionEjemplos();
  }

  /** Only the row of the point asked about may change. */
  lemma ConsultaSoloSuPunto(store: map<string, Snapshot>, acceso: PuntoAcceso, forzarRefresh: bool,
                            ahora: int, respuesta: RespuestaProveedor)
    ensures var s := Consulta(store, acceso, forzarRefresh, ahora, respuesta).0;
            && (forall k :: k != acceso.punto ==> (k in s <==> k in store))
            && (forall k :: k != acceso.punto && k in s ==> s[k] == store[k])
  {
  }

  /** A lookup depends on the table only through the row of its own point. */
  lemma ConsultaLocal(s1: map<string, Snapshot>, s2: map<string, Snapshot>, acceso: PuntoAcceso,
                      forzarRefresh: bool, ahora: int, respuesta: RespuestaProveedor)
    requires (acceso.punto in s1 <==> acceso.punto in s2)
    requires acceso.punto in s1 ==> s1[acceso.punto] == s2[acceso.punto]
    ensures Consulta(s1, acceso, forzarRefresh, ahora, respuesta).1 == Consulta(s2, acceso, forzarRefresh, ahora, respuesta).1
    ensures var p := acceso.punto;
            var r1 := Consulta(s1, acceso, forzarRefresh, ahora, respuesta).0;
            var r2 := Consulta(s2, acceso, forzarRefresh, ahora, respuesta).0;
            (p in r1 <==> p in r2) && (p in r1 ==> r1[p] == r2[p])
  {
  }

  /**
   * A hit within the lifetime of a synthetic snapshot is reported as not
   * synthetic, although it serves the synthetic speeds.
   */
  lemma AciertoTrasMockNoEsMock(store: map<string, Snapshot>, acceso: PuntoAcceso, t1: int, t2: int,
                                respuesta1: RespuestaProveedor, respuesta2: RespuestaProveedor)
    requires !respuesta1.Exito? && !Fresco(store, acceso.punto, t1)
    requires t1 <= t2 < t1 + 60000
    ensures var (s1, d1) := Consulta(store, acceso, false, t1, respuesta1);
            var (_, d2) := Consulta(s1, acceso, false, t2, respuesta2);
            && d1.esMock && !d2.esMock
            && d2.currentSpeed == d1.currentSpeed && d2.freeFlowSpeed == d1.freeFlowSpeed
  {
  }

  /**
   * After any lookup that wrote a point's row, a second lookup of that
   * point less than 60 s later, without forcing, does not ask the
   * provider and serves the same speeds.
   */
  lemma {:induction false} SegundaConsultaNoLlamaAlProveedor(store: map<string, Snapshot>, acceso: PuntoAcceso,
                                                             forzar1: bool, t1: int, t2: int,
                                                             respuesta1: RespuestaProveedor, respuesta2: RespuestaProveedor)
    requires t1 <= t2 < t1 + 60000
    requires forzar1 || !Fresco(store, acceso.punto, t1)
    ensures var (s1, d1) := Consulta(store, acceso, forzar1, t1, respuesta1);
            var (s2, d2) := Consulta(s1, acceso, false, t2, respuesta2);
            && !LlamaAlProveedor(s1, acceso.punto, false, t2, respuesta2)
            && s2 == s1
            && d2.currentSpeed == d1.currentSpeed && d2.freeFlowSpeed == d1.freeFlowSpeed
            && d2.estado == d1.estado
  {
    var s1 := Consulta(store, acceso, forzar1, t1, respuesta1).0;
    assert acceso.punto in s1 && s1[acceso.punto].consultadoEn == t1;
  }
}
