/**
 * The report ledger (src/app/api/reportes/route.ts and
 * src/app/api/reportes/feed/route.ts): validation of a new report, the
 * zone check, the per-user rate limit, creation with its expiry, the
 * crowdsourced effect on the zone's car occupancy, and the two read
 * queries (active reports, and the latest-50 feed).
 */
module Reportes {
  import opened Tipos
  import opened Metricas
  import opened Orden

  const RATE_LIMIT_REPORTES := 3
  const RATE_LIMIT_MINUTOS := 10
  const VENTANA_MS := RATE_LIMIT_MINUTOS * MS_POR_MINUTO
  const CONFIANZA_INICIAL := 1.0
  const DESCUENTO_HAY_CUPOS := 5
  const LIMITE_FEED := 50

  /** The fields of a request body, already typed. */
  datatype Solicitud = Solicitud(
    zonaId: string,
    tipo: string,
    lat: Option<real>,
    lng: Option<real>,
    usuarioAnonId: Option<string>)

  /** The schema: non-empty zone id, a known type, coordinates and user id in range when present. */
  predicate EsValida(s: Solicitud): (b: bool)
    ensures b ==> TipoDesdeNombre(s.tipo).Some? && NombreTipo(TipoDesdeNombre(s.tipo).value) == s.tipo
  {
    && |s.zonaId| >= 1
    && TipoDesdeNombre(s.tipo).Some?
    && (s.lat.Some? ==> -90.0 <= s.lat.value <= 90.0)
    && (s.lng.Some? ==> -180.0 <= s.lng.value <= 180.0)
    && (s.usuarioAnonId.Some? ==> 1 <= |s.usuarioAnonId.value| <= 100)
  }

  /** The tipo field is accepted exactly when it is the wire name of a report type. */
  lemma TipoValidoSiEsNombre(s: Solicitud)
    ensures TipoDesdeNombre(s.tipo).Some? <==> exists t :: NombreTipo(t) == s.tipo
  {
    if exists t :: NombreTipo(t) == s.tipo {
      var t :| NombreTipo(t) == s.tipo;
      NombreTipoIdaYVuelta(t);
    }
  }

  /** The outcome of a request: 201 with the report, 400, 404 or 429. */
  datatype Respuesta = Creado(reporte: Reporte) | DatosInvalidos | ZonaNoEncontrada | LimiteAlcanzado

  /** Reports of this user created strictly after the start of the 10-minute window. */
  function ConteoReciente(rs: seq<Reporte>, usuario: string, ahora: int): (n: nat)
    ensures n <= |rs|
  {
    if rs == [] then 0
    else
      var r := rs[|rs| - 1];
      ConteoReciente(rs[..|rs| - 1], usuario, ahora)
        + (if r.usuarioAnonId == Some(usuario) && r.createdAt > ahora - VENTANA_MS then 1 else 0)
  }

  /** The crowdsourced effect of a report type on its zone, in closed form. */
  function Efecto(z: Zona, t: TipoReporte): (r: Zona)
    ensures r == z.(ocupacionCarro := r.ocupacionCarro)
    ensures OcupacionEnRango(z) ==> OcupacionEnRango(r)
    ensures t != HayCupos && t != TipoReporte.Lleno ==> r == z
  {
    if t == HayCupos then z.(ocupacionCarro := if z.ocupacionCarro - DESCUENTO_HAY_CUPOS < 0 then 0 else z.ocupacionCarro - DESCUENTO_HAY_CUPOS)
    else if t == TipoReporte.Lleno then z.(ocupacionCarro := z.capacidadCarro)
    else z
  }

  /** The ledger after a request, with the response. */
  datatype Resultado = Resultado(respuesta: Respuesta, zonas: map<string, Zona>, reportes: seq<Reporte>, siguienteId: nat)

  /** The report a valid request creates. */
  function NuevoReporte(s: Solicitud, id: nat, ahora: int): Reporte
    requires EsValida(s)
  {
    Reporte(id, s.zonaId, TipoDesdeNombre(s.tipo).value, s.lat, s.lng, s.usuarioAnonId,
            CONFIANZA_INICIAL, true, ahora, CalcularExpiracion(s.tipo, ahora))
  }

  /** What a request does to the ledger, checked in the route's order. */
  function Post(zonas: map<string, Zona>, reportes: seq<Reporte>, siguienteId: nat, s: Solicitud, ahora: int): (res: Resultado)
    ensures !res.respuesta.Creado? ==> res.zonas == zonas && res.reportes == reportes && res.siguienteId == siguienteId
    ensures res.respuesta.Creado? ==>
              res.reportes == reportes + [res.respuesta.reporte] && res.siguienteId == siguienteId + 1
              && res.respuesta.reporte.id == siguienteId && res.zonas.Keys == zonas.Keys
  {
    if !EsValida(s) then Resultado(DatosInvalidos, zonas, reportes, siguienteId)
    else if s.zonaId !in zonas then Resultado(ZonaNoEncontrada, zonas, reportes, siguienteId)
    else if s.usuarioAnonId.Some? && ConteoReciente(reportes, s.usuarioAnonId.value, ahora) >= RATE_LIMIT_REPORTES then
      Resultado(LimiteAlcanzado, zonas, reportes, siguienteId)
    else
      var r := NuevoReporte(s, siguienteId, ahora);
      Resultado(Creado(r), zonas[s.zonaId := Efecto(zonas[s.zonaId], r.tipo)], reportes + [r], siguienteId + 1)
  }

  /** The zone and report tables. */
  class Registro {
    var zonas: map<string, Zona>
    var reportes: seq<Reporte>
    var siguienteId: nat

    /** Report ids are increasing and below the next id; every report's zone exists. */
    ghost predicate Valid()
      reads this
    {
      && (forall i :: 0 <= i < |reportes| ==> reportes[i].id < siguienteId)
      && (forall i, j :: 0 <= i < j < |reportes| ==> reportes[i].id < reportes[j].id)
      && (forall i :: 0 <= i < |reportes| ==> reportes[i].zonaId in zonas)
    }

    constructor (zonas0: map<string, Zona>)
      ensures Valid()
      ensures zonas == zonas0 && reportes == [] && siguienteId == 0
    {
      zonas := zonas0;
      reportes := [];
      siguienteId := 0;
    }

    /**
     * Handles a report request: validates, checks the zone and the
     * rate limit, creates the report, then adjusts the zone's car
     * occupancy by decrement-then-correct (hay_cupos) or overwrite (lleno).
     */
    method Enviar(s: Solicitud, ahora: int) returns (resp: Respuesta)
      requires Valid()
      modifies this
      ensures Valid()
      ensures Resultado(resp, zonas, reportes, siguienteId)
              == Post(old(zonas), old(reportes), old(siguienteId), s, ahora)
    {
      if !EsValida(s) {
        return DatosInvalidos;
      }
      if s.zonaId !in zonas {
        return ZonaNoEncontrada;
      }
      var zona := zonas[s.zonaId];

      if s.usuarioAnonId.Some? {
        var recientes := ConteoReciente(reportes, s.usuarioAnonId.value, ahora);
        if recientes >= RATE_LIMIT_REPORTES {
          return LimiteAlcanzado;
        }
      }

      var tipo := TipoDesdeNombre(s.tipo).value;
      var expiraEn := CalcularExpiracion(s.tipo, ahora);
      var reporte := Reporte(siguienteId, s.zonaId, tipo, s.lat, s.lng, s.usuarioAnonId,
                             CONFIANZA_INICIAL, true, ahora, expiraEn);
      reportes := reportes + [reporte];
      siguienteId := siguienteId + 1;

      if tipo == HayCupos {
        zonas := zonas[s.zonaId := zonas[s.zonaId].(ocupacionCarro := zonas[s.zonaId].ocupacionCarro - DESCUENTO_HAY_CUPOS)];
        var actualizada := zonas[s.zonaId];
        if actualizada.ocupacionCarro < 0 {
          zonas := zonas[s.zonaId := actualizada.(ocupacionCarro := 0)];
        }
      }

      if tipo == TipoReporte.Lleno {
        zonas := zonas[s.zonaId := zonas[s.zonaId].(ocupacionCarro := zona.capacidadCarro)];
      }

      resp := Creado(reporte);
    }
  }

  // ─── Properties of a request ───

  /** A request is created exactly when it is valid, its zone exists and its user, if any, is under the limit. */
  lemma PostCreadoSiiAdmitido(zonas: map<string, Zona>, reportes: seq<Reporte>, sig: nat, s: Solicitud, ahora: int)
    ensures Post(zonas, reportes, sig, s, ahora).respuesta.Creado? <==>
              && EsValida(s) && s.zonaId in zonas
              && (s.usuarioAnonId.None? || ConteoReciente(reportes, s.usuarioAnonId.value, ahora) < 3)
  {
  }

  /** Every rejection (400, 404, 429) writes nothing. */
  lemma PostRechazoSinEscrituras(zonas: map<string, Zona>, reportes: seq<Reporte>, sig: nat, s: Solicitud, ahora: int)
    ensures var res := Post(zonas, reportes, sig, s, ahora);
            !res.respuesta.Creado? ==> res.zonas == zonas && res.reportes == reportes && res.siguienteId == sig
    ensures !EsValida(s) ==> Post(zonas, reportes, sig, s, ahora).respuesta == DatosInvalidos
    ensures EsValida(s) && s.zonaId !in zonas ==> Post(zonas, reportes, sig, s, ahora).respuesta == ZonaNoEncontrada
    ensures EsValida(s) && s.zonaId in zonas && s.usuarioAnonId.Some?
            && ConteoReciente(reportes, s.usuarioAnonId.value, ahora) >= 3
            ==> Post(zonas, reportes, sig, s, ahora).respuesta == LimiteAlcanzado
  {
  }

  /**
   * A created report: its fields come from the request, its confidence is
   * 1.0, it is active, created now and expires its type's lifetime in
   * minutes later; it is appended to the reports.
   */
  lemma PostCreaReporte(zonas: map<string, Zona>, reportes: seq<Reporte>, sig: nat, s: Solicitud, ahora: int)
    requires Post(zonas, reportes, sig, s, ahora).respuesta.Creado?
    ensures var res := Post(zonas, reportes, sig, s, ahora);
            var r := res.respuesta.reporte;
            && r.id == sig && r.zonaId == s.zonaId && NombreTipo(r.tipo) == s.tipo
            && r.lat == s.lat && r.lng == s.lng && r.usuarioAnonId == s.usuarioAnonId
            && r.confianza == 1.0 && r.activo && r.createdAt == ahora
            && r.expiraEn == ahora + TtlReporte(s.tipo) * 60000
            && res.reportes == reportes + [r] && res.siguienteId == sig + 1
  {
  }

  /**
   * The zone effect: hay_cupos leaves max(0, old - 5) cars, lleno leaves
   * the car capacity, other types leave the zone as it was; motorcycles,
   * capacities and every other zone are never changed.
   */
  lemma PostEfectoEnZona(zonas: map<string, Zona>, reportes: seq<Reporte>, sig: nat, s: Solicitud, ahora: int)
    requires Post(zonas, reportes, sig, s, ahora).respuesta.Creado?
    ensures var res := Post(zonas, reportes, sig, s, ahora);
            var antes := zonas[s.zonaId];
            var despues := res.zonas[s.zonaId];
            var t := res.respuesta.reporte.tipo;
            && res.zonas.Keys == zonas.Keys
            && (forall k :: k in zonas && k != s.zonaId ==> res.zonas[k] == zonas[k])
            && despues.ocupacionMoto == antes.ocupacionMoto
            && despues.capacidadCarro == antes.capacidadCarro && despues.capacidadMoto == antes.capacidadMoto
            && (t == HayCupos ==> despues.ocupacionCarro == (if antes.ocupacionCarro >= 5 then antes.ocupacionCarro - 5 else 0))
            && (t == TipoReporte.Lleno ==> despues.ocupacionCarro == antes.capacidadCarro)
            && (t != HayCupos && t != TipoReporte.Lleno ==> despues == antes)
  {
  }

  /** No request breaks the occupancy range of any zone. */
  lemma PostConservaRango(zonas: map<string, Zona>, reportes: seq<Reporte>, sig: nat, s: Solicitud, ahora: int)
    requires forall k :: k in zonas ==> OcupacionEnRango(zonas[k])
    ensures var res := Post(zonas, reportes, sig, s, ahora);
            forall k :: k in res.zonas ==> OcupacionEnRango(res.zonas[k])
  {
  }

  // ─── Properties of the rate-limit count ───

  /** Appending one report adds one to a user's count exactly when it is theirs and inside the window. */
  lemma ConteoAlAnexar(rs: seq<Reporte>, r: Reporte, usuario: string, ahora: int)
    ensures ConteoReciente(rs + [r], usuario, ahora)
         == ConteoReciente(rs, usuario, ahora)
            + (if r.usuarioAnonId == Some(usuario) && r.createdAt > ahora - 600000 then 1 else 0)
  {
    assert (rs + [r])[..|rs + [r]| - 1] == rs;
  }

  /**
   * The count looks only at user and creation time: reports that are
   * inactive or past their expiry still count.
   */
  lemma {:induction false} ConteoIgnoraVigencia(rs1: seq<Reporte>, rs2: seq<Reporte>, usuario: string, ahora: int)
    requires |rs1| == |rs2|
    requires forall i :: 0 <= i < |rs1| ==>
               rs1[i].usuarioAnonId == rs2[i].usuarioAnonId && rs1[i].createdAt == rs2[i].createdAt
    ensures ConteoReciente(rs1, usuario, ahora) == ConteoReciente(rs2, usuario, ahora)
  {
    if rs1 != [] {
      ConteoIgnoraVigencia(rs1[..|rs1| - 1], rs2[..|rs2| - 1], usuario, ahora);
    }
  }

  /**
   * A request by a user that is created adds one to that user's count at
   * the same instant, and keeps its zone in the table.
   */
  lemma CreadoCuenta(zonas: map<string, Zona>, reportes: seq<Reporte>, sig: nat, s: Solicitud, ahora: int)
    requires s.usuarioAnonId.Some?
    requires Post(zonas, reportes, sig, s, ahora).respuesta.Creado?
    ensures var res := Post(zonas, reportes, sig, s, ahora);
            && ConteoReciente(res.reportes, s.usuarioAnonId.value, ahora)
               == ConteoReciente(reportes, s.usuarioAnonId.value, ahora) + 1
            && s.zonaId in res.zonas
  {
    var res := Post(zonas, reportes, sig, s, ahora);
    ConteoAlAnexar(reportes, res.respuesta.reporte, s.usuarioAnonId.value, ahora);
  }

  /** A user's request under the limit on a known zone is created and adds one to their count. */
  lemma AdmitidoSuma(zonas: map<string, Zona>, reportes: seq<Reporte>, sig: nat, s: Solicitud, ahora: int, n: nat)
    requires EsValida(s) && s.zonaId in zonas && s.usuarioAnonId.Some?
    requires ConteoReciente(reportes, s.usuarioAnonId.value, ahora) == n < RATE_LIMIT_REPORTES
    ensures var res := Post(zonas, reportes, sig, s, ahora);
            && res.respuesta.Creado? && s.zonaId in res.zonas
            && ConteoReciente(res.reportes, s.usuarioAnonId.value, ahora) == n + 1
  {
    PostCreadoSiiAdmitido(zonas, reportes, sig, s, ahora);
    CreadoCuenta(zonas, reportes, sig, s, ahora);
  }

  /**
   * Three created reports by one user at the same instant exhaust the
   * limit: the fourth is refused, while the same request without a
   * user id is still created.
   */
  lemma CuartoReporteRechazado(zonas: map<string, Zona>, reportes: seq<Reporte>, sig: nat, s: Solicitud, ahora: int)
    requires EsValida(s) && s.zonaId in zonas && s.usuarioAnonId.Some?
    requires ConteoReciente(reportes, s.usuarioAnonId.value, ahora) == 0
    ensures var r1 := Post(zonas, reportes, sig, s, ahora);
            var r2 := Post(r1.zonas, r1.reportes, r1.siguienteId, s, ahora);
            var r3 := Post(r2.zonas, r2.reportes, r2.siguienteId, s, ahora);
            && r1.respuesta.Creado? && r2.respuesta.Creado? && r3.respuesta.Creado?
            && Post(r3.zonas, r3.reportes, r3.siguienteId, s, ahora).respuesta == LimiteAlcanzado
            && Post(r3.zonas, r3.reportes, r3.siguienteId, s.(usuarioAnonId := None), ahora).respuesta.Creado?
  {
    var r1 := Post(zonas, reportes, sig, s, ahora);
    AdmitidoSuma(zonas, reportes, sig, s, ahora, 0);
    var r2 := Post(r1.zonas, r1.reportes, r1.siguienteId, s, ahora);
    AdmitidoSuma(r1.zonas, r1.reportes, r1.siguienteId, s, ahora, 1);
    var r3 := Post(r2.zonas, r2.reportes, r2.siguienteId, s, ahora);
    AdmitidoSuma(r2.zonas, r2.reportes, r2.siguienteId, s, ahora, 2);
    PostRechazoSinEscrituras(r3.zonas, r3.reportes, r3.siguienteId, s, ahora);
    PostCreadoSiiAdmitido(r3.zonas, r3.reportes, r3.siguienteId, s.(usuarioAnonId := None), ahora);
  }

  // ─── Read queries ───

  /** A report the active query returns: flagged active and expiring strictly after now. */
  predicate Vigente(r: Reporte, ahora: int)
  {
    r.activo && r.expiraEn > ahora
  }

  /** Newest first: a goes no later than b when it was created no earlier. */
  predicate MasReciente(a: Reporte, b: Reporte)
  {
    a.createdAt >= b.createdAt
  }

  lemma MasRecienteEsPreorden()
    ensures Total(MasReciente) && Transitiva(MasReciente)
  {
  }

  /** The active reports, in their stored order. */
  function Vigentes(rs: seq<Reporte>, ahora: int): (r: seq<Reporte>)
    ensures forall x :: x in r <==> x in rs && Vigente(x, ahora)
    ensures |r| <= |rs|
  {
    if rs == [] then []
    else if Vigente(rs[0], ahora) then [rs[0]] + Vigentes(rs[1..], ahora)
    else Vigentes(rs[1..], ahora)
  }

  /** GET /api/reportes: the active reports, newest first. */
  function Activos(rs: seq<Reporte>, ahora: int): (r: seq<Reporte>)
    ensures multiset(r) == multiset(Vigentes(rs, ahora))
  {
    Ordenar(Vigentes(rs, ahora), MasReciente)
  }

  /** The active query returns exactly the active reports, newest first. */
  lemma ActivosExactosYOrdenados(rs: seq<Reporte>, ahora: int)
    ensures forall x :: x in Activos(rs, ahora) <==> x in rs && Vigente(x, ahora)
    ensures forall i, j :: 0 <= i < j < |Activos(rs, ahora)| ==>
              Activos(rs, ahora)[i].createdAt >= Activos(rs, ahora)[j].createdAt
    ensures multiset(Activos(rs, ahora)) == multiset(Vigentes(rs, ahora))
  {
    forall x ensures x in Activos(rs, ahora) <==> x in Vigentes(rs, ahora) {
      OrdenarMismosElementos(Vigentes(rs, ahora), MasReciente, x);
    }
    MasRecienteEsPreorden();
    OrdenarOrdenada(Vigentes(rs, ahora), MasReciente);
  }

  /** How many of n reports the feed's `take` keeps: all of them, or the first 50. */
  function Tomados(n: nat): (k: nat)
    ensures k <= n && k <= LIMITE_FEED
    ensures k == n || k == LIMITE_FEED
  {
    if n <= LIMITE_FEED then n else LIMITE_FEED
  }

  /** GET /api/reportes/feed: all reports newest first, the first 50, with no activity filter. */
  function Feed(rs: seq<Reporte>): (r: seq<Reporte>)
    ensures |r| == Tomados(|rs|)
  {
    Ordenar(rs, MasReciente)[..Tomados(|rs|)]
  }

  /** The reports the feed leaves out. */
  function Omitidos(rs: seq<Reporte>): (r: seq<Reporte>)
    ensures |r| == |rs| - Tomados(|rs|)
    ensures Feed(rs) + r == Ordenar(rs, MasReciente)
  {
    Ordenar(rs, MasReciente)[Tomados(|rs|)..]
  }

  /**
   * The feed has at most 50 reports, newest first; with what it omits it
   * is a permutation of all reports, and no omitted report is newer than
   * a returned one.
   */
  lemma FeedCorte(rs: seq<Reporte>)
    ensures |Feed(rs)| <= 50
    ensures forall i, j :: 0 <= i < j < |Feed(rs)| ==> Feed(rs)[i].createdAt >= Feed(rs)[j].createdAt
    ensures multiset(Feed(rs)) + multiset(Omitidos(rs)) == multiset(rs)
    ensures forall x, y :: x in Omitidos(rs) && y in Feed(rs) ==> x.createdAt <= y.createdAt
  {
    var o := Ordenar(rs, MasReciente);
    var m := Tomados(|rs|);
    MasRecienteEsPreorden();
    OrdenarOrdenada(rs, MasReciente);
    assert o == o[..m] + o[m..];
    forall x, y | x in Omitidos(rs) && y in Feed(rs) ensures x.createdAt <= y.createdAt {
      var i :| 0 <= i < |o[m..]| && o[m..][i] == x;
      var j :| 0 <= j < |o[..m]| && o[..m][j] == y;
      assert MasReciente(o[j], o[m + i]);
    }
  }

  /**
   * With at most 50 reports the feed omits none, whether active,
   * inactive or expired.
   */
  lemma FeedCompletoSinFiltro(rs: seq<Reporte>, x: Reporte)
    requires |rs| <= 50
    ensures x in Feed(rs) <==> x in rs
  {
    OrdenarMismosElementos(rs, MasReciente, x);
    assert Feed(rs) == Ordenar(rs, MasReciente);
  }
}
