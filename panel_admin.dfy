/**
 * The admin dashboard's refresh cycle (src/hooks/useAdminDashboard.ts):
 * loading flags around each fetch, and the detection of report ids not
 * seen in any earlier poll, which the feed highlights.
 */
module PanelAdmin {
  import opened Tipos
  import Zonas

  /** The ids of a list of reports. */
  function IdsDe(feed: seq<Reporte>): set<nat>
  {
    if feed == [] then {} else IdsDe(feed[..|feed| - 1]) + {feed[|feed| - 1].id}
  }

  /** The ids known after a series of polls, starting from a known set. */
  function Conocidos(inicial: set<nat>, polls: seq<seq<Reporte>>): (r: set<nat>)
    ensures inicial <= r
    ensures forall i :: 0 <= i < |polls| ==> IdsDe(polls[i]) <= r
  {
    if polls == [] then inicial else Conocidos(inicial, polls[..|polls| - 1]) + IdsDe(polls[|polls| - 1])
  }

  /** The ids each poll of a series flags as new. */
  function Marcados(inicial: set<nat>, polls: seq<seq<Reporte>>): (r: seq<set<nat>>)
    ensures |r| == |polls|
  {
    if polls == [] then []
    else
      var previos := polls[..|polls| - 1];
      Marcados(inicial, previos) + [IdsDe(polls[|polls| - 1]) - Conocidos(inicial, previos)]
  }

  /** The answers of one successful poll of the three endpoints. */
  datatype Datos = Datos(zonas: Zonas.RespuestaZonas, trafico: seq<AccesoTrafico>, feed: seq<Reporte>)

  /** The hook's state and its set of known feed ids. */
  class Panel {
    var zonas: Option<Zonas.RespuestaZonas>
    var trafico: Option<seq<AccesoTrafico>>
    var feed: seq<Reporte>
    var cargando: bool
    var actualizando: bool
    var ultimaActualizacion: Option<int>
    var refreshingTrafico: bool
    var errorConexion: bool
    var feedIds: set<nat>
    var reportesNuevos: set<nat>
    /** The feeds of every successful poll so far. */
    ghost var polls: seq<seq<Reporte>>
    /** The poll whose new ids are highlighted. */
    ghost var resaltadoDe: nat

    /** The known ids are those of every past poll, and the highlighted ones were flagged by a poll. */
    ghost predicate Valid()
      reads this
    {
      feedIds == Conocidos({}, polls)
      && (reportesNuevos == {} || (resaltadoDe < |polls| && reportesNuevos == Marcados({}, polls)[resaltadoDe]))
    }

    constructor ()
      ensures Valid()
      ensures zonas == None && trafico == None && feed == []
      ensures cargando && !actualizando && ultimaActualizacion == None
      ensures !refreshingTrafico && !errorConexion
      ensures feedIds == {} && reportesNuevos == {} && polls == []
    {
      zonas := None;
      trafico := None;
      feed := [];
      cargando := true;
      actualizando := false;
      ultimaActualizacion := None;
      refreshingTrafico := false;
      errorConexion := false;
      feedIds := {};
      reportesNuevos := {};
      polls := [];
      resaltadoDe := 0;
    }

    /** The flags set as a fetch starts: a full load only when not silent and nothing is shown yet. */
    method IniciarCarga(silencioso: bool)
      modifies this`cargando, this`actualizando
      ensures cargando == (!silencioso && zonas.None?)
      ensures actualizando == silencioso
    {
      cargando := !silencioso && zonas.None?;
      actualizando := silencioso;
    }

    /** Adds the feed's ids to the known set and returns those that were not known. */
    method DetectarNuevos(nuevoFeed: seq<Reporte>) returns (idsNuevos: set<nat>)
      modifies this`feedIds
      ensures idsNuevos == IdsDe(nuevoFeed) - old(feedIds)
      ensures feedIds == old(feedIds) + IdsDe(nuevoFeed)
    {
      idsNuevos := {};
      var i := 0;
      while i < |nuevoFeed|
        invariant 0 <= i <= |nuevoFeed|
        invariant idsNuevos == IdsDe(nuevoFeed[..i]) - old(feedIds)
        invariant feedIds == old(feedIds) + IdsDe(nuevoFeed[..i])
      {
        var r := nuevoFeed[i];
        assert nuevoFeed[..i + 1][..i] == nuevoFeed[..i];
        if r.id !in feedIds {
          idsNuevos := idsNuevos + {r.id};
          feedIds := feedIds + {r.id};
        }
        i := i + 1;
      }
      assert nuevoFeed[..|nuevoFeed|] == nuevoFeed;
    }

    /** A failed fetch: only the error and the two flags change. */
    method TerminarConFallo()
      modifies this`cargando, this`actualizando, this`errorConexion
      ensures !cargando && !actualizando && errorConexion
    {
      cargando := false;
      actualizando := false;
      errorConexion := true;
    }

    /**
     * The known-id bookkeeping of a successful fetch: the new ids are added
     * to the known set and highlighted, the highlight being replaced only
     * when there is one.
     */
    method RegistrarPoll(nuevoFeed: seq<Reporte>) returns (idsNuevos: set<nat>)
      requires Valid()
      modifies this`feedIds, this`polls, this`reportesNuevos, this`resaltadoDe
      ensures Valid()
      ensures polls == old(polls) + [nuevoFeed]
      ensures idsNuevos == IdsDe(nuevoFeed) - old(feedIds)
      ensures feedIds == old(feedIds) + IdsDe(nuevoFeed)
      ensures reportesNuevos == (if idsNuevos != {} then idsNuevos else old(reportesNuevos))
    {
      idsNuevos := DetectarNuevos(nuevoFeed);
      PollSiguiente({}, polls, nuevoFeed);
      polls := polls + [nuevoFeed];
      if idsNuevos != {} {
        reportesNuevos := idsNuevos;
        resaltadoDe := |polls| - 1;
      }
    }

    /** A successful fetch: the answers are shown, the known ids updated and both flags end false. */
    method TerminarConExito(d: Datos, ahora: int) returns (idsNuevos: set<nat>)
      requires Valid()
      modifies this
      ensures Valid()
      ensures !cargando && !actualizando && !errorConexion
      ensures refreshingTrafico == old(refreshingTrafico)
      ensures zonas == Some(d.zonas) && trafico == Some(d.trafico) && feed == d.feed
      ensures ultimaActualizacion == Some(ahora)
      ensures polls == old(polls) + [d.feed]
      ensures idsNuevos == IdsDe(d.feed) - old(feedIds)
      ensures feedIds == old(feedIds) + IdsDe(d.feed)
      ensures reportesNuevos == (if idsNuevos != {} then idsNuevos else old(reportesNuevos))
    {
      idsNuevos := RegistrarPoll(d.feed);
      zonas, trafico, feed := Some(d.zonas), Some(d.trafico), d.feed;
      cargando, actualizando, errorConexion := false, false, false;
      ultimaActualizacion := Some(ahora);
    }

    /** The end of a fetch, by its outcome: none for a failed request. */
    method TerminarCarga(datos: Option<Datos>, ahora: int) returns (idsNuevos: set<nat>)
      requires Valid()
      modifies this
      ensures Valid()
      ensures !cargando && !actualizando && refreshingTrafico == old(refreshingTrafico)
      ensures datos.None? ==> errorConexion && idsNuevos == {}
      ensures datos.None? ==> unchanged(this`zonas, this`trafico, this`feed, this`ultimaActualizacion)
      ensures datos.None? ==> unchanged(this`feedIds, this`reportesNuevos, this`polls)
      ensures datos.Some? ==> !errorConexion && ultimaActualizacion == Some(ahora)
      ensures datos.Some? ==> zonas == Some(datos.value.zonas) && trafico == Some(datos.value.trafico) && feed == datos.value.feed
      ensures datos.Some? ==> polls == old(polls) + [datos.value.feed]
      ensures datos.Some? ==> idsNuevos == IdsDe(datos.value.feed) - old(feedIds)
      ensures datos.Some? ==> feedIds == old(feedIds) + IdsDe(datos.value.feed)
      ensures datos.Some? ==> reportesNuevos == (if idsNuevos != {} then idsNuevos else old(reportesNuevos))
    {
      if datos.None? {
        TerminarConFallo();
        return {};
      }
      idsNuevos := TerminarConExito(datos.value, ahora);
    }

    /** The timer that clears the highlight. */
    method LimpiarResaltado()
      requires Valid()
      modifies this`reportesNuevos
      ensures Valid() && reportesNuevos == {}
    {
      reportesNuevos := {};
    }

    /**
     * A forced traffic refresh: the flag is raised, the refresh is posted
     * and, only when it answers, a silent fetch follows; the flag is
     * lowered whatever happens.
     */
    method ForzarRefreshTrafico(refrescoOk: bool, datos: Option<Datos>, ahora: int)
      requires Valid()
      modifies this
      ensures Valid() && !refreshingTrafico
      ensures !refrescoOk ==> unchanged(this`zonas, this`trafico, this`feed, this`ultimaActualizacion)
      ensures !refrescoOk ==> unchanged(this`cargando, this`actualizando, this`errorConexion)
      ensures !refrescoOk ==> unchanged(this`feedIds, this`reportesNuevos, this`polls)
      ensures refrescoOk ==> !cargando && !actualizando
      ensures refrescoOk && datos.None? ==> errorConexion
      ensures refrescoOk && datos.None? ==> unchanged(this`zonas, this`trafico, this`feed, this`ultimaActualizacion)
      ensures refrescoOk && datos.None? ==> unchanged(this`feedIds, this`reportesNuevos, this`polls)
      ensures refrescoOk && datos.Some? ==> !errorConexion && ultimaActualizacion == Some(ahora)
      ensures refrescoOk && datos.Some? ==>
                zonas == Some(datos.value.zonas) && trafico == Some(datos.value.trafico) && feed == datos.value.feed
      ensures refrescoOk && datos.Some? ==> polls == old(polls) + [datos.value.feed]
      ensures refrescoOk && datos.Some? ==> feedIds == old(feedIds) + IdsDe(datos.value.feed)
      ensures refrescoOk && datos.Some? ==>
                var nuevos := IdsDe(datos.value.feed) - old(feedIds);
                reportesNuevos == (if nuevos != {} then nuevos else old(reportesNuevos))
    {
      refreshingTrafico := true;
      if refrescoOk {
        IniciarCarga(true);
        var _ := TerminarCarga(datos, ahora);
      }
      refreshingTrafico := false;
    }
  }

  // ─── Properties ───

  /** One more poll adds its ids to the known set and flags those not known before it. */
  lemma PollSiguiente(inicial: set<nat>, polls: seq<seq<Reporte>>, f: seq<Reporte>)
    ensures Conocidos(inicial, polls + [f]) == Conocidos(inicial, polls) + IdsDe(f)
    ensures Marcados(inicial, polls + [f])[|polls|] == IdsDe(f) - Conocidos(inicial, polls)
    ensures forall i :: 0 <= i < |polls| ==> Marcados(inicial, polls + [f])[i] == Marcados(inicial, polls)[i]
  {
    assert (polls + [f])[..|polls|] == polls;
  }

  /** An id is in the ids of a list exactly when some report of the list carries it. */
  lemma {:induction false} IdsDeMiembros(feed: seq<Reporte>, id: nat)
    ensures id in IdsDe(feed) <==> exists i :: 0 <= i < |feed| && feed[i].id == id
  {
    if feed != [] {
      var previos := feed[..|feed| - 1];
      IdsDeMiembros(previos, id);
      if exists i :: 0 <= i < |previos| && previos[i].id == id {
        var i :| 0 <= i < |previos| && previos[i].id == id;
        assert feed[i] == previos[i];
      }
      if exists i :: 0 <= i < |feed| && feed[i].id == id {
        var i :| 0 <= i < |feed| && feed[i].id == id;
        if i < |previos| {
          assert previos[i] == feed[i];
        }
      }
    }
  }

  /** The known set only grows from poll to poll, and every flagged set is in it. */
  lemma {:induction false} MarcadosConocidos(inicial: set<nat>, polls: seq<seq<Reporte>>)
    ensures inicial <= Conocidos(inicial, polls)
    ensures forall i :: 0 <= i < |polls| ==> Marcados(inicial, polls)[i] <= Conocidos(inicial, polls)
    ensures forall i :: 0 <= i < |polls| ==> Marcados(inicial, polls)[i] !! inicial
  {
    if polls != [] {
      var previos := polls[..|polls| - 1];
      MarcadosConocidos(inicial, previos);
      assert Marcados(inicial, polls) == Marcados(inicial, previos) + [IdsDe(polls[|polls| - 1]) - Conocidos(inicial, previos)];
    }
  }

  /** An id is flagged new by at most one poll of a series. */
  lemma {:induction false} MarcadosDisjuntos(inicial: set<nat>, polls: seq<seq<Reporte>>)
    ensures forall i, j :: 0 <= i < j < |polls| ==> Marcados(inicial, polls)[i] !! Marcados(inicial, polls)[j]
  {
    if polls != [] {
      var previos := polls[..|polls| - 1];
      MarcadosDisjuntos(inicial, previos);
      MarcadosConocidos(inicial, previos);
      var m := Marcados(inicial, polls);
      assert m == Marcados(inicial, previos) + [IdsDe(polls[|polls| - 1]) - Conocidos(inicial, previos)];
      forall i, j | 0 <= i < j < |polls| ensures m[i] !! m[j] {
        if j < |previos| {
          assert m[i] == Marcados(inicial, previos)[i] && m[j] == Marcados(inicial, previos)[j];
        } else {
          assert m[i] == Marcados(inicial, previos)[i];
        }
      }
    }
  }

  /** A poll whose feed repeats the previous one flags nothing. */
  lemma PollRepetidoSinNovedades(inicial: set<nat>, polls: seq<seq<Reporte>>, f: seq<Reporte>)
    ensures Marcados(inicial, polls + [f, f])[|polls| + 1] == {}
  {
    var p1 := polls + [f];
    var p2 := polls + [f, f];
    assert p2[..|p2| - 1] == p1;
    assert p1[..|p1| - 1] == polls;
  }
}
