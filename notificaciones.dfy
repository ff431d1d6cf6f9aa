/**
 * Browser notifications on the client (src/hooks/useNotificaciones.ts):
 * a notice when the recommended zone changes and one when an access road
 * goes from congested to fluid, sent only with a granted permission.
 */
module Notificaciones {
  import opened Tipos
  import MejorRuta

  datatype Permiso = Default | Granted | Denied

  /** A notice, by its content rather than its text. */
  datatype Aviso = RutaActualizada(zona: string, disponibles: int) | ViaDespejada(via: string, velocidad: real)

  /** The notice a route answer raises against the remembered zone name, if any. */
  function AvisoRuta(zonaPrev: string, nueva: Option<MejorRuta.Recomendacion>): (a: Option<Aviso>)
    ensures zonaPrev == "" ==> a.None?
    ensures a.Some? ==> nueva.Some? && a.value == RutaActualizada(nueva.value.zona.nombre, nueva.value.zona.disponibles)
  {
    if nueva.None? then None
    else
      var zonaActual := nueva.value.zona.nombre;
      if zonaPrev != "" && zonaActual != zonaPrev then Some(RutaActualizada(zonaActual, nueva.value.zona.disponibles))
      else None
  }

  /** The remembered zone name after a route answer. */
  function ZonaTras(zonaPrev: string, nueva: Option<MejorRuta.Recomendacion>): (z: string)
    ensures nueva.Some? ==> z == nueva.value.zona.nombre
    ensures zonaPrev != "" ==> (AvisoRuta(zonaPrev, nueva).Some? <==> z != zonaPrev)
  {
    if nueva.None? then zonaPrev else nueva.value.zona.nombre
  }

  /** The remembered states after the accesses of one answer, written in order. */
  function EstadosTras(m: map<string, EstadoTrafico>, accesos: seq<AccesoTrafico>): (r: map<string, EstadoTrafico>)
    ensures m.Keys <= r.Keys
    ensures forall i :: 0 <= i < |accesos| ==> accesos[i].punto in r
  {
    if accesos == [] then m
    else
      var ultimo := accesos[|accesos| - 1];
      EstadosTras(m, accesos[..|accesos| - 1])[ultimo.punto := ultimo.estado]
  }

  /** An access notifies when its remembered state is congested and its new one fluid. */
  predicate SeDespeja(m: map<string, EstadoTrafico>, a: AccesoTrafico)
  {
    a.punto in m && m[a.punto] == Congestionado && a.estado == Fluido
  }

  /**
   * The notices for the accesses of one answer; each access is compared
   * with the states as left by the accesses before it.
   */
  function Despejadas(m: map<string, EstadoTrafico>, accesos: seq<AccesoTrafico>): (r: seq<Aviso>)
    ensures |r| <= |accesos|
  {
    if accesos == [] then []
    else
      var previos := accesos[..|accesos| - 1];
      var ultimo := accesos[|accesos| - 1];
      Despejadas(m, previos)
        + (if SeDespeja(EstadosTras(m, previos), ultimo) then [ViaDespejada(ultimo.via, ultimo.currentSpeed)] else [])
  }

  /** The hook's permission state and refs. */
  class Notificador {
    var permiso: Permiso
    var zonaPrev: string
    var traficoPrev: map<string, EstadoTrafico>

    constructor ()
      ensures permiso == Default && zonaPrev == "" && traficoPrev == map[]
    {
      permiso := Default;
      zonaPrev := "";
      traficoPrev := map[];
    }

    /** Asking for permission: without the API nothing happens, otherwise the answer is kept. */
    method SolicitarPermiso(hayApi: bool, resultado: Permiso)
      modifies this
      ensures permiso == (if hayApi then resultado else old(permiso))
      ensures zonaPrev == old(zonaPrev) && traficoPrev == old(traficoPrev)
    {
      if !hayApi {
        return;
      }
      permiso := resultado;
    }

    /** The notices actually shown: none unless the permission is granted. */
    method Notificar(avisos: seq<Aviso>) returns (mostrados: seq<Aviso>)
      ensures permiso == Granted ==> mostrados == avisos
      ensures permiso != Granted ==> mostrados == []
    {
      if permiso != Granted {
        return [];
      }
      mostrados := avisos;
    }

    /** Compares a new route answer with the remembered zone name. */
    method VerificarCambioRuta(nueva: Option<MejorRuta.Recomendacion>) returns (mostrados: seq<Aviso>)
      modifies this
      ensures zonaPrev == ZonaTras(old(zonaPrev), nueva)
      ensures mostrados == (if permiso == Granted && AvisoRuta(old(zonaPrev), nueva).Some?
                            then [AvisoRuta(old(zonaPrev), nueva).value] else [])
      ensures permiso == old(permiso) && traficoPrev == old(traficoPrev)
    {
      mostrados := [];
      if nueva.None? {
        return;
      }
      var zonaActual := nueva.value.zona.nombre;
      if zonaPrev != "" && zonaActual != zonaPrev {
        mostrados := Notificar([RutaActualizada(zonaActual, nueva.value.zona.disponibles)]);
      }
      zonaPrev := zonaActual;
    }

    /** Compares each access of a traffic answer with its remembered state, then remembers the new one. */
    method VerificarCambioTrafico(nuevo: Option<seq<AccesoTrafico>>) returns (mostrados: seq<Aviso>)
      modifies this
      ensures nuevo.None? ==> traficoPrev == old(traficoPrev) && mostrados == []
      ensures nuevo.Some? ==> traficoPrev == EstadosTras(old(traficoPrev), nuevo.value)
      ensures nuevo.Some? ==> mostrados == (if permiso == Granted then Despejadas(old(traficoPrev), nuevo.value) else [])
      ensures permiso == old(permiso) && zonaPrev == old(zonaPrev)
    {
      mostrados := [];
      if nuevo.None? {
        return;
      }
      var accesos := nuevo.value;
      var i := 0;
      while i < |accesos|
        invariant 0 <= i <= |accesos|
        invariant permiso == old(permiso) && zonaPrev == old(zonaPrev)
        invariant traficoPrev == EstadosTras(old(traficoPrev), accesos[..i])
        invariant mostrados == (if permiso == Granted then Despejadas(old(traficoPrev), accesos[..i]) else [])
      {
        var acceso := accesos[i];
        assert accesos[..i + 1][..i] == accesos[..i];
        var prevEstado := if acceso.punto in traficoPrev then Some(traficoPrev[acceso.punto]) else None;
        if prevEstado == Some(Congestionado) && acceso.estado == Fluido {
          var nuevos := Notificar([ViaDespejada(acceso.via, acceso.currentSpeed)]);
          mostrados := mostrados + nuevos;
        }
        traficoPrev := traficoPrev[acceso.punto := acceso.estado];
        i := i + 1;
      }
      assert accesos[..|accesos|] == accesos;
    }
  }

  // ─── Properties ───

  /**
   * The route notice: nothing for a missing answer; otherwise one exactly
   * when a zone name was remembered and the new one differs, so the
   * first answer never notifies.
   */
  lemma AvisoRutaCasos(zonaPrev: string, nueva: Option<MejorRuta.Recomendacion>)
    ensures nueva.None? ==> AvisoRuta(zonaPrev, nueva).None? && ZonaTras(zonaPrev, nueva) == zonaPrev
    ensures nueva.Some? ==>
              (AvisoRuta(zonaPrev, nueva).Some? <==> zonaPrev != "" && nueva.value.zona.nombre != zonaPrev)
    ensures AvisoRuta("", nueva).None?
    ensures nueva.Some? ==> ZonaTras(zonaPrev, nueva) == nueva.value.zona.nombre
  {
  }

  /** After an answer, the same answer again raises no route notice. */
  lemma RutaRepetidaNoAvisa(zonaPrev: string, nueva: Option<MejorRuta.Recomendacion>)
    ensures AvisoRuta(ZonaTras(zonaPrev, nueva), nueva).None?
  {
  }

  /** A key that no access of the answer names keeps its remembered state. */
  lemma {:induction false} EstadosTrasOtraClave(m: map<string, EstadoTrafico>, accesos: seq<AccesoTrafico>, k: string)
    requires forall i :: 0 <= i < |accesos| ==> accesos[i].punto != k
    ensures k in EstadosTras(m, accesos) <==> k in m
    ensures k in m ==> EstadosTras(m, accesos)[k] == m[k]
  {
    if accesos != [] {
      var previos := accesos[..|accesos| - 1];
      assert forall i :: 0 <= i < |previos| ==> previos[i].punto != k by {
        forall i | 0 <= i < |previos| ensures previos[i].punto != k {
          assert previos[i] == accesos[i];
        }
      }
      EstadosTrasOtraClave(m, previos, k);
    }
  }

  /** An access that no later access of the answer overrides leaves its own state remembered. */
  lemma {:induction false} EstadosTrasUltimoGana(m: map<string, EstadoTrafico>, accesos: seq<AccesoTrafico>, i: nat)
    requires i < |accesos|
    requires forall j :: i < j < |accesos| ==> accesos[j].punto != accesos[i].punto
    ensures accesos[i].punto in EstadosTras(m, accesos)
    ensures EstadosTras(m, accesos)[accesos[i].punto] == accesos[i].estado
  {
    if i < |accesos| - 1 {
      var previos := accesos[..|accesos| - 1];
      assert previos[i] == accesos[i];
      assert forall j :: i < j < |previos| ==> previos[j].punto != previos[i].punto by {
        forall j | i < j < |previos| ensures previos[j].punto != previos[i].punto {
          assert previos[j] == accesos[j];
        }
      }
      EstadosTrasUltimoGana(m, previos, i);
      assert accesos[|accesos| - 1].punto != accesos[i].punto;
    }
  }

  /**
   * A reference definition for the proof below: every access judged against
   * the states remembered before the whole answer, as one would expect when
   * no point repeats.
   */
  ghost function DespejadasDirecto(m: map<string, EstadoTrafico>, accesos: seq<AccesoTrafico>): seq<Aviso>
  {
    if accesos == [] then []
    else
      var previos := accesos[..|accesos| - 1];
      var ultimo := accesos[|accesos| - 1];
      DespejadasDirecto(m, previos) + (if SeDespeja(m, ultimo) then [ViaDespejada(ultimo.via, ultimo.currentSpeed)] else [])
  }

  /**
   * With distinct points, an access notifies exactly when its state before
   * the answer was congested and its new one is fluid; moderate to fluid
   * does not notify.
   */
  lemma {:induction false} DespejadasSinRepetidos(m: map<string, EstadoTrafico>, accesos: seq<AccesoTrafico>)
    requires forall i, j :: 0 <= i < j < |accesos| ==> accesos[i].punto != accesos[j].punto
    ensures Despejadas(m, accesos) == DespejadasDirecto(m, accesos)
  {
    if accesos != [] {
      var previos := accesos[..|accesos| - 1];
      var ultimo := accesos[|accesos| - 1];
      assert forall i, j :: 0 <= i < j < |previos| ==> previos[i].punto != previos[j].punto by {
        forall i, j | 0 <= i < j < |previos| ensures previos[i].punto != previos[j].punto {
          assert previos[i] == accesos[i] && previos[j] == accesos[j];
        }
      }
      DespejadasSinRepetidos(m, previos);
      assert forall i :: 0 <= i < |previos| ==> previos[i].punto != ultimo.punto by {
        forall i | 0 <= i < |previos| ensures previos[i].punto != ultimo.punto {
          assert previos[i] == accesos[i];
        }
      }
      EstadosTrasOtraClave(m, previos, ultimo.punto);
      assert SeDespeja(EstadosTras(m, previos), ultimo) == SeDespeja(m, ultimo);
    }
  }

  /** A single access notifies exactly on congested to fluid, not on moderate to fluid. */
  lemma UnAccesoDespeja(m: map<string, EstadoTrafico>, a: AccesoTrafico)
    ensures |Despejadas(m, [a])| == (if a.punto in m && m[a.punto] == Congestionado && a.estado == Fluido then 1 else 0)
    ensures a.punto in m && m[a.punto] == EstadoTrafico.Moderado ==> Despejadas(m, [a]) == []
  {
    assert [a][..0] == [];
  }
}
