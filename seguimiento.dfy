/**
 * The geofence tracker of the client (src/hooks/useTracking.ts). Each
 * position sample decides the zone the user is in, emits +1/-1 occupancy
 * updates on zone changes, and runs the "stationary outside the zones but
 * on campus" timer that raises the report prompt. Distances are inputs:
 * the great-circle formula is not part of this model.
 */
module Seguimiento {
  import opened Tipos

  const CAMPUS_RADIO_M := 300.0
  const ZONA_RADIO_M := 80.0
  /** 5 km/h in metres per second. */
  const VELOCIDAD_ESTATICO_MS := 5.0 / 3.6
  const TIEMPO_ESTATICO_MS := 90000

  datatype Posicion = Posicion(lat: real, lng: real, velocidad: Option<real>, precision: real, timestamp: int)

  /**
   * One sample: the position, its distance to the campus centre, its
   * distance to each zone of the list, and the clock at the callback.
   */
  datatype Muestra = Muestra(posicion: Posicion, distCampus: real, distZonas: seq<real>, ahora: int)

  /** An occupancy update request for one zone. */
  datatype Delta = Delta(zonaId: string, delta: int)

  datatype ErrorRastreo = NoDisponible | PermisoDenegado | SinUbicacion

  /** The state the hook exposes. */
  datatype EstadoRastreo = EstadoRastreo(
    posicion: Option<Posicion>,
    dentroDelCampus: bool,
    zonaActual: Option<Zona>,
    mostrarModalExterno: bool,
    disponible: bool,
    error: Option<ErrorRastreo>)

  const ESTADO_INICIAL := EstadoRastreo(None, false, None, false, false, None)

  // ─── Zone detection ───

  /** The first zone of the list within the zone radius. */
  function ZonaDetectada(zonas: seq<Zona>, dist: seq<real>): (r: Option<Zona>)
    requires |dist| == |zonas|
    ensures r.Some? ==> r.value in zonas
  {
    if zonas == [] then None
    else if dist[0] <= ZONA_RADIO_M then Some(zonas[0])
    else ZonaDetectada(zonas[1..], dist[1..])
  }

  /** Scans the list in order and returns the first zone within 80 m. */
  method DetectarZona(zonas: seq<Zona>, dist: seq<real>) returns (r: Option<Zona>)
    requires |dist| == |zonas|
    ensures r == ZonaDetectada(zonas, dist)
    ensures r.None? <==> forall i :: 0 <= i < |zonas| ==> dist[i] > 80.0
    ensures r.Some? ==> exists i :: 0 <= i < |zonas| && zonas[i] == r.value && dist[i] <= 80.0
                                   && forall j :: 0 <= j < i ==> dist[j] > 80.0
  {
    var i := 0;
    while i < |zonas|
      invariant 0 <= i <= |zonas|
      invariant forall j :: 0 <= j < i ==> dist[j] > ZONA_RADIO_M
      invariant ZonaDetectada(zonas[i..], dist[i..]) == ZonaDetectada(zonas, dist)
    {
      if dist[i] <= ZONA_RADIO_M {
        return Some(zonas[i]);
      }
      assert zonas[i..][1..] == zonas[i + 1..] && dist[i..][1..] == dist[i + 1..];
      i := i + 1;
    }
    return None;
  }

  // ─── Zone transitions ───

  /** JavaScript truthiness of an optional id: present and non-empty. */
  predicate Truthy(id: Option<string>)
  {
    id.Some? && id.value != ""
  }

  function IdDe(z: Option<Zona>): Option<string>
  {
    if z.Some? then Some(z.value.id) else None
  }

  /** The updates a sample issues: +1 on entering a zone, else -1 on leaving one. */
  function DeltasDeTransicion(anterior: Option<string>, actual: Option<string>): (ds: seq<Delta>)
    ensures |ds| <= 1
    ensures forall d :: d in ds ==> d.delta == 1 || d.delta == -1
  {
    if actual == anterior then []
    else if Truthy(actual) then [Delta(actual.value, 1)]
    else if Truthy(anterior) then [Delta(anterior.value, -1)]
    else []
  }

  /** An unchanged zone issues nothing. */
  lemma SinCambioSinDeltas(id: Option<string>)
    ensures DeltasDeTransicion(id, id) == []
  {
  }

  /**
   * Entering a zone, from no zone or from another zone, issues exactly one
   * +1 for it: moving from A to B issues no -1 for A.
   */
  lemma EntrarEmiteUno(anterior: Option<string>, actual: Option<string>)
    requires Truthy(actual) && actual != anterior
    ensures DeltasDeTransicion(anterior, actual) == [Delta(actual.value, 1)]
    ensures forall d :: d in DeltasDeTransicion(anterior, actual) ==> d.delta == 1
  {
  }

  /** Leaving a zone for none issues exactly one -1 for the zone left. */
  lemma SalirEmiteMenosUno(anterior: Option<string>, actual: Option<string>)
    requires !Truthy(actual) && actual != anterior && Truthy(anterior)
    ensures DeltasDeTransicion(anterior, actual) == [Delta(anterior.value, -1)]
  {
  }

  /** At most one update per sample, for the zone entered or the zone left. */
  lemma DeltasAcotadas(anterior: Option<string>, actual: Option<string>)
    ensures |DeltasDeTransicion(anterior, actual)| <= 1
    ensures forall d :: d in DeltasDeTransicion(anterior, actual) ==>
              (d.delta == 1 && actual == Some(d.zonaId)) || (d.delta == -1 && anterior == Some(d.zonaId))
  {
  }

  // ─── Stationary timer ───

  /** Stationary needs a known speed below 5 km/h; an unknown speed never is. */
  predicate EsEstatico(velocidad: Option<real>)
  {
    velocidad.Some? && velocidad.value < VELOCIDAD_ESTATICO_MS
  }

  /** A sample counts for the timer when on campus, in no zone, and stationary. */
  predicate Califica(m: Muestra, zonaActual: Option<Zona>)
  {
    m.distCampus <= CAMPUS_RADIO_M && zonaActual.None? && EsEstatico(m.posicion.velocidad)
  }

  /** The timer is armed when it holds a truthy time: absent and zero both count as unarmed. */
  predicate Armado(desde: Option<int>)
  {
    desde.Some? && desde.value != 0
  }

  datatype PasoTemporizador = PasoTemporizador(desde: Option<int>, dispara: bool)

  /** One step of the stationary timer: its new start time and whether the modal fires. */
  function Temporizador(desde: Option<int>, califica: bool, ahora: int): (p: PasoTemporizador)
    ensures p.dispara ==> califica && p.desde.None?
    ensures !califica ==> p == PasoTemporizador(None, false)
  {
    if !califica then PasoTemporizador(None, false)
    else if !Armado(desde) then PasoTemporizador(Some(ahora), false)
    else if ahora - desde.value >= TIEMPO_ESTATICO_MS then PasoTemporizador(None, true)
    else PasoTemporizador(desde, false)
  }

  /**
   * The timer arms on a qualifying sample, fires exactly on a qualifying
   * sample at least 90 s after arming (clearing itself), keeps its time
   * otherwise, and any non-qualifying sample clears it.
   */
  lemma TemporizadorCasos(desde: Option<int>, califica: bool, ahora: int)
    ensures var p := Temporizador(desde, califica, ahora);
            && (p.dispara <==> califica && Armado(desde) && ahora - desde.value >= 90000)
            && (p.dispara ==> p.desde.None?)
            && (!califica ==> p.desde.None?)
            && (califica && !Armado(desde) ==> p.desde == Some(ahora))
            && (califica && Armado(desde) && ahora - desde.value < 90000 ==> p.desde == desde)
  {
  }

  /** The tracker's memory between samples. */
  datatype Memoria = Memoria(zonaAnterior: Option<string>, estaticoDesde: Option<int>, estado: EstadoRastreo)

  /** One sample: the new memory and the updates issued. */
  function Paso(mem: Memoria, zonas: seq<Zona>, m: Muestra): (r: (Memoria, seq<Delta>))
    requires |m.distZonas| == |zonas|
    ensures r.0.zonaAnterior == IdDe(ZonaDetectada(zonas, m.distZonas))
    ensures r.0.estado.posicion == Some(m.posicion) && r.0.estado.zonaActual == ZonaDetectada(zonas, m.distZonas)
    ensures |r.1| <= 1
  {
    var zonaActual := ZonaDetectada(zonas, m.distZonas);
    var id := IdDe(zonaActual);
    var deltas := DeltasDeTransicion(mem.zonaAnterior, id);
    var dentro := m.distCampus <= CAMPUS_RADIO_M;
    var t := Temporizador(mem.estaticoDesde, Califica(m, zonaActual), m.ahora);
    var estado :=
      if t.dispara then mem.estado.(posicion := Some(m.posicion), dentroDelCampus := dentro,
                                    zonaActual := zonaActual, mostrarModalExterno := true)
      else mem.estado.(posicion := Some(m.posicion), dentroDelCampus := dentro,
                       zonaActual := zonaActual, error := None);
    (Memoria(id, t.desde, estado), deltas)
  }

  /** The hook's refs and state. */
  class Rastreo {
    var zonaAnterior: Option<string>
    var estaticoDesde: Option<int>
    var estado: EstadoRastreo

    constructor ()
      ensures zonaAnterior.None? && estaticoDesde.None? && estado == ESTADO_INICIAL
    {
      zonaAnterior := None;
      estaticoDesde := None;
      estado := ESTADO_INICIAL;
    }

    /** Mounting: without a geolocation API the hook reports itself unavailable. */
    method Iniciar(hayGeolocalizacion: bool)
      modifies this
      ensures hayGeolocalizacion ==> estado == old(estado).(disponible := true)
      ensures !hayGeolocalizacion ==> estado == old(estado).(disponible := false, error := Some(NoDisponible))
      ensures zonaAnterior == old(zonaAnterior) && estaticoDesde == old(estaticoDesde)
    {
      if !hayGeolocalizacion {
        estado := estado.(disponible := false, error := Some(NoDisponible));
        return;
      }
      estado := estado.(disponible := true);
    }

    /** The watchPosition success callback. */
    method AlRecibirMuestra(zonas: seq<Zona>, m: Muestra) returns (deltas: seq<Delta>)
      requires |m.distZonas| == |zonas|
      modifies this
      ensures (Memoria(zonaAnterior, estaticoDesde, estado), deltas)
              == Paso(Memoria(old(zonaAnterior), old(estaticoDesde), old(estado)), zonas, m)
    {
      var dentroDelCampus := m.distCampus <= CAMPUS_RADIO_M;
      var zonaActual := DetectarZona(zonas, m.distZonas);

      deltas := [];
      var zonaActualId := if zonaActual.Some? then Some(zonaActual.value.id) else None;
      if zonaActualId != zonaAnterior {
        if Truthy(zonaActualId) {
          deltas := [Delta(zonaActualId.value, 1)];
        } else if Truthy(zonaAnterior) {
          deltas := [Delta(zonaAnterior.value, -1)];
        }
        zonaAnterior := zonaActualId;
      }

      var esEstatico := m.posicion.velocidad.Some? && m.posicion.velocidad.value < VELOCIDAD_ESTATICO_MS;

      if dentroDelCampus && zonaActual.None? && esEstatico {
        if !(estaticoDesde.Some? && estaticoDesde.value != 0) {
          estaticoDesde := Some(m.ahora);
        } else if m.ahora - estaticoDesde.value >= TIEMPO_ESTATICO_MS {
          estado := estado.(posicion := Some(m.posicion), dentroDelCampus := dentroDelCampus,
                            zonaActual := zonaActual, mostrarModalExterno := true);
          estaticoDesde := None;
          return;
        }
      } else {
        estaticoDesde := None;
      }

      estado := estado.(posicion := Some(m.posicion), dentroDelCampus := dentroDelCampus,
                        zonaActual := zonaActual, error := None);
    }

    /** The watchPosition error callback: code 1 is a denied permission. */
    method AlFallar(codigo: int)
      modifies this
      ensures estado == old(estado).(error := Some(if codigo == 1 then PermisoDenegado else SinUbicacion))
      ensures zonaAnterior == old(zonaAnterior) && estaticoDesde == old(estaticoDesde)
    {
      estado := estado.(error := Some(if codigo == 1 then PermisoDenegado else SinUbicacion));
    }

    method CerrarModalExterno()
      modifies this
      ensures estado == old(estado).(mostrarModalExterno := false)
      ensures zonaAnterior == old(zonaAnterior) && estaticoDesde == old(estaticoDesde)
    {
      estado := estado.(mostrarModalExterno := false);
    }
  }

  // ─── Properties of a sample ───

  /**
   * After every sample the remembered zone is the current one, and the
   * updates issued are those of the transition from the remembered zone.
   */
  lemma PasoRecuerdaZona(mem: Memoria, zonas: seq<Zona>, m: Muestra)
    requires |m.distZonas| == |zonas|
    ensures var (mem2, deltas) := Paso(mem, zonas, m);
            var actual := IdDe(ZonaDetectada(zonas, m.distZonas));
            mem2.zonaAnterior == actual && deltas == DeltasDeTransicion(mem.zonaAnterior, actual)
  {
  }

  /**
   * The prompt flag is raised only by a firing timer, and a sample that
   * does not fire leaves it as it was; only a firing sample keeps the
   * previous error.
   */
  lemma PasoModal(mem: Memoria, zonas: seq<Zona>, m: Muestra)
    requires |m.distZonas| == |zonas|
    ensures var (mem2, _) := Paso(mem, zonas, m);
            var t := Temporizador(mem.estaticoDesde, Califica(m, ZonaDetectada(zonas, m.distZonas)), m.ahora);
            && (t.dispara ==> mem2.estado.mostrarModalExterno && mem2.estado.error == mem.estado.error)
            && (!t.dispara ==> mem2.estado.mostrarModalExterno == mem.estado.mostrarModalExterno
                               && mem2.estado.error.None?)
            && (mem2.estado.mostrarModalExterno && !mem.estado.mostrarModalExterno ==> t.dispara)
            && mem2.estado.disponible == mem.estado.disponible
  {
  }

  /**
   * Two qualifying samples 90 s apart, the first arming the timer at a
   * non-zero time, raise the prompt on the second and clear the timer.
   */
  lemma {:induction false} EstaticoNoventaSegundos(mem: Memoria, zonas: seq<Zona>, m1: Muestra, m2: Muestra)
    requires |m1.distZonas| == |zonas| && |m2.distZonas| == |zonas|
    requires !Armado(mem.estaticoDesde) && m1.ahora != 0
    requires Califica(m1, ZonaDetectada(zonas, m1.distZonas))
    requires Califica(m2, ZonaDetectada(zonas, m2.distZonas))
    requires m2.ahora - m1.ahora >= 90000
    ensures var (mem1, _) := Paso(mem, zonas, m1);
            var (mem2, _) := Paso(mem1, zonas, m2);
            && mem1.estaticoDesde == Some(m1.ahora) && mem1.estado.mostrarModalExterno == mem.estado.mostrarModalExterno
            && mem2.estado.mostrarModalExterno && mem2.estaticoDesde.None?
  {
    var mem1 := Paso(mem, zonas, m1).0;
    assert mem1.estaticoDesde == Some(m1.ahora);
    assert Armado(mem1.estaticoDesde);
  }

  /** A sample with unknown speed never counts for the timer and clears it. */
  lemma VelocidadDesconocidaLimpia(mem: Memoria, zonas: seq<Zona>, m: Muestra)
    requires |m.distZonas| == |zonas| && m.posicion.velocidad.None?
    ensures Paso(mem, zonas, m).0.estaticoDesde.None?
    ensures !Paso(mem, zonas, m).0.estado.mostrarModalExterno || mem.estado.mostrarModalExterno
  {
  }

  // ─── The occupancy update requested per delta ───

  /** The body of the update: only the car occupancy field. */
  datatype Parche = Parche(ocupacionCarro: int)

  /**
   * The update for one delta from the car occupancy read back, or nothing
   * when reading failed (the failure is swallowed).
   */
  function PeticionOcupacion(lectura: Option<int>, delta: int): (p: Option<Parche>)
    ensures p.Some? <==> lectura.Some?
    ensures p.Some? ==> p.value.ocupacionCarro >= 0
    ensures p.Some? && lectura.value + delta >= 0 ==> p.value.ocupacionCarro == lectura.value + delta
    ensures p.Some? && lectura.value + delta < 0 ==> p.value.ocupacionCarro == 0
  {
    if lectura.None? then None
    else Some(Parche(if 0 > lectura.value + delta then 0 else lectura.value + delta))
  }

  /** There is no upper clamp: an entry above any zone's capacity is requested as is. */
  lemma PeticionSinTope(capacidad: nat)
    ensures PeticionOcupacion(Some(capacidad), 1) == Some(Parche(capacidad + 1))
    ensures PeticionOcupacion(Some(capacidad + 1), 1).value.ocupacionCarro > capacidad
  {
  }
}
