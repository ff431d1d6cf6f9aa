/**
 * The admin zone card (src/components/admin/ZonaCardAdmin.tsx): its +/-
 * occupancy buttons, the clamp applied to the value it sends and the
 * loading flag around the update.
 */
module TarjetaAdmin {
  import Zonas

  /** The new occupancy of one vehicle type: the adjusted value kept within zero and the capacity. */
  function Acotar(capacidad: int, ocupacion: int, delta: int): (n: int)
    ensures n >= 0
    ensures capacidad >= 0 ==> n <= capacidad
    ensures 0 <= ocupacion + delta <= capacidad ==> n == ocupacion + delta
    ensures ocupacion + delta < 0 ==> n == 0
    ensures capacidad >= 0 && ocupacion + delta > capacidad ==> n == capacidad
  {
    var acotadoArriba := if ocupacion + delta < capacidad then ocupacion + delta else capacidad;
    if acotadoArriba > 0 then acotadoArriba else 0
  }

  /** The car and motorcycle occupancies a press of the card sends. */
  datatype Envio = Envio(zonaId: string, ocupacionCarro: int, ocupacionMoto: int)

  function EnvioDe(z: Zonas.ZonaMetricas, deltaCarro: int, deltaMoto: int): (e: Envio)
    ensures e.zonaId == z.id
    ensures e.ocupacionCarro >= 0 && e.ocupacionMoto >= 0
  {
    Envio(z.id, Acotar(z.carro.capacidad, z.carro.ocupacion, deltaCarro), Acotar(z.moto.capacidad, z.moto.ocupacion, deltaMoto))
  }

  /** The "-" button of a vehicle type is disabled while loading or when nothing is occupied. */
  predicate MenosDeshabilitado(cargando: bool, o: Zonas.OcupacionTipo): (d: bool)
    ensures !d && o.ocupacion <= o.capacidad ==> Acotar(o.capacidad, o.ocupacion, -1) == o.ocupacion - 1
  {
    cargando || o.ocupacion <= 0
  }

  /** The "+" button of a vehicle type is disabled while loading or when nothing is free. */
  predicate MasDeshabilitado(cargando: bool, o: Zonas.OcupacionTipo): (d: bool)
    ensures !d && 0 <= o.ocupacion && o.disponibles == o.capacidad - o.ocupacion ==>
              Acotar(o.capacidad, o.ocupacion, 1) == o.ocupacion + 1
  {
    cargando || o.disponibles <= 0
  }

  /** The motorcycle figures and controls are shown only for a zone with motorcycle capacity. */
  predicate MotoVisible(z: Zonas.ZonaMetricas): (v: bool)
    ensures !v && z.moto.capacidad >= 0 ==> forall delta :: Acotar(z.moto.capacidad, z.moto.ocupacion, delta) == 0
  {
    z.moto.capacidad > 0
  }

  /** The card's loading flag. */
  class Tarjeta {
    var cargando: bool

    constructor ()
      ensures !cargando
    {
      cargando := false;
    }

    /**
     * A press of a button: the clamped values are sent while the flag is
     * raised, and the flag is lowered afterwards whether the update
     * succeeded or failed; a failure is passed on to the caller.
     */
    method Ajustar(z: Zonas.ZonaMetricas, deltaCarro: int, deltaMoto: int, falla: bool)
      returns (enviado: Envio, propagaFallo: bool)
      modifies this
      ensures enviado == EnvioDe(z, deltaCarro, deltaMoto)
      ensures propagaFallo == falla
      ensures !cargando
    {
      var nuevaCarro := Acotar(z.carro.capacidad, z.carro.ocupacion, deltaCarro);
      var nuevaMoto := Acotar(z.moto.capacidad, z.moto.ocupacion, deltaMoto);
      cargando := true;
      enviado := Envio(z.id, nuevaCarro, nuevaMoto);
      propagaFallo := falla;
      cargando := false;
    }
  }

  // ─── Properties ───

  /** The values sent always lie within zero and each type's capacity. */
  lemma EnvioEnRango(z: Zonas.ZonaMetricas, deltaCarro: int, deltaMoto: int)
    requires z.carro.capacidad >= 0 && z.moto.capacidad >= 0
    ensures 0 <= EnvioDe(z, deltaCarro, deltaMoto).ocupacionCarro <= z.carro.capacidad
    ensures 0 <= EnvioDe(z, deltaCarro, deltaMoto).ocupacionMoto <= z.moto.capacidad
    ensures EnvioDe(z, deltaCarro, deltaMoto).zonaId == z.id
  {
  }

  /** With an in-range occupancy, the type a press does not adjust is sent unchanged. */
  lemma SinDeltaSinCambio(capacidad: int, ocupacion: int)
    requires 0 <= ocupacion <= capacidad
    ensures Acotar(capacidad, ocupacion, 0) == ocupacion
  {
  }

  /**
   * For a zone as the listing projects it (free cells are the capacity less
   * the occupancy), an enabled "-" sends one less and an enabled "+" one
   * more; both buttons are disabled while loading.
   */
  lemma BotonHabilitadoMueveUno(o: Zonas.OcupacionTipo)
    requires 0 <= o.ocupacion <= o.capacidad
    requires o.disponibles == o.capacidad - o.ocupacion
    ensures !MenosDeshabilitado(false, o) <==> o.ocupacion > 0
    ensures !MenosDeshabilitado(false, o) ==> Acotar(o.capacidad, o.ocupacion, -1) == o.ocupacion - 1
    ensures !MasDeshabilitado(false, o) <==> o.ocupacion < o.capacidad
    ensures !MasDeshabilitado(false, o) ==> Acotar(o.capacidad, o.ocupacion, 1) == o.ocupacion + 1
    ensures MenosDeshabilitado(true, o) && MasDeshabilitado(true, o)
  {
  }

  /** Pressing a disabled "-" or "+" would send the value unchanged: the clamp is a no-op at the bounds. */
  lemma BordesSinEfecto(capacidad: int)
    requires capacidad >= 0
    ensures Acotar(capacidad, 0, -1) == 0
    ensures Acotar(capacidad, capacidad, 1) == capacidad
  {
  }

  /** A zone without motorcycle capacity hides the motorcycle controls, and its sent value stays zero. */
  lemma SinMotosOculto(z: Zonas.ZonaMetricas, deltaMoto: int)
    requires z.moto.capacidad == 0
    ensures !MotoVisible(z)
    ensures EnvioDe(z, 0, deltaMoto).ocupacionMoto == 0
  {
  }
}
