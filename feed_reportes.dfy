/**
 * The admin feed's display helpers (src/components/admin/FeedReportes.tsx):
 * the age of a report, whether it is still active, the zone-name and
 * type-colour fallbacks, and the confidence colour.
 */
module FeedReportes {
  import opened Tipos
  import opened Metricas
  import Reportes

  /**
   * The age shown on a report: whole seconds under a minute, else whole
   * minutes under an hour, else whole hours, each taken directly from the
   * seconds.
   */
  function TiempoRelativoFeed(ahora: int, fecha: int): (r: Relativo)
    ensures r.Segundos? <==> (ahora - fecha) / MS_POR_SEGUNDO < 60
    ensures r.Horas? <==> (ahora - fecha) / MS_POR_SEGUNDO >= 3600
  {
    var diff := (ahora - fecha) / MS_POR_SEGUNDO;
    if diff < 60 then Segundos(diff)
    else if diff < 3600 then Minutos(diff / 60)
    else Horas(diff / 3600)
  }

  /** A report is active while its expiry is strictly after now. */
  predicate EstaActivo(expiraEn: int, ahora: int): (activo: bool)
    ensures activo ==> !ReporteExpirado(expiraEn, ahora)
    ensures !activo <==> ReporteExpirado(expiraEn, ahora) || ahora == expiraEn
  {
    expiraEn > ahora
  }

  /** The zone name shown for a report: the known name, or "Zona desconocida". */
  function NombreZona(nombres: map<string, string>, zonaId: string): (nombre: string)
    ensures zonaId in nombres ==> nombre == nombres[zonaId]
    ensures zonaId !in nombres ==> nombre == "Zona desconocida"
  {
    if zonaId in nombres then nombres[zonaId] else "Zona desconocida"
  }

  /** The four colours of the feed: lime, orange, red and the grey fallback. */
  datatype Color = Lima | Naranja | Rojo | Gris

  /** The type's dot colour, grey for a type without one. */
  function ColorTipo(tipo: string): (c: Color)
    ensures c == Gris <==> TipoDesdeNombre(tipo).None?
  {
    if tipo == "fila_moderada" then Naranja
    else if tipo == "congestion_severa" || tipo == "lleno" || tipo == "accidente" then Rojo
    else if tipo == "hay_cupos" then Lima
    else Gris
  }

  /** The colour of the confidence bar. */
  function ColorConfianza(confianza: real): (c: Color)
    ensures c != Gris
  {
    if confianza > 0.7 then Lima else if confianza > 0.4 then Naranja else Rojo
  }

  // ─── Properties ───

  /**
   * The feed's age agrees with the shared helper's bucket and count; it
   * only prints the minutes with a shorter suffix.
   */
  lemma TiempoRelativoComoUtils(ahora: int, fecha: int)
    ensures TiempoRelativoFeed(ahora, fecha) == TiempoRelativo(ahora, fecha)
  {
    var s := (ahora - fecha) / MS_POR_SEGUNDO;
    if s >= 60 {
      DivisionEncadenada(s);
    }
  }

  /** The age buckets with their counts. */
  lemma TiempoRelativoFeedCasos(ahora: int, fecha: int)
    ensures var s := (ahora - fecha) / MS_POR_SEGUNDO;
            && (60 <= s < 3600 <==> TiempoRelativoFeed(ahora, fecha).Minutos?)
            && (TiempoRelativoFeed(ahora, fecha).Segundos? ==> TiempoRelativoFeed(ahora, fecha).n == s)
            && (TiempoRelativoFeed(ahora, fecha).Minutos? ==> 1 <= TiempoRelativoFeed(ahora, fecha).n < 60)
            && (TiempoRelativoFeed(ahora, fecha).Horas? ==> TiempoRelativoFeed(ahora, fecha).n >= 1)
  {
  }

  /**
   * The feed's active check matches the listing's expiry test, but it is
   * not the negation of the shared expiry helper: at exactly the expiry
   * instant a report is neither active here nor expired there.
   */
  lemma ActivoYExpirado(r: Reporte, ahora: int)
    ensures EstaActivo(r.expiraEn, ahora) ==> !ReporteExpirado(r.expiraEn, ahora)
    ensures ReporteExpirado(r.expiraEn, ahora) ==> !EstaActivo(r.expiraEn, ahora)
    ensures r.activo ==> (Reportes.Vigente(r, ahora) <==> EstaActivo(r.expiraEn, ahora))
    ensures ahora == r.expiraEn ==> !EstaActivo(r.expiraEn, ahora) && !ReporteExpirado(r.expiraEn, ahora)
  {
  }

  /** A newly created report shows as active until its lifetime ends. */
  lemma NuevoReporteActivo(tipo: string, creado: int, ahora: int)
    requires creado <= ahora
    ensures EstaActivo(CalcularExpiracion(tipo, creado), ahora) <==> ahora < creado + TtlReporte(tipo) * MS_POR_MINUTO
  {
  }

  /** Every report type has a colour; any other string falls back to grey. */
  lemma ColorTipoConocido(t: TipoReporte, otro: string)
    requires TipoDesdeNombre(otro).None?
    ensures ColorTipo(NombreTipo(t)) != Gris
    ensures t == HayCupos <==> ColorTipo(NombreTipo(t)) == Lima
    ensures ColorTipo(otro) == Gris
  {
  }

  /** The confidence colour's bands, which only worsen as confidence falls; a new report shows lime. */
  lemma ColorConfianzaBandas(c: real, d: real)
    ensures ColorConfianza(c) == Lima <==> c > 0.7
    ensures ColorConfianza(c) == Naranja <==> 0.4 < c <= 0.7
    ensures ColorConfianza(c) == Rojo <==> c <= 0.4
    ensures d <= c && ColorConfianza(c) == Rojo ==> ColorConfianza(d) == Rojo
    ensures ColorConfianza(Reportes.CONFIANZA_INICIAL) == Lima
  {
  }
}
