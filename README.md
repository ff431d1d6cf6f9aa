# Campus parking: a verified model

This project models the core of a campus parking web application written in TypeScript, and proves properties of that model. The application does the following:

- It keeps parking zones with car and motorcycle capacity and occupancy.
- It accepts crowdsourced reports about a zone ("queue", "severe congestion", "full", "free cells", "accident"). Each report has a lifetime that depends on its type, and the number of reports a user may send is rate-limited.
- It caches road-traffic readings about two campus access roads, falling back to synthetic data when the provider is missing or fails.
- It ranks the zones into a best-route recommendation.
- It tracks a user's position to detect which zone they enter or leave, and notices when they have been stationary off campus for a while.
- It notifies route and traffic changes.
- It drives an admin dashboard: polling with new-report highlighting, an occupancy card with +/- buttons, a summary bar, and a feed.

Modules (one `.dfy` file each):

| module | models |
|---|---|
| `Tipos` | the shared records: zone, report, traffic datum, report type and its wire names |
| `Orden` | a stable insertion sort, used for every `ORDER BY`/`sort` in the core |
| `Metricas` | `src/lib/utils.ts`: percentage, zone status, report lifetime and expiry, traffic status, relative time |
| `Trafico` | `src/lib/tomtom.ts`: the traffic cache as a class over a `map`, the provider's outcome as an input |
| `Reportes` | `src/app/api/reportes/route.ts` (POST as a class over the zone `map` and report `seq`; GET as a function) and `src/app/api/reportes/feed/route.ts` |
| `MejorRuta` | `src/app/api/mejor-ruta/route.ts`: scoring, ranking and the recommendation |
| `Zonas` | `src/app/api/zonas/route.ts`: the projection of each zone and the method with its running totals |
| `Seguimiento` | `src/hooks/useTracking.ts`: zone detection loop, enter/leave deltas, stationary timer, as a class over the hook's refs |
| `Notificaciones` | `src/hooks/useNotificaciones.ts`: a class over the remembered zone name and the per-access state map |
| `PanelAdmin` | `src/hooks/useAdminDashboard.ts`: loading flags and known-id detection, as a class |
| `TarjetaAdmin` | `src/components/admin/ZonaCardAdmin.tsx`: the clamp, the button rules and the loading flag |
| `BarraKpi` | `src/components/BarraKPI.tsx`: free cells, the worst access and the indicator label |
| `FeedReportes` | `src/components/admin/FeedReportes.tsx`: age, active check, fallbacks and confidence colour |

How the source is represented:

- **Time.** Times are integer milliseconds passed in as parameters.
- **Numbers.** Numbers are exact reals and integers. `Math.round(x)` is `floor(x + 1/2)`.
- **Side effects.** Database tables are `map`s and `seq`s held by classes. The external provider, the browser APIs and distances appear as input values.
- **Text.** Human-readable strings are reduced to the branch taken, for example which rationale phrase is chosen.

Where the code and its own comments or documentation disagree, the model follows the code:

- **Traffic status.** The comment at `src/lib/utils.ts:127` says fluid is "ratio > 0.70". The code at line 139 uses `>=`, so a ratio of exactly 0.70 is fluid: 35/50 is fluid.
- **Zone status.** The comment at `src/app/api/zonas/route.ts:40` speaks of the worse vehicle type, but the status is computed from the combined percentage of both types (lines 41-44 and 71). `Zonas.EstadoCombinadoNoEsElPeorTipo` shows a zone whose car side is full and that is reported available.

## Model

| member | source | states |
|---|---|---|
| Tipos.TipoDesdeNombre | src/app/api/reportes/route.ts:23-29 | a string parses to a type only if it is that type's wire name |
| Tipos.Activas | src/app/api/mejor-ruta/route.ts:45-47 | a zone is kept iff it is active; both the ranking and the zones listing filter with it |
| Tipos.NombreTipoIdaYVuelta | src/app/api/reportes/route.ts:23-29 | every report type's wire name parses back to that type |
| Orden.Insertar | src/app/api/mejor-ruta/route.ts:104 | insertion keeps the same multiset of elements and adds one to the length |
| Orden.Ordenar | src/app/api/mejor-ruta/route.ts:104 | sorting is a permutation of its input |
| Orden.InsertarOrdenada | src/app/api/mejor-ruta/route.ts:104 | inserting into a sorted list under a total, transitive order keeps it sorted |
| Orden.OrdenarOrdenada | src/app/api/mejor-ruta/route.ts:104 | the sort result is ordered for every pair of positions |
| Orden.Equivalentes | src/app/api/mejor-ruta/route.ts:104 | every element it lists ties with the given value, and it lists no more than the input holds |
| Orden.InsertarEstable | src/app/api/mejor-ruta/route.ts:104 | insertion keeps the order of tied elements |
| Orden.OrdenarEstable | src/app/api/mejor-ruta/route.ts:104 | the sort is stable: tied elements keep their input order |
| Orden.OrdenarMismosElementos | src/app/api/mejor-ruta/route.ts:104 | an element is in the sorted list iff it is in the input |
| Metricas.Redondear | src/lib/utils.ts:67 | the rounded integer is within half a unit of x, halves rounding up |
| Metricas.RedondearMonotono | src/lib/utils.ts:67 | rounding is monotone |
| Metricas.RedondearEntero | src/lib/utils.ts:67 | an integer rounds to itself |
| Metricas.CalcularPorcentaje | src/lib/utils.ts:65-68 | for 0 ≤ occupancy ≤ capacity > 0 the percentage lies in [0, 100] |
| Metricas.CocienteEnUnidad | src/lib/utils.ts:67 | occupancy over capacity lies in [0, 1] |
| Metricas.PorcentajeSinCapacidad | src/lib/utils.ts:66 | zero capacity gives 0 % whatever the occupancy |
| Metricas.PorcentajeLleno | src/lib/utils.ts:67 | occupancy equal to a positive capacity gives exactly 100 % |
| Metricas.PorcentajeCercano | src/lib/utils.ts:67 | the result is within one rounding step (0.05) of the exact percentage |
| Metricas.PorcentajeMonotono | src/lib/utils.ts:67 | more occupancy on the same capacity never gives a lower percentage |
| Metricas.Severidad | src/lib/utils.ts:54-59 | zone statuses have ranks 0 to 3 |
| Metricas.EstadoDeZona | src/lib/utils.ts:54-59 | available iff below 70 %, full iff at least 100 %; the other two bands are in `EstadoDeZonaBandas` |
| Metricas.EstadoDeZonaBandas | src/lib/utils.ts:54-59 | full iff ≥ 100, critical iff in [90, 100), moderate iff in [70, 90), available iff < 70 |
| Metricas.EstadoDeZonaMonotono | src/lib/utils.ts:54-59 | a higher percentage never gives a less severe status |
| Metricas.TtlReporte | src/lib/utils.ts:97-99 | an unknown type lives 15 minutes; every lifetime lies in [10, 45] |
| Metricas.TtlPorTipo | src/lib/utils.ts:85-91 | every table entry lies in [10, 45]; 10 only for hay_cupos and 45 only for accidente |
| Metricas.TtlReporteSegunTabla | src/lib/utils.ts:85-99 | the lifetimes are 15, 20, 30, 10 and 45 minutes, and 15 for any other string |
| Metricas.CalcularExpiracion | src/lib/utils.ts:111-116 | the expiry is now plus the type's lifetime in minutes, between 10 and 45 minutes ahead |
| Metricas.ReporteExpirado | src/lib/utils.ts:104-106 | expired strictly after the expiry instant; its meaning is stated by `VigenciaDeReporte`, `VigenciaEjemplos` and `FeedReportes.EstaActivo` |
| Metricas.VigenciaDeReporte | src/lib/utils.ts:104-116 | a new report is expired at time t iff t is strictly after creation plus its lifetime; whatever its type it is live 10 minutes after creation and expired once 45 minutes have passed |
| Metricas.VigenciaEjemplos | src/lib/utils.ts:104-116 | a report is not expired at exactly its expiry instant and is expired one millisecond later; an accident report is live at 44 minutes and expired at 46; a hay_cupos report is expired at 11 minutes |
| Metricas.Ratio | src/lib/utils.ts:135 | ratio 1 without a positive free-flow speed; in [0, 1] when the current speed is at most the free-flow speed, above 1 when faster |
| Metricas.EvaluarTrafico | src/lib/utils.ts:131-152 | congested iff not fluid; fluid iff ratio ≥ 0.7; congested state iff ratio < 0.5; the returned ratio is within 0.005 of the unrounded one |
| Metricas.SinVelocidadLibreEsFluido | src/lib/utils.ts:135 | a free-flow speed ≤ 0 gives ratio 1, fluid and not congested |
| Metricas.EstadoSobreRatioSinRedondear | src/lib/utils.ts:136-145 | the state uses the unrounded ratio: 69.6/100 is moderate and congested although its rounded ratio is 0.70 |
| Metricas.EvaluacionEjemplos | src/lib/utils.ts:131-152 | 35/50 is fluid, not congested and 0.7; 18/45 is congested and 0.4 |
| Metricas.TiempoRelativo | src/lib/utils.ts:161-171 | seconds below 60 s, minutes below 3600 s, hours otherwise, each count being the floor of the elapsed seconds over 1, 60 or 3600 |
| Metricas.DivisionEncadenada | src/lib/utils.ts:167-169 | flooring by 60 twice is flooring by 3600 |
| Trafico.Dato | src/lib/tomtom.ts:146-157 | a datum names its point and road, carries the speeds, and is congested iff its state is not fluid |
| Trafico.Consulta | src/lib/tomtom.ts:84-197 | the datum names the point and road asked about; the table gains at most that point's key; the datum is synthetic iff the cache was bypassed or stale and the provider gave no speeds; it is marked "now" iff the cache was bypassed or stale |
| Trafico.CacheTrafico.constructor | src/lib/tomtom.ts:88-91 | the table starts empty |
| Trafico.CacheTrafico.ObtenerTrafico | src/lib/tomtom.ts:84-197 | the new table and the datum are those of `Consulta`, and the provider counter rises by one exactly when the provider is asked |
| Trafico.CacheTrafico.ObtenerTraficoTodos | src/lib/tomtom.ts:203-207 | each monitored point's datum and row are those of its own lookup; other rows are unchanged |
| Trafico.CacheTrafico.ObtenerTraficoPunto | src/lib/tomtom.ts:212-219 | an unknown point gives no datum and leaves the table unchanged; a known point is looked up |
| Trafico.BuscarPunto | src/lib/tomtom.ts:216 | the point found is the monitored point with that name, or none when no monitored point has it |
| Trafico.ConsultaDevuelveSuPunto | src/lib/tomtom.ts:146-196 | the datum is for the point and road asked about |
| Trafico.ConsultaAciertoCache | src/lib/tomtom.ts:88-115 | a snapshot under 60 s old, without forcing, is served with its stored speeds, not synthetic, with the table unchanged and no provider call |
| Trafico.ConsultaSinCache | src/lib/tomtom.ts:94-97 | with forcing, without a row, or with a row at least 60 s old, the answer is fresh and the point's row is rewritten with the current time |
| Trafico.ConsultaExito | src/lib/tomtom.ts:124-157 | the provider's speeds are stored with the current time and served live, not synthetic |
| Trafico.ConsultaMock | src/lib/tomtom.ts:118-196 | without a key or on failure, the synthetic pair is stored and served as synthetic |
| Trafico.MockEstados | src/lib/tomtom.ts:67-165 | the synthetic pairs: vegas 35/50 is fluid, cra49 18/45 is congested, any other point 30/50 |
| Trafico.ConsultaSoloSuPunto | src/lib/tomtom.ts:133-184 | only the row of the point asked about may change |
| Trafico.ConsultaLocal | src/lib/tomtom.ts:88-196 | a lookup depends on the table only through its own point's row |
| Trafico.AciertoTrasMockNoEsMock | src/lib/tomtom.ts:98-196 | a cache hit on a synthetic row within 60 s reports itself as not synthetic |
| Trafico.SegundaConsultaNoLlamaAlProveedor | src/lib/tomtom.ts:88-115 | a second unforced lookup within 60 s asks no provider and serves the same speeds |
| Reportes.EsValida | src/app/api/reportes/route.ts:31-37 | a valid request's type parses, and its wire name is exactly the request's string |
| Reportes.TipoValidoSiEsNombre | src/app/api/reportes/route.ts:31-37 | a request type is valid iff it is some type's wire name |
| Reportes.ConteoReciente | src/app/api/reportes/route.ts:95-102 | a user's count never exceeds the number of reports |
| Reportes.Efecto | src/app/api/reportes/route.ts:127-151 | only the car occupancy may change; an in-range zone stays in range; types other than hay_cupos and lleno leave the zone as it was |
| Reportes.Post | src/app/api/reportes/route.ts:70-158 | a rejection leaves both tables and the id counter as they were; a creation appends exactly the created report with the next id, adds one to the counter and keeps the set of zones |
| Reportes.Registro.constructor | src/app/api/reportes/route.ts:70 | the ledger starts with no reports and keeps its invariant |
| Reportes.Registro.Enviar | src/app/api/reportes/route.ts:70-158 | the response and the new tables are those of `Post`, and the id invariant is kept |
| Reportes.PostCreadoSiiAdmitido | src/app/api/reportes/route.ts:73-110 | a request is created iff it is valid, its zone exists and its user, if any, has fewer than 3 reports in the window |
| Reportes.PostRechazoSinEscrituras | src/app/api/reportes/route.ts:73-110 | 400, 404 and 429 are answered in that order and write nothing |
| Reportes.PostCreaReporte | src/app/api/reportes/route.ts:113-124 | the created report copies the request, has confidence 1.0, is active, created now, expires after its lifetime, and is appended |
| Reportes.PostEfectoEnZona | src/app/api/reportes/route.ts:127-151 | hay_cupos leaves max(0, cars − 5); lleno sets cars to capacity; other types, motorcycles, capacities and other zones are unchanged |
| Reportes.PostConservaRango | src/app/api/reportes/route.ts:127-151 | no request takes a zone's occupancy out of range |
| Reportes.ConteoAlAnexar | src/app/api/reportes/route.ts:95-102 | appending a report adds one to the count iff it is the user's and inside the window |
| Reportes.ConteoIgnoraVigencia | src/app/api/reportes/route.ts:95-102 | inactive or expired reports still count |
| Reportes.CreadoCuenta | src/app/api/reportes/route.ts:95-124 | a created report by a user adds one to that user's count |
| Reportes.AdmitidoSuma | src/app/api/reportes/route.ts:91-124 | a user under the limit on a known zone is created and their count rises by one |
| Reportes.CuartoReporteRechazado | src/app/api/reportes/route.ts:91-110 | three reports at the same instant exhaust the limit: the fourth gets 429, and the same request without a user id is still created |
| Reportes.MasRecienteEsPreorden | src/app/api/reportes/route.ts:56 | newest-first is a total preorder |
| Reportes.Vigentes | src/app/api/reportes/route.ts:48-55 | a report is selected iff it is flagged active and expires strictly after now |
| Reportes.Activos | src/app/api/reportes/route.ts:46-64 | the active list is a permutation of the active reports; order and membership are in `ActivosExactosYOrdenados` |
| Reportes.ActivosExactosYOrdenados | src/app/api/reportes/route.ts:46-64 | GET returns exactly the active unexpired reports, newest first |
| Reportes.Feed | src/app/api/reportes/feed/route.ts:16-19 | the feed length is min(number of reports, 50) |
| Reportes.Tomados | src/app/api/reportes/feed/route.ts:17 | the count kept lies within both the number of reports and 50, and is one of them |
| Reportes.Omitidos | src/app/api/reportes/feed/route.ts:16-19 | the omitted reports are the rest of the newest-first order after the feed |
| Reportes.FeedCorte | src/app/api/reportes/feed/route.ts:14-29 | at most 50, newest first, feed plus omitted is the whole table, and no omitted report is newer than a returned one |
| Reportes.FeedCompletoSinFiltro | src/app/api/reportes/feed/route.ts:16-22 | with at most 50 reports every report, expired or inactive, is in the feed |
| MejorRuta.ParsearTipo | src/app/api/mejor-ruta/route.ts:35-42 | a missing parameter means car; only "carro" and "moto" parse |
| MejorRuta.ParsearTipoIdaYVuelta | src/app/api/mejor-ruta/route.ts:35-42 | each vehicle type's name parses back to it |
| MejorRuta.TraficoScore | src/app/api/mejor-ruta/route.ts:26-30 | a score in [0.2, 1]: 1 exactly for fluid, 0.2 exactly for congested |
| MejorRuta.MapaTrafico | src/app/api/mejor-ruta/route.ts:50-53 | every key maps to a datum of that point |
| MejorRuta.MapaTraficoUltimoGana | src/app/api/mejor-ruta/route.ts:50-53 | the map holds exactly the data's points, and each maps to the last datum for it |
| MejorRuta.Puntuar | src/app/api/mejor-ruta/route.ts:56-101 | a zone scores iff its capacity is non-zero and it has free cells; the score is 0.6·availability + 0.4·traffic, with its free cells, status and access |
| MejorRuta.Candidatos | src/app/api/mejor-ruta/route.ts:56-102 | a candidate is present iff some zone scores to it |
| MejorRuta.MayorScoreEsPreorden | src/app/api/mejor-ruta/route.ts:104 | highest-score-first is a total preorder |
| MejorRuta.Ranking | src/app/api/mejor-ruta/route.ts:102-105 | a permutation of the candidates of the active zones, no longer than the zone list |
| MejorRuta.RazonDe | src/app/api/mejor-ruta/route.ts:118-122 | the rationale names the zone and its free cells; the "has traffic" phrase names the zone's access road; the fluid phrase names a road iff there is traffic data |
| MejorRuta.AlternativaDe | src/app/api/mejor-ruta/route.ts:130-137 | the runner-up's name and free cells, its road and state when known, and "desconocido" with no state otherwise |
| MejorRuta.MejorRuta | src/app/api/mejor-ruta/route.ts:35-137 | 400 iff the type does not parse; a recommendation is for the parsed type and the head of a non-empty ranking |
| MejorRuta.RedondearCentesimas | src/app/api/mejor-ruta/route.ts:129 | the score shown is within 0.005 of the final score |
| MejorRuta.RankingMiembros | src/app/api/mejor-ruta/route.ts:45-105 | a candidate is ranked iff an active zone with capacity and free cells scores to it |
| MejorRuta.RankingNoCreciente | src/app/api/mejor-ruta/route.ts:104 | scores do not increase along the ranking; no candidate scores above the head |
| MejorRuta.RankingEstable | src/app/api/mejor-ruta/route.ts:104 | tied candidates keep zone order |
| MejorRuta.DisponibilidadEnRango | src/app/api/mejor-ruta/route.ts:67 | a ranked zone's availability score lies in (0, 1] |
| MejorRuta.TraficoDeZonaValores | src/app/api/mejor-ruta/route.ts:26-69 | the traffic score is 1, 0.5 or 0.2 by state, and 0.5 without data |
| MejorRuta.ScoreEnRango | src/app/api/mejor-ruta/route.ts:67-75 | a ranked zone's final score lies in (0.08, 1] |
| MejorRuta.MejorRutaRespuesta | src/app/api/mejor-ruta/route.ts:35-137 | 400 iff the type is unknown, 404 iff nothing ranks, else the head with its rounded score and the second as alternative |
| MejorRuta.RazonSiiCongestionado | src/app/api/mejor-ruta/route.ts:118-122 | the "has traffic" phrase is used iff the access is flagged congested |
| MejorRuta.RazonModeradoTieneTrafico | src/app/api/mejor-ruta/route.ts:118-122 | with the provider's flags, a moderate access also gets the "has traffic" phrase |
| MejorRuta.MapaDeDos | src/app/api/mejor-ruta/route.ts:50-53 | two data for different points give the map holding both |
| MejorRuta.EjemploPuntajes | src/app/api/mejor-ruta/route.ts:56-101 | 8 of 10 free with a fluid access scores 0.88; 9 of 10 free with a congested access scores 0.62 |
| MejorRuta.OrdenarDos | src/app/api/mejor-ruta/route.ts:104 | sorting the two example candidates puts 0.88 first |
| MejorRuta.EjemploRecomendacion | src/app/api/mejor-ruta/route.ts:102-137 | the example recommends the 0.88 zone with the other as alternative, although the other has more free cells |
| Zonas.LexLeTotal | src/app/api/zonas/route.ts:20 | name order is total |
| Zonas.LexLeTransitiva | src/app/api/zonas/route.ts:20 | name order is transitive |
| Zonas.PorNombreEsPreorden | src/app/api/zonas/route.ts:20 | by-name order is a total preorder |
| Zonas.ZonasVisibles | src/app/api/zonas/route.ts:18-20 | a permutation of the active zones |
| Zonas.DeZona | src/app/api/zonas/route.ts:21-29 | exactly the reports of the zone |
| Zonas.Resumenes | src/app/api/zonas/route.ts:71-77 | one summary per report, in order |
| Zonas.Proyectar | src/app/api/zonas/route.ts:49-78 | the projection keeps the zone's id, and its count of active reports is the length of its list; the figures are in `ProyectarOcupacion` and `ProyectarReportes` |
| Zonas.Proyecciones | src/app/api/zonas/route.ts:49-78 | one projection per zone |
| Zonas.ProyeccionesIndice | src/app/api/zonas/route.ts:49-78 | one projection per zone, each that zone's |
| Zonas.PrefijoSiguiente | src/app/api/zonas/route.ts:33-47 | the next zone extends the projections and both totals by its own values |
| Zonas.ObtenerZonas | src/app/api/zonas/route.ts:18-81 | the projections and totals of the visible zones, and the global percentage computed from the totals |
| Zonas.VisiblesExactasYOrdenadas | src/app/api/zonas/route.ts:18-30 | exactly the active zones, in ascending name order |
| Zonas.ProyectarOcupacion | src/app/api/zonas/route.ts:49-69 | each type's free cells are capacity − occupancy, the percentage is the type's own, and the status comes from the combined percentage |
| Zonas.ProyectarReportes | src/app/api/zonas/route.ts:21-77 | the zone's active reports, newest first, and their count |
| Zonas.TotalesEnRango | src/app/api/zonas/route.ts:33-81 | with in-range zones, 0 ≤ occupied ≤ cells and the global percentage lies in [0, 100] |
| Zonas.EstadoCombinadoNoEsElPeorTipo | src/app/api/zonas/route.ts:40-44 | a zone with a full car side and an empty motorcycle side is reported available |
| Seguimiento.ZonaDetectada | src/hooks/useTracking.ts:66-75 | a detected zone is one of the listed zones |
| Seguimiento.DetectarZona | src/hooks/useTracking.ts:66-75 | the first zone within 80 m, and none iff every zone is farther |
| Seguimiento.DeltasDeTransicion | src/hooks/useTracking.ts:126-136 | at most one update per sample, each of +1 or −1 |
| Seguimiento.SinCambioSinDeltas | src/hooks/useTracking.ts:126-136 | staying in the same zone sends no update |
| Seguimiento.EntrarEmiteUno | src/hooks/useTracking.ts:129-131 | entering a zone sends exactly +1 for it |
| Seguimiento.SalirEmiteMenosUno | src/hooks/useTracking.ts:132-134 | leaving a zone for none sends exactly −1 for it |
| Seguimiento.DeltasAcotadas | src/hooks/useTracking.ts:126-136 | at most one update per sample: +1 for the zone entered or −1 for the zone left |
| Seguimiento.Temporizador | src/hooks/useTracking.ts:139-159 | the modal fires only on a qualifying sample and then disarms the timer; a non-qualifying sample disarms it without firing |
| Seguimiento.TemporizadorCasos | src/hooks/useTracking.ts:139-159 | the modal fires iff stationary off campus with an armed timer at least 90 s old; the timer is reset, armed or kept accordingly |
| Seguimiento.Paso | src/hooks/useTracking.ts:109-168 | a sample remembers the detected zone's id, records the position and the detected zone, and sends at most one update |
| Seguimiento.Rastreo.constructor | src/hooks/useTracking.ts:52-62 | the initial state and refs of the hook |
| Seguimiento.Rastreo.Iniciar | src/hooks/useTracking.ts:97-106 | without geolocation the state is unavailable with its error; otherwise available |
| Seguimiento.Rastreo.AlRecibirMuestra | src/hooks/useTracking.ts:109-168 | the new refs, state and deltas are those of `Paso` |
| Seguimiento.Rastreo.AlFallar | src/hooks/useTracking.ts:169-177 | code 1 records permission denied; any other code records no location |
| Seguimiento.Rastreo.CerrarModalExterno | src/hooks/useTracking.ts:188-190 | only the modal flag is cleared |
| Seguimiento.PasoRecuerdaZona | src/hooks/useTracking.ts:123-136 | each sample remembers the detected zone and sends the transition's deltas |
| Seguimiento.PasoModal | src/hooks/useTracking.ts:142-167 | the modal opens when the timer fires, and otherwise keeps its value while the error clears |
| Seguimiento.EstaticoNoventaSegundos | src/hooks/useTracking.ts:139-159 | two qualifying samples 90 s apart open the modal on the second, not the first |
| Seguimiento.VelocidadDesconocidaLimpia | src/hooks/useTracking.ts:139-158 | an unknown speed disarms the timer and never opens the modal |
| Seguimiento.PeticionOcupacion | src/hooks/useTracking.ts:78-94 | the occupancy sent is max(0, read + delta); a failed read sends nothing |
| Seguimiento.PeticionSinTope | src/hooks/useTracking.ts:83 | entering a full zone sends capacity + 1: the client does not cap at capacity |
| Notificaciones.AvisoRuta | src/hooks/useNotificaciones.ts:49-56 | no notice without a remembered name; a notice names the new zone and its free cells |
| Notificaciones.ZonaTras | src/hooks/useNotificaciones.ts:49-57 | an answer's zone name is remembered; with a remembered name, a notice is raised iff the remembered name changes |
| Notificaciones.EstadosTras | src/hooks/useNotificaciones.ts:66-75 | remembered points are kept and every access of the answer is remembered |
| Notificaciones.Despejadas | src/hooks/useNotificaciones.ts:66-75 | at most one notice per access |
| Notificaciones.Notificador.constructor | src/hooks/useNotificaciones.ts:18-20 | permission default, no remembered zone, empty state map |
| Notificaciones.Notificador.SolicitarPermiso | src/hooks/useNotificaciones.ts:28-32 | without the API nothing changes; otherwise the answer is kept |
| Notificaciones.Notificador.Notificar | src/hooks/useNotificaciones.ts:34-44 | notices are shown iff the permission is granted |
| Notificaciones.Notificador.VerificarCambioRuta | src/hooks/useNotificaciones.ts:47-60 | the remembered name and the notice shown are those of `ZonaTras` and `AvisoRuta` |
| Notificaciones.Notificador.VerificarCambioTrafico | src/hooks/useNotificaciones.ts:63-78 | null changes nothing; otherwise the map becomes `EstadosTras` and the notices are `Despejadas` when granted |
| Notificaciones.AvisoRutaCasos | src/hooks/useNotificaciones.ts:49-57 | null changes nothing; a notice iff a name was remembered and the new one differs, so the first call never notifies; the new name is remembered |
| Notificaciones.RutaRepetidaNoAvisa | src/hooks/useNotificaciones.ts:51-57 | the same answer twice notifies at most once |
| Notificaciones.EstadosTrasOtraClave | src/hooks/useNotificaciones.ts:66-75 | keys of no access in the answer keep their remembered state |
| Notificaciones.EstadosTrasUltimoGana | src/hooks/useNotificaciones.ts:74 | every access's new state is remembered, the last one when a point repeats |
| Notificaciones.DespejadasSinRepetidos | src/hooks/useNotificaciones.ts:66-75 | with distinct points, an access notifies iff its state before the answer was congested and its new state is fluid |
| Notificaciones.UnAccesoDespeja | src/hooks/useNotificaciones.ts:67-73 | congested to fluid notifies once; moderate to fluid does not notify |
| PanelAdmin.Conocidos | src/hooks/useAdminDashboard.ts:81-87 | the known set contains the initial set and the ids of every poll |
| PanelAdmin.Marcados | src/hooks/useAdminDashboard.ts:81-87 | one flagged set per poll |
| PanelAdmin.Panel.constructor | src/hooks/useAdminDashboard.ts:45-57 | nothing loaded, loading, no known ids |
| PanelAdmin.Panel.IniciarCarga | src/hooks/useAdminDashboard.ts:60-64 | full loading iff not silent and no zones yet; updating iff silent |
| PanelAdmin.Panel.DetectarNuevos | src/hooks/useAdminDashboard.ts:81-87 | the new ids are exactly the feed's ids not known before; the known set becomes old ∪ feed ids |
| PanelAdmin.Panel.TerminarConFallo | src/hooks/useAdminDashboard.ts:103-110 | after a failure both flags are false and the error is set |
| PanelAdmin.Panel.RegistrarPoll | src/hooks/useAdminDashboard.ts:81-91 | the known set grows by the feed's ids, and the highlight is replaced only when a new id was found |
| PanelAdmin.Panel.TerminarConExito | src/hooks/useAdminDashboard.ts:81-102 | after a success the answers are shown, both flags and the error cleared, and the known ids updated |
| PanelAdmin.Panel.TerminarCarga | src/hooks/useAdminDashboard.ts:59-111 | both flags end false after success or failure; a failure sets the connection error and leaves data, timestamp, known ids, highlight and poll history unchanged; a success clears the error, stores the answer and the time, appends the feed to the history, adds its ids to the known set, and highlights the unseen ids when there are any |
| PanelAdmin.Panel.LimpiarResaltado | src/hooks/useAdminDashboard.ts:90 | the highlight is cleared |
| PanelAdmin.Panel.ForzarRefreshTrafico | src/hooks/useAdminDashboard.ts:123-131 | the refreshing flag ends false whatever happens; a failed refresh changes nothing else; after a successful one the follow-up fetch has the effect `TerminarCarga` states |
| PanelAdmin.PollSiguiente | src/hooks/useAdminDashboard.ts:81-87 | one more poll adds its ids and flags those not known before it |
| PanelAdmin.IdsDeMiembros | src/hooks/useAdminDashboard.ts:81-87 | an id is among a feed's ids iff some report of the feed has it |
| PanelAdmin.MarcadosConocidos | src/hooks/useAdminDashboard.ts:82-86 | the known set only grows and contains every flagged set |
| PanelAdmin.MarcadosDisjuntos | src/hooks/useAdminDashboard.ts:83-85 | an id is flagged new by at most one poll over the hook's lifetime |
| PanelAdmin.PollRepetidoSinNovedades | src/hooks/useAdminDashboard.ts:83-85 | repeating a feed flags nothing the second time |
| TarjetaAdmin.Acotar | src/components/admin/ZonaCardAdmin.tsx:47-54 | the sent value is ≥ 0 and ≤ a non-negative capacity; it is occupancy + delta when in range, 0 below, capacity above |
| TarjetaAdmin.EnvioDe | src/components/admin/ZonaCardAdmin.tsx:43-58 | the request names the card's zone and sends non-negative occupancies |
| TarjetaAdmin.MenosDeshabilitado | src/components/admin/ZonaCardAdmin.tsx:137-138 | an enabled "−" on an occupancy within capacity sends one less |
| TarjetaAdmin.MasDeshabilitado | src/components/admin/ZonaCardAdmin.tsx:147-148 | an enabled "+" on a projected type sends one more |
| TarjetaAdmin.MotoVisible | src/components/admin/ZonaCardAdmin.tsx:157 | a hidden motorcycle side always sends 0 |
| TarjetaAdmin.Tarjeta.constructor | src/components/admin/ZonaCardAdmin.tsx:40 | not loading |
| TarjetaAdmin.Tarjeta.Ajustar | src/components/admin/ZonaCardAdmin.tsx:43-62 | the clamped values are sent, and loading ends false even when the update fails |
| TarjetaAdmin.EnvioEnRango | src/components/admin/ZonaCardAdmin.tsx:47-54 | both sent values lie in [0, capacity] |
| TarjetaAdmin.SinDeltaSinCambio | src/components/admin/ZonaCardAdmin.tsx:43-58 | an in-range occupancy with delta 0 is sent unchanged |
| TarjetaAdmin.BotonHabilitadoMueveUno | src/components/admin/ZonaCardAdmin.tsx:137-175 | "−" is enabled iff occupancy > 0 and sends one less; "+" is enabled iff there are free cells and sends one more; both are disabled while loading |
| TarjetaAdmin.BordesSinEfecto | src/components/admin/ZonaCardAdmin.tsx:47-54 | the clamp does nothing below zero or above capacity |
| TarjetaAdmin.SinMotosOculto | src/components/admin/ZonaCardAdmin.tsx:157 | without motorcycle capacity the controls are hidden and 0 is sent |
| BarraKpi.TotalDisponibles | src/components/BarraKPI.tsx:25 | free plus occupied is all cells, and free is non-negative when occupied does not exceed cells |
| BarraKpi.Rango | src/components/BarraKPI.tsx:30 | fluid 0, moderate 1, congested 2 |
| BarraKpi.PeorDesdeMaximo | src/components/BarraKPI.tsx:28-31 | the reduce ends on its start or on a strictly higher-ranked access that ties or outranks all and beats every earlier one |
| BarraKpi.PeorAcceso | src/components/BarraKPI.tsx:28-31 | a worst access exists iff there is an access, and it is one of them |
| BarraKpi.PeorAccesoEsElPrimerMaximo | src/components/BarraKPI.tsx:28-31 | the worst access exists iff there is an access; it has maximal rank and is the earliest of that rank |
| BarraKpi.EstadoAccesos | src/components/BarraKPI.tsx:33-38 | no access reads "Fluidos"; "Moderado" implies some moderate access |
| BarraKpi.ColorAcceso | src/components/BarraKPI.tsx:40 | fluid's colour with no access; any other colour is the state of some access |
| BarraKpi.ColorSegunEtiqueta | src/components/BarraKPI.tsx:28-40 | the colour is fluid's iff the label is "Fluidos" (including no access), congested's iff "Congestionado", moderate's iff "Moderado" |
| BarraKpi.EtiquetaCasos | src/components/BarraKPI.tsx:33-38 | "Fluidos" iff all fluid, including the empty list; "Congestionado" iff not all fluid and some congested; "Moderado" implies some moderate |
| BarraKpi.LibresDeProyecciones | src/components/BarraKPI.tsx:25 | the projected zones' free cells add up to cells − occupied |
| BarraKpi.TotalDisponiblesEsSumaDeZonas | src/components/BarraKPI.tsx:25 | for the zones listing, the bar's free cells are the sum of every zone's free cells |
| FeedReportes.TiempoRelativoFeed | src/components/admin/FeedReportes.tsx:54-59 | seconds iff under 60 s, hours iff at least 3600 s |
| FeedReportes.EstaActivo | src/components/admin/FeedReportes.tsx:61-63 | an active report is not expired; a report is inactive iff it is expired or at exactly its expiry instant |
| FeedReportes.ColorTipo | src/components/admin/FeedReportes.tsx:46-81 | a string is grey iff it is not a report type's wire name |
| FeedReportes.NombreZona | src/components/admin/FeedReportes.tsx:82 | a known zone's name, otherwise "Zona desconocida" |
| FeedReportes.ColorConfianza | src/components/admin/FeedReportes.tsx:117-118 | the confidence bar is never grey |
| FeedReportes.TiempoRelativoComoUtils | src/components/admin/FeedReportes.tsx:54-59 | the feed's age has the same bucket and count as the shared helper's |
| FeedReportes.TiempoRelativoFeedCasos | src/components/admin/FeedReportes.tsx:54-59 | minutes iff in [60, 3600) s and then between 1 and 59; seconds is the floored count |
| FeedReportes.ActivoYExpirado | src/components/admin/FeedReportes.tsx:61-63 | active iff expiry strictly after now, as in the GET filter; at exactly the expiry instant a report is neither active here nor expired by the shared helper |
| FeedReportes.NuevoReporteActivo | src/components/admin/FeedReportes.tsx:61-63 | a new report shows as active until creation plus its lifetime |
| FeedReportes.ColorTipoConocido | src/components/admin/FeedReportes.tsx:46-81 | every type has a colour, lime iff hay_cupos; any other string is grey |
| FeedReportes.ColorConfianzaBandas | src/components/admin/FeedReportes.tsx:117-118 | lime iff > 0.7, orange iff in (0.4, 0.7], red iff ≤ 0.4; a new report (1.0) is lime |

## Left out

- Distances (`haversine`, src/lib/utils.ts:16-38): floating-point trigonometry. The tracker receives the distance to the campus centre and to each zone as inputs.
- Floating point: the model uses exact reals, so IEEE rounding error, for example in `ocupacion / capacidad * 1000`, is not captured.
- Persistence: the Prisma client, schema and seed are not part of this model. Tables are in-memory maps and sequences. Two schema defaults are assumed because the schema is not shown: a new report is active and created now. Database errors and the 500 answers are not modelled.
- Report ids are natural numbers taken from a counter, where the database generates string ids. Ids are compared only for equality and order of creation.
- Case-sensitive code-point order is assumed for zone names; the database's collation is not modelled.
- The TomTom HTTP request, its JSON and its `confidence` field are not modelled. The provider's outcome is an input: no key, failure, or a pair of speeds.
- Concurrency: the model is sequential and claims no atomicity. Not modelled:
  - the `Promise.all` fan-out;
  - the race between counting and creating a report;
  - decrement-then-correct on zone occupancy;
  - the client's read-modify-write of occupancy.
- The zone PATCH endpoint (src/app/api/zonas/[id]/route.ts) is not part of this model. The tracker's and the card's requests are modelled only as the values they send.
- Zod validation is a predicate on the request's fields. Non-string or missing JSON fields are not modelled.
- Not part of this model, all browser plumbing:
  - `navigator.geolocation` registration and cleanup;
  - the `Notification` API, apart from the permission guard;
  - `localStorage`;
  - the `setInterval` polling;
  - the `setTimeout` that clears the highlight, which is the separate method `PanelAdmin.Panel.LimpiarResaltado`.
- Exact strings and formatting are not modelled: rationale text, time suffixes (`s`, `m`, ` min`, `h`), colour codes, `toLocaleString`. Only the branch each one takes is.
- Metricas.TtlReporte: a string that names an inherited object property (such as "toString") is treated like any other unknown type (15 minutes); JavaScript's prototype lookup is not modelled.
- Reportes.EsValida: string lengths count code points (elements of `seq<char>`), while Zod's `.max(100)` counts UTF-16 code units. An anonymous id of 60 emoji has 60 code points and 120 code units: it is accepted here and rejected by the source.
- FeedReportes.NombreZona: a zone id that names an inherited object property (such as "constructor") is treated as unknown and gives "Zona desconocida", where the source would take the inherited value; JavaScript's prototype lookup on the names table is not modelled.
- FeedReportes.ColorTipo: a type string that names an inherited object property is treated as unknown and gives grey, where the source would take the inherited value; JavaScript's prototype lookup on the colour table is not modelled.
- Metricas.TiempoRelativo: the argument is an integer millisecond time; `Date` parsing is not modelled. A future date gives a negative count of seconds, as in the source.
- Seguimiento.Rastreo.AlRecibirMuestra: precision and the position timestamp are carried but unused; the clock is the sample's `ahora`.
- Tie order in database sorts (`ORDER BY createdAt DESC` with equal times) is not determined by the source. The model keeps input order for ties; properties are stated only up to ties.
- Pure presentation (pages, maps, badges, progress bars, toasts) and the fetch hooks `useParking` and `useReporte` are out of scope.
