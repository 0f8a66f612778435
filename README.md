# Ticket queue of a clinical laboratory, in Dafny

This project models the core of `sistema-turnos`, a React application that hands out numbered
tickets ("turnos") at a laboratory front desk and calls them to reception desks. Three parts of it are modelled:

- **The page** (`app/page.tsx`), as the class `Pagina.SistemaTurnos`.
  - Fields: the ticket list, the next ticket number, the current ticket, the configuration, and the armed no-show timeouts.
  - Each event handler is one method: add a ticket, quick-add, reset, call next, timeout firing, served, no-show, recall.
  - The four state filters are functions.
- **The statistics panel** (`components/estadisticas-panel.tsx`), as functions in `PanelEstadisticas`:
  - the "today" window and the counters;
  - the efficiency percentage and the average handling time;
  - the per-service count and its top-five ranking;
  - the history of tickets served today.
- **The configuration panel** (`components/configuracion-panel.tsx`), as the class `PanelConfiguracion.ConfiguracionPanel`.
  - It holds a draft configuration and the new-service input, and refers to the page whose configuration it edits.
  - Pure parts are functions: `trim`, the service filter, and the `parseInt(...) || default` fallbacks.

All three `Array.prototype.sort` calls are one stable insertion sort, `OrdenEstable.Ordenar`, each with its own key. The sorts are:

- the priority sort when a ticket is added;
- the count sort of the ranking;
- the service-time sort of the history.

`sort` is stable and a stable sort has a single possible output, so this function is that output. `Escenario.PrioridadesEnCola` is a client of the page. It adds a normal, an urgent and a preferential ticket in that order, calls twice, and gets the order urgent, preferential, normal.

**What the handlers do not do.** The handlers have no transition guards, no typed errors and no timer cancellation, and a fired timeout does not clear the current ticket. The model follows the code:

- `marcarAtendido`, `marcarNoPresentado` and `regresarTurno` rewrite every ticket carrying the id, whatever its state. An unknown id changes nothing.
- "Call next" with nothing waiting does nothing.
- Adding a ticket only rejects an empty service name.
- A fired timeout only touches tickets still "called", and leaves the current ticket alone.
- Reset leaves armed timeouts armed.
- Ids come from `Date.now()` and may repeat, so ids are arbitrary strings here. Every update acts on all tickets with the id.
- The current ticket is the snapshot taken before the update (`turnoEspera`, or `find` on the old list). It is not the updated ticket.
- Quick-add appends without sorting. `Pagina.AgregarRapidoConservaInvariante` proves that the list stays in priority order anyway.

## Model

| member | source | states |
|---|---|---|
| OrdenEstable.Insertar | app/page.tsx:181-190 | inserting adds exactly the new element: length + 1, multiset grows by it |
| OrdenEstable.Ordenar | app/page.tsx:181-190 | the sort is a permutation of its input |
| OrdenEstable.OrdenarOrdena | app/page.tsx:184-190 | the sort's output is ordered by the key |
| OrdenEstable.InsertarConservaOrden | app/page.tsx:184-190 | inserting into an ordered list keeps it ordered |
| OrdenEstable.OrdenarOrdenadoEsIdentidad | app/page.tsx:184-190 | re-sorting a list already in order changes nothing |
| OrdenEstable.OrdenarTrasAgregar | app/page.tsx:181-190 | appending to an ordered list and sorting is inserting the new element in place |
| OrdenEstable.InsertarAlFinal | app/page.tsx:210 | an element whose key is not below any other goes last |
| OrdenEstable.ConClave | app/page.tsx:184-190 | the elements with a given key, in list order, are no more than the list |
| OrdenEstable.ConClaveConcat | app/page.tsx:184-190 | selecting by key distributes over concatenation |
| OrdenEstable.InsertarEstable | app/page.tsx:184-190 | an inserted element lands after every element with an equal key |
| OrdenEstable.OrdenarEstable | app/page.tsx:184-190 | stability: for every key, elements with that key keep their input order |
| Pagina.ConfiguracionInicial | app/page.tsx:60-69 | one service listed, so quick-add works on a fresh page; positive desk count and waiting time |
| Pagina.ClavePrioridadOrden | app/page.tsx:185-189 | the key of `Rango` and number orders a ticket first exactly when it is more urgent, or equally urgent and numbered no higher |
| Pagina.CompararPrioridad | app/page.tsx:184-190 | the comparator is non-positive exactly when (rank, number) is lexicographically not greater, and zero exactly on equal rank and number |
| Pagina.InsertarNumeroNuevo | app/page.tsx:172-190 | a new ticket numbered above all others keeps numbers distinct after insertion |
| Pagina.Aplicar | app/page.tsx:232-273 | no handler's rewrite changes a ticket's id, number, service, priority or creation time |
| Pagina.ActualizarPorId | app/page.tsx:233-235 | the `map` keeps the length and rewrites exactly the tickets with the id |
| Pagina.ActualizarConservaOrden | app/page.tsx:232-273 | every rewrite keeps the priority order, distinct numbers and each position's number |
| Pagina.ActualizarIdDesconocido | app/page.tsx:256-273 | an id no ticket carries leaves the list unchanged |
| Pagina.VencerTrasAtender | app/page.tsx:249-258 | a timeout firing after the ticket was served changes nothing |
| Pagina.VencerTrasAusente | app/page.tsx:249-266 | a timeout firing after the ticket was marked no-show changes nothing |
| Pagina.VencerIdempotente | app/page.tsx:249-253 | a second firing of the timeout changes nothing more |
| Pagina.PrimerEsperando | app/page.tsx:229-230 | `find` for a waiting ticket: none exactly when nothing waits, else the first waiting index |
| Pagina.BuscarPorId | app/page.tsx:276 | `find` by id: none exactly when the id is absent, else its first index |
| Pagina.PrimerEsperandoEsElMinimo | app/page.tsx:229 | in the sorted list the first waiting ticket precedes every other waiting ticket in the comparator |
| Pagina.PorEstado | app/page.tsx:282-285 | a state filter keeps only tickets in that state and is no longer than the list |
| Pagina.PorEstadoConcat | app/page.tsx:282-285 | a state filter keeps list order (distributes over concatenation) |
| Pagina.PorEstadoParticion | app/page.tsx:282-285 | the four filter lengths add up to the list length |
| Pagina.PorEstadoMultiplicidad | app/page.tsx:282-285 | a filter keeps every copy of each ticket in its state and nothing else |
| Pagina.PorEstadoParticionMultiset | app/page.tsx:282-285 | the four filters together are a permutation of the list |
| Pagina.PorEstadoReemplazo | app/page.tsx:282-285 | replacing one ticket changes a filter's length by that ticket's contribution only |
| Pagina.LlamarMueveUnoALlamados | app/page.tsx:228-236 | with distinct ids, a call moves exactly one ticket from waiting to called |
| Pagina.NuevoTurnoEspera | app/page.tsx:172-179 | a new ticket is waiting: sorted in or appended, it adds one to the waiting filter and nothing to the other three |
| Pagina.AgregarConservaInvariante | app/page.tsx:169-193 | sorting after appending is insertion, and keeps order, distinct numbers and numbers below the counter |
| Pagina.AgregarRapidoConservaInvariante | app/page.tsx:198-211 | the quick-added normal ticket already belongs last, so appending keeps the invariant |
| Pagina.SistemaTurnos.constructor | app/page.tsx:52-69 | empty list, counter 1, no current ticket, the initial configuration, no timeouts |
| Pagina.SistemaTurnos.AgregarTurno | app/page.tsx:169-196 | empty service changes nothing; else the list becomes the stable sort of old list plus the new waiting ticket and the counter grows by 1 |
| Pagina.SistemaTurnos.AgregarTurnoRapido | app/page.tsx:198-212 | no services changes nothing; else a normal ticket for the first service is appended unsorted, which equals the sorted list |
| Pagina.SistemaTurnos.ReiniciarSistema | app/page.tsx:214-226 | empty list, counter 1, no current ticket; configuration and armed timeouts kept |
| Pagina.SistemaTurnos.LlamarSiguienteTurno | app/page.tsx:228-254 | nothing waiting changes nothing; else the first waiting ticket, minimal in the comparator, is called to the desk, becomes current as it was before, and its timeout is armed |
| Pagina.SistemaTurnos.Expirar | app/page.tsx:249-253 | an armed timeout fires: tickets with the id still called become no-show, the current ticket is untouched, the timeout is disarmed |
| Pagina.SistemaTurnos.MarcarAtendido | app/page.tsx:256-263 | every ticket with the id becomes served with the service time; the current ticket is cleared if it has the id |
| Pagina.SistemaTurnos.MarcarNoPresentado | app/page.tsx:265-270 | every ticket with the id becomes no-show; the current ticket is cleared if it has the id |
| Pagina.SistemaTurnos.RegresarTurno | app/page.tsx:272-280 | every ticket with the id is called again with no service time; with no current ticket, the first such ticket as it was becomes current |
| Pagina.SistemaTurnos.CambiarConfiguracion | app/page.tsx:709 | the configuration is replaced and nothing else changes |
| PanelEstadisticas.DelDia | components/estadisticas-panel.tsx:19-21 | the window keeps only tickets created from the start of the day |
| PanelEstadisticas.DelDiaMultiplicidad | components/estadisticas-panel.tsx:19-21 | the window keeps every copy of each ticket created from the day's start and nothing else |
| PanelEstadisticas.DelDiaConcat | components/estadisticas-panel.tsx:19-21 | the window keeps list order |
| PanelEstadisticas.DelDiaPorEstado | components/estadisticas-panel.tsx:19-21 | windowing and filtering by state commute |
| PanelEstadisticas.AtendidosHoyEnTurnosHoy | components/estadisticas-panel.tsx:19-20 | today's served tickets are a sub-multiset of today's tickets |
| PanelEstadisticas.ConteosDelDia | components/estadisticas-panel.tsx:19-21 | today's served plus today's no-show count is at most today's count |
| PanelEstadisticas.Eficiencia | components/estadisticas-panel.tsx:48 | 0 with no tickets today; else the result is 100·served/total rounded half up |
| PanelEstadisticas.PorcentajeRedondeado | components/estadisticas-panel.tsx:48 | rounding a ratio in [0, 1] as a percentage gives 0..100, 0 exactly at 0 and 100 at 1 |
| PanelEstadisticas.EficienciaEnRango | components/estadisticas-panel.tsx:48 | efficiency lies in 0..100, is 0 with nothing served today and 100 when all of today's were served |
| PanelEstadisticas.SumaDuracionesAcotada | components/estadisticas-panel.tsx:25-30 | durations in [0, m] sum to between 0 and count·m |
| PanelEstadisticas.SumaDuracionesConcat | components/estadisticas-panel.tsx:25-30 | the `reduce` splits over concatenation |
| PanelEstadisticas.SumaDuracionesTurno | components/estadisticas-panel.tsx:26-29 | a ticket adds its call-to-service time when it has both times and nothing otherwise, at the front or the back |
| PanelEstadisticas.TiempoPromedioAtencion | components/estadisticas-panel.tsx:23-34 | 0 with no served tickets; else average·count·60000 equals the summed milliseconds |
| PanelEstadisticas.PromedioAcotado | components/estadisticas-panel.tsx:23-34 | with durations in [0, m] ms the average lies in [0, m/60000] minutes |
| PanelEstadisticas.Claves | components/estadisticas-panel.tsx:44 | the dictionary's keys, one per entry, in order |
| PanelEstadisticas.Incrementar | components/estadisticas-panel.tsx:38 | the looked-up count of the service grows by 1 and no other changes; the total grows by 1; counts stay positive |
| PanelEstadisticas.IncrementarClaves | components/estadisticas-panel.tsx:38 | an existing key keeps its place, a new key is added last |
| PanelEstadisticas.IncrementarUnicas | components/estadisticas-panel.tsx:38 | incrementing keeps keys unique |
| PanelEstadisticas.ContarServicios | components/estadisticas-panel.tsx:36-42 | unique keys, positive counts, each service's count equals its number of tickets, counts sum to the list length |
| PanelEstadisticas.PrimeraAparicion | components/estadisticas-panel.tsx:36-42 | the index of the first ticket for a service is at most the list length (the length when none) |
| PanelEstadisticas.PrimeraAparicionAlFinal | components/estadisticas-panel.tsx:36-42 | appending a ticket keeps an earlier first appearance, else the new ticket is the first |
| PanelEstadisticas.ContarServiciosEnOrdenDeAparicion | components/estadisticas-panel.tsx:36-44 | the dictionary's keys are exactly the services asked for, in the order of their first ticket |
| PanelEstadisticas.AparicionClaves | components/estadisticas-panel.tsx:37-39 | counting one more ticket adds its service as a key exactly when it had not appeared |
| PanelEstadisticas.AparicionOrden | components/estadisticas-panel.tsx:37-39 | counting one more ticket keeps the keys in first-appearance order |
| PanelEstadisticas.CantidadDe | components/estadisticas-panel.tsx:38 | the lookup with its fallback to 0: a service that is not a key counts 0 |
| PanelEstadisticas.ClaveCantidadOrden | components/estadisticas-panel.tsx:45 | an entry may precede another exactly when the comparator `b - a` is not positive |
| PanelEstadisticas.ContarServiciosEntrada | components/estadisticas-panel.tsx:36-42 | every entry's count is the positive number of tickets for its service |
| PanelEstadisticas.ServiciosOrdenados | components/estadisticas-panel.tsx:44-46 | min(5, n) entries, non-increasing counts, all from the dictionary, none left out has a higher count than one shown |
| PanelEstadisticas.PrefijoOrdenado | components/estadisticas-panel.tsx:44-46 | a prefix of a count-sorted permutation holds dictionary entries and no entry outside it has a higher count than one inside |
| PanelEstadisticas.RankingEstable | components/estadisticas-panel.tsx:44-46 | services with equal counts keep the dictionary's order, which `ContarServiciosEnOrdenDeAparicion` shows is first-appearance order |
| PanelEstadisticas.Historial | components/estadisticas-panel.tsx:160-161 | a permutation of today's served tickets, by non-increasing service time (missing counts as 0) |
| PanelEstadisticas.ClaveHistorialOrden | components/estadisticas-panel.tsx:161 | a ticket may precede another exactly when its service time, missing counting as 0, is no earlier |
| PanelEstadisticas.HistorialEstable | components/estadisticas-panel.tsx:160-161 | tickets with equal service time keep list order |
| PanelConfiguracion.SinIniciales | components/configuracion-panel.tsx:23 | cutting leading white space never lengthens the name (`SinInicialesSufijo` characterises it) |
| PanelConfiguracion.SinFinales | components/configuracion-panel.tsx:23 | cutting trailing white space never lengthens the name (`SinFinalesPrefijo` characterises it) |
| PanelConfiguracion.Recortar | components/configuracion-panel.tsx:23-27 | `trim()` never lengthens the name (`RecortarEsInfijo` characterises it) |
| PanelConfiguracion.SinInicialesSufijo | components/configuracion-panel.tsx:23 | a suffix of the input, everything cut being white space, not starting with white space |
| PanelConfiguracion.SinFinalesPrefijo | components/configuracion-panel.tsx:23 | a prefix of the input, everything cut being white space, not ending with white space |
| PanelConfiguracion.RecortarEsInfijo | components/configuracion-panel.tsx:23-27 | the trimmed name is the input between a white-space prefix and suffix and is bounded by non-white-space |
| PanelConfiguracion.RecortarVacio | components/configuracion-panel.tsx:23 | a name is rejected as blank exactly when all its characters are white space |
| PanelConfiguracion.RecortarIdempotente | components/configuracion-panel.tsx:23-27 | trimming twice is trimming once |
| PanelConfiguracion.Quitar | components/configuracion-panel.tsx:36 | the filter keeps no copy of the name and is no longer than the list |
| PanelConfiguracion.QuitarConcat | components/configuracion-panel.tsx:36 | the filter keeps list order |
| PanelConfiguracion.QuitarMultiplicidad | components/configuracion-panel.tsx:36 | every copy of the name goes and every other name keeps all its copies |
| PanelConfiguracion.QuitarAusente | components/configuracion-panel.tsx:36 | removing an absent name changes nothing |
| PanelConfiguracion.QuitarTrasAgregar | components/configuracion-panel.tsx:27-36 | removing a name just appended is removing it from the list before |
| PanelConfiguracion.ValorOPorDefecto | components/configuracion-panel.tsx:122 | NaN or 0 give the default, any other number is kept, the result is never 0 for a non-zero default |
| PanelConfiguracion.ConfiguracionPanel.constructor | components/configuracion-panel.tsx:19-20 | the draft starts as the page's configuration, the input empty |
| PanelConfiguracion.ConfiguracionPanel.CambiarNuevoServicio | components/configuracion-panel.tsx:71-72 | the input takes the typed value; the draft is unchanged |
| PanelConfiguracion.ConfiguracionPanel.AgregarServicio | components/configuracion-panel.tsx:22-31 | a blank name changes nothing; else the trimmed name is appended to the draft's services and the input cleared |
| PanelConfiguracion.ConfiguracionPanel.EliminarServicio | components/configuracion-panel.tsx:33-39 | every copy of the name leaves the draft's services, all other draft fields unchanged |
| PanelConfiguracion.ConfiguracionPanel.GuardarConfiguracion | components/configuracion-panel.tsx:41-43 | the page's configuration becomes the draft; the page's tickets, counter, current ticket and timeouts are unchanged |
| PanelConfiguracion.ConfiguracionPanel.ResetearConfiguracion | components/configuracion-panel.tsx:45-47 | the draft becomes the page's configuration again |
| PanelConfiguracion.ConfiguracionPanel.CambiarRecepciones | components/configuracion-panel.tsx:119-124 | the desk count becomes the parsed number, or 1 for NaN or 0; never 0 |
| PanelConfiguracion.ConfiguracionPanel.CambiarTiempoEspera | components/configuracion-panel.tsx:140-145 | the timeout becomes the parsed number, or 30 for NaN or 0; never 0 |
| PanelConfiguracion.ConfiguracionPanel.CambiarSonido | components/configuracion-panel.tsx:168-173 | only the sound flag of the draft changes |
| Escenario.ColaDeTres | app/page.tsx:184-190 | normal, then urgent, then preferential tickets are queued urgent, preferential, normal |
| Escenario.TresAltas | app/page.tsx:169-196 | a fresh page after adding normal, urgent and preferential tickets holds them in the order urgent, preferential, normal |
| Escenario.DosLlamadas | app/page.tsx:228-263 | on that queue the first call announces the urgent ticket and, once it is served, the next call the preferential one |
| Escenario.PrioridadesEnCola | app/page.tsx:169-263 | after those three additions the queue is numbers 2, 3, 1 and the calls return 2 then, once 2 is served, 3 |

## Left out

- Rendering, styling, sound (`reproducirSonido`) and speech (`leerTurno`) are not modelled. They produce no state.
- Local storage is not modelled: loading on start, saving on change, and `limpiarDatos` with its page reload. It is browser I/O.
- The confirmation dialog of `reiniciarSistema` is not modelled. Reset is modelled as confirmed.
- Clocks and time handling:
  - `Date.now()` and `new Date()` are parameters: ids are strings and times are integers in milliseconds.
  - The start of the local day is a parameter `hoy`.
  - The timeout's delay is not modelled. Its firing is the explicit method `Expirar`, which can run once per armed id at any later point.
- Pagina.SistemaTurnos.ReiniciarSistema: the local-storage writes are not modelled.
- Pagina.SistemaTurnos.AgregarTurno: the clearing of the page's form fields (`setServicio("")`, `setPrioridad("normal")`) is not modelled. Those fields are not part of the class.
- Concurrency is not modelled. Each handler is one atomic step on the current state, so handlers reading a stale render (`turnos.find` before an update lands) are not modelled.
- `Number.parseInt` itself is not modelled: its result is an input, `None` standing for `NaN`.
- Floating point and display are not modelled:
  - `toFixed` is left out.
  - The average time is an exact real, not a float.
  - `Math.round` of the efficiency is exact rounding half up of a rational.
- `Object.entries` is modelled in insertion order. Integer-like service names, which JavaScript lists first in numeric order, are not modelled. Neither are names such as `constructor` that collide with inherited object properties.
- `turnosAtendidosHoy.sort` sorts a freshly filtered array in place; it is modelled as a function on values.
- The page's `recepcionActual` state and its select (`setRecepcionActual`) are not a field of `Pagina.SistemaTurnos`. The desk is a parameter of `LlamarSiguienteTurno`, so a desk chosen once and reused across calls is not modelled.
- `cliente` and `ventanilla`, which the panels display but no handler sets, are not modelled.
- `components/pantalla-clientes.tsx`, the customer display, is not part of this model.
- The HTML `min`/`max` attributes of the numeric inputs are not modelled, because the handlers do not enforce them.
