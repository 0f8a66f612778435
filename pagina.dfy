/** The ticket ("turno") queue of the main page: the ticket record, the priority
    comparator, the list rewrites each handler applies, the state filters, and the
    page component's state with one method per handler. */
module Pagina {

  import opened Opcion
  import opened OrdenEstable

  datatype Prioridad = Normal | Preferencial | Urgente

  datatype Estado = Esperando | Llamado | Atendido | NoPresentado

  /** A ticket. Times are milliseconds since the epoch; `None` is a field left undefined. */
  datatype Turno = Turno(
    id: string,
    numero: int,
    servicio: string,
    prioridad: Prioridad,
    horaCreacion: int,
    horaLlamada: Option<int>,
    horaAtencion: Option<int>,
    estado: Estado,
    recepcion: Option<int>)

  datatype Configuracion = Configuracion(
    servicios: seq<string>,
    recepciones: int,
    sonidoActivado: bool,
    vozActivada: bool,
    vozSeleccionada: string,
    velocidadVoz: real,
    volumenVoz: real,
    tiempoEsperaLlamada: int)

  /** The configuration the page starts with: one service, so quick-add works on a fresh
      page, and a positive desk count and waiting time. */
  function ConfiguracionInicial(): (r: Configuracion)
    ensures |r.servicios| == 1 && r.recepciones > 0 && r.tiempoEsperaLlamada > 0
  {
    Configuracion(["Laboratorio"], 21, true, false, "", 0.7, 0.9, 300)
  }

  // ---------------------------------------------------------------------------
  // Priority order

  /** urgente 0 < preferencial 1 < normal 2 */
  function Rango(p: Prioridad): nat {
    match p
    case Urgente => 0
    case Preferencial => 1
    case Normal => 2
  }

  /** The pair the comparator orders by: priority rank, then ticket number. */
  function ClavePrioridad(t: Turno): Clave {
    Clave(Rango(t.prioridad), t.numero)
  }

  /** "More urgent", stated independently of the ranks: urgent before preferential before normal. */
  predicate MasUrgente(p: Prioridad, q: Prioridad) {
    (p == Urgente && q != Urgente) || (p == Preferencial && q == Normal)
  }

  /** A ticket may precede another exactly when it is more urgent, or equally urgent and
      numbered no higher. */
  lemma ClavePrioridadOrden(a: Turno, b: Turno)
    ensures MenorIgual(ClavePrioridad(a), ClavePrioridad(b)) <==>
      MasUrgente(a.prioridad, b.prioridad) || (a.prioridad == b.prioridad && a.numero <= b.numero)
  {
  }

  /** The comparator handed to `sort` when a ticket is created. */
  function CompararPrioridad(a: Turno, b: Turno): (r: int)
    ensures r <= 0 <==> MenorIgual(ClavePrioridad(a), ClavePrioridad(b))
    ensures r == 0 <==> Rango(a.prioridad) == Rango(b.prioridad) && a.numero == b.numero
  {
    if Rango(a.prioridad) != Rango(b.prioridad) then Rango(a.prioridad) - Rango(b.prioridad)
    else a.numero - b.numero
  }

  ghost predicate NumerosDistintos(s: seq<Turno>) {
    forall i, j :: 0 <= i < j < |s| ==> s[i].numero != s[j].numero
  }

  /** A freshly created ticket: waiting, never called, served or assigned. */
  function NuevoTurno(id: string, numero: int, servicio: string, prioridad: Prioridad, ahora: int): Turno {
    Turno(id, numero, servicio, prioridad, ahora, None, None, Esperando, None)
  }

  /** Inserting a ticket whose number exceeds every number in the list keeps numbers distinct. */
  lemma {:induction false} InsertarNumeroNuevo(s: seq<Turno>, x: Turno)
    requires NumerosDistintos(s)
    requires forall i :: 0 <= i < |s| ==> s[i].numero < x.numero
    ensures NumerosDistintos(Insertar(s, x, ClavePrioridad))
  {
    if s != [] && MenorIgual(ClavePrioridad(s[0]), ClavePrioridad(x)) {
      var resto := Insertar(s[1..], x, ClavePrioridad);
      InsertarNumeroNuevo(s[1..], x);
      forall k | 0 <= k < |resto|
        ensures resto[k].numero != s[0].numero
      {
        ElementoInsertado(s[1..], x, ClavePrioridad, k);
      }
      assert Insertar(s, x, ClavePrioridad) == [s[0]] + resto;
    } else if s != [] {
      assert Insertar(s, x, ClavePrioridad) == [x] + s;
    }
  }

  // ---------------------------------------------------------------------------
  // The rewrites the handlers map over the list

  /** What a handler does to each ticket carrying the id it was given. */
  datatype Cambio =
    | Llamar(ahora: int, recepcion: int)  // call: state, call time and counter
    | Atender(ahora: int)                 // served: state and service time
    | MarcarAusente                       // no-show: state only
    | Regresar                            // recall: back to called, service time cleared
    | Vencer                              // the call timeout: no-show only if still called

  function Aplicar(t: Turno, c: Cambio): (r: Turno)
    ensures r.id == t.id && r.numero == t.numero && r.servicio == t.servicio
    ensures r.prioridad == t.prioridad && r.horaCreacion == t.horaCreacion
  {
    match c
    case Llamar(ahora, recepcion) =>
      t.(estado := Llamado, horaLlamada := Some(ahora), recepcion := Some(recepcion))
    case Atender(ahora) => t.(estado := Atendido, horaAtencion := Some(ahora))
    case MarcarAusente => t.(estado := NoPresentado)
    case Regresar => t.(estado := Llamado, horaAtencion := None)
    case Vencer => if t.estado == Llamado then t.(estado := NoPresentado) else t
  }

  /** `prev.map(t => t.id === id ? <change> : t)`: every ticket with the id is rewritten. */
  function ActualizarPorId(s: seq<Turno>, id: string, c: Cambio): (r: seq<Turno>)
    ensures |r| == |s|
    ensures forall i :: 0 <= i < |s| ==> r[i] == if s[i].id == id then Aplicar(s[i], c) else s[i]
  {
    if s == [] then []
    else [if s[0].id == id then Aplicar(s[0], c) else s[0]] + ActualizarPorId(s[1..], id, c)
  }

  /** No rewrite touches a ticket's priority or number, so the order invariant survives all of them. */
  lemma ActualizarConservaOrden(s: seq<Turno>, id: string, c: Cambio)
    requires Ordenado(s, ClavePrioridad) && NumerosDistintos(s)
    ensures Ordenado(ActualizarPorId(s, id, c), ClavePrioridad)
    ensures NumerosDistintos(ActualizarPorId(s, id, c))
    ensures forall i :: 0 <= i < |s| ==> ActualizarPorId(s, id, c)[i].numero == s[i].numero
  {
    var r := ActualizarPorId(s, id, c);
    assert forall i :: 0 <= i < |s| ==> ClavePrioridad(r[i]) == ClavePrioridad(s[i]);
  }

  /** An id no ticket carries leaves the list as it was. */
  lemma ActualizarIdDesconocido(s: seq<Turno>, id: string, c: Cambio)
    requires forall i :: 0 <= i < |s| ==> s[i].id != id
    ensures ActualizarPorId(s, id, c) == s
  {
  }

  /** The timeout firing after the ticket was marked served changes nothing. */
  lemma VencerTrasAtender(s: seq<Turno>, id: string, ahora: int)
    ensures ActualizarPorId(ActualizarPorId(s, id, Atender(ahora)), id, Vencer)
         == ActualizarPorId(s, id, Atender(ahora))
  {
  }

  /** The timeout firing after the ticket was marked no-show changes nothing. */
  lemma VencerTrasAusente(s: seq<Turno>, id: string)
    ensures ActualizarPorId(ActualizarPorId(s, id, MarcarAusente), id, Vencer)
         == ActualizarPorId(s, id, MarcarAusente)
  {
  }

  /** A second firing of the timeout changes nothing more. */
  lemma VencerIdempotente(s: seq<Turno>, id: string)
    ensures ActualizarPorId(ActualizarPorId(s, id, Vencer), id, Vencer) == ActualizarPorId(s, id, Vencer)
  {
  }

  // ---------------------------------------------------------------------------
  // Lookups

  /** `turnos.find(t => t.estado === "esperando")`, as the index found. */
  function PrimerEsperando(s: seq<Turno>): (r: Option<nat>)
    ensures r.None? <==> forall i :: 0 <= i < |s| ==> s[i].estado != Esperando
    ensures r.Some? ==> r.value < |s| && s[r.value].estado == Esperando
    ensures r.Some? ==> forall i :: 0 <= i < r.value ==> s[i].estado != Esperando
  {
    if s == [] then None
    else if s[0].estado == Esperando then Some(0)
    else match PrimerEsperando(s[1..])
      case None => None
      case Some(k) => Some(k + 1)
  }

  /** `turnos.find(t => t.id === id)`, as the index found. */
  function BuscarPorId(s: seq<Turno>, id: string): (r: Option<nat>)
    ensures r.None? <==> forall i :: 0 <= i < |s| ==> s[i].id != id
    ensures r.Some? ==> r.value < |s| && s[r.value].id == id
    ensures r.Some? ==> forall i :: 0 <= i < r.value ==> s[i].id != id
  {
    if s == [] then None
    else if s[0].id == id then Some(0)
    else match BuscarPorId(s[1..], id)
      case None => None
      case Some(k) => Some(k + 1)
  }

  /** In a list ordered by priority with distinct numbers, the first waiting ticket
      is the waiting ticket the comparator puts strictly before every other one. */
  lemma PrimerEsperandoEsElMinimo(s: seq<Turno>)
    requires Ordenado(s, ClavePrioridad) && NumerosDistintos(s)
    requires PrimerEsperando(s).Some?
    ensures forall j :: 0 <= j < |s| && s[j].estado == Esperando && j != PrimerEsperando(s).value ==>
              CompararPrioridad(s[PrimerEsperando(s).value], s[j]) < 0
  {
  }

  // ---------------------------------------------------------------------------
  // The four state filters of the page

  /** `turnos.filter(t => t.estado === e)` */
  function PorEstado(s: seq<Turno>, e: Estado): (r: seq<Turno>)
    ensures |r| <= |s|
    ensures forall i :: 0 <= i < |r| ==> r[i].estado == e
  {
    if s == [] then []
    else
      assert s == [s[0]] + s[1..];
      (if s[0].estado == e then [s[0]] else []) + PorEstado(s[1..], e)
  }

  /** Filtering keeps the list order: it distributes over concatenation. */
  lemma {:induction false} PorEstadoConcat(a: seq<Turno>, b: seq<Turno>, e: Estado)
    ensures PorEstado(a + b, e) == PorEstado(a, e) + PorEstado(b, e)
  {
    if a == [] {
      assert a + b == b;
    } else {
      var cabeza := if a[0].estado == e then [a[0]] else [];
      assert (a + b)[0] == a[0] && (a + b)[1..] == a[1..] + b;
      assert PorEstado(a + b, e) == cabeza + PorEstado(a[1..] + b, e);
      PorEstadoConcat(a[1..], b, e);
      assert PorEstado(a, e) == cabeza + PorEstado(a[1..], e);
    }
  }

  /** The four filters split the list: their lengths add up to its length. */
  lemma {:induction false} PorEstadoParticion(s: seq<Turno>)
    ensures |PorEstado(s, Esperando)| + |PorEstado(s, Llamado)|
          + |PorEstado(s, Atendido)| + |PorEstado(s, NoPresentado)| == |s|
  {
    if s != [] {
      var t, resto := s[0], s[1..];
      PorEstadoParticion(resto);
      assert s == [t] + resto;
      assert PorEstado(s, Esperando) == (if t.estado == Esperando then [t] else []) + PorEstado(resto, Esperando);
      assert PorEstado(s, Llamado) == (if t.estado == Llamado then [t] else []) + PorEstado(resto, Llamado);
      assert PorEstado(s, Atendido) == (if t.estado == Atendido then [t] else []) + PorEstado(resto, Atendido);
      assert PorEstado(s, NoPresentado) == (if t.estado == NoPresentado then [t] else []) + PorEstado(resto, NoPresentado);
    }
  }

  /** A filter keeps every copy of each ticket in that state and nothing else. */
  lemma {:induction false} PorEstadoMultiplicidad(s: seq<Turno>, e: Estado, x: Turno)
    ensures multiset(PorEstado(s, e))[x] == if x.estado == e then multiset(s)[x] else 0
  {
    if s != [] {
      var t, resto := s[0], s[1..];
      PorEstadoMultiplicidad(resto, e, x);
      assert s == [t] + resto;
      assert PorEstado(s, e) == (if t.estado == e then [t] else []) + PorEstado(resto, e);
    }
  }

  /** A new ticket is waiting: adding it, sorted in or appended, puts one more ticket in the
      waiting filter and leaves the other three filters as long as they were. */
  lemma NuevoTurnoEspera(s: seq<Turno>, id: string, numero: int, servicio: string, prioridad: Prioridad, ahora: int, e: Estado)
    ensures var n, extra := NuevoTurno(id, numero, servicio, prioridad, ahora), if e == Esperando then 1 else 0;
      && |PorEstado(Insertar(s, n, ClavePrioridad), e)| == |PorEstado(s, e)| + extra
      && |PorEstado(s + [n], e)| == |PorEstado(s, e)| + extra
  {
    var n := NuevoTurno(id, numero, servicio, prioridad, ahora);
    var r := Insertar(s, n, ClavePrioridad);
    var nuevo := if e == Esperando then multiset{n} else multiset{};
    forall x
      ensures multiset(PorEstado(r, e))[x] == (multiset(PorEstado(s, e)) + nuevo)[x]
    {
      PorEstadoMultiplicidad(r, e, x);
      PorEstadoMultiplicidad(s, e, x);
    }
    assert multiset(PorEstado(r, e)) == multiset(PorEstado(s, e)) + nuevo;
    assert |multiset(PorEstado(r, e))| == |PorEstado(r, e)|;
    PorEstadoConcat(s, [n], e);
    assert PorEstado([n], e) == (if e == Esperando then [n] else []) + PorEstado([n][1..], e);
  }

  /** The four filters split the list: every ticket lands in exactly one of them. */
  lemma PorEstadoParticionMultiset(s: seq<Turno>)
    ensures multiset(PorEstado(s, Esperando)) + multiset(PorEstado(s, Llamado))
          + multiset(PorEstado(s, Atendido)) + multiset(PorEstado(s, NoPresentado)) == multiset(s)
  {
    var u := multiset(PorEstado(s, Esperando)) + multiset(PorEstado(s, Llamado))
           + multiset(PorEstado(s, Atendido)) + multiset(PorEstado(s, NoPresentado));
    forall x
      ensures u[x] == multiset(s)[x]
    {
      PorEstadoMultiplicidad(s, Esperando, x);
      PorEstadoMultiplicidad(s, Llamado, x);
      PorEstadoMultiplicidad(s, Atendido, x);
      PorEstadoMultiplicidad(s, NoPresentado, x);
    }
  }

  ghost predicate IdsUnicos(s: seq<Turno>) {
    forall i, j :: 0 <= i < j < |s| ==> s[i].id != s[j].id
  }

  /** Replacing one ticket changes each filter's length by what that ticket contributed. */
  lemma PorEstadoReemplazo(s: seq<Turno>, k: nat, x: Turno, e: Estado)
    requires k < |s|
    ensures |PorEstado(s[k := x], e)| + |PorEstado([s[k]], e)| == |PorEstado(s, e)| + |PorEstado([x], e)|
  {
    var izq, der := s[..k], s[k + 1..];
    assert s[k := x] == izq + [x] + der;
    assert s == izq + [s[k]] + der;
    PorEstadoConcat(izq + [x], der, e);
    PorEstadoConcat(izq, [x], e);
    PorEstadoConcat(izq + [s[k]], der, e);
    PorEstadoConcat(izq, [s[k]], e);
  }

  /** With distinct ids, calling the next ticket moves exactly one ticket from the
      waiting filter to the called filter. */
  lemma LlamarMueveUnoALlamados(s: seq<Turno>, ahora: int, recepcion: int)
    requires IdsUnicos(s) && PrimerEsperando(s).Some?
    ensures var r := ActualizarPorId(s, s[PrimerEsperando(s).value].id, Llamar(ahora, recepcion));
      && |PorEstado(r, Esperando)| + 1 == |PorEstado(s, Esperando)|
      && |PorEstado(r, Llamado)| == |PorEstado(s, Llamado)| + 1
      && |PorEstado(r, Atendido)| == |PorEstado(s, Atendido)|
      && |PorEstado(r, NoPresentado)| == |PorEstado(s, NoPresentado)|
  {
    var k := PrimerEsperando(s).value;
    var r := ActualizarPorId(s, s[k].id, Llamar(ahora, recepcion));
    var llamado := Aplicar(s[k], Llamar(ahora, recepcion));
    assert r == s[k := llamado];
    PorEstadoReemplazo(s, k, llamado, Esperando);
    PorEstadoReemplazo(s, k, llamado, Llamado);
    PorEstadoReemplazo(s, k, llamado, Atendido);
    PorEstadoReemplazo(s, k, llamado, NoPresentado);
  }

  // ---------------------------------------------------------------------------
  // The page component's state and its handlers

  /** The list is ordered by (priority rank, number); numbers are distinct, positive and
      below the next number to hand out. */
  ghost predicate Invariante(s: seq<Turno>, siguiente: int) {
    && siguiente >= 1
    && Ordenado(s, ClavePrioridad)
    && NumerosDistintos(s)
    && (forall i :: 0 <= i < |s| ==> 1 <= s[i].numero < siguiente)
  }

  /** Creating a ticket with the next number and sorting keeps the invariant. */
  lemma AgregarConservaInvariante(s: seq<Turno>, siguiente: int, nuevo: Turno)
    requires Invariante(s, siguiente) && nuevo.numero == siguiente
    ensures Ordenar(s + [nuevo], ClavePrioridad) == Insertar(s, nuevo, ClavePrioridad)
    ensures Invariante(Insertar(s, nuevo, ClavePrioridad), siguiente + 1)
  {
    OrdenarTrasAgregar(s, nuevo, ClavePrioridad);
    InsertarConservaOrden(s, nuevo, ClavePrioridad);
    InsertarNumeroNuevo(s, nuevo);
    var r := Insertar(s, nuevo, ClavePrioridad);
    forall i | 0 <= i < |r|
      ensures 1 <= r[i].numero < siguiente + 1
    {
      ElementoInsertado(s, nuevo, ClavePrioridad, i);
    }
  }

  /** A normal ticket with the next number already belongs at the end of the list. */
  lemma AgregarRapidoConservaInvariante(s: seq<Turno>, siguiente: int, nuevo: Turno)
    requires Invariante(s, siguiente) && nuevo.numero == siguiente && nuevo.prioridad == Normal
    ensures Ordenar(s + [nuevo], ClavePrioridad) == s + [nuevo]
    ensures Invariante(s + [nuevo], siguiente + 1)
  {
    OrdenarTrasAgregar(s, nuevo, ClavePrioridad);
    InsertarAlFinal(s, nuevo, ClavePrioridad);
    InsertarConservaOrden(s, nuevo, ClavePrioridad);
    InsertarNumeroNuevo(s, nuevo);
  }

  class SistemaTurnos {
    var turnos: seq<Turno>
    var siguienteNumero: int
    var turnoActual: Option<Turno>
    var configuracion: Configuracion
    /** Ids of the no-show timeouts that are armed and have not fired yet. */
    var temporizadores: multiset<string>

    ghost predicate Valid()
      reads this
    {
      Invariante(turnos, siguienteNumero)
    }

    constructor ()
      ensures Valid()
      ensures turnos == [] && siguienteNumero == 1 && turnoActual == None
      ensures configuracion == ConfiguracionInicial() && temporizadores == multiset{}
    {
      turnos := [];
      siguienteNumero := 1;
      turnoActual := None;
      configuracion := ConfiguracionInicial();
      temporizadores := multiset{};
    }

    /** `agregarTurno`: append a waiting ticket and re-sort the whole list by priority. */
    method AgregarTurno(id: string, servicio: string, prioridad: Prioridad, ahora: int)
      requires Valid()
      modifies this
      ensures Valid()
      ensures servicio == "" ==> turnos == old(turnos) && siguienteNumero == old(siguienteNumero)
      ensures servicio != "" ==>
        var nuevo := NuevoTurno(id, old(siguienteNumero), servicio, prioridad, ahora);
        && turnos == Ordenar(old(turnos) + [nuevo], ClavePrioridad)
        && turnos == Insertar(old(turnos), nuevo, ClavePrioridad)
        && multiset(turnos) == multiset(old(turnos)) + multiset{nuevo}
        && siguienteNumero == old(siguienteNumero) + 1
      ensures turnoActual == old(turnoActual) && configuracion == old(configuracion)
      ensures temporizadores == old(temporizadores)
    {
      if servicio == "" {
        return;
      }
      var nuevo := NuevoTurno(id, siguienteNumero, servicio, prioridad, ahora);
      AgregarConservaInvariante(turnos, siguienteNumero, nuevo);
      turnos := Ordenar(turnos + [nuevo], ClavePrioridad);
      siguienteNumero := siguienteNumero + 1;
    }

    /** `agregarTurnoRapido`: append a normal ticket for the first configured service, without sorting. */
    method AgregarTurnoRapido(id: string, ahora: int)
      requires Valid()
      modifies this
      ensures Valid()
      ensures configuracion == old(configuracion)
      ensures |configuracion.servicios| == 0 ==>
        turnos == old(turnos) && siguienteNumero == old(siguienteNumero)
      ensures |configuracion.servicios| > 0 ==>
        var nuevo := NuevoTurno(id, old(siguienteNumero), configuracion.servicios[0], Normal, ahora);
        && turnos == old(turnos) + [nuevo]
        && turnos == Ordenar(old(turnos) + [nuevo], ClavePrioridad)
        && siguienteNumero == old(siguienteNumero) + 1
      ensures turnoActual == old(turnoActual) && temporizadores == old(temporizadores)
    {
      if |configuracion.servicios| == 0 {
        return;
      }
      var nuevo := NuevoTurno(id, siguienteNumero, configuracion.servicios[0], Normal, ahora);
      AgregarRapidoConservaInvariante(turnos, siguienteNumero, nuevo);
      turnos := turnos + [nuevo];
      siguienteNumero := siguienteNumero + 1;
    }

    /** `reiniciarSistema` once confirmed. Armed timeouts are not cancelled. */
    method ReiniciarSistema()
      requires Valid()
      modifies this
      ensures Valid()
      ensures turnos == [] && siguienteNumero == 1 && turnoActual == None
      ensures configuracion == old(configuracion) && temporizadores == old(temporizadores)
    {
      turnos := [];
      siguienteNumero := 1;
      turnoActual := None;
    }

    /** `llamarSiguienteTurno`: call the first waiting ticket in list order to `recepcionActual`
        and arm its timeout. Returns the ticket announced, as it was before the call. */
    method LlamarSiguienteTurno(ahora: int, recepcionActual: int) returns (llamado: Option<Turno>)
      requires Valid()
      modifies this
      ensures Valid()
      ensures PrimerEsperando(old(turnos)).None? ==>
        && llamado == None && turnos == old(turnos)
        && turnoActual == old(turnoActual) && temporizadores == old(temporizadores)
      ensures PrimerEsperando(old(turnos)).Some? ==>
        var k := PrimerEsperando(old(turnos)).value;
        var t := old(turnos)[k];
        && llamado == Some(t)
        && turnos == ActualizarPorId(old(turnos), t.id, Llamar(ahora, recepcionActual))
        && turnos[k] == t.(estado := Llamado, horaLlamada := Some(ahora), recepcion := Some(recepcionActual))
        && (forall i :: 0 <= i < |turnos| && old(turnos)[i].id != t.id ==> turnos[i] == old(turnos)[i])
        && (forall j :: 0 <= j < |old(turnos)| && old(turnos)[j].estado == Esperando && j != k ==>
              CompararPrioridad(t, old(turnos)[j]) < 0)
        && turnoActual == Some(t)
        && temporizadores == old(temporizadores) + multiset{t.id}
      ensures siguienteNumero == old(siguienteNumero) && configuracion == old(configuracion)
    {
      match PrimerEsperando(turnos)
      case None =>
        llamado := None;
      case Some(k) =>
        var t := turnos[k];
        PrimerEsperandoEsElMinimo(turnos);
        ActualizarConservaOrden(turnos, t.id, Llamar(ahora, recepcionActual));
        turnos := ActualizarPorId(turnos, t.id, Llamar(ahora, recepcionActual));
        turnoActual := Some(t);
        temporizadores := temporizadores + multiset{t.id};
        llamado := Some(t);
    }

    /** The timeout armed by a call, firing: tickets with the id that are still called become no-show. */
    method Expirar(id: string)
      requires Valid()
      requires id in temporizadores
      modifies this
      ensures Valid()
      ensures turnos == ActualizarPorId(old(turnos), id, Vencer)
      ensures |turnos| == |old(turnos)|
      ensures forall i :: 0 <= i < |turnos| ==>
        turnos[i] == if old(turnos)[i].id == id && old(turnos)[i].estado == Llamado
                     then old(turnos)[i].(estado := NoPresentado) else old(turnos)[i]
      ensures temporizadores == old(temporizadores) - multiset{id}
      ensures turnoActual == old(turnoActual) && siguienteNumero == old(siguienteNumero)
      ensures configuracion == old(configuracion)
    {
      ActualizarConservaOrden(turnos, id, Vencer);
      turnos := ActualizarPorId(turnos, id, Vencer);
      temporizadores := temporizadores - multiset{id};
    }

    /** `marcarAtendido`: whatever their state, tickets with the id become served. */
    method MarcarAtendido(id: string, ahora: int)
      requires Valid()
      modifies this
      ensures Valid()
      ensures turnos == ActualizarPorId(old(turnos), id, Atender(ahora))
      ensures |turnos| == |old(turnos)|
      ensures forall i :: 0 <= i < |turnos| ==>
        turnos[i] == if old(turnos)[i].id == id
                     then old(turnos)[i].(estado := Atendido, horaAtencion := Some(ahora)) else old(turnos)[i]
      ensures turnoActual == if old(turnoActual).Some? && old(turnoActual).value.id == id
                             then None else old(turnoActual)
      ensures siguienteNumero == old(siguienteNumero) && configuracion == old(configuracion)
      ensures temporizadores == old(temporizadores)
    {
      ActualizarConservaOrden(turnos, id, Atender(ahora));
      turnos := ActualizarPorId(turnos, id, Atender(ahora));
      if turnoActual.Some? && turnoActual.value.id == id {
        turnoActual := None;
      }
    }

    /** `marcarNoPresentado`: whatever their state, tickets with the id become no-show. */
    method MarcarNoPresentado(id: string)
      requires Valid()
      modifies this
      ensures Valid()
      ensures turnos == ActualizarPorId(old(turnos), id, MarcarAusente)
      ensures |turnos| == |old(turnos)|
      ensures forall i :: 0 <= i < |turnos| ==>
        turnos[i] == if old(turnos)[i].id == id then old(turnos)[i].(estado := NoPresentado) else old(turnos)[i]
      ensures turnoActual == if old(turnoActual).Some? && old(turnoActual).value.id == id
                             then None else old(turnoActual)
      ensures siguienteNumero == old(siguienteNumero) && configuracion == old(configuracion)
      ensures temporizadores == old(temporizadores)
    {
      ActualizarConservaOrden(turnos, id, MarcarAusente);
      turnos := ActualizarPorId(turnos, id, MarcarAusente);
      if turnoActual.Some? && turnoActual.value.id == id {
        turnoActual := None;
      }
    }

    /** `regresarTurno`: tickets with the id go back to called, service time cleared, and the
        first of them (as it was before) becomes current if nothing is. No timeout is armed. */
    method RegresarTurno(id: string)
      requires Valid()
      modifies this
      ensures Valid()
      ensures turnos == ActualizarPorId(old(turnos), id, Regresar)
      ensures |turnos| == |old(turnos)|
      ensures forall i :: 0 <= i < |turnos| ==>
        turnos[i] == if old(turnos)[i].id == id
                     then old(turnos)[i].(estado := Llamado, horaAtencion := None) else old(turnos)[i]
      ensures turnoActual ==
        if old(turnoActual).None? && BuscarPorId(old(turnos), id).Some?
        then Some(old(turnos)[BuscarPorId(old(turnos), id).value]) else old(turnoActual)
      ensures siguienteNumero == old(siguienteNumero) && configuracion == old(configuracion)
      ensures temporizadores == old(temporizadores)
    {
      var previo := turnos;
      var encontrado := BuscarPorId(previo, id);
      ActualizarConservaOrden(previo, id, Regresar);
      turnos := ActualizarPorId(previo, id, Regresar);
      forall i | 0 <= i < |turnos|
        ensures turnos[i] == if previo[i].id == id then previo[i].(estado := Llamado, horaAtencion := None) else previo[i]
      {
      }
      if turnoActual.None? && encontrado.Some? {
        turnoActual := Some(previo[encontrado.value]);
      }
    }

    /** The page's `setConfiguracion`, handed to the configuration panel as `onConfiguracionChange`. */
    method CambiarConfiguracion(c: Configuracion)
      requires Valid()
      modifies this
      ensures Valid()
      ensures configuracion == c
      ensures turnos == old(turnos) && siguienteNumero == old(siguienteNumero)
      ensures turnoActual == old(turnoActual) && temporizadores == old(temporizadores)
    {
      configuracion := c;
    }
  }

}
