/** The statistics panel: what it derives from the ticket lists the page hands it
    (`turnos`, and its served and no-show filters). Everything here is a function of
    those lists, which are never changed. */
module PanelEstadisticas {

  import opened OrdenEstable
  import opened Pagina
  import opened Opcion

  // ---------------------------------------------------------------------------
  // The "today" window

  /** `s.filter(t => t.horaCreacion >= hoy)`, `hoy` being the start of the local day. */
  function DelDia(s: seq<Turno>, hoy: int): (r: seq<Turno>)
    ensures |r| <= |s|
    ensures forall i :: 0 <= i < |r| ==> r[i].horaCreacion >= hoy
  {
    if s == [] then []
    else
      assert s == [s[0]] + s[1..];
      (if s[0].horaCreacion >= hoy then [s[0]] else []) + DelDia(s[1..], hoy)
  }

  /** The window keeps every copy of each ticket created from `hoy` on, and nothing else. */
  lemma {:induction false} DelDiaMultiplicidad(s: seq<Turno>, hoy: int, x: Turno)
    ensures multiset(DelDia(s, hoy))[x] == if x.horaCreacion >= hoy then multiset(s)[x] else 0
  {
    if s != [] {
      var t, resto := s[0], s[1..];
      DelDiaMultiplicidad(resto, hoy, x);
      assert s == [t] + resto;
      assert DelDia(s, hoy) == (if t.horaCreacion >= hoy then [t] else []) + DelDia(resto, hoy);
    }
  }

  /** The window keeps the list order: it distributes over concatenation. */
  lemma {:induction false} DelDiaConcat(a: seq<Turno>, b: seq<Turno>, hoy: int)
    ensures DelDia(a + b, hoy) == DelDia(a, hoy) + DelDia(b, hoy)
  {
    if a == [] {
      assert a + b == b;
    } else {
      var cabeza := if a[0].horaCreacion >= hoy then [a[0]] else [];
      assert (a + b)[0] == a[0] && (a + b)[1..] == a[1..] + b;
      assert DelDia(a + b, hoy) == cabeza + DelDia(a[1..] + b, hoy);
      DelDiaConcat(a[1..], b, hoy);
      assert DelDia(a, hoy) == cabeza + DelDia(a[1..], hoy);
    }
  }

  /** Windowing a state filter is filtering the window: the two filters commute. */
  lemma {:induction false} DelDiaPorEstado(s: seq<Turno>, hoy: int, e: Estado)
    ensures DelDia(PorEstado(s, e), hoy) == PorEstado(DelDia(s, hoy), e)
  {
    if s != [] {
      var t, resto := s[0], s[1..];
      DelDiaPorEstado(resto, hoy, e);
      assert s == [t] + resto;
      PorEstadoConcat([t], resto, e);
      DelDiaConcat([t], resto, hoy);
      DelDiaConcat(PorEstado([t], e), PorEstado(resto, e), hoy);
      PorEstadoConcat(DelDia([t], hoy), DelDia(resto, hoy), e);
      assert PorEstado([t], e) == if t.estado == e then [t] else [];
      assert DelDia([t], hoy) == if t.horaCreacion >= hoy then [t] else [];
    }
  }

  /** With the page's served filter as input, today's served tickets are among today's tickets. */
  lemma AtendidosHoyEnTurnosHoy(turnos: seq<Turno>, hoy: int)
    ensures multiset(DelDia(PorEstado(turnos, Atendido), hoy)) <= multiset(DelDia(turnos, hoy))
    ensures |DelDia(PorEstado(turnos, Atendido), hoy)| <= |DelDia(turnos, hoy)|
  {
    var deHoy := DelDia(turnos, hoy);
    DelDiaPorEstado(turnos, hoy, Atendido);
    forall x
      ensures multiset(PorEstado(deHoy, Atendido))[x] <= multiset(deHoy)[x]
    {
      PorEstadoMultiplicidad(deHoy, Atendido, x);
    }
  }

  /** The three counters of the panel: today's served and no-show tickets never outnumber
      today's tickets. */
  lemma ConteosDelDia(turnos: seq<Turno>, hoy: int)
    ensures |DelDia(PorEstado(turnos, Atendido), hoy)| + |DelDia(PorEstado(turnos, NoPresentado), hoy)|
            <= |DelDia(turnos, hoy)|
  {
    DelDiaPorEstado(turnos, hoy, Atendido);
    DelDiaPorEstado(turnos, hoy, NoPresentado);
    PorEstadoParticion(DelDia(turnos, hoy));
  }

  // ---------------------------------------------------------------------------
  // Efficiency

  /** Euclidean division by a positive divisor brackets the dividend. */
  lemma Division(n: int, d: int)
    requires d > 0
    ensures d * (n / d) <= n < d * (n / d + 1)
  {
  }

  /** `turnosHoy.length > 0 ? Math.round(atendidosHoy / turnosHoy * 100) : 0`: the percentage
      of today's tickets served, rounded half up. */
  function Eficiencia(turnos: seq<Turno>, turnosAtendidos: seq<Turno>, hoy: int): (r: int)
    ensures |DelDia(turnos, hoy)| == 0 ==> r == 0
    ensures |DelDia(turnos, hoy)| > 0 ==>
      var h, a := |DelDia(turnos, hoy)|, |DelDia(turnosAtendidos, hoy)|;
      2 * h * r <= 200 * a + h < 2 * h * (r + 1)
  {
    var h, a := |DelDia(turnos, hoy)|, |DelDia(turnosAtendidos, hoy)|;
    if h > 0 then
      Division(200 * a + h, 2 * h);
      (200 * a + h) / (2 * h)
    else 0
  }

  /** A quotient bracketed by a positive divisor grows with the dividend. */
  lemma CocienteMonotono(q: int, d: int, n: int, cota: int)
    requires d > 0 && d * q <= n && n < d * cota
    ensures q < cota
  {
  }

  /** Rounding `100 * a / h` half up, for `0 <= a <= h`, gives a percentage that is 0 exactly
      at `a == 0` and 100 at `a == h`. */
  lemma PorcentajeRedondeado(a: int, h: int, r: int)
    requires 0 <= a <= h && h > 0
    requires 2 * h * r <= 200 * a + h < 2 * h * (r + 1)
    ensures 0 <= r <= 100
    ensures a == 0 ==> r == 0
    ensures a == h ==> r == 100
  {
    var d, n := 2 * h, 200 * a + h;
    assert d * (-r - 1) == -(d * (r + 1));
    CocienteMonotono(r, d, n, 101);
    CocienteMonotono(-r - 1, d, -n - 1, 0);
    if a == 0 {
      CocienteMonotono(r, d, n, 1);
    }
    if a == h {
      CocienteMonotono(-r - 1, d, -n - 1, -100);
    }
  }

  /** Efficiency over the page's served filter is a percentage: between 0 and 100, 0 when
      nothing was served today, 100 when everything created today was served. */
  lemma EficienciaEnRango(turnos: seq<Turno>, hoy: int)
    ensures var r := Eficiencia(turnos, PorEstado(turnos, Atendido), hoy);
      && 0 <= r <= 100
      && (|DelDia(PorEstado(turnos, Atendido), hoy)| == 0 ==> r == 0)
      && (|DelDia(PorEstado(turnos, Atendido), hoy)| == |DelDia(turnos, hoy)| > 0 ==> r == 100)
  {
    var h, a := |DelDia(turnos, hoy)|, |DelDia(PorEstado(turnos, Atendido), hoy)|;
    assert a <= h by {
      AtendidosHoyEnTurnosHoy(turnos, hoy);
    }
    if h > 0 {
      PorcentajeRedondeado(a, h, Eficiencia(turnos, PorEstado(turnos, Atendido), hoy));
    }
  }

  // ---------------------------------------------------------------------------
  // Average handling time

  /** Call-to-service time of one ticket in milliseconds; 0 unless both times are set. */
  function Duracion(t: Turno): int {
    match (t.horaAtencion, t.horaLlamada)
    case (Some(atencion), Some(llamada)) => atencion - llamada
    case _ => 0
  }

  /** The `reduce` over the served tickets: the sum of their durations. */
  function SumaDuraciones(s: seq<Turno>): int {
    if s == [] then 0 else SumaDuraciones(s[..|s| - 1]) + Duracion(s[|s| - 1])
  }

  /** Durations in `[0, maximo]` add up to between 0 and `|s| * maximo`. */
  lemma {:induction false} SumaDuracionesAcotada(s: seq<Turno>, maximo: int)
    requires forall i :: 0 <= i < |s| ==> 0 <= Duracion(s[i]) <= maximo
    ensures 0 <= SumaDuraciones(s) <= |s| * maximo
  {
    if s != [] {
      SumaDuracionesAcotada(s[..|s| - 1], maximo);
    }
  }

  /** The `reduce` splits over concatenation: the sum does not depend on where the list is cut. */
  lemma {:induction false} SumaDuracionesConcat(a: seq<Turno>, b: seq<Turno>)
    ensures SumaDuraciones(a + b) == SumaDuraciones(a) + SumaDuraciones(b)
  {
    if b == [] {
      assert a + b == a;
    } else {
      var c := b[..|b| - 1];
      assert (a + b)[..|a + b| - 1] == a + c;
      assert (a + b)[|a + b| - 1] == b[|b| - 1];
      SumaDuracionesConcat(a, c);
    }
  }

  /** The `if` inside the `reduce`: a ticket adds its call-to-service time when it has both
      times and nothing otherwise, wherever it stands in the list. */
  lemma SumaDuracionesTurno(t: Turno, s: seq<Turno>)
    ensures var d := if t.horaAtencion.Some? && t.horaLlamada.Some?
                     then t.horaAtencion.value - t.horaLlamada.value else 0;
      SumaDuraciones([t] + s) == d + SumaDuraciones(s) == SumaDuraciones(s + [t])
  {
    SumaDuracionesConcat([t], s);
    assert [t][..0] == [];
  }

  /** The average minutes from call to service over all served tickets (not only today's),
      counting in the divisor the served tickets that lack a time. */
  function TiempoPromedioAtencion(turnosAtendidos: seq<Turno>): (r: real)
    ensures |turnosAtendidos| == 0 ==> r == 0.0
    ensures |turnosAtendidos| > 0 ==>
      r * (|turnosAtendidos| as real) * 60000.0 == SumaDuraciones(turnosAtendidos) as real
  {
    if |turnosAtendidos| > 0 then
      (SumaDuraciones(turnosAtendidos) as real) / (|turnosAtendidos| as real) / 1000.0 / 60.0
    else 0.0
  }

  /** When every duration lies in `[0, maximo]` milliseconds, so does the average, in minutes. */
  lemma PromedioAcotado(turnosAtendidos: seq<Turno>, maximo: nat)
    requires forall i :: 0 <= i < |turnosAtendidos| ==> 0 <= Duracion(turnosAtendidos[i]) <= maximo
    ensures 0.0 <= TiempoPromedioAtencion(turnosAtendidos) <= (maximo as real) / 60000.0
  {
    var n := |turnosAtendidos|;
    SumaDuracionesAcotada(turnosAtendidos, maximo);
    if n > 0 {
      var suma, nr, m := SumaDuraciones(turnosAtendidos) as real, n as real, maximo as real;
      assert 0.0 <= suma <= nr * m;
      CocienteAcotado(suma, nr, m);
      var q := suma / nr;
      assert TiempoPromedioAtencion(turnosAtendidos) == q / 1000.0 / 60.0;
      assert q / 1000.0 / 60.0 == q / 60000.0;
      assert q / 60000.0 <= m / 60000.0;
    }
  }

  /** Dividing a total bounded by `n * m` by a positive `n` gives at most `m`. */
  lemma CocienteAcotado(suma: real, n: real, m: real)
    requires n > 0.0 && 0.0 <= suma <= n * m
    ensures 0.0 <= suma / n <= m
  {
  }

  // ---------------------------------------------------------------------------
  // Tickets per service

  /** One `[servicio, cantidad]` pair of the counting dictionary. */
  datatype Entrada = Entrada(servicio: string, cantidad: nat)

  /** `acc[servicio] || 0` */
  function CantidadDe(acc: seq<Entrada>, servicio: string): (r: nat)
    ensures servicio !in Claves(acc) ==> r == 0
  {
    if acc == [] then 0
    else if acc[0].servicio == servicio then acc[0].cantidad
    else CantidadDe(acc[1..], servicio)
  }

  ghost predicate ClavesUnicas(acc: seq<Entrada>) {
    forall i, j :: 0 <= i < j < |acc| ==> acc[i].servicio != acc[j].servicio
  }

  /** The keys of the dictionary, in insertion order (`Object.keys`). */
  function Claves(acc: seq<Entrada>): (r: seq<string>)
    ensures |r| == |acc| && forall i :: 0 <= i < |acc| ==> r[i] == acc[i].servicio
  {
    if acc == [] then [] else [acc[0].servicio] + Claves(acc[1..])
  }

  ghost predicate Positivas(acc: seq<Entrada>) {
    forall i :: 0 <= i < |acc| ==> acc[i].cantidad > 0
  }

  function Suma(acc: seq<Entrada>): nat {
    if acc == [] then 0 else acc[0].cantidad + Suma(acc[1..])
  }

  /** `acc[servicio] = (acc[servicio] || 0) + 1`: an existing key keeps its place, a new one goes last. */
  function Incrementar(acc: seq<Entrada>, servicio: string): (r: seq<Entrada>)
    ensures forall k :: CantidadDe(r, k) == CantidadDe(acc, k) + (if k == servicio then 1 else 0)
    ensures Suma(r) == Suma(acc) + 1
    ensures Positivas(acc) ==> Positivas(r)
  {
    if acc == [] then [Entrada(servicio, 1)]
    else if acc[0].servicio == servicio then
      [Entrada(servicio, acc[0].cantidad + 1)] + acc[1..]
    else
      [acc[0]] + Incrementar(acc[1..], servicio)
  }

  /** An existing key keeps its place; a new key goes last. */
  lemma {:induction false} IncrementarClaves(acc: seq<Entrada>, servicio: string)
    ensures var r := Incrementar(acc, servicio);
      Claves(r) == if servicio in Claves(acc) then Claves(acc) else Claves(acc) + [servicio]
  {
    if acc == [] {
    } else if acc[0].servicio == servicio {
      assert Claves(acc)[0] == servicio;
      var r := Incrementar(acc, servicio);
      assert forall i :: 0 <= i < |acc| ==> Claves(r)[i] == Claves(acc)[i];
    } else {
      var r := Incrementar(acc, servicio);
      IncrementarClaves(acc[1..], servicio);
      var k, k1 := Claves(acc), Claves(acc[1..]);
      assert servicio in k <==> servicio in k1;
      assert r[1..] == Incrementar(acc[1..], servicio);
    }
  }

  /** Incrementing keeps the keys unique. */
  lemma IncrementarUnicas(acc: seq<Entrada>, servicio: string)
    requires ClavesUnicas(acc)
    ensures ClavesUnicas(Incrementar(acc, servicio))
  {
    var r := Incrementar(acc, servicio);
    IncrementarClaves(acc, servicio);
    if servicio !in Claves(acc) {
      forall i | 0 <= i < |acc| ensures acc[i].servicio != servicio {
        assert Claves(acc)[i] == acc[i].servicio;
      }
      assert Claves(r) == Claves(acc) + [servicio];
      forall i, j | 0 <= i < j < |r| ensures r[i].servicio != r[j].servicio {
        assert Claves(r)[i] == r[i].servicio && Claves(r)[j] == r[j].servicio;
      }
    } else {
      forall i, j | 0 <= i < j < |r| ensures r[i].servicio != r[j].servicio {
        assert Claves(r)[i] == r[i].servicio && Claves(r)[j] == r[j].servicio;
      }
    }
  }

  /** How many tickets ask for `servicio`: the independent count the dictionary must agree with. */
  function Ocurrencias(s: seq<Turno>, servicio: string): nat {
    if s == [] then 0
    else Ocurrencias(s[..|s| - 1], servicio) + (if s[|s| - 1].servicio == servicio then 1 else 0)
  }

  /** `serviciosMasUsados`: one entry per service asked for, holding how many tickets ask for it;
      the counts add up to the number of tickets. */
  function ContarServicios(s: seq<Turno>): (r: seq<Entrada>)
    ensures ClavesUnicas(r) && Positivas(r)
    ensures forall k :: CantidadDe(r, k) == Ocurrencias(s, k)
    ensures Suma(r) == |s|
  {
    if s == [] then []
    else
      IncrementarUnicas(ContarServicios(s[..|s| - 1]), s[|s| - 1].servicio);
      Incrementar(ContarServicios(s[..|s| - 1]), s[|s| - 1].servicio)
  }

  /** With unique keys, looking an entry's key up finds that entry. */
  lemma {:induction false} CantidadDeEntrada(acc: seq<Entrada>, i: nat)
    requires ClavesUnicas(acc) && i < |acc|
    ensures CantidadDe(acc, acc[i].servicio) == acc[i].cantidad
  {
    if i > 0 {
      CantidadDeEntrada(acc[1..], i - 1);
    }
  }

  /** Each entry of the dictionary counts exactly the tickets of its service. */
  lemma ContarServiciosEntrada(s: seq<Turno>, i: nat)
    requires i < |ContarServicios(s)|
    ensures ContarServicios(s)[i].cantidad == Ocurrencias(s, ContarServicios(s)[i].servicio) > 0
  {
    CantidadDeEntrada(ContarServicios(s), i);
  }

  /** The index of the first ticket asking for `servicio`; `|s|` when none does. */
  function PrimeraAparicion(s: seq<Turno>, servicio: string): (r: nat)
    ensures r <= |s|
  {
    if s == [] then 0
    else if s[0].servicio == servicio then 0
    else 1 + PrimeraAparicion(s[1..], servicio)
  }

  /** Appending a ticket leaves an earlier first appearance alone. */
  lemma {:induction false} PrimeraAparicionAlFinal(s: seq<Turno>, t: Turno, servicio: string)
    ensures PrimeraAparicion(s + [t], servicio) ==
      if PrimeraAparicion(s, servicio) < |s| then PrimeraAparicion(s, servicio)
      else if t.servicio == servicio then |s| else |s| + 1
  {
    if s == [] {
      assert s + [t] == [t];
    } else {
      assert (s + [t])[0] == s[0] && (s + [t])[1..] == s[1..] + [t];
      if s[0].servicio != servicio {
        PrimeraAparicionAlFinal(s[1..], t, servicio);
      }
    }
  }

  /** The dictionary holds exactly the services asked for, in the order of their first ticket. */
  lemma {:induction false} ContarServiciosEnOrdenDeAparicion(s: seq<Turno>)
    ensures forall k :: k in Claves(ContarServicios(s)) <==> PrimeraAparicion(s, k) < |s|
    ensures forall i, j :: 0 <= i < j < |ContarServicios(s)| ==>
      PrimeraAparicion(s, ContarServicios(s)[i].servicio) < PrimeraAparicion(s, ContarServicios(s)[j].servicio)
  {
    if s != [] {
      var previo, t := s[..|s| - 1], s[|s| - 1];
      assert s == previo + [t];
      ContarServiciosEnOrdenDeAparicion(previo);
      var c0 := ContarServicios(previo);
      AparicionClaves(previo, t, c0);
      AparicionOrden(previo, t, c0);
      assert ContarServicios(s) == Incrementar(c0, t.servicio);
    }
  }

  /** The induction step for the keys: counting one more ticket adds its service exactly
      when it had not appeared before. */
  lemma AparicionClaves(previo: seq<Turno>, t: Turno, c0: seq<Entrada>)
    requires forall k :: k in Claves(c0) <==> PrimeraAparicion(previo, k) < |previo|
    ensures forall k :: k in Claves(Incrementar(c0, t.servicio)) <==> PrimeraAparicion(previo + [t], k) < |previo| + 1
  {
    IncrementarClaves(c0, t.servicio);
    forall x
      ensures x in Claves(Incrementar(c0, t.servicio)) <==> PrimeraAparicion(previo + [t], x) < |previo| + 1
    {
      PrimeraAparicionAlFinal(previo, t, x);
    }
  }

  /** The induction step for the order: a service counted for the first time goes last and
      first appears after every service already counted. */
  lemma AparicionOrden(previo: seq<Turno>, t: Turno, c0: seq<Entrada>)
    requires forall k :: k in Claves(c0) <==> PrimeraAparicion(previo, k) < |previo|
    requires forall i, j :: 0 <= i < j < |c0| ==>
      PrimeraAparicion(previo, c0[i].servicio) < PrimeraAparicion(previo, c0[j].servicio)
    ensures forall i, j :: 0 <= i < j < |Incrementar(c0, t.servicio)| ==>
      PrimeraAparicion(previo + [t], Incrementar(c0, t.servicio)[i].servicio)
        < PrimeraAparicion(previo + [t], Incrementar(c0, t.servicio)[j].servicio)
  {
    var c, s, n := Incrementar(c0, t.servicio), previo + [t], |previo|;
    IncrementarClaves(c0, t.servicio);
    var k0, k := Claves(c0), Claves(c);
    forall i, j | 0 <= i < j < |c|
      ensures PrimeraAparicion(s, c[i].servicio) < PrimeraAparicion(s, c[j].servicio)
    {
      var a, b := c[i].servicio, c[j].servicio;
      assert k[i] == a && k[j] == b;
      assert k[i] == k0[i] && k0[i] == c0[i].servicio;
      PrimeraAparicionAlFinal(previo, t, a);
      PrimeraAparicionAlFinal(previo, t, b);
      if j < |c0| {
        assert k[j] == k0[j] && k0[j] == c0[j].servicio;
      } else {
        assert b == t.servicio && b !in k0;
      }
    }
  }

  // ---------------------------------------------------------------------------
  // The top-five ranking

  /** The comparator `([, a], [, b]) => b - a`: larger counts first. */
  function ClaveCantidad(e: Entrada): Clave {
    Clave(-(e.cantidad as int), 0)
  }

  /** An entry may precede another exactly when the comparator `b - a` is not positive. */
  lemma ClaveCantidadOrden(a: Entrada, b: Entrada)
    ensures MenorIgual(ClaveCantidad(a), ClaveCantidad(b)) <==> (b.cantidad as int) - (a.cantidad as int) <= 0
  {
  }

  function Min(a: int, b: int): int {
    if a <= b then a else b
  }

  /** `serviciosOrdenados`: the counted services, most asked for first, cut to five. At most
      five real entries, in non-increasing count order, and no service left out is asked for
      more often than one shown. */
  function ServiciosOrdenados(turnos: seq<Turno>): (r: seq<Entrada>)
    ensures |r| == Min(5, |ContarServicios(turnos)|)
    ensures r == Ordenar(ContarServicios(turnos), ClaveCantidad)[..|r|]
    ensures forall i, j :: 0 <= i < j < |r| ==> r[i].cantidad >= r[j].cantidad
    ensures forall i :: 0 <= i < |r| ==> r[i] in ContarServicios(turnos)
    ensures forall e, i :: e in ContarServicios(turnos) && e !in r && 0 <= i < |r| ==> e.cantidad <= r[i].cantidad
  {
    var conteo := ContarServicios(turnos);
    var todos := Ordenar(conteo, ClaveCantidad);
    OrdenarOrdena(conteo, ClaveCantidad);
    PrefijoOrdenado(conteo, todos, todos[..Min(5, |todos|)]);
    todos[..Min(5, |todos|)]
  }

  /** A prefix of a count-sorted permutation of `conteo` holds entries of `conteo`, and
      every entry of `conteo` outside the prefix has a count at most each one inside. */
  lemma PrefijoOrdenado(conteo: seq<Entrada>, todos: seq<Entrada>, r: seq<Entrada>)
    requires multiset(todos) == multiset(conteo) && Ordenado(todos, ClaveCantidad)
    requires |r| <= |todos| && r == todos[..|r|]
    ensures forall i :: 0 <= i < |r| ==> r[i] in conteo
    ensures forall e, i :: e in conteo && e !in r && 0 <= i < |r| ==> e.cantidad <= r[i].cantidad
  {
    forall i | 0 <= i < |r|
      ensures r[i] in conteo
    {
      assert r[i] == todos[i];
      assert todos[i] in multiset(todos);
    }
    forall e, i | e in conteo && e !in r && 0 <= i < |r|
      ensures e.cantidad <= r[i].cantidad
    {
      assert e in multiset(conteo);
      assert e in multiset(todos);
      var j :| 0 <= j < |todos| && todos[j] == e;
      if j < |r| {
        assert false;
      }
      assert MenorIgual(ClaveCantidad(todos[i]), ClaveCantidad(todos[j]));
    }
  }

  /** Services with equal counts keep the dictionary's order, which by
      `ContarServiciosEnOrdenDeAparicion` is the order in which they first appeared. */
  lemma RankingEstable(turnos: seq<Turno>, cantidad: int)
    ensures var k := Clave(-cantidad, 0);
      ConClave(Ordenar(ContarServicios(turnos), ClaveCantidad), k, ClaveCantidad)
        == ConClave(ContarServicios(turnos), k, ClaveCantidad)
  {
    OrdenarEstable(ContarServicios(turnos), Clave(-cantidad, 0), ClaveCantidad);
  }

  // ---------------------------------------------------------------------------
  // The history of tickets served today

  /** `horaAtencion?.getTime() || 0` */
  function HoraAtencionOCero(t: Turno): int {
    match t.horaAtencion
    case Some(h) => h
    case None => 0
  }

  /** The history comparator: latest service first. */
  function ClaveHistorial(t: Turno): Clave {
    Clave(-HoraAtencionOCero(t), 0)
  }

  /** A ticket may precede another in the history exactly when it was served no earlier,
      a ticket without a service time counting as served at 0. */
  lemma ClaveHistorialOrden(a: Turno, b: Turno)
    ensures MenorIgual(ClaveHistorial(a), ClaveHistorial(b)) <==>
      (if b.horaAtencion.Some? then b.horaAtencion.value else 0)
        <= (if a.horaAtencion.Some? then a.horaAtencion.value else 0)
  {
  }

  /** `turnosAtendidosHoy.sort(...)`: today's served tickets, latest service first, a missing
      service time counting as 0. */
  function Historial(turnosAtendidos: seq<Turno>, hoy: int): (r: seq<Turno>)
    ensures multiset(r) == multiset(DelDia(turnosAtendidos, hoy))
    ensures forall i, j :: 0 <= i < j < |r| ==> HoraAtencionOCero(r[i]) >= HoraAtencionOCero(r[j])
  {
    OrdenarOrdena(DelDia(turnosAtendidos, hoy), ClaveHistorial);
    Ordenar(DelDia(turnosAtendidos, hoy), ClaveHistorial)
  }

  /** Tickets served at the same instant stay in list order. */
  lemma HistorialEstable(turnosAtendidos: seq<Turno>, hoy: int, hora: int)
    ensures var k := Clave(-hora, 0);
      ConClave(Historial(turnosAtendidos, hoy), k, ClaveHistorial)
        == ConClave(DelDia(turnosAtendidos, hoy), k, ClaveHistorial)
  {
    OrdenarEstable(DelDia(turnosAtendidos, hoy), Clave(-hora, 0), ClaveHistorial);
  }

}
