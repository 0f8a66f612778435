/** A client of the page: three tickets created in the order normal, urgent,
    preferential are queued and called urgent first, then preferential, then normal. */
module Escenario {

  import opened OrdenEstable
  import opened Opcion
  import opened Pagina

  /** The urgent ticket overtakes the normal one; the preferential one lands between them. */
  lemma ColaDeTres(a: Turno, b: Turno, c: Turno)
    requires a.prioridad == Normal && b.prioridad == Urgente && c.prioridad == Preferencial
    requires a.numero < b.numero < c.numero
    ensures Insertar(Insertar([a], b, ClavePrioridad), c, ClavePrioridad) == [b, c, a]
  {
  }

  /** A fresh page after three additions for `servicio`: normal, urgent, preferential. */
  method TresAltas(servicio: string, idA: string, idB: string, idC: string, ahora: int)
    returns (pagina: SistemaTurnos, a: Turno, b: Turno, c: Turno)
    requires servicio != ""
    ensures fresh(pagina) && pagina.Valid() && pagina.turnos == [b, c, a]
    ensures a == NuevoTurno(idA, 1, servicio, Normal, ahora)
    ensures b == NuevoTurno(idB, 2, servicio, Urgente, ahora + 1)
    ensures c == NuevoTurno(idC, 3, servicio, Preferencial, ahora + 2)
  {
    a := NuevoTurno(idA, 1, servicio, Normal, ahora);
    b := NuevoTurno(idB, 2, servicio, Urgente, ahora + 1);
    c := NuevoTurno(idC, 3, servicio, Preferencial, ahora + 2);
    pagina := new SistemaTurnos();
    pagina.AgregarTurno(idA, servicio, Normal, ahora);
    assert pagina.turnos == [a] && pagina.siguienteNumero == 2;
    pagina.AgregarTurno(idB, servicio, Urgente, ahora + 1);
    assert pagina.turnos == Insertar([a], b, ClavePrioridad) && pagina.siguienteNumero == 3;
    pagina.AgregarTurno(idC, servicio, Preferencial, ahora + 2);
    ColaDeTres(a, b, c);
  }

  /** On the queue `[b, c, a]` of waiting tickets with distinct ids, the first call announces
      `b`; once `b` is served, the next call announces `c`. */
  method DosLlamadas(pagina: SistemaTurnos, a: Turno, b: Turno, c: Turno, ahora: int)
    returns (primero: Option<Turno>, segundo: Option<Turno>)
    requires pagina.Valid() && pagina.turnos == [b, c, a]
    requires a.estado == Esperando && b.estado == Esperando && c.estado == Esperando
    requires b.id != c.id && b.id != a.id
    modifies pagina
    ensures primero == Some(b) && segundo == Some(c)
  {
    assert PrimerEsperando([b, c, a]) == Some(0);
    primero := pagina.LlamarSiguienteTurno(ahora, 1);
    pagina.MarcarAtendido(b.id, ahora + 1);
    assert pagina.turnos[0].estado == Atendido && pagina.turnos[1] == c && pagina.turnos[2] == a;
    var siguiente := PrimerEsperando(pagina.turnos);
    assert siguiente.Some? && siguiente.value <= 1 by {
      assert pagina.turnos[1].estado == Esperando;
    }
    assert siguiente.value != 0 by {
      assert pagina.turnos[siguiente.value].estado == Esperando;
    }
    segundo := pagina.LlamarSiguienteTurno(ahora + 2, 2);
  }

  /** Three tickets for `servicio` created normal, urgent, preferential: returns the queue's
      ticket numbers after the three additions, and the numbers of the first two tickets
      called, the first being served before the second call. */
  method PrioridadesEnCola(servicio: string, idA: string, idB: string, idC: string, ahora: int)
    returns (cola: seq<int>, primero: int, segundo: int)
    requires servicio != "" && idA != idB && idB != idC && idA != idC
    ensures cola == [2, 3, 1]
    ensures primero == 2 && segundo == 3
  {
    var pagina, a, b, c := TresAltas(servicio, idA, idB, idC, ahora);
    cola := [pagina.turnos[0].numero, pagina.turnos[1].numero, pagina.turnos[2].numero];
    var llamado1, llamado2 := DosLlamadas(pagina, a, b, c, ahora + 3);
    primero, segundo := llamado1.value.numero, llamado2.value.numero;
  }

}
