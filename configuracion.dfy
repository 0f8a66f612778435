/** The configuration panel: a draft copy of the page's configuration that the
    handlers edit, committed to the page on save and thrown away on reset. */
module PanelConfiguracion {

  import opened Opcion
  import opened Pagina

  // ---------------------------------------------------------------------------
  // `String.prototype.trim`

  /** The characters `trim` removes: the ECMAScript WhiteSpace and LineTerminator
      code points (tab, line tabulation, form feed, the space separators, the
      byte order mark, line feed, carriage return and the two Unicode separators). */
  predicate EsEspacio(c: char) {
    || c == '\t' || c == '\n' || c == '\U{000B}' || c == '\U{000C}' || c == '\r'
    || c == ' ' || c == '\U{00A0}' || c == '\U{1680}'
    || ('\U{2000}' <= c <= '\U{200A}')
    || c == '\U{2028}' || c == '\U{2029}' || c == '\U{202F}' || c == '\U{205F}'
    || c == '\U{3000}' || c == '\U{FEFF}'
  }

  /** `s` without its leading white space. */
  function SinIniciales(s: string): (r: string)
    ensures |r| <= |s|
  {
    if s != [] && EsEspacio(s[0]) then SinIniciales(s[1..]) else s
  }

  /** `s` without its trailing white space. */
  function SinFinales(s: string): (r: string)
    ensures |r| <= |s|
  {
    if s != [] && EsEspacio(s[|s| - 1]) then SinFinales(s[..|s| - 1]) else s
  }

  /** `s.trim()` */
  function Recortar(s: string): (r: string)
    ensures |r| <= |s|
  {
    SinFinales(SinIniciales(s))
  }

  /** Cutting the leading white space leaves a suffix that does not start with white space. */
  lemma {:induction false} SinInicialesSufijo(s: string)
    ensures var r := SinIniciales(s);
      && |r| <= |s| && r == s[|s| - |r|..]
      && (forall i :: 0 <= i < |s| - |r| ==> EsEspacio(s[i]))
      && (r == [] || !EsEspacio(r[0]))
  {
    if s != [] && EsEspacio(s[0]) {
      var r := SinIniciales(s[1..]);
      SinInicialesSufijo(s[1..]);
      forall i | 1 <= i < |s| - |r| ensures EsEspacio(s[i]) {
        assert s[i] == s[1..][i - 1];
      }
    }
  }

  /** Cutting the trailing white space leaves a prefix that does not end with white space. */
  lemma {:induction false} SinFinalesPrefijo(s: string)
    ensures var r := SinFinales(s);
      && |r| <= |s| && r == s[..|r|]
      && (forall i :: |r| <= i < |s| ==> EsEspacio(s[i]))
      && (r == [] || !EsEspacio(r[|r| - 1]))
  {
    if s != [] && EsEspacio(s[|s| - 1]) {
      var r := SinFinales(s[..|s| - 1]);
      SinFinalesPrefijo(s[..|s| - 1]);
      forall i | |r| <= i < |s| - 1 ensures EsEspacio(s[i]) {
        assert s[i] == s[..|s| - 1][i];
      }
    }
  }

  /** The trimmed string is the piece of `s` between a white-space prefix and a
      white-space suffix, and it neither starts nor ends with white space. */
  lemma RecortarEsInfijo(s: string)
    ensures var r, i := Recortar(s), |s| - |SinIniciales(s)|;
      && 0 <= i && i + |r| <= |s| && r == s[i..i + |r|]
      && (forall k :: 0 <= k < i ==> EsEspacio(s[k]))
      && (forall k :: i + |r| <= k < |s| ==> EsEspacio(s[k]))
      && (r != [] ==> !EsEspacio(r[0]) && !EsEspacio(r[|r| - 1]))
  {
    var p := SinIniciales(s);
    var r := SinFinales(p);
    SinInicialesSufijo(s);
    SinFinalesPrefijo(p);
    SufijoBlanco(s, p, r);
    if r != [] {
      assert r[0] == p[0];
    }
  }

  /** Trailing white space of the left-trimmed string is trailing white space of `s`. */
  lemma SufijoBlanco(s: string, p: string, r: string)
    requires |p| <= |s| && p == s[|s| - |p|..]
    requires |r| <= |p| && r == p[..|r|]
    requires forall k :: |r| <= k < |p| ==> EsEspacio(p[k])
    ensures var i := |s| - |p|; r == s[i..i + |r|] && forall k :: i + |r| <= k < |s| ==> EsEspacio(s[k])
  {
  }

  /** A name is blank (`!nombre.trim()`) exactly when every character of it is white space. */
  lemma RecortarVacio(s: string)
    ensures Recortar(s) == [] <==> forall k :: 0 <= k < |s| ==> EsEspacio(s[k])
  {
    RecortarEsInfijo(s);
    var r, i := Recortar(s), |s| - |SinIniciales(s)|;
    if r != [] {
      assert s[i] == r[0];
    }
  }

  /** Trimming twice is trimming once. */
  lemma RecortarIdempotente(s: string)
    ensures Recortar(Recortar(s)) == Recortar(s)
  {
    var r := Recortar(s);
    if r != [] {
      RecortarEsInfijo(s);
      assert SinIniciales(r) == r;
      assert SinFinales(r) == r;
    }
  }

  // ---------------------------------------------------------------------------
  // `servicios.filter((s) => s !== servicio)`

  function Quitar(s: seq<string>, x: string): (r: seq<string>)
    ensures |r| <= |s|
    ensures forall i :: 0 <= i < |r| ==> r[i] != x
  {
    if s == [] then []
    else (if s[0] != x then [s[0]] else []) + Quitar(s[1..], x)
  }

  /** The filter keeps list order: it distributes over concatenation. */
  lemma {:induction false} QuitarConcat(a: seq<string>, b: seq<string>, x: string)
    ensures Quitar(a + b, x) == Quitar(a, x) + Quitar(b, x)
  {
    if a == [] {
      assert a + b == b;
    } else {
      assert (a + b)[0] == a[0] && (a + b)[1..] == a[1..] + b;
      QuitarConcat(a[1..], b, x);
    }
  }

  /** Every copy of `x` goes and every other name keeps all its copies. */
  lemma {:induction false} QuitarMultiplicidad(s: seq<string>, x: string, y: string)
    ensures multiset(Quitar(s, x))[y] == if y == x then 0 else multiset(s)[y]
  {
    if s != [] {
      QuitarMultiplicidad(s[1..], x, y);
      assert s == [s[0]] + s[1..];
    }
  }

  /** Removing a name that is not listed changes nothing. */
  lemma {:induction false} QuitarAusente(s: seq<string>, x: string)
    requires forall i :: 0 <= i < |s| ==> s[i] != x
    ensures Quitar(s, x) == s
  {
    if s != [] {
      QuitarAusente(s[1..], x);
      assert s == [s[0]] + s[1..];
    }
  }

  /** Removing a service just added undoes the addition, and every earlier copy goes too. */
  lemma QuitarTrasAgregar(s: seq<string>, x: string)
    ensures Quitar(s + [x], x) == Quitar(s, x)
  {
    QuitarConcat(s, [x], x);
    assert Quitar([x], x) == [];
  }

  // ---------------------------------------------------------------------------
  // Numeric inputs

  /** `Number.parseInt(valor) || defecto`, the parse given as `None` for `NaN`:
      `NaN` and 0 are falsy and give the default, any other number is kept. */
  function ValorOPorDefecto(leido: Option<int>, defecto: int): (r: int)
    ensures (leido == None || leido == Some(0)) ==> r == defecto
    ensures leido != None && leido.value != 0 ==> r == leido.value
    ensures defecto != 0 ==> r != 0
  {
    match leido
    case Some(v) => if v != 0 then v else defecto
    case None => defecto
  }

  // ---------------------------------------------------------------------------
  // The panel

  /** The panel's own state (`nuevoServicio`, `configuracionTemp`) and the page it edits,
      whose configuration is the `configuracion` property. */
  class ConfiguracionPanel {
    const pagina: SistemaTurnos
    var nuevoServicio: string
    var configuracionTemp: Configuracion

    ghost predicate Valid()
      reads this, pagina
    {
      pagina.Valid()
    }

    /** The draft starts as the page's configuration, the input empty. */
    constructor (pagina: SistemaTurnos)
      requires pagina.Valid()
      ensures Valid()
      ensures this.pagina == pagina
      ensures nuevoServicio == "" && configuracionTemp == pagina.configuracion
    {
      this.pagina := pagina;
      nuevoServicio := "";
      configuracionTemp := pagina.configuracion;
    }

    /** The input's `onChange`. */
    method CambiarNuevoServicio(valor: string)
      modifies this
      ensures nuevoServicio == valor && configuracionTemp == old(configuracionTemp)
    {
      nuevoServicio := valor;
    }

    /** `agregarServicio`: a blank name changes nothing; otherwise the trimmed name is
        appended to the draft's services, duplicates included, and the input cleared. */
    method AgregarServicio()
      modifies this
      ensures Recortar(old(nuevoServicio)) == [] ==>
        nuevoServicio == old(nuevoServicio) && configuracionTemp == old(configuracionTemp)
      ensures Recortar(old(nuevoServicio)) != [] ==>
        && nuevoServicio == ""
        && configuracionTemp == old(configuracionTemp).(
             servicios := old(configuracionTemp).servicios + [Recortar(old(nuevoServicio))])
    {
      var nombre := Recortar(nuevoServicio);
      if nombre == [] {
        return;
      }
      configuracionTemp := configuracionTemp.(servicios := configuracionTemp.servicios + [nombre]);
      nuevoServicio := "";
    }

    /** `eliminarServicio`: every entry equal to `servicio` leaves the draft. */
    method EliminarServicio(servicio: string)
      modifies this
      ensures configuracionTemp == old(configuracionTemp).(
        servicios := Quitar(old(configuracionTemp).servicios, servicio))
      ensures nuevoServicio == old(nuevoServicio)
    {
      configuracionTemp := configuracionTemp.(servicios := Quitar(configuracionTemp.servicios, servicio));
    }

    /** `guardarConfiguracion`: the draft becomes the page's configuration; the page's
        tickets, counter, current ticket and timeouts stay as they are. */
    method GuardarConfiguracion()
      requires Valid()
      modifies pagina
      ensures Valid()
      ensures pagina.configuracion == configuracionTemp
      ensures pagina.turnos == old(pagina.turnos) && pagina.siguienteNumero == old(pagina.siguienteNumero)
      ensures pagina.turnoActual == old(pagina.turnoActual)
      ensures pagina.temporizadores == old(pagina.temporizadores)
    {
      pagina.CambiarConfiguracion(configuracionTemp);
    }

    /** `resetearConfiguracion`: the draft goes back to the page's configuration. */
    method ResetearConfiguracion()
      modifies this
      ensures configuracionTemp == pagina.configuracion && nuevoServicio == old(nuevoServicio)
    {
      configuracionTemp := pagina.configuracion;
    }

    /** The `recepciones` input: the parsed number, or 1 when it is `NaN` or 0. */
    method CambiarRecepciones(leido: Option<int>)
      modifies this
      ensures configuracionTemp == old(configuracionTemp).(recepciones := ValorOPorDefecto(leido, 1))
      ensures configuracionTemp.recepciones != 0
      ensures nuevoServicio == old(nuevoServicio)
    {
      configuracionTemp := configuracionTemp.(recepciones := ValorOPorDefecto(leido, 1));
    }

    /** The `tiempoEsperaLlamada` input: the parsed number, or 30 when it is `NaN` or 0. */
    method CambiarTiempoEspera(leido: Option<int>)
      modifies this
      ensures configuracionTemp == old(configuracionTemp).(tiempoEsperaLlamada := ValorOPorDefecto(leido, 30))
      ensures configuracionTemp.tiempoEsperaLlamada != 0
      ensures nuevoServicio == old(nuevoServicio)
    {
      configuracionTemp := configuracionTemp.(tiempoEsperaLlamada := ValorOPorDefecto(leido, 30));
    }

    /** The sound switch. */
    method CambiarSonido(activado: bool)
      modifies this
      ensures configuracionTemp == old(configuracionTemp).(sonidoActivado := activado)
      ensures nuevoServicio == old(nuevoServicio)
    {
      configuracionTemp := configuracionTemp.(sonidoActivado := activado);
    }
  }

}
