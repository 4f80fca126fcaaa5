/**
  The yard layout editor: a yard rectangle, a list of zone rectangles drawn
  on top of it, and the save action that stores the result as a new yard and
  selects it. Gestures are reduced to their final drag delta; the box a
  gesture starts from is an explicit argument.
 */
module PatioConfig {
  import opened Basics
  import opened Text
  import opened Registro

  /** The smallest width and height a resize can leave. */
  const LadoMinimo: real := 50.0

  /** The size of a freshly added zone, and its offset from the yard's corner. */
  const LadoZonaNova: real := 100.0
  const RecuoZonaNova: real := 20.0

  /** The alert raised when saving without a name. */
  const AlertaNomeVazio := Alerta("Erro", "Digite o nome do pátio")

  /** The screen's state: the typed name, the yard rectangle and the zones. */
  datatype Editor = Editor(nome: string, patio: Rect, zonas: seq<Zona>)

  /** The screen as it opens: no name, a 200 by 200 yard at (50, 50), no zones. */
  const EditorInicial := Editor("", Rect(50.0, 50.0, 200.0, 200.0), [])

  /** The label of the `n`-th zone: `Zona ${n}`. */
  function NomeZona(n: nat): (r: string)
    ensures |r| > 5 && r[..5] == "Zona "
    ensures AllDigits(r[5..]) && DigitsValue(r[5..]) == n
    ensures |r| > 6 ==> r[5] != '0'
  {
    NatToStringValue(n);
    var digits := NatToString(n);
    assert ("Zona " + digits)[5..] == digits;
    "Zona " + digits
  }

  /**
    Adding a zone appends one default zone: it is numbered after the zones
    already there, sits 20 units inside the yard's corner, and is 100 by 100.
   */
  function AdicionarZona(zonas: seq<Zona>, patio: Rect, id: int): (r: seq<Zona>)
    ensures |r| == |zonas| + 1 && r[..|zonas|] == zonas
    ensures var z := r[|zonas|];
      && z.id == id
      && |z.nome| > 5 && z.nome[..5] == "Zona " && AllDigits(z.nome[5..]) && DigitsValue(z.nome[5..]) == |zonas| + 1
      && (|z.nome| > 6 ==> z.nome[5] != '0')
      && z.rect.x == patio.x + RecuoZonaNova && z.rect.y == patio.y + RecuoZonaNova
      && z.rect.width == LadoZonaNova && z.rect.height == LadoZonaNova
  {
    var z := Zona(id, NomeZona(|zonas| + 1),
                  Rect(patio.x + RecuoZonaNova, patio.y + RecuoZonaNova, LadoZonaNova, LadoZonaNova));
    assert (zonas + [z])[..|zonas|] == zonas;
    zonas + [z]
  }

  /**
    `prev.map(z => z.id === alvo ? f(z) : z)`: every zone whose id matches is
    replaced by `f` of itself, every other zone stays where and what it was.
   */
  function NoAlvo(zonas: seq<Zona>, alvo: int, f: Zona -> Zona): (r: seq<Zona>)
    ensures |r| == |zonas|
    ensures forall i :: 0 <= i < |zonas| && zonas[i].id == alvo ==> r[i] == f(zonas[i])
    ensures forall i :: 0 <= i < |zonas| && zonas[i].id != alvo ==> r[i] == zonas[i]
  {
    if |zonas| == 0 then []
    else
      var cabeca := if zonas[0].id == alvo then f(zonas[0]) else zonas[0];
      [cabeca] + NoAlvo(zonas[1..], alvo, f)
  }

  /** The `setBox` callback of a zone: entries with the zone's id become `nova`. */
  function AtualizarZona(zonas: seq<Zona>, alvo: int, nova: Zona): (r: seq<Zona>)
    ensures |r| == |zonas|
    ensures forall i :: 0 <= i < |zonas| ==>
      r[i] == (if zonas[i].id == alvo then nova else zonas[i])
  {
    NoAlvo(zonas, alvo, _ => nova)
  }

  /** Updating an id no zone has leaves the list as it was. */
  lemma AtualizarSemAlvo(zonas: seq<Zona>, alvo: int, nova: Zona)
    requires forall i :: 0 <= i < |zonas| ==> zonas[i].id != alvo
    ensures AtualizarZona(zonas, alvo, nova) == zonas
  {
  }

  /** The ids of the zones, in list order. */
  function Ids(zonas: seq<Zona>): (r: seq<int>)
    ensures |r| == |zonas| && forall i :: 0 <= i < |zonas| ==> r[i] == zonas[i].id
  {
    seq(|zonas|, i requires 0 <= i < |zonas| => zonas[i].id)
  }

  /** A zone's own callback passes a box with the zone's id, so the ids stay as they were. */
  lemma AtualizarPreservaIds(zonas: seq<Zona>, alvo: int, nova: Zona)
    requires nova.id == alvo
    ensures Ids(AtualizarZona(zonas, alvo, nova)) == Ids(zonas)
  {
  }

  /** The `onNameChange` callback: matching zones get the new name and keep id and rectangle. */
  function RenomearZona(zonas: seq<Zona>, alvo: int, nome: string): (r: seq<Zona>)
    ensures |r| == |zonas|
    ensures forall i :: 0 <= i < |zonas| ==>
      && r[i].id == zonas[i].id
      && r[i].rect == zonas[i].rect
      && r[i].nome == (if zonas[i].id == alvo then nome else zonas[i].nome)
    ensures forall i :: 0 <= i < |zonas| && zonas[i].id != alvo ==> r[i] == zonas[i]
  {
    NoAlvo(zonas, alvo, (z: Zona) => z.(nome := nome))
  }

  /** Releasing a drag: the base box shifted by the gesture's delta. */
  function Mover(base: Rect, dx: real, dy: real): (r: Rect)
    ensures r.width == base.width && r.height == base.height
    ensures r.x - base.x == dx && r.y - base.y == dy
  {
    base.(x := base.x + dx, y := base.y + dy)
  }

  function Max(a: real, b: real): real
  {
    if a < b then b else a
  }

  /**
    Releasing the resize handle: each side grows by the delta, but never
    below 50; the corner does not move.
   */
  function Redimensionar(base: Rect, dw: real, dh: real): (r: Rect)
    ensures r.x == base.x && r.y == base.y
    ensures r.width >= LadoMinimo && r.height >= LadoMinimo
    ensures base.width + dw >= LadoMinimo ==> r.width == base.width + dw
    ensures base.width + dw < LadoMinimo ==> r.width == LadoMinimo
    ensures base.height + dh >= LadoMinimo ==> r.height == base.height + dh
    ensures base.height + dh < LadoMinimo ==> r.height == LadoMinimo
  {
    base.(width := Max(LadoMinimo, base.width + dw), height := Max(LadoMinimo, base.height + dh))
  }

  /** A drag and the opposite drag cancel out. */
  lemma MoverInverso(base: Rect, dx: real, dy: real)
    ensures Mover(Mover(base, dx, dy), -dx, -dy) == base
  {
  }

  /** Once a box is at least the minimum size, a zero-delta resize leaves it alone. */
  lemma RedimensionarEstavel(base: Rect, dw: real, dh: real)
    ensures Redimensionar(Redimensionar(base, dw, dh), 0.0, 0.0) == Redimensionar(base, dw, dh)
  {
  }

  // ---------------------------------------------------------------------
  // The drag and resize handlers as the screen writes them. They close over
  // the zone as it was first rendered (`capturada`), so every release starts
  // again from that box and writes all of its fields back.
  // ---------------------------------------------------------------------

  /** Drag release as written: the captured zone, shifted, replaces the current one. */
  function SoltarArrasteComoEscrito(zonas: seq<Zona>, capturada: Zona, dx: real, dy: real): (r: seq<Zona>)
    ensures |r| == |zonas|
    ensures forall i :: 0 <= i < |zonas| && zonas[i].id == capturada.id ==>
      r[i] == capturada.(rect := Mover(capturada.rect, dx, dy))
    ensures forall i :: 0 <= i < |zonas| && zonas[i].id != capturada.id ==> r[i] == zonas[i]
  {
    AtualizarZona(zonas, capturada.id, capturada.(rect := Mover(capturada.rect, dx, dy)))
  }

  /** Resize release as written: the captured zone, resized, replaces the current one. */
  function SoltarRedimensaoComoEscrito(zonas: seq<Zona>, capturada: Zona, dw: real, dh: real): (r: seq<Zona>)
    ensures |r| == |zonas|
    ensures forall i :: 0 <= i < |zonas| && zonas[i].id == capturada.id ==>
      r[i] == capturada.(rect := Redimensionar(capturada.rect, dw, dh))
    ensures forall i :: 0 <= i < |zonas| && zonas[i].id != capturada.id ==> r[i] == zonas[i]
  {
    AtualizarZona(zonas, capturada.id, capturada.(rect := Redimensionar(capturada.rect, dw, dh)))
  }

  /**
    Two drags of 10 units to the right end 10 units right of the start, a
    rename is undone by the next drag, and a resize after a drag puts the
    zone back where it was first drawn.
   */
  lemma ComoEscritoPerdeEdicoes()
    ensures var z := Zona(1, "Zona 1", Rect(70.0, 70.0, 100.0, 100.0));
      var duasVezes := SoltarArrasteComoEscrito(SoltarArrasteComoEscrito([z], z, 10.0, 0.0), z, 10.0, 0.0);
      var renomeada := SoltarArrasteComoEscrito(RenomearZona([z], 1, "Entrada"), z, 10.0, 0.0);
      var redimensionada := SoltarRedimensaoComoEscrito(SoltarArrasteComoEscrito([z], z, 10.0, 0.0), z, 20.0, 20.0);
      && duasVezes[0].rect.x == 80.0
      && renomeada[0].nome == "Zona 1"
      && redimensionada[0].rect.x == 70.0
  {
  }

  /** For any zones and deltas, a drag as written erases the drag before it. */
  lemma ComoEscritoSoUltimoArraste(zonas: seq<Zona>, capturada: Zona, dx1: real, dy1: real, dx2: real, dy2: real)
    ensures SoltarArrasteComoEscrito(SoltarArrasteComoEscrito(zonas, capturada, dx1, dy1), capturada, dx2, dy2)
         == SoltarArrasteComoEscrito(zonas, capturada, dx2, dy2)
  {
  }

  // ---------------------------------------------------------------------
  // The handlers as evidently intended: each release starts from the zone
  // as it currently is, and touches only the rectangle.
  // ---------------------------------------------------------------------

  /** Drag release: every zone with the id moves by the delta, keeping id, name and size. */
  function ArrastarZona(zonas: seq<Zona>, alvo: int, dx: real, dy: real): (r: seq<Zona>)
    ensures |r| == |zonas|
    ensures forall i :: 0 <= i < |zonas| ==>
      && r[i].id == zonas[i].id && r[i].nome == zonas[i].nome
      && r[i].rect.width == zonas[i].rect.width && r[i].rect.height == zonas[i].rect.height
    ensures forall i :: 0 <= i < |zonas| && zonas[i].id == alvo ==>
      r[i].rect.x == zonas[i].rect.x + dx && r[i].rect.y == zonas[i].rect.y + dy
    ensures forall i :: 0 <= i < |zonas| && zonas[i].id != alvo ==> r[i] == zonas[i]
  {
    NoAlvo(zonas, alvo, (z: Zona) => z.(rect := Mover(z.rect, dx, dy)))
  }

  /** Resize release: every zone with the id is resized in place, keeping id, name and corner. */
  function RedimensionarZona(zonas: seq<Zona>, alvo: int, dw: real, dh: real): (r: seq<Zona>)
    ensures |r| == |zonas|
    ensures forall i :: 0 <= i < |zonas| ==>
      && r[i].id == zonas[i].id && r[i].nome == zonas[i].nome
      && r[i].rect.x == zonas[i].rect.x && r[i].rect.y == zonas[i].rect.y
    ensures forall i :: 0 <= i < |zonas| && zonas[i].id == alvo ==>
      r[i].rect == Redimensionar(zonas[i].rect, dw, dh)
    ensures forall i :: 0 <= i < |zonas| && zonas[i].id != alvo ==> r[i] == zonas[i]
  {
    NoAlvo(zonas, alvo, (z: Zona) => z.(rect := Redimensionar(z.rect, dw, dh)))
  }

  /** Successive drags of one zone add up, unlike the handler as written. */
  lemma {:induction false} ArrastarZonaAcumula(zonas: seq<Zona>, alvo: int, dx1: real, dy1: real, dx2: real, dy2: real)
    ensures ArrastarZona(ArrastarZona(zonas, alvo, dx1, dy1), alvo, dx2, dy2)
         == ArrastarZona(zonas, alvo, dx1 + dx2, dy1 + dy2)
  {
  }

  /** A rename survives a later drag of the same zone, unlike the handler as written. */
  lemma RenomeSobreviveArraste(zonas: seq<Zona>, alvo: int, nome: string, dx: real, dy: real)
    ensures forall i :: 0 <= i < |zonas| && zonas[i].id == alvo ==>
      ArrastarZona(RenomearZona(zonas, alvo, nome), alvo, dx, dy)[i].nome == nome
  {
  }

  /** One user action on the screen. */
  datatype Evento =
    | DigitarNome(nome: string)
    | NovaZona(id: int)
    | ArrastarZ(alvo: int, dx: real, dy: real)
    | RedimensionarZ(alvo: int, dw: real, dh: real)
    | RenomearZ(alvo: int, nome: string)
    | ArrastarPatio(dx: real, dy: real)
    | RedimensionarPatio(dw: real, dh: real)

  /** The effect of one action on the screen state. */
  function Aplicar(ed: Editor, ev: Evento): (r: Editor)
    ensures ev.NovaZona? ==> |r.zonas| == |ed.zonas| + 1
    ensures !ev.NovaZona? ==> |r.zonas| == |ed.zonas|
    ensures !ev.DigitarNome? ==> r.nome == ed.nome
    ensures ev.DigitarNome? ==> r.nome == ev.nome
    ensures ev.DigitarNome? || ev.ArrastarPatio? || ev.RedimensionarPatio? ==> r.zonas == ed.zonas
    ensures !ev.ArrastarPatio? && !ev.RedimensionarPatio? ==> r.patio == ed.patio
    ensures ev.NovaZona? ==> r.zonas[..|ed.zonas|] == ed.zonas
  {
    match ev
    case DigitarNome(nome) => ed.(nome := nome)
    case NovaZona(id) => ed.(zonas := AdicionarZona(ed.zonas, ed.patio, id))
    case ArrastarZ(alvo, dx, dy) => ed.(zonas := ArrastarZona(ed.zonas, alvo, dx, dy))
    case RedimensionarZ(alvo, dw, dh) => ed.(zonas := RedimensionarZona(ed.zonas, alvo, dw, dh))
    case RenomearZ(alvo, nome) => ed.(zonas := RenomearZona(ed.zonas, alvo, nome))
    case ArrastarPatio(dx, dy) => ed.(patio := Mover(ed.patio, dx, dy))
    case RedimensionarPatio(dw, dh) => ed.(patio := Redimensionar(ed.patio, dw, dh))
  }

  /** The effect of a run of actions, first to last. */
  function AplicarTodos(ed: Editor, evs: seq<Evento>): Editor
    decreases |evs|
  {
    if |evs| == 0 then ed else AplicarTodos(Aplicar(ed, evs[0]), evs[1..])
  }

  /** How many of the actions add a zone. */
  function ContarNovasZonas(evs: seq<Evento>): nat
  {
    if |evs| == 0 then 0 else (if evs[0].NovaZona? then 1 else 0) + ContarNovasZonas(evs[1..])
  }

  /** No rectangle on the canvas is narrower or lower than the minimum side. */
  predicate TamanhosMinimos(ed: Editor)
  {
    && ed.patio.width >= LadoMinimo && ed.patio.height >= LadoMinimo
    && forall i :: 0 <= i < |ed.zonas| ==>
         ed.zonas[i].rect.width >= LadoMinimo && ed.zonas[i].rect.height >= LadoMinimo
  }

  /** Every single action keeps all rectangles at least the minimum size. */
  lemma AplicarPreservaTamanhos(ed: Editor, ev: Evento)
    requires TamanhosMinimos(ed)
    ensures TamanhosMinimos(Aplicar(ed, ev))
  {
  }

  /**
    Whatever the user does from the opening screen, every rectangle stays at
    least 50 by 50, and there are exactly as many zones as "add zone" presses.
   */
  lemma {:induction false} SessaoInvariante(ed: Editor, evs: seq<Evento>)
    requires TamanhosMinimos(ed)
    ensures TamanhosMinimos(AplicarTodos(ed, evs))
    ensures |AplicarTodos(ed, evs).zonas| == |ed.zonas| + ContarNovasZonas(evs)
    decreases |evs|
  {
    if |evs| > 0 {
      AplicarPreservaTamanhos(ed, evs[0]);
      SessaoInvariante(Aplicar(ed, evs[0]), evs[1..]);
    }
  }

  /** The opening screen meets the minimum size. */
  lemma InicialValido()
    ensures TamanhosMinimos(EditorInicial)
  {
  }

  /**
    Saving: a blank name (empty or only white space) raises the alert and
    writes nothing; otherwise the yard, with its typed name as is, its
    rectangle and its zones, is appended to the stored list and selected.
   */
  function Salvar(ed: Editor, s: Storage, id: int): (r: Gravacao)
    ensures r.alerta.Some? <==> AllWhiteSpace(ed.nome)
    ensures r.alerta.Some? ==> r.alerta.value == AlertaNomeVazio && r.storage == s
    ensures r.alerta.None? ==>
      && |r.storage.patios| == |s.patios| + 1
      && r.storage.patios[..|s.patios|] == s.patios
      && r.storage.patios[|s.patios|] == Configurado(id, ed.nome, ed.patio, ed.zonas)
      && r.storage.selecionado == Some(Configurado(id, ed.nome, ed.patio, ed.zonas))
      && r.storage.tema == s.tema && r.storage.idioma == s.idioma
  {
    if Trim(ed.nome) == [] then Gravacao(s, Some(AlertaNomeVazio))
    else Gravacao(IncluirESelecionar(s, Configurado(id, ed.nome, ed.patio, ed.zonas)), None)
  }

  /** After saving, the selected yard is always one of the stored yards. */
  lemma SalvarSelecaoValida(ed: Editor, s: Storage, id: int)
    requires SelecaoValida(s)
    ensures SelecaoValida(Salvar(ed, s, id).storage)
  {
  }
}
