/**
  Registering a yard through an ESP32 board: a (simulated) device search,
  the choice of one device, and the registration that stores the new yard
  and selects it.
 */
module ConectarPatio {
  import opened Basics
  import opened Registro
  import PatioConfig

  /** A board found by the search. */
  datatype Dispositivo = Dispositivo(id: string, nome: string)

  /** The screen's state: the devices listed, the typed name and the chosen device. */
  datatype Conexao = Conexao(dispositivos: seq<Dispositivo>, nome: string, selecionado: Option<Dispositivo>)

  /** The screen as it opens: nothing listed, no name, nothing chosen. */
  const ConexaoInicial := Conexao([], "", None)

  /** The alert raised when the name or the device is missing. */
  const AlertaIncompleto := Alerta("Atenção", "Informe o nome do pátio e selecione o ESP32.")

  /** The device search: always the same two boards, in this order. */
  function BuscarESP32(): (r: seq<Dispositivo>)
    ensures |r| == 2
    ensures r[0].id == "esp32_1" && r[1].id == "esp32_2"
    ensures forall i, j :: 0 <= i < j < |r| ==> r[i].id != r[j].id
  {
    [Dispositivo("esp32_1", "ESP32-Central-001"), Dispositivo("esp32_2", "ESP32-Central-002")]
  }

  /** Pressing "search": the list is replaced by the search result. */
  function Buscar(c: Conexao): (r: Conexao)
    ensures r.dispositivos == BuscarESP32()
    ensures r.nome == c.nome && r.selecionado == c.selecionado
  {
    c.(dispositivos := BuscarESP32())
  }

  /** Tapping a listed device makes it the chosen one. */
  function Selecionar(c: Conexao, d: Dispositivo): (r: Conexao)
    ensures r.selecionado == Some(d) && r.nome == c.nome && r.dispositivos == c.dispositivos
  {
    c.(selecionado := Some(d))
  }

  /** A listed device is drawn highlighted when it has the chosen device's id. */
  predicate Destacado(selecionado: Option<Dispositivo>, item: Dispositivo)
  {
    selecionado.Some? && selecionado.value.id == item.id
  }

  /**
    After tapping the `k`-th device of a search, exactly that device is
    highlighted; before any tap, none is.
   */
  lemma DestaqueUnico(k: int)
    requires 0 <= k < |BuscarESP32()|
    ensures forall j :: 0 <= j < |BuscarESP32()| ==>
      (Destacado(Some(BuscarESP32()[k]), BuscarESP32()[j]) <==> j == k)
    ensures forall j :: 0 <= j < |BuscarESP32()| ==> !Destacado(ConexaoInicial.selecionado, BuscarESP32()[j])
  {
  }

  /**
    Registering: with an empty name or no chosen device the alert is raised
    and nothing is written; otherwise a yard carrying the name and the
    device's id is appended to the stored list and selected.
   */
  function Cadastrar(c: Conexao, s: Storage, uid: string, criadoEm: string): (r: Gravacao)
    ensures r.alerta.Some? <==> c.nome == "" || c.selecionado.None?
    ensures r.alerta.Some? ==> r.alerta.value == AlertaIncompleto && r.storage == s
    ensures r.alerta.None? ==>
      && |r.storage.patios| == |s.patios| + 1
      && r.storage.patios[..|s.patios|] == s.patios
      && r.storage.patios[|s.patios|] == Conectado(uid, c.nome, c.selecionado.value.id, criadoEm)
      && r.storage.selecionado == Some(r.storage.patios[|s.patios|])
      && r.storage.tema == s.tema && r.storage.idioma == s.idioma
  {
    if c.nome == "" || c.selecionado.None? then Gravacao(s, Some(AlertaIncompleto))
    else Gravacao(IncluirESelecionar(s, Conectado(uid, c.nome, c.selecionado.value.id, criadoEm)), None)
  }

  /** After registering, the selected yard is always one of the stored yards. */
  lemma CadastrarSelecaoValida(c: Conexao, s: Storage, uid: string, criadoEm: string)
    requires SelecaoValida(s)
    ensures SelecaoValida(Cadastrar(c, s, uid, criadoEm).storage)
  {
  }

  /**
    Only emptiness is checked here: a name of one space registers a yard,
    while the layout editor refuses to save the same name.
   */
  lemma NomeEmBrancoAceito(s: Storage, d: Dispositivo, uid: string, criadoEm: string, ed: PatioConfig.Editor, id: int)
    requires ed.nome == " "
    ensures Cadastrar(Conexao([], " ", Some(d)), s, uid, criadoEm).alerta.None?
    ensures PatioConfig.Salvar(ed, s, id).alerta.Some?
  {
  }
}
