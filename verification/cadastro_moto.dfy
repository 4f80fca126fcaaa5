/**
  The advanced moto form: four text fields, a check that none is empty,
  and a submit that hands the values to the parent's callback and clears
  the form.
 */
module CadastroMoto {
  import opened Basics

  /** The four text fields of the form. */
  datatype Campos = Campos(placa: string, chassi: string, cor: string, categoria: string)

  /** The form cleared. */
  const CamposVazios := Campos("", "", "", "")

  /** The alert raised when a field is missing. */
  const AlertaCamposObrigatorios := Alerta("Campos obrigatórios", "Preencha todos os campos antes de continuar.")

  /** The alert raised once the position is registered. */
  const AlertaRegistrado := Alerta("Localização registrada", "Moto posicionada com sucesso no pátio!")

  /** The field validation: false, with an alert, when any field is the empty string. */
  function ValidarCampos(c: Campos): (r: bool)
    ensures r <==> c.placa != "" && c.chassi != "" && c.cor != "" && c.categoria != ""
  {
    !(c.placa == "" || c.chassi == "" || c.cor == "" || c.categoria == "")
  }

  /**
    What pressing "register position" leaves behind: the fields afterwards,
    the values passed to the parent's callback (if it ran), and the alert shown.
   */
  datatype Envio = Envio(campos: Campos, entregue: Option<Campos>, alerta: Alerta)

  /**
    Submitting the form. Invalid fields: the alert, no callback, the fields
    unchanged. Valid fields: the callback, when the parent gave one, receives
    exactly the four values, and the form is cleared either way.
   */
  function RegistrarPosicao(c: Campos, temCallback: bool): (r: Envio)
    ensures !ValidarCampos(c) ==>
      r.campos == c && r.entregue.None? && r.alerta == AlertaCamposObrigatorios
    ensures ValidarCampos(c) ==>
      && r.campos.placa == "" && r.campos.chassi == "" && r.campos.cor == "" && r.campos.categoria == ""
      && r.alerta == AlertaRegistrado
      && (r.entregue.Some? <==> temCallback)
      && (temCallback ==> r.entregue.value == c)
  {
    if !ValidarCampos(c) then Envio(c, None, AlertaCamposObrigatorios)
    else Envio(CamposVazios, if temCallback then Some(c) else None, AlertaRegistrado)
  }

  /**
    Only emptiness is checked: a category outside "aluguel"/"aquisição" and
    any colour word are accepted as long as they are not empty.
   */
  lemma CategoriaLivre(c: Campos)
    requires c.placa != "" && c.chassi != "" && c.cor != ""
    requires c.categoria != "aluguel" && c.categoria != "aquisição" && c.categoria != ""
    ensures ValidarCampos(c)
    ensures RegistrarPosicao(c, true).entregue == Some(c)
  {
  }

  /**
    Pressing the button twice without typing: the second press never reaches
    the callback, and after a successful first press the form stays empty.
   */
  lemma RegistrarDuasVezes(c: Campos, temCallback: bool)
    ensures var primeiro := RegistrarPosicao(c, temCallback);
      var segundo := RegistrarPosicao(primeiro.campos, temCallback);
      && segundo.entregue.None?
      && (ValidarCampos(c) ==> segundo.campos == CamposVazios)
      && (!ValidarCampos(c) ==> segundo.campos == c)
  {
  }
}
