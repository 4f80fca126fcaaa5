/**
  The yards ("pátios") the app keeps on the device, as an abstract record in
  place of the JSON strings stored under `@lista_patios`, `@patio_selecionado`,
  `@tema` and `@idioma`.
 */
module Registro {
  import opened Basics

  /** A rectangle on the editor canvas: top-left corner and size, in layout units. */
  datatype Rect = Rect(x: real, y: real, width: real, height: real)

  /** A named sub-rectangle of a yard. */
  datatype Zona = Zona(id: int, nome: string, rect: Rect)

  /**
    A stored yard. The layout editor stores a drawn structure with its zones;
    the device screen stores the ESP32 board it was registered with.
   */
  datatype Patio =
    | Configurado(id: int, nome: string, estrutura: Rect, zonas: seq<Zona>)
    | Conectado(uid: string, nome: string, espId: string, criadoEm: string)

  /**
    Everything the screens read from device storage: the yard list (an absent
    list reads as empty), the selected yard, and the saved theme and language.
   */
  datatype Storage = Storage(
    patios: seq<Patio>,
    selecionado: Option<Patio>,
    tema: Option<string>,
    idioma: Option<string>)

  /**
    What a storing action leaves behind: the storage afterwards, and the alert
    it raised instead of writing, if any.
   */
  datatype Gravacao = Gravacao(storage: Storage, alerta: Option<Alerta>)

  /** Nothing stored at all. */
  const Vazio := Storage([], None, None, None)

  /** The selected yard, when there is one, is one of the listed yards. */
  predicate SelecaoValida(s: Storage)
  {
    s.selecionado.Some? ==> s.selecionado.value in s.patios
  }

  /**
    Read the list, push the new yard, write the list back and write the new
    yard as the selected one. The two preference entries are not touched.
   */
  function IncluirESelecionar(s: Storage, novo: Patio): (r: Storage)
    ensures |r.patios| == |s.patios| + 1
    ensures r.patios[..|s.patios|] == s.patios && r.patios[|s.patios|] == novo
    ensures r.selecionado == Some(r.patios[|r.patios| - 1])
    ensures SelecaoValida(r)
    ensures r.tema == s.tema && r.idioma == s.idioma
  {
    s.(patios := s.patios + [novo], selecionado := Some(novo))
  }
}
