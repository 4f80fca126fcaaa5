/** Small wrappers shared by every screen model. */
module Basics {

  /** A value that may be absent: JavaScript's `null`/`undefined` versus a value. */
  datatype Option<+T> = None | Some(value: T)

  /** A blocking `Alert.alert(title, message)` shown to the user instead of acting. */
  datatype Alerta = Alerta(titulo: string, mensagem: string)
}
