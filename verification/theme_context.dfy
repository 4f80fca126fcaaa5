/**
  The app-wide preferences: a dark-theme flag that starts from the system
  colour scheme and is overridden by a saved choice, and a language that
  starts as Portuguese. Both are written to storage when the user changes them.
 */
module ThemeContext {
  import opened Basics
  import opened Registro

  /** The saved theme words. */
  const Escuro := "escuro"
  const Claro := "claro"

  /** The language before anything is loaded. */
  const IdiomaPadrao := "pt"

  /** What the provider shares with the screens. */
  datatype Preferencias = Preferencias(temaEscuro: bool, idioma: string)

  /** A state change together with the storage it leaves behind. */
  datatype Passo = Passo(prefs: Preferencias, storage: Storage)

  /** JavaScript truthiness of a stored string: present and not empty. */
  predicate Preenchido(v: Option<string>)
  {
    v.Some? && v.value != ""
  }

  /** The state on first render: dark exactly when the system scheme is `'dark'`, language `'pt'`. */
  function Inicial(esquema: Option<string>): (r: Preferencias)
    ensures r.temaEscuro <==> esquema == Some("dark")
    ensures r.idioma == IdiomaPadrao
  {
    Preferencias(esquema == Some("dark"), IdiomaPadrao)
  }

  /**
    The loading effect: a saved theme overrides the flag (dark exactly when it
    is `'escuro'`), a saved language replaces the language; a missing or empty
    entry leaves that part as it was.
   */
  function Carregar(p: Preferencias, s: Storage): (r: Preferencias)
    ensures Preenchido(s.tema) ==> (r.temaEscuro <==> s.tema.value == Escuro)
    ensures !Preenchido(s.tema) ==> r.temaEscuro == p.temaEscuro
    ensures Preenchido(s.idioma) ==> r.idioma == s.idioma.value
    ensures !Preenchido(s.idioma) ==> r.idioma == p.idioma
  {
    var tema := if Preenchido(s.tema) then s.tema.value == Escuro else p.temaEscuro;
    var idioma := if Preenchido(s.idioma) then s.idioma.value else p.idioma;
    Preferencias(tema, idioma)
  }

  /** What the screens see once the app has started and the effect has run. */
  function Abrir(esquema: Option<string>, s: Storage): (r: Preferencias)
    ensures Preenchido(s.tema) ==> (r.temaEscuro <==> s.tema.value == Escuro)
    ensures !Preenchido(s.tema) ==> (r.temaEscuro <==> esquema == Some("dark"))
    ensures Preenchido(s.idioma) ==> r.idioma == s.idioma.value
    ensures !Preenchido(s.idioma) ==> r.idioma == IdiomaPadrao
  {
    Carregar(Inicial(esquema), s)
  }

  /**
    Toggling: the flag flips and the new choice is saved, so that loading the
    storage again, over any state, yields the new flag. Nothing else changes.
   */
  function AlternarTema(p: Preferencias, s: Storage): (r: Passo)
    ensures r.prefs.temaEscuro == !p.temaEscuro && r.prefs.idioma == p.idioma
    ensures r.storage.tema == Some(if r.prefs.temaEscuro then Escuro else Claro)
    ensures forall q :: Carregar(q, r.storage).temaEscuro == r.prefs.temaEscuro
    ensures r.storage.patios == s.patios && r.storage.selecionado == s.selecionado
    ensures r.storage.idioma == s.idioma
  {
    var novo := !p.temaEscuro;
    Passo(p.(temaEscuro := novo), s.(tema := Some(if novo then Escuro else Claro)))
  }

  /** Toggling twice gives back the flag, and the saved theme then agrees with it. */
  lemma AlternarDuasVezes(p: Preferencias, s: Storage, esquema: Option<string>)
    ensures var duas := AlternarTema(AlternarTema(p, s).prefs, AlternarTema(p, s).storage);
      && duas.prefs == p
      && Abrir(esquema, duas.storage).temaEscuro == p.temaEscuro
  {
  }

  /**
    Changing the language: state and storage hold the same string. Loading it
    back reproduces it exactly when it is not empty; an empty choice is saved
    but reads back as no choice at all.
   */
  function MudarIdioma(p: Preferencias, s: Storage, novo: string): (r: Passo)
    ensures r.prefs.idioma == novo && r.storage.idioma == Some(novo)
    ensures r.prefs.temaEscuro == p.temaEscuro
    ensures novo != "" ==> forall q :: Carregar(q, r.storage).idioma == novo
    ensures novo == "" ==> forall q :: Carregar(q, r.storage).idioma == q.idioma
    ensures r.storage.patios == s.patios && r.storage.selecionado == s.selecionado
    ensures r.storage.tema == s.tema
  {
    Passo(p.(idioma := novo), s.(idioma := Some(novo)))
  }

  /**
    The loading effect runs again when the system scheme changes, but it does
    not read the scheme: running it again over the started state changes
    nothing, so without a saved theme the flag keeps the value it took from
    the scheme on first render.
   */
  lemma EsquemaSoNaAbertura(esquema: Option<string>, s: Storage)
    ensures Carregar(Abrir(esquema, s), s) == Abrir(esquema, s)
    ensures !Preenchido(s.tema) ==> (Carregar(Abrir(esquema, s), s).temaEscuro <==> esquema == Some("dark"))
  {
  }

  /** On a first launch, with nothing stored, the app follows the system scheme and speaks Portuguese. */
  lemma PrimeiraAbertura(esquema: Option<string>)
    ensures Abrir(esquema, Vazio) == Inicial(esquema)
    ensures Abrir(esquema, Vazio).temaEscuro <==> esquema == Some("dark")
    ensures Abrir(esquema, Vazio).idioma == IdiomaPadrao
  {
  }

  /** A fresh start after saving a language shows that language. */
  lemma IdiomaSobreviveReabertura(p: Preferencias, s: Storage, novo: string, esquema: Option<string>)
    requires novo != ""
    ensures Abrir(esquema, MudarIdioma(p, s, novo).storage).idioma == novo
  {
  }
}
