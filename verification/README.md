# MOTOFACIL yard and moto logic, modelled in Dafny

MOTOFACIL is a React Native client for tracking motorcycles ("motos") across
yards ("pátios"). Almost all of it is screens and HTTP calls. This project
models the few pieces of sequential logic that can be stated exactly. Each is
a pure function over immutable records. Device storage is an abstract record
of yards, the selected yard, the theme and the language:

- **Yard layout editor** (`app/patio-config.js`, module `PatioConfig`). The
  screen holds a yard rectangle and a list of zone rectangles. It adds default
  zones, replaces or renames zones by id, moves and resizes boxes (a side never
  goes below 50), and saves the result. Saving refuses a blank name. Otherwise
  it appends the yard to the stored list and selects it.
- **Yard registration through an ESP32 board** (`app/conectar-patio.js`,
  module `ConectarPatio`). A simulated search always lists two fixed boards.
  Exactly the chosen board is highlighted. Registering needs a non-empty name
  and a chosen board, then appends and selects the new yard.
- **Advanced moto form** (`components/CadastroMotoAvancado.js`, module
  `CadastroMoto`). All four fields must be non-empty. On success the parent's
  callback, if any, gets exactly the four values, and the form is cleared.
- **Moto search** (`components/BuscaMoto.js`, module `BuscaMoto`). It keeps
  the motos whose plate or chassis contains the query, ignoring case, in their
  original order. It also decides when to show "Nenhuma moto encontrada".
- **Theme and language preferences** (`src/context/ThemeContext.js`, module
  `ThemeContext`). The dark flag starts from the system scheme, and a saved
  theme overrides it. Toggling flips the flag and saves `'escuro'`/`'claro'`.
  The language starts as `'pt'` and is saved when changed.

Supporting modules:
- `Basics`: `Option` and the `Alerta` record.
- `Text`: the JavaScript string operations used above (`trim`, ASCII
  `toLowerCase`, `includes`, decimal rendering of a number).
- `Registro`: the yard, zone and storage records, plus the shared
  append-and-select step.

Inputs the app takes from its surroundings are parameters of the model:
- zone and yard ids (`Date.now()`, `uuid.v4()`);
- the creation timestamp;
- the system colour scheme;
- whether the parent passed a callback;
- gesture deltas.

## Model

| member | source | states |
|---|---|---|
| Text.Trim | app/patio-config.js:39 | `trim()` returns the piece of the input that starts where the leading white space ends. Everything before and after that piece is white space, and the piece neither starts nor ends with white space. It is empty exactly when the input is all ECMAScript white space or line terminators. |
| Text.TrimIsTrimEndOfTrimStart | app/patio-config.js:39 | `trim` equals `trimEnd` applied after `trimStart`. |
| Text.TrimStart | app/patio-config.js:39 | The leading-white-space half of `trim`: the result is a suffix of the input. Every character dropped is white space, and the result does not start with white space. |
| Text.TrimEnd | app/patio-config.js:39 | The trailing half of `trim`: the result is a prefix of the input. Every character dropped is white space, and the result does not end with white space. |
| Text.Includes | components/BuscaMoto.js:9-10 | `includes` holds exactly when the needle occurs at some position of the haystack. |
| Text.IncludesEmpty | components/BuscaMoto.js:9-10 | The empty query is contained in every string. |
| Text.Lower | components/BuscaMoto.js:9-10 | `toLowerCase` keeps the length and lowers each character in place: A–Z become a–z, and every other character is unchanged. |
| Text.LowerUpper | components/BuscaMoto.js:9-10 | Lowering forgets case: lowering an upper-cased string gives the same result as lowering the original. |
| Text.NatToString | app/patio-config.js:29 | The number in the zone label is written as non-empty decimal digits with no leading zero. It is "0" only for zero. |
| Text.NatToStringValue | app/patio-config.js:29 | Reading the written digits back gives the original number. |
| Registro.IncluirESelecionar | app/patio-config.js:48-53 | Saving a yard grows the list by one and keeps earlier yards in place. The new yard is last and becomes the selected yard, and theme and language are untouched. |
| PatioConfig.NomeZona | app/patio-config.js:29 | The label is "Zona " followed by digits whose value is the requested number. The digits have no leading zero, so the label is the number's plain decimal form. |
| PatioConfig.AdicionarZona | app/patio-config.js:24-36 | Exactly one zone is appended and the existing zones are unchanged. The new zone has the given id, is numbered previous count + 1, sits at (yard.x + 20, yard.y + 20) and is 100 by 100. Its label is "Zona " and that number in decimal with no leading zero. |
| PatioConfig.NoAlvo | app/patio-config.js:83-85 | Mapping over the zones keeps the length. Each zone with the target id becomes `f` of itself, and every other zone is unchanged. |
| PatioConfig.AtualizarZona | app/patio-config.js:82-86 | Only entries whose id matches are replaced by the new box. The length and all other zones are unchanged. |
| PatioConfig.AtualizarSemAlvo | app/patio-config.js:83-85 | Updating an id that no zone has leaves the list as it was. |
| PatioConfig.AtualizarPreservaIds | app/patio-config.js:82-86 | A zone's update callback passes a box with the same id, so the list of ids is unchanged. |
| PatioConfig.RenomearZona | app/patio-config.js:89-93 | Renaming changes only `nome`, and only for matching zones. Id and rectangle are untouched everywhere, and non-matching zones are unchanged. |
| PatioConfig.Mover | app/patio-config.js:123-131 | A drag release shifts x and y by the gesture's delta and keeps width and height. |
| PatioConfig.MoverInverso | app/patio-config.js:124-128 | A drag followed by the opposite drag returns the original box. |
| PatioConfig.Redimensionar | app/patio-config.js:145-153 | A resize never leaves a width or height below 50. Each side equals base + delta whenever that is at least 50, and 50 otherwise. The corner does not move. |
| PatioConfig.RedimensionarEstavel | app/patio-config.js:148-149 | A resized box is a fixed point of a zero-delta resize. |
| PatioConfig.SoltarArrasteComoEscrito | app/patio-config.js:113-131 | As written, a drag release writes back the box captured at first render, shifted by the delta, over the matching zone. Zones with other ids are unchanged. |
| PatioConfig.SoltarRedimensaoComoEscrito | app/patio-config.js:135-155 | As written, a resize release writes back the box captured at first render, resized, over the matching zone. Zones with other ids are unchanged. |
| PatioConfig.ComoEscritoSoUltimoArraste | app/patio-config.js:113-131 | As written, two drags of the same zone leave it where the second drag alone would: the first drag is forgotten. |
| PatioConfig.ComoEscritoPerdeEdicoes | app/patio-config.js:113-155 | Counterexample with the handlers as written. Two 10-unit drags end 10 units from the start. A rename is lost at the next drag. A resize after a drag puts the zone back at its first position. |
| PatioConfig.ArrastarZona | app/patio-config.js:82-86 | Corrected drag: matching zones move by the delta from where they are now. They keep id, name and size, and other zones are unchanged. |
| PatioConfig.RedimensionarZona | app/patio-config.js:145-153 | Corrected resize: matching zones are resized in place with the clamp. They keep id, name and corner, and other zones are unchanged. |
| PatioConfig.ArrastarZonaAcumula | app/patio-config.js:124-128 | With the corrected drag, two successive drags equal one drag by the summed delta. |
| PatioConfig.RenomeSobreviveArraste | app/patio-config.js:89-93 | With the corrected drag, a rename survives a later drag of the same zone. |
| PatioConfig.Aplicar | app/patio-config.js:58-106 | One screen action adds exactly one zone (for "add zone"), keeping the existing zones in front, or keeps the zone count. Only typing changes the name, and typing sets it to the typed text. Typing and the yard's own drag and resize leave the zones untouched, and only the yard's drag and resize change the yard rectangle. |
| PatioConfig.AplicarPreservaTamanhos | app/patio-config.js:141-149 | Every single action keeps all rectangles at least 50 by 50. |
| PatioConfig.SessaoInvariante | app/patio-config.js:24-35 | For any sequence of actions, every rectangle stays at least 50 by 50. The number of zones grows by exactly the number of "add zone" presses. |
| PatioConfig.InicialValido | app/patio-config.js:21 | The opening yard rectangle (200 by 200 at (50, 50)) meets the 50-unit minimum. |
| PatioConfig.Salvar | app/patio-config.js:38-56 | Saving is refused, with the "Digite o nome do pátio" alert and storage unchanged, exactly when the name is empty or only white space. Otherwise exactly one yard with the untrimmed name, the current rectangle and the zones is appended and selected, and theme and language are untouched. |
| PatioConfig.SalvarSelecaoValida | app/patio-config.js:48-53 | After saving, the selected yard is one of the stored yards. |
| ConectarPatio.BuscarESP32 | app/conectar-patio.js:23-28 | The search always yields exactly two devices, `esp32_1` then `esp32_2`, with distinct ids. |
| ConectarPatio.Buscar | app/conectar-patio.js:23-28 | Searching replaces the list with exactly the two fixed boards and keeps the typed name and the chosen device. |
| ConectarPatio.Selecionar | app/conectar-patio.js:76 | Tapping a device makes it the chosen one and changes nothing else. |
| ConectarPatio.DestaqueUnico | app/conectar-patio.js:74 | A listed device is highlighted iff its id equals the chosen device's id. After choosing the k-th found device exactly that one is highlighted, and none before any choice. |
| ConectarPatio.Cadastrar | app/conectar-patio.js:30-51 | Registration is refused, with the alert and storage unchanged, exactly when the name is empty or no device is chosen. Otherwise one yard is appended at the end with earlier entries unchanged. It is exactly the record of the given uid, the typed name, the chosen device's id and the creation time, and it becomes the selected yard. |
| ConectarPatio.CadastrarSelecaoValida | app/conectar-patio.js:47-48 | After registering, the selected yard is one of the stored yards. |
| ConectarPatio.NomeEmBrancoAceito | app/conectar-patio.js:31 | Only emptiness is checked: a one-space name is registered here, while the layout editor refuses it. |
| CadastroMoto.ValidarCampos | components/CadastroMotoAvancado.js:11-17 | Validation succeeds iff placa, chassi, cor and categoria are all non-empty. |
| CadastroMoto.RegistrarPosicao | components/CadastroMotoAvancado.js:19-32 | When validation fails there is no callback and the fields stay as they were. On success the callback, if present, receives exactly the four values, and all four fields become empty whether or not a callback was given. |
| CadastroMoto.CategoriaLivre | components/CadastroMotoAvancado.js:12 | Any non-empty category passes, including values other than "aluguel" and "aquisição", and is handed to the callback. |
| CadastroMoto.RegistrarDuasVezes | components/CadastroMotoAvancado.js:19-32 | Pressing twice without typing never fires the callback the second time. After a successful first press the form stays empty. |
| BuscaMoto.Resultados | components/BuscaMoto.js:8-11 | A moto is in the results iff it is in the list and the lowercased query is a substring of its lowercased placa or chassi. There are never more results than motos. |
| BuscaMoto.PosicoesDosResultados | components/BuscaMoto.js:8-11 | The results sit in the list at strictly increasing positions, and these are exactly the positions of the matching motos. A moto listed twice is therefore returned twice. |
| BuscaMoto.ResultadosFiltram | components/BuscaMoto.js:8-11 | The results are the list passed through `filter` with the plate-or-chassis test. |
| BuscaMoto.ResultadosSubsequencia | components/BuscaMoto.js:8 | The results are a subsequence of the input list, in the same order. |
| BuscaMoto.ResultadosIdempotente | components/BuscaMoto.js:8-11 | Filtering the results again with the same query returns them unchanged. |
| BuscaMoto.CaixaIrrelevante | components/BuscaMoto.js:9-10 | Queries that differ only in letter case give identical results. |
| BuscaMoto.MaiusculasIrrelevantes | components/BuscaMoto.js:9-10 | Typing the query in capitals gives the same results. |
| BuscaMoto.BuscaVazia | components/BuscaMoto.js:8-10 | The empty query returns exactly the motos that have a placa or a chassi. |
| BuscaMoto.SemIdentificacao | components/BuscaMoto.js:9-10 | A moto with neither placa nor chassi is never returned. |
| BuscaMoto.NenhumaEncontradaSse | components/BuscaMoto.js:35-37 | The "not found" line is shown iff the query is non-empty and no moto in the list matches it. |
| ThemeContext.Inicial | src/context/ThemeContext.js:9-11 | On first render the dark flag is true iff the system scheme is `'dark'`, and the language is `'pt'`. |
| ThemeContext.Carregar | src/context/ThemeContext.js:13-24 | A saved non-empty theme sets the flag to (saved == `'escuro'`), and a saved non-empty language replaces the language. A missing or empty entry leaves that part unchanged. |
| ThemeContext.Abrir | src/context/ThemeContext.js:9-24 | After start-up the flag comes from the saved theme if there is one, else from the system scheme. The language is the saved one if there is one, else `'pt'`. |
| ThemeContext.AlternarTema | src/context/ThemeContext.js:28-32 | Toggling negates the flag and saves `'escuro'` when the new flag is dark and `'claro'` otherwise. That saved theme reloads to the new flag over any state. Language and the yard entries are unchanged. |
| ThemeContext.AlternarDuasVezes | src/context/ThemeContext.js:28-32 | Toggling twice restores the preferences, and the saved theme then reloads to the original flag. |
| ThemeContext.MudarIdioma | src/context/ThemeContext.js:35-38 | Changing the language sets the state and the saved value to the same string. Reloading reproduces it iff it is non-empty. An empty choice reads back as no choice. |
| ThemeContext.EsquemaSoNaAbertura | src/context/ThemeContext.js:10-25 | The effect re-runs on a scheme change but does not read the scheme: re-running it over the started state changes nothing. With no saved theme the flag therefore keeps the value it took from the scheme at first render. |
| ThemeContext.PrimeiraAbertura | src/context/ThemeContext.js:9-24 | With nothing stored, start-up gives the first-render state: dark exactly when the system scheme is `'dark'`, language `'pt'`. |
| ThemeContext.IdiomaSobreviveReabertura | src/context/ThemeContext.js:35-38 | After a non-empty language is saved, a fresh start shows that language. |

The predicates `ConectarPatio.Destacado` (app/conectar-patio.js:74) and
`BuscaMoto.Corresponde` (components/BuscaMoto.js:9-10) carry no contract of
their own. What they decide is stated by `DestaqueUnico` and by
`Resultados`/`PosicoesDosResultados` respectively.

## Findings

| source | as written | input that shows it | evidently intended | confidence | as-written member | corrected member |
|---|---|---|---|---|---|---|
| app/patio-config.js:113-155 | The pan handlers are created once inside `useRef`. They close over the `box` prop of the first render, and each release writes `{...box, …}` built from that stale box. | A zone at x = 70 dragged 10 to the right twice ends at x = 80. A rename followed by a drag restores "Zona 1". A drag then a resize puts the zone back at x = 70. | Each release starts from the zone as it currently is and changes only its rectangle. Successive drags add up, and name and position survive. | medium, not executed | PatioConfig.ComoEscritoPerdeEdicoes | PatioConfig.ArrastarZonaAcumula |

The as-written behaviour is modelled by `SoltarArrasteComoEscrito` and
`SoltarRedimensaoComoEscrito`. The editor session (`Aplicar`) uses the
corrected `ArrastarZona` and `RedimensionarZona`, and the corrected drag and
resize of the yard rectangle. The yard rectangle's handlers have the same
stale capture in the source.

## Left out

- Device storage as JSON strings under `@lista_patios`, `@patio_selecionado`, `@tema` and `@idioma`, and `JSON.parse`/`stringify`: storage is an abstract record. An absent yard list reads as empty. A stored empty string counts as absent, as JavaScript truthiness makes it.
- React hooks, re-render timing and the asynchronous order of state and storage writes: each action is one atomic step.
- The live preview while a gesture moves (`onPanResponderMove`): it only changes the drawn box and never the stored zones. Only the release is modelled.
- Gesture plumbing: a gesture is reduced to its final `dx`/`dy`.
- Id and timestamp generation (`Date.now()`, `uuid.v4()`, `new Date().toISOString()`): these are parameters. The source does not guarantee unique ids, and the model does not assume it.
- Alerts other than their text, `router.replace` navigation, `console.log` and the ESP32 "send" stub: side effects only. The cancel button only navigates.
- Coordinates use exact `real` arithmetic, not IEEE doubles, so rounding of fractional pixel deltas is not modelled.
- BuscaMoto.Resultados: `toLowerCase` is modelled for ASCII letters only. Non-ASCII case mappings (accented capitals, length-changing mappings) are not modelled, so case-insensitivity is proved only for ASCII letters.
- BuscaMoto.Resultados: a `placa` or `chassi` that is present but not a string (which would make `toLowerCase` throw) is not modelled. Both fields are optional strings.
- PatioConfig.Aplicar: the editor session applies the corrected drag and resize handlers, not the as-written ones, so `SessaoInvariante` describes the intended editor. The as-written handlers are modelled and compared separately (see Findings).
- Text.Lower: only A–Z are lowered. Non-ASCII capitals (accented letters and others) and case mappings that change a string's length are not modelled, so the row's "every other character is unchanged" holds for this model, not for JavaScript on such characters.
- Text.Includes and `length` count characters, not UTF-16 code units. The two agree on the emptiness tests the screens make.
- The map, summary, tab layout, navigation layout, HTTP wrappers and `app/index.js` are UI, configuration or network plumbing with no sequential logic, and are not part of this model.
