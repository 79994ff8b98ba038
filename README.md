# Product and category forms — a Dafny model

This project models the two data-entry pages of a catalog administration
frontend, written in React and TypeScript:

- **The product creation form** (`NovoProdutoForm`). It covers:
  - the field-update rules: the price input filters its keystrokes into a raw text buffer; the price is parsed and reformatted on blur; select values become numbers; the text inputs are trimmed on blur;
  - the client-side validator, which collects every violated rule;
  - the create payload built from a form the validator accepts;
  - the remapping of a server's field errors (HTTP 422) onto the form's inputs;
  - the choice of the error banner;
  - the submission itself, split in two: everything up to the awaited `createProduto` call (`BeginSubmit`), and what happens once that call returns or throws (`CompleteSubmit`).
- **The category creation form** (`FormularioNovaCategoria`). It has one input, a save call without client-side validation, and the banner chosen after a failed save.

Modules:

- `Js` holds the small part of JavaScript the pages rely on:
  - numbers as integers or NaN; money is held as an integer number of cents;
  - the `number | ""` field convention;
  - truthiness and `||` on optional strings;
  - `trim`, with the full ECMAScript whitespace set;
  - `includes` and `join`.
- `Api` holds the payloads of the two services and the shapes a failed call can take. An `Outcome` is either `Ok` or `Err(failure)`, where a failure is one of three things:
  - an HTTP error with or without a body;
  - another `Error`;
  - a thrown value that is not an `Error`.
- `NovoProduto` holds the product form: pure rules as functions and lemmas, and the page's state as the class `NovoProdutoForm`, whose methods are the event handlers.
- `NovaCategoria` holds the category form in the same style, with the class `NovaCategoriaForm`.

The parsing and formatting helpers are parameters of the operations that use them, because their code is not part of this model:

- `Number` becomes `parse: string -> Num`;
- `unmaskCurrency` becomes `unmask: string -> Num`;
- `formatToBRL` becomes `format: Num -> string`.

The service calls are not modelled. Their result reaches the second half of a submission as an `Outcome`.

Behaviour of the code that a reader might not expect, kept as written:

- **The category form's structured-error check.** It tests `Array.isArray(data.errors)` but then maps over `data.erros`.
  - The model keeps this as written: `NovaCategoria.ErrorsContentIgnored`, `NovaCategoria.ErrorsOnlyMessagesDropped` and `NovaCategoria.BannerMissingIff` state its consequences.
  - When `erros` is truthy but not an array, `.map` throws inside the `catch` block. No banner is set then; only the `finally` block runs.
- **A price that unmasks to zero.** It is committed as the empty sentinel, so the validator reports it as missing ("obrigatório"), not as non-positive (`NovoProduto.ZeroPriceReportedAsMissing`).
- **A NaN category id.** The category rule only rejects the empty sentinel, so a category id that parses to NaN passes validation and is sent as `{id: NaN}`.
- **The category form has no validation at all.** An empty name is sent to the service as it is.
- **The category form does not clear an earlier success banner** when a new save starts.
- **A plain `Error` (an axios error without a response included).** The product form shows its message; the category form shows its default text.

## Model

| member | source | states |
|---|---|---|
| `Js.TrimSpec` | frontend/src/pages/produtos/novo-produto/index.tsx:175-176 | `trim` returns a window of its input, and everything outside that window is whitespace; a non-empty result neither starts nor ends with whitespace |
| `Js.TrimStartSpec` | frontend/src/pages/produtos/novo-produto/index.tsx:175-176 | stripping the leading whitespace gives a suffix, cuts whitespace only, and stops at a non-whitespace character |
| `Js.TrimEndSpec` | frontend/src/pages/produtos/novo-produto/index.tsx:175-176 | stripping the trailing whitespace gives a prefix, cuts whitespace only, and stops at a non-whitespace character |
| `Js.TrimFixed` | frontend/src/pages/produtos/novo-produto/index.tsx:397-406 | a string without whitespace at either end is its own trim |
| `Js.TrimIdempotent` | frontend/src/pages/produtos/novo-produto/index.tsx:397-406 | trimming twice is trimming once, so the trim on blur is stable |
| `Js.TrimEmptyIff` | frontend/src/pages/produtos/novo-produto/index.tsx:180 | the trim is empty exactly when the text is whitespace only |
| `Js.JoinIncludesEach` | frontend/src/pages/categorias/formulario-nova-categoria/index.tsx:42-45 | every element of an array appears in its `join` |
| `Js.JoinLength` | frontend/src/pages/categorias/formulario-nova-categoria/index.tsx:42-45 | the length of a join is the sum of the elements' lengths plus one separator between each pair |
| `NovoProduto.NomeRuleCases` | frontend/src/pages/produtos/novo-produto/index.tsx:180-187 | the name passes iff its trimmed length is in [3, 100]; it is "obrigatório" iff it is whitespace only, and gets the length message otherwise |
| `NovoProduto.DescricaoRuleCases` | frontend/src/pages/produtos/novo-produto/index.tsx:190-197 | the description passes iff its trimmed length is at least 10; it is "obrigatório" iff it is whitespace only, and gets the minimum-length message otherwise |
| `NovoProduto.ValorRuleCases` | frontend/src/pages/produtos/novo-produto/index.tsx:200-209 | the price passes iff it is a number greater than zero; the empty sentinel and NaN are "obrigatório"; any amount of at most zero gets the positive message |
| `NovoProduto.ValidateCollectsEveryViolation` | frontend/src/pages/produtos/novo-produto/index.tsx:172-221 | a field has a validation entry iff its own rule fails, and the entry is that rule's message; no other name gets an entry; no rule stops the others |
| `NovoProduto.ValidateEmptyIff` | frontend/src/pages/produtos/novo-produto/index.tsx:173-221 | the validation errors are non-empty iff at least one of the five rules fails |
| `NovoProduto.ValidateCleanIff` | frontend/src/pages/produtos/novo-produto/index.tsx:180-224 | there are no validation errors iff the form meets every rule (both directions) |
| `NovoProduto.ValidateIgnoresTrim` | frontend/src/pages/produtos/novo-produto/index.tsx:397-434 | trimming the name or the description on blur never changes the validator's verdict |
| `NovoProduto.CollectValidationErrors` | frontend/src/pages/produtos/novo-produto/index.tsx:172-221 | the step-by-step validation block computes exactly the validator's errors, and raises `hasFrontendError` iff the form is rejected |
| `NovoProduto.NoErrorsMerge` | frontend/src/pages/produtos/novo-produto/index.tsx:161-167 | merging entries over the cleared errors keeps an entry for each of the five fields, and merging nothing leaves the cleared errors |
| `NovoProduto.BuildPayload` | frontend/src/pages/produtos/novo-produto/index.tsx:235-244 | the payload carries the trimmed texts, the price and the category id of the form, and one `{id}` per selected store in order |
| `NovoProduto.PayloadWellFormed` | frontend/src/pages/produtos/novo-produto/index.tsx:224-244 | a payload is only ever built with trimmed texts of valid length, a positive price and at least one numeric store id |
| `NovoProduto.PayloadRoundTrip` | frontend/src/pages/produtos/novo-produto/index.tsx:235-244 | every well-formed payload is the payload of some accepted form, rebuilt exactly from that form |
| `NovoProduto.PayloadKeepsForm` | frontend/src/pages/produtos/novo-produto/index.tsx:235-244 | building the payload loses nothing but the whitespace around the two texts |
| `NovoProduto.ClientFieldKeepsFormKeys` | frontend/src/pages/produtos/novo-produto/index.tsx:283-287 | the remapping of server field names leaves the form's own five field names unchanged |
| `NovoProduto.ClientFieldIdempotent` | frontend/src/pages/produtos/novo-produto/index.tsx:283-287 | remapping a remapped name changes nothing |
| `NovoProduto.RemapKeys` | frontend/src/pages/produtos/novo-produto/index.tsx:278-292 | a field gets a server error iff some entry of the server's list maps onto it |
| `NovoProduto.RemapLastWins` | frontend/src/pages/produtos/novo-produto/index.tsx:279-292 | when several server errors map onto one field, the last one decides its message |
| `NovoProduto.CollectServerErrors` | frontend/src/pages/produtos/novo-produto/index.tsx:278-292 | the `forEach` loop builds exactly the remapped errors, and replaces the default banner with the body's `message` only when the list is non-empty |
| `NovoProduto.ServerFieldErrorsOnlyFromStructured` | frontend/src/pages/produtos/novo-produto/index.tsx:273-296 | field errors come from the server iff the response is a 422 with a non-empty `errors` array; the banner is then the body's `message` or the default |
| `NovoProduto.UnstructuredBanner` | frontend/src/pages/produtos/novo-produto/index.tsx:297-300 | any other body sets no field error, and the banner is `message`, else `error`, else the default |
| `NovoProduto.CategoriaIdErrorScenario` | frontend/src/pages/produtos/novo-produto/index.tsx:283-289 | a 422 naming `categoria.id` puts its message on the category select |
| `NovoProduto.KeepCurrencyChars` | frontend/src/pages/produtos/novo-produto/index.tsx:92 | the keystroke filter returns no more characters than it got, and nothing but digits, commas and dots |
| `NovoProduto.KeepCurrencyCharsCounts` | frontend/src/pages/produtos/novo-produto/index.tsx:92 | the filter keeps every digit and separator, as often as it occurs, and drops every other character |
| `NovoProduto.KeepCurrencyCharsAppend` | frontend/src/pages/produtos/novo-produto/index.tsx:92 | the filter keeps the kept characters in their order: filtering a concatenation concatenates the filtered parts |
| `NovoProduto.KeepCurrencyCharsFixed` | frontend/src/pages/produtos/novo-produto/index.tsx:92 | text that is already filtered passes the filter unchanged |
| `NovoProduto.ParseIds` | frontend/src/pages/produtos/novo-produto/index.tsx:107-111 | the store ids are exactly the selected values that parse to a number; values that parse to NaN are dropped |
| `NovoProduto.ParseIdsAppend` | frontend/src/pages/produtos/novo-produto/index.tsx:107-111 | every value that parses is kept, copies included, in the order of the selection: the ids of a concatenation are the ids of its parts in turn |
| `NovoProduto.ParseIdsAllNumbers` | frontend/src/pages/produtos/novo-produto/index.tsx:107-111 | when every selected value parses, the ids are those numbers in the order of the selection |
| `NovoProduto.BlurCommits` | frontend/src/pages/produtos/novo-produto/index.tsx:126-150 | after a blur the committed price is never zero; it is empty iff the text was empty or unmasked to zero, and then the text is cleared; otherwise the unmasked amount is committed and shown formatted |
| `NovoProduto.BlurStable` | frontend/src/pages/produtos/novo-produto/index.tsx:126-150 | when the formatted text unmasks back to the same amount, a second blur changes nothing |
| `NovoProduto.ZeroPriceReportedAsMissing` | frontend/src/pages/produtos/novo-produto/index.tsx:137-204 | a price typed as zero is reported as missing ("obrigatório"), not as non-positive |
| `NovoProduto.NovoProdutoForm.constructor` | frontend/src/pages/produtos/novo-produto/index.tsx:51-81 | the page starts with an empty form, every field error null, an empty price text and no banner |
| `NovoProduto.NovoProdutoForm.HandleChange` | frontend/src/pages/produtos/novo-produto/index.tsx:85-124 | a price keystroke only replaces the raw text, filtered; a category becomes the empty sentinel or a number; the stores become the parsed ids; a text input stores its value; nothing else changes |
| `NovoProduto.NovoProdutoForm.HandleBlurValor` | frontend/src/pages/produtos/novo-produto/index.tsx:126-150 | the price text and the committed price become what `BlurValor` gives for the old text; the rest of the form is unchanged |
| `NovoProduto.NovoProdutoForm.HandleBlurText` | frontend/src/pages/produtos/novo-produto/index.tsx:397-434 | the name or description is replaced by its trim, and the validator's verdict is unchanged |
| `NovoProduto.NovoProdutoForm.BeginSubmit` | frontend/src/pages/produtos/novo-produto/index.tsx:152-247 | both banners are cleared and the field errors become the cleared errors merged with the validator's; a request is sent iff the form is accepted, it is the payload built from the form and it is well-formed; the form stays submitting iff a request was sent |
| `NovoProduto.NovoProdutoForm.CompleteSubmit` | frontend/src/pages/produtos/novo-produto/index.tsx:247-310 | success shows the success banner, empties the form and the price text and schedules the navigation; a failure sets the banner `ProductBanner` chooses and merges the server's field errors over the current ones; submitting ends either way |
| `NovoProduto.ShortNameScenario` | frontend/src/pages/produtos/novo-produto/index.tsx:183-186 | a two-letter name blocks the submission with the length message |
| `NovaCategoria.MessagesSpec` | frontend/src/pages/categorias/formulario-nova-categoria/index.tsx:42-44 | the mapped messages are one per element, in order, and a missing message renders as the empty string |
| `NovaCategoria.DefaultUnlessHttpBody` | frontend/src/pages/categorias/formulario-nova-categoria/index.tsx:36-37 | anything but an HTTP error with a body gets the default text |
| `NovaCategoria.BannerMissingIff` | frontend/src/pages/categorias/formulario-nova-categoria/index.tsx:38-46 | no banner is set iff `erros` is truthy but not an array while `errors` is an array (the handler throws) |
| `NovaCategoria.BannerNonEmpty` | frontend/src/pages/categorias/formulario-nova-categoria/index.tsx:36-51 | every banner that is set is a non-empty text, so the alert renders |
| `NovaCategoria.ListBannerCarriesEveryMessage` | frontend/src/pages/categorias/formulario-nova-categoria/index.tsx:42-46 | the structured banner contains every message of `erros`, after the fixed prefix and before the fixed suffix |
| `NovaCategoria.ErrorsContentIgnored` | frontend/src/pages/categorias/formulario-nova-categoria/index.tsx:38-46 | as written, the content of `errors` never affects the banner; only its being an array does |
| `NovaCategoria.ErrorsOnlyMessagesDropped` | frontend/src/pages/categorias/formulario-nova-categoria/index.tsx:38-49 | as written, field errors sent only under `errors` never reach the banner, which is the body's `error` or the default |
| `NovaCategoria.ErrosListed` | frontend/src/pages/categorias/formulario-nova-categoria/index.tsx:38-46 | two messages under `erros`, next to an empty `errors` array, are listed as "Dadps Invalidos: m1, m2. Tente novamente" |
| `NovaCategoria.NovaCategoriaForm.constructor` | frontend/src/pages/categorias/formulario-nova-categoria/index.tsx:15-18 | the page starts with an empty name, not loading, and no banner |
| `NovaCategoria.NovaCategoriaForm.HandleChange` | frontend/src/pages/categorias/formulario-nova-categoria/index.tsx:20-24 | the name becomes the input's value and nothing else changes |
| `NovaCategoria.NovaCategoriaForm.BeginSave` | frontend/src/pages/categorias/formulario-nova-categoria/index.tsx:26-31 | the form starts loading, the error banner is cleared, and the form data is sent as it is |
| `NovaCategoria.NovaCategoriaForm.CompleteSave` | frontend/src/pages/categorias/formulario-nova-categoria/index.tsx:31-55 | success shows the success banner, empties the name and schedules the navigation; a failure sets the banner `CategoryBanner` chooses, or leaves the error as it was when the handler throws; loading ends either way |
| `NovaCategoria.EmptyNameScenario` | frontend/src/pages/categorias/formulario-nova-categoria/index.tsx:26-31 | an empty name is sent to the service unchanged |

## Left out

- The JSX rendering, the Material UI components and the route table (`App.tsx`, `routes/index.tsx`): they are presentation and wiring, not logic.
- Loading the category and store lists when the product page mounts (novo-produto/index.tsx:314-349): it only fills the select options. Its failure handling is network I/O followed by a navigation.
- The timers:
  - the navigation after a successful save is modelled only as the flag `navigationScheduled`;
  - the 4-second dismissal of the error banner (novo-produto/index.tsx:306, formulario-nova-categoria/index.tsx:52) is not modelled.
- `unmaskCurrency`, `formatToBRL` and `Number` are parameters: their code is not part of this model.
- JavaScript numbers are integers or NaN. Fractional amounts and floating-point rounding are not modelled; money is held in cents.
- String lengths count Unicode code points where JavaScript counts UTF-16 code units. The two differ only for characters outside the Basic Multilingual Plane.
- The service calls are modelled as an `Outcome` given to the second half of a submission.
  - Concurrent submissions are excluded by the preconditions `!isSubmitting` and `!loading`, as the disabled submit buttons exclude them.
  - An unhandled rejection after the category handler throws is not modelled beyond "no banner is set".
- A `null` or `undefined` response body, which makes the product handler throw on `errorData.status`, is not modelled. `HttpError(None)` stands for an empty-string body, whose properties all read as undefined.
- Server error entries whose `field` is not a string (so that `.includes` would throw) are not modelled.
- `NovoProduto.NovoProdutoForm.HandleChange` takes one of the five field names. An input with any other `name` would add a new property to the form data in the source, and that is not modelled.
