# CadPessoas front end — a Dafny model

CadPessoas is a React front end for a person registry backed by a REST API. By
default the API is at `http://localhost:8080/api` and its routes are `/pessoas`,
`/pessoas/{id}` and `/health`. This project models the application logic of
that front end and proves properties of the model. The logic covered is:

- **Service layer** (`api.dfy`, module `Api`). The response interceptor turns
  every failed HTTP call into one of three error kinds:
  - the server answered: its `message`, or "Erro <status>: <statusText>";
  - no answer: status 0;
  - anything else: "unexpected", with no status.

  `PessoaService` maps its six operations to verbs and paths. The model proves
  that this route table can be read backwards.
- **Error alert** (`error_message.dfy`, module `ErrorMessage`). It decides:
  - which text the alert shows;
  - which hint it adds for each HTTP status range;
  - which buttons appear;
  - when nothing is rendered.
- **Toasts** (`toast.dfy`, module `Toasts`). The provider's list of visible
  toasts is a class with a `seq` field. `addToast` and its four typed shortcuts
  append to it. `removeToast` filters by id. Each toast with a positive duration
  gets a removal timer. `useToast` fails outside a provider.
- **Person form** (`person_form.dfy`, module `PersonForm`). The form is a class
  holding:
  - the record being edited;
  - the validator's error map;
  - the set of touched fields.

  Its input, phone, blur and submit handlers update that state. Predicates
  decide:
  - which field shows an error;
  - whether the summary box appears;
  - whether the submit button is disabled.
- **Pages** (`list_pessoas.dfy`, `edit_pessoa.dfy`, `health_check.dfy`). Each
  page's `useState` variables are the fields of a class. Each asynchronous
  handler is split at its `await`:
  - a `Begin` method makes the state changes before the call and returns the
    service operation it issues;
  - an `End` method takes the settled outcome of that call, success or the
    classified error;
  - a composite method runs the two in sequence.

  Toasts and navigations are recorded as a trace of `Effect`s (`effects.dfy`).

`common.dfy` holds the building blocks:
- `Option` and `Result`;
- decimal rendering of integers, as JavaScript template literals do it, with a
  parser that proves the rendering can be read back;
- the order-preserving filter by key, shared by `removeToast` and the delete
  handler.

`pessoa.dfy` holds the person record and the field update
`{ ...prev, [field]: value }`.

## Model

| member | source | states |
|---|---|---|
| Api.ResponseMessage | src/services/api.js:18-21 | A non-empty server message is used verbatim. Otherwise the message is "Erro " + status + ": " + statusText. |
| Api.Classify | src/services/api.js:15-36 | Three cases, each with its message and status. A response gives the server's message, its status and its body. A sent request with no response gives the connection message and status 0. Anything else gives the "unexpected" message and no status. |
| Api.Intercept | src/services/api.js:13-37 | A successful response passes through unchanged. A failure is replaced by its classification. |
| Api.ResponseTakesPrecedence | src/services/api.js:16-25 | A received response is classified the same whether or not the request flag is set. The network branch is reached only without a response. |
| Api.ServerMessagePreferred | src/services/api.js:19 | Any non-empty server `message` is surfaced verbatim, whatever the status. |
| Api.StatusZeroMeansNoResponse | src/services/api.js:25-31 | Status 0 arises exactly for a sent request with no response, or for a response whose own status is 0. |
| Api.StatusUnsetMeansUnexpected | src/services/api.js:32-35 | The status is missing exactly in the "unexpected" branch, and the message is then the fixed text. |
| Api.ClassifiedMessageNonEmpty | src/services/api.js:18-34 | Every classified error carries a non-empty message. |
| Api.FallbackNamesStatus | src/services/api.js:20 | Without a server message, the text after "Erro " parses back to the HTTP status. |
| Api.RequestOf | src/services/api.js:47-129 | Reads are GET. Exactly the create and update operations send a body. Item operations address "/pessoas/" followed by the id. |
| Api.RouteRoundTrip | src/services/api.js:47-129 | Reading an operation's request back gives the same operation: no two operations share a verb and path. |
| Api.DeletePathNamesId | src/services/api.js:110 | A delete by numeric id uses DELETE on an item path whose suffix parses back to that id. |
| Api.Perform | src/services/api.js:47-129 | A service method returns `response.data` on success. It rethrows the interceptor's error unchanged on failure. |
| Api.PerformRemove | src/services/api.js:108-115 | `removerPessoa` succeeds exactly when the call does, and rethrows the classified error otherwise. |
| ErrorMessage.Message | src/components/common/ErrorMessage.jsx:16-20 | A string error is shown as is. A thrown error shows its non-empty message, or else the generic fallback. |
| ErrorMessage.Details | src/components/common/ErrorMessage.jsx:22-36 | Each hint holds for exactly one set of statuses, in the chain's order. Status 0 gets "offline". A status of 500 or more gets "server". 404 gets "not found". Any other 4xx gets "check the data". Everything else gets no hint. |
| ErrorMessage.Render | src/components/common/ErrorMessage.jsx:6-86 | Nothing is rendered exactly for a missing error or an empty string. Otherwise the alert shows the message and the hint. The retry button appears iff there is a retry handler. The dismiss button appears iff the alert is dismissible and has a dismiss handler. An omitted `dismissible` counts as true. |
| ErrorMessage.PageAlertHasBothButtons | src/pages/ListPessoas.jsx:131-135 | The pages pass a retry and a dismiss handler and omit `dismissible`, so their alert always shows both buttons. |
| ErrorMessage.TextHasNoDetails | src/components/common/ErrorMessage.jsx:22-36 | A string error never gets a hint. |
| ErrorMessage.ClassifiedMessageShown | src/components/common/ErrorMessage.jsx:18 | For interceptor errors the alert shows the error's own message, never the fallback. |
| ErrorMessage.ClassifiedDetails | src/components/common/ErrorMessage.jsx:22-36 | The hint for each kind of failure. A network failure gets the offline hint. An unexpected failure gets none. A response gets the hint of its status. |
| Toasts.MakeToast | src/components/common/Toast.jsx:22-24 | The toast keeps the message and id. The type defaults to info and the duration to 5000 ms when omitted. |
| Toasts.TimersFor | src/components/common/Toast.jsx:28-32 | A removal is scheduled iff the duration is positive. It is for that toast's id, after that duration. |
| Toasts.UseToast | src/components/common/Toast.jsx:10-15 | Inside a provider the hook returns its context. Outside one it fails with the fixed message. |
| Toasts.Without | src/components/common/Toast.jsx:37-39 | Only toasts of the list remain, none with the removed id, and every toast with another id remains. |
| Toasts.ToastProvider.constructor | src/components/common/Toast.jsx:20 | The provider starts with no toasts and no pending timers. |
| Toasts.ToastProvider.AddToast | src/components/common/Toast.jsx:22-35 | The new toast is appended after the existing ones. Its timer is scheduled iff the duration is positive. Its id is returned. |
| Toasts.ToastProvider.RemoveToast | src/components/common/Toast.jsx:37-39 | The list becomes the filtered list. |
| Toasts.ToastProvider.Expire | src/components/common/Toast.jsx:29-31 | A firing timer is discharged and removes its toast's id from the list. |
| Toasts.ToastProvider.ShowSuccess | src/components/common/Toast.jsx:41 | Same as `addToast` with type success. |
| Toasts.ToastProvider.ShowError | src/components/common/Toast.jsx:42 | Same as `addToast` with type error. |
| Toasts.ToastProvider.ShowWarning | src/components/common/Toast.jsx:43 | Same as `addToast` with type warning. |
| Toasts.ToastProvider.ShowInfo | src/components/common/Toast.jsx:44 | Same as `addToast` with type info. |
| Toasts.RemoveAbsent | src/components/common/Toast.jsx:37-39 | Removing an id that no toast has changes nothing. |
| Toasts.RemoveIdempotent | src/components/common/Toast.jsx:37-39 | Removing the same id twice is the same as removing it once. This covers a manual close followed by the timer. |
| Toasts.RemoveKeepsOrder | src/components/common/Toast.jsx:37-39 | Removal distributes over concatenation, so the survivors keep their order. |
| Toasts.AddThenRemove | src/components/common/Toast.jsx:22-39 | Adding a toast with a fresh id and then removing it restores the list. |
| Toasts.AddThenRemoveOther | src/components/common/Toast.jsx:22-39 | Removing another id after an add leaves the new toast last. |
| Common.IntToString | src/pages/ListPessoas.jsx:99 | The `${n}` rendering is non-empty and starts with a minus sign iff the number is negative. |
| Common.IntToStringRoundTrip | src/pages/ListPessoas.jsx:99 | The decimal text of a number parses back to that number. |
| Common.RemoveByKey | src/components/common/Toast.jsx:38 | The `filter` keeps only entries of the list whose key differs from the removed one, and keeps every such entry. |
| Pessoas.Set | src/components/forms/PersonForm.jsx:35-38 | Only the named field takes the new value. The other fields and the id are unchanged. |
| Pessoas.SetGet | src/components/forms/PersonForm.jsx:35-38 | Writing back a field's own value leaves the record unchanged. |
| Pessoas.SetSet | src/components/forms/PersonForm.jsx:35-38 | Of two writes to the same field, the last wins. |
| Pessoas.AllFieldsComplete | src/components/forms/PersonForm.jsx:57 | The submit handler's field list names every field of the form. |
| PersonForm.IsFieldInvalid | src/components/forms/PersonForm.jsx:81-83 | A field is outlined in red iff the warning box lists a non-empty error for it. |
| PersonForm.FieldError | src/components/forms/PersonForm.jsx:77-79 | A message appears under a field iff the field is outlined, so outline and message always agree. The message is the validator's non-empty error. |
| PersonForm.IsFormValid | src/components/forms/PersonForm.jsx:85-91 | The error map of a valid form passes the submit check. Only when the errors are in sync with the record (`EnabledButtonSubmits`) does pressing its button submit the record: the handler validates afresh. |
| PersonForm.FormValidIffRequiredFilled | src/components/forms/PersonForm.jsx:85-91 | The form is valid iff the error map is empty and every required field is non-empty. The required fields are all but the phone, and emptying the phone keeps a valid form valid. |
| PersonForm.ShowsErrorSummary | src/components/forms/PersonForm.jsx:231 | Whenever the box has an entry to list, it is shown. When shown, some error and some touched field exist. It can be shown with no entry, when only untouched fields have errors. |
| PersonForm.SubmitDisabled | src/components/forms/PersonForm.jsx:85-91 | The button at line 247 is enabled iff all of these hold: not loading, no errors, and nome, email, genero and dataNascimento non-empty. |
| PersonForm.SummaryEntries | src/components/forms/PersonForm.jsx:235-239 | The summary lists exactly the errors of touched fields, with their messages. |
| PersonForm.SubmitOutcome | src/components/forms/PersonForm.jsx:64-68 | The record is handed to `onSubmit` iff the validator's map is empty. |
| PersonForm.MarkTouched | src/components/forms/PersonForm.jsx:57-61 | The loop builds a set holding exactly the listed fields. |
| PersonForm.FormState.constructor | src/components/forms/PersonForm.jsx:17-19 | The record is the `pessoa` prop, or the empty person. There are no errors and nothing is touched. |
| PersonForm.FormState.Revalidate | src/components/forms/PersonForm.jsx:29-32 | Afterwards the errors are the validator's result on the current record. |
| PersonForm.FormState.SyncPessoa | src/components/forms/PersonForm.jsx:22-26 | A present `pessoa` replaces the record, which is then revalidated. A missing one changes nothing. |
| PersonForm.FormState.HandleInputChange | src/components/forms/PersonForm.jsx:34-45 | Only the edited field changes and it becomes touched. The errors are recomputed for the new record. |
| PersonForm.FormState.HandleTelefoneChange | src/components/forms/PersonForm.jsx:47-51 | The phone field stores the mask's output, not the raw input, and becomes touched. |
| PersonForm.FormState.HandleBlur | src/components/forms/PersonForm.jsx:114 | Leaving a field marks it touched and changes nothing else. |
| PersonForm.FormState.HandleSubmit | src/components/forms/PersonForm.jsx:53-69 | Every field becomes touched. The record is submitted iff a fresh validation finds no error. |
| PersonForm.SubmitRevealsErrors | src/components/forms/PersonForm.jsx:57-62 | After a submit every field shows its own error, if it has one. |
| PersonForm.SummaryAfterSubmit | src/components/forms/PersonForm.jsx:231-239 | After a submit the summary appears iff there is an error, and it lists every error. |
| PersonForm.EnabledButtonSubmits | src/components/forms/PersonForm.jsx:65-67 | With the errors in sync, pressing an enabled button submits the record. |
| PersonForm.SubmitGateIgnoresRequiredFields | src/components/forms/PersonForm.jsx:65-67 | The submit handler checks only the validator's map. If the validator accepts a record with an empty name, the handler submits it although the button is disabled. |
| ListPessoas.Subtitle | src/pages/ListPessoas.jsx:97-100 | Zero gives the "nobody" text. One gives "1 pessoa encontrada". Larger counts give the plural with the decimal count. |
| ListPessoas.SubtitleEmptyIff | src/pages/ListPessoas.jsx:97-100 | The "nobody" text appears exactly for the empty list. |
| ListPessoas.SubtitleInjective | src/pages/ListPessoas.jsx:97-100 | Different list sizes never share a subtitle, so the subtitle tells the size exactly. |
| ListPessoas.RemoveById | src/pages/ListPessoas.jsx:53 | Every survivor is from the list and lacks the deleted id. |
| ListPessoas.RemoveByIdExact | src/pages/ListPessoas.jsx:53 | No entry with the id remains. Every other entry keeps its number of occurrences. The filter distributes over concatenation, so order is kept. |
| ListPessoas.Page.constructor | src/pages/ListPessoas.jsx:13-18 | The page starts loading, with an empty list, no error, the dialog closed and nothing being deleted. |
| ListPessoas.Page.BeginCarregar | src/pages/ListPessoas.jsx:27-31 | Loading starts, the error clears, and the list request goes out. |
| ListPessoas.Page.EndCarregar | src/pages/ListPessoas.jsx:31-38 | On success the data replaces the list. On failure the error is kept, one error toast is emitted and the list stays. Loading ends either way. |
| ListPessoas.Page.CarregarPessoas | src/pages/ListPessoas.jsx:27-39 | The whole load. On success it leaves the page with the new list and no error. |
| ListPessoas.Page.DismissError | src/pages/ListPessoas.jsx:134 | Dismissing the alert clears the error. |
| ListPessoas.Page.HandleDeleteClick | src/pages/ListPessoas.jsx:41-43 | The dialog opens holding exactly the clicked person. |
| ListPessoas.Page.HandleDeleteCancel | src/pages/ListPessoas.jsx:64-66 | The dialog closes and lets go of the person. |
| ListPessoas.Page.BeginDeleteConfirm | src/pages/ListPessoas.jsx:45-50 | The held person's id becomes `deletingId`. The dialog (line 194) and exactly that person's cards (line 171) show loading. The delete request names that id. |
| ListPessoas.Page.EndDeleteConfirm | src/pages/ListPessoas.jsx:50-61 | On success the person is filtered out, a success toast names them and the dialog closes. On failure an error toast names them and the list and dialog stay. Nothing is loading afterwards. |
| ListPessoas.Page.CardLoading | src/pages/ListPessoas.jsx:171 | A card shows loading iff its person has an id and that id is being deleted. |
| ListPessoas.Page.DialogLoading | src/pages/ListPessoas.jsx:194 | The dialog shows loading iff a deletion is in progress. It does so whenever some card shows loading. |
| ListPessoas.Page.HandleDeleteConfirm | src/pages/ListPessoas.jsx:45-62 | The whole delete, in terms of the person the dialog held before it. Success removes them, closes the dialog and emits the success toast naming them. Failure keeps list and dialog and emits the error toast naming them. |
| EditPessoa.LoadFailureEffects | src/pages/EditPessoa.jsx:39-44 | A failed load redirects to the list iff its status is 404, after the "not found" toast. Any other failure emits only the load-error toast. |
| EditPessoa.SaveFailureMessage | src/pages/EditPessoa.jsx:64-66 | The save-error toast is the error's non-empty message, or the fallback text. It is never empty. |
| EditPessoa.SaveSuccessEffects | src/pages/EditPessoa.jsx:57-60 | A success toast naming the saved person, then navigation to the list. |
| EditPessoa.ViewOf | src/pages/EditPessoa.jsx:80-165 | A spinner iff loading. The error view iff not loading, with an error and no person. Otherwise the editor, which contains the form iff a person is loaded. |
| EditPessoa.NotFoundRedirects | src/pages/EditPessoa.jsx:39-41 | A server 404, after classification, leads back to the list. |
| EditPessoa.OtherFailuresStay | src/pages/EditPessoa.jsx:42-44 | A network failure or any other status never redirects. |
| EditPessoa.SaveFailureShowsClassifiedMessage | src/pages/EditPessoa.jsx:64-66 | For interceptor errors the save toast is the error's own message, never the fallback. |
| EditPessoa.Page.constructor | src/pages/EditPessoa.jsx:12-18 | The page starts loading for the URL's id, with no person, no error and no save in progress. |
| EditPessoa.Page.BeginCarregar | src/pages/EditPessoa.jsx:27-32 | Loading starts, the error clears, and the request for this id goes out. |
| EditPessoa.Page.EndCarregar | src/pages/EditPessoa.jsx:32-47 | On success the person is stored. On failure the error is kept and its effects are emitted. Loading ends. |
| EditPessoa.Page.CarregarPessoa | src/pages/EditPessoa.jsx:27-48 | The whole load. Success shows the form. A failure with no person loaded shows the error view. |
| EditPessoa.Page.BeginSave | src/pages/EditPessoa.jsx:50-55 | Saving starts and the update request for this id, carrying the form data, goes out. |
| EditPessoa.Page.EndSave | src/pages/EditPessoa.jsx:55-69 | Success emits a toast and a redirect. Failure emits one error toast and no redirect. Saving ends. |
| EditPessoa.Page.HandleSubmit | src/pages/EditPessoa.jsx:50-70 | The whole save. |
| EditPessoa.Page.HandleCancel | src/pages/EditPessoa.jsx:72-74 | Cancelling navigates to the list. |
| EditPessoa.Page.DismissError | src/pages/EditPessoa.jsx:113 | Dismissing the alert clears the error. |
| HealthCheck.StatusColor | src/pages/HealthCheck.jsx:67-71 | An error gives danger. Otherwise data gives success and no data gives secondary. |
| HealthCheck.StatusText | src/pages/HealthCheck.jsx:73-77 | "Offline", "Online" and "Verificando..." follow the same precedence as the colour. |
| HealthCheck.BadgeText | src/pages/HealthCheck.jsx:151-161 | While loading the badge says "Verificando...". Otherwise it shows the status text. |
| HealthCheck.ColorAgreesWithText | src/pages/HealthCheck.jsx:67-77 | `getStatusColor` and `getStatusText` agree in all three cases. |
| HealthCheck.BadgeMatchesColorWhenIdle | src/pages/HealthCheck.jsx:151-161 | When not loading, the badge reads "Offline" iff it is red and "Online" iff it is green. During a refresh after a good check the badge is green and reads "Verificando...". |
| HealthCheck.ResponseTimeColor | src/pages/HealthCheck.jsx:79-83 | Under 200 ms gives success. From 200 and under 500 gives warning. From 500 gives danger. |
| HealthCheck.ResponseTimeColorMonotone | src/pages/HealthCheck.jsx:79-83 | A slower response never gets a milder colour. |
| HealthCheck.ElapsedSeconds | src/pages/HealthCheck.jsx:94 | The whole seconds elapsed, rounded down (floor, also for negative gaps). |
| HealthCheck.FormatLastCheck | src/pages/HealthCheck.jsx:90-99 | "Nunca" without a check. Seconds under a minute, whole minutes under an hour, and the locale rendering beyond. |
| HealthCheck.MinutesShownAreWholeMinutes | src/pages/HealthCheck.jsx:97 | In the minutes range the number shown is 1 to 59 and is the elapsed time in whole minutes. |
| HealthCheck.Page.constructor | src/pages/HealthCheck.jsx:9-13 | The page starts loading, with no data, no error and no check yet, and auto-refresh on. |
| HealthCheck.Page.BeginVerificar | src/pages/HealthCheck.jsx:15-21 | Loading starts, the error clears, and the health request goes out. |
| HealthCheck.Page.EndVerificar | src/pages/HealthCheck.jsx:22-40 | Success stores the payload with the measured response time and timestamp. Failure stores the error and drops the data. The check time is recorded and loading ends either way. |
| HealthCheck.Page.VerificarHealth | src/pages/HealthCheck.jsx:15-41 | A whole check. Success leaves the page green and "Online". Failure leaves it red and "Offline". |
| HealthCheck.Page.ToggleAutoRefresh | src/pages/HealthCheck.jsx:63-65 | The switch flips. |

Where the code and the form's documented intent differ, the model follows the
code. The form marks its four required fields and keeps the button disabled
until they are filled, but `handleSubmit` itself only asks whether the
validator returned no errors. `PersonForm.SubmitGateIgnoresRequiredFields` states this gap. It is
harmless only when the validator reports empty required fields, and the
validator is not part of this model. The interceptor likewise does not branch on
the HTTP status range: the per-range hints are computed by the error alert
(`ErrorMessage.Details`).

## Left out

- Axios itself is not modelled: the base URL, headers and 10-second timeout (src/services/api.js:4-10) are configuration and transport. An HTTP call is a given outcome, either a response or an `AxiosError` with or without a response.
- JavaScript's `null` and `undefined` are collapsed into `None`, and a missing string is collapsed into `""`. Error bodies carry only their `message`. Other body fields are kept in the model only as far as the message needs them.
- `validarPessoa`, `aplicarMascaraTelefone`, `criarPessoaVazia` and `GENEROS_OPCOES` are not part of this model. The form receives the validator, the mask and the empty person as parameters, and nothing is assumed about them. An error map is keyed by the five form fields, so a key the validator might add outside them is not represented.
- PersonForm.FormState.HandleInputChange: the validation effect is folded into the handler. The render between the state update and the effect, with stale errors, is not represented.
- The handler `handleCancel` of the form (src/components/forms/PersonForm.jsx:71-75) only forwards to the optional `onCancel` prop and has no state of its own. It is left out. The edit page's own cancel is modelled as `EditPessoa.Page.HandleCancel`.
- Toasts.ToastProvider.AddToast: the id `Date.now() + Math.random()` is a caller-supplied integer. Its uniqueness is not assumed, so the toast lemmas state freshness as a hypothesis where they need it.
- Timers and time: `setTimeout`, `setInterval` (the 30-second auto-refresh), the 300 ms animations and the passage of time are not modelled. A timer firing is the explicit `Expire` step, and the clock readings are parameters.
- The locale and ISO date renderings (`toLocaleString`, `toISOString`, `formatTimestamp`) are passed in as text.
- ListPessoas.Page.BeginDeleteConfirm: requires that the dialog holds a person who has an id. The dialog is only opened from a card of a listed person, and listed people come from the server with ids. With `null` in place of a person the handler rejects without a toast, because the `catch` throws again while building the toast text. Only the `finally`'s `setDeletingId(null)` runs. That path is not modelled.
- ListPessoas.Page.HandleDeleteConfirm: requires that the dialog holds a person with an id, for the same reason.
- Interleavings of concurrent asynchronous handlers, and updates after a component unmounts, are not modelled. Each `End` step follows its own `Begin`.
- `console.error` logging, the JSX layout, icons, CSS classes, the response-time bar and the presentation-only components are not modelled. The same goes for the add page, whose create flow reuses the form and the service's `criarPessoa`.
- PersonForm.SummaryEntries: the summary is a map from field to message. The order in which `Object.entries(errors)` lists the entries follows the validator's key order, which is not part of this model.
- The retry buttons (`handleRetry`, `handleRefresh`) re-run the load. They are the same composite methods (`CarregarPessoas`, `CarregarPessoa`, `VerificarHealth`) and have no separate members.
