# Google Review evidence form: a Dafny model

The form lets a staff member pick an employee and attach a photo as proof of a
Google review. On submit it checks both are present. It then reads the photo as
a data URL and keeps the base64 text after the comma. It POSTs
`{employeeName, fileData, fileName, mimeType}` to a processing endpoint and
sorts the outcome into a success or exactly one error message. The user sees
that result in a status banner.

The model has five modules:

- `Js` (`js.dfy`): thrown values, promise settlement, and the JavaScript
  string built-ins the logic uses. These are `includes`, `split` on one
  character, and the decimal rendering of a status code. Each comes with
  lemmas tying it to an independent definition.
- `Types` (`types.dfy`): the records of `types.ts`.
- `Api` (`api.dfy`): `submitReview` as the total function `SubmitReview`.
  It maps how the single request ended (`FetchOutcome`) to a resolved body or
  a rejection with one `Error`. There is no second request and no retry: the
  function only sees one outcome.
- `App` (`app.dfy`): the data-URL strip and `fileToBase64`, the validation
  gate, and the class `ReviewForm`. The class has the component's six state
  fields and one method per handler. The two effects are folded into the
  setters `SetFile` and `SetStatus`, so every method leaves the state as it
  is once the effects have run. `handleSubmit` is split at its first `await`
  into `BeginSubmit` (gate and loading phase) and `FinishSubmit` (read,
  request, report). Other handlers may run between the two, as in the
  browser. `Submit` runs both back to back.
- `Scenarios` (`scenarios.dfy`): user runs checked only from the class's
  contracts. They cover a missing employee, a missing file, a failed
  request, HTTP 500, the Drive folder rewrite, a success, and removing a
  photo and picking another.

Browser calls become inputs:

- `fetch` and `response.json()` become `Api.FetchOutcome`.
- `FileReader` becomes `App.ReadOutcome`.
- Object URLs become `App.ObjectUrl` tokens handed out by a counter. A ghost
  set `liveUrls` records which of them are not yet revoked.

`response.ok` is not a separate input. It is derived from the status code
(200-299), as the Fetch Standard defines it.

In three places the code behaves differently from what its types or its
comments suggest. The model follows the code:

- A body counts as success whenever its `status` is anything other than
  `'error'`, including a missing status. The declared type `ApiResponse`
  (types.ts:19-22) allows only `'success' | 'error'`, but services/api.ts:27
  and :38 return any body whose `status` is not `'error'`.
  `ResolvedConformingIsSuccess` shows that for bodies of the declared shape
  only `'success'` is returned.
- A server-reported message that mentions `JSON` is not passed through. It
  is replaced by the invalid-format message, so it looks the same as an
  unparseable body (`JsonMentionLooksLikeBadBody`). The one exception is a
  message that also names both `getFolderById` and `DriveApp`. The folder
  rewrite at services/api.ts:31-32 comes first, so that message gives the
  configuration message.
- `fileData` is `undefined` (`None`) when the data URL has no comma, even
  though `ApiPayload` (types.ts:7) declares it a string. The request is
  still sent.

## Model

| member | source | states |
|---|---|---|
| `Js.IncludesIff` | services/api.ts:31 | `includes` holds exactly when the needle starts at some index of the string |
| `Js.IncludesInfix` | services/api.ts:31 | a string placed between any two others is found by `includes` |
| `Js.ExcludesMissingChar` | services/api.ts:42 | `includes` is false when the string lacks one of the needle's characters |
| `Js.SplitJoin` | App.tsx:17 | joining the parts of `split(',')` with the separator gives back the string |
| `Js.SplitPartsLackSep` | App.tsx:17 | no part of `split(',')` contains the separator |
| `Js.SplitPrefix` | App.tsx:17 | a separator-free prefix is glued onto the first part of the rest |
| `Js.SplitSingle` | App.tsx:17 | `split` gives one part exactly when the separator does not occur |
| `Js.NatToString` | services/api.ts:20 | `${status}` is a non-empty string of decimal digits with no leading zero |
| `Js.NatToStringRoundTrip` | services/api.ts:20 | reading the numeral back gives the status code |
| `Js.NatToStringInjective` | services/api.ts:20 | different codes render differently |
| `Api.SubmitReview` | services/api.ts:4-48 | every rejection is an `Error`. It resolves exactly on an ok response whose parsed body's status is not `'error'`, and then returns that body unchanged |
| `Api.NetworkFailureRejects` | services/api.ts:7-16 | a failed request gives the fixed connectivity message |
| `Api.NotOkIgnoresBody` | services/api.ts:18-21 | a status outside 200-299 gives the server error message for that code, whatever the body |
| `Api.ServerErrorShowsStatus` | services/api.ts:20 | the server error message contains the status code's numeral |
| `Api.ServerErrorDeterminesStatus` | services/api.ts:20 | the server error message determines the status code |
| `Api.ConnectivityLacksJson` | services/api.ts:15 | the connectivity message does not mention `JSON` (it is thrown outside the body's `try`, so this serves `RejectionNeverMentionsJson`) |
| `Api.DefaultPassesCatch` | services/api.ts:28-35 | the default server message does not mention `JSON` |
| `Api.DefaultNamesNoFolderCall` | services/api.ts:28-33 | the default server message does not name `getFolderById`, so the folder rewrite never applies to it |
| `Api.ConfigurationPassesCatch` | services/api.ts:31-44 | the configuration message survives the catch's `JSON` test |
| `Api.InvalidFormatLacksJson` | services/api.ts:47 | the invalid-format message does not mention `JSON` (the `catch` throws it itself, so this serves `RejectionNeverMentionsJson`) |
| `Api.ServerErrorLacksJson` | services/api.ts:20 | no server error message mentions `JSON`, for any status code (also thrown outside the body's `try`) |
| `Api.ServerReportedError` | services/api.ts:27-47 | for an ok body reporting `'error'`: a message with both `getFolderById` and `DriveApp` gives the configuration message, and one of them alone does not. Otherwise the message (or the default for an absent or empty one) is passed on, unless it mentions `JSON`, which gives the invalid-format message |
| `Api.MissingServerMessage` | services/api.ts:28 | an absent or empty message in an `'error'` body gives the default message |
| `Api.UnreadableBody` | services/api.ts:23-47 | an unreadable body gives the thrown `Error`'s message, or the invalid-format message when that message mentions `JSON` or the thrown value is not an `Error` |
| `Api.JsonMentionLooksLikeBadBody` | services/api.ts:31-47 | a server error mentioning `JSON` ends exactly like a parse failure mentioning `JSON`, unless it also names both `getFolderById` and `DriveApp`, which gives the configuration message |
| `Api.ResolvedConformingIsSuccess` | services/api.ts:27-38 | a returned body of the declared shape has status `'success'` |
| `Api.RejectionNeverMentionsJson` | services/api.ts:7-48 | no rejection message contains `JSON` |
| `App.DataUrlPayload` | App.tsx:17 | `split(',')[1]`: a payload, when there is one, contains no comma |
| `App.DataUrlPayloadPresent` | App.tsx:17 | `split(',')[1]` is defined exactly when the data URL has a comma |
| `App.DataUrlPayloadOf` | App.tsx:17 | for any header and text free of commas, followed by nothing or by a comma, the strip gives that text |
| `App.DataUrlPayloadShape` | App.tsx:17 | every stripped text sits right after the first comma and ends at the string's end or at the next comma |
| `App.FileToBase64` | App.tsx:11-24 | a string result resolves with its stripped text. A non-string result rejects with the read-failure `Error`. A read error rejects with a non-`Error` value |
| `App.ValidationError` | App.tsx:76-84 | the gate passes exactly when an employee and a file are present. An empty employee is reported first, then a missing file |
| `App.SubmissionOutcome` | App.tsx:89-99 | a read that does not give a string rejects with the read's own reason and never reaches the service. A read that gives a string ends exactly as `submitReview` does |
| `App.ErrorText` | App.tsx:106 | a non-`Error` shows 'An unexpected error occurred.'. The text is empty exactly for an `Error` with an empty message |
| `App.SubmissionOutcomeCases` | App.tsx:89-107 | the submission succeeds exactly when the read gives a string and the service resolves. A read error shows 'An unexpected error occurred.', while other failures show their `Error` message |
| `App.FailureTextEmptyOnlyForSilentParseError` | App.tsx:104-107 | a failure shows an empty (hidden) banner only when an ok response's body failed with an empty `Error` message |
| `App.ReviewForm.constructor` | App.tsx:27-32 | the initial state: no employee, no file, no preview, not loading, empty status, banner hidden |
| `App.ReviewForm.SetStatus` | App.tsx:45-51 | the status is set and the banner is shown exactly when its message is non-empty. Nothing else changes |
| `App.ReviewForm.SetFile` | App.tsx:35-43 | when the file really changes, the old object URL is revoked and a fresh one exists exactly for a new file. The same file again changes nothing |
| `App.ReviewForm.SelectEmployee` | App.tsx:54-57 | only the employee name changes |
| `App.ReviewForm.ChangeFile` | App.tsx:59-64 | with files, the first is staged and the status cleared. With none, nothing changes. Form data and loading are untouched |
| `App.ReviewForm.RemoveFile` | App.tsx:66-71 | the file and its preview are gone and no object URL is live. Form data, status and the count of URLs handed out are untouched |
| `App.ReviewForm.BeginSubmit` | App.tsx:73-87 | a failed gate sets its error status and changes nothing else, with no loading phase. A passed gate sets loading, the uploading status and the captured attempt |
| `App.ReviewForm.FinishSubmit` | App.tsx:89-110 | the payload is the captured employee, the stripped text, and the file's name and type, and it is sent only if the read resolved. Success thanks the user and resets form and file. Failure shows the error and keeps both. Loading ends on every path, and no object URL is handed out |
| `App.ReviewForm.Submit` | App.tsx:73-111 | the whole handler: a payload is sent exactly when the gate passes and the read resolves; then come the gate's or the outcome's exits as above. No object URL is handed out |

## Left out

- `fetch`, `response.json()`, `FileReader.readAsDataURL` and
  `URL.createObjectURL` / `revokeObjectURL` are browser calls. Their results
  are inputs, and object URLs are opaque counter tokens.
- Base64 encoding is done by the browser, so no encode/decode round trip is
  claimed.
- The request's method, CORS mode, endpoint and `JSON.stringify` body are not
  modelled. `constants.ts` (`SCRIPT_URL`, `EMPLOYEE_OPTIONS`) is not part of
  this model, so any employee name is allowed.
- `console.error` is a side channel and is not modelled. The same goes for
  `statusText`, which is only logged.
- The wording of engine-generated errors is not modelled. A body that fails
  to parse, or that parses to `null` (reading `.status` then throws a
  `TypeError`), is `ParseFailed` with an arbitrary thrown value.
- A falsy `message` (`null`, `0`, `false`) in an `'error'` body is the absent
  field, since `||` at services/api.ts:28 replaces it with the default. A
  truthy non-string `message` in an `'error'` body makes `serverMessage.includes` throw a
  `TypeError` at services/api.ts:31. The catch rethrows it, so the banner
  shows the engine's text. Such a body is represented as `ParseFailed` with
  that thrown value, not as a parsed body. An array `message`, whose own
  `includes` tests element equality instead of throwing, is not modelled.
  In a body with any other status `message` is never read, so a non-string
  one is the absent field.
- Dafny strings are sequences of Unicode scalar values, and JavaScript
  strings are sequences of UTF-16 code units. `includes` and `split(',')`
  behave the same on both only because every needle and the separator are
  ASCII. Strings holding lone surrogates cannot be represented.
- `FinishSubmit` stands for both `await`s together. A handler that runs
  between them writes nothing the continuation reads: it reads only the
  captured attempt. So the end state is the same as if that handler ran
  before `FinishSubmit`.
- React's render cycle is not modelled. The state is the one after the
  effects settle. The short render in which `previewUrl` still holds the
  revoked URL is not modelled, and neither is the effect cleanup on unmount.
- Resetting the file input's DOM value in `handleRemoveFile` is not modelled.
- The JSX render tree, `getStatusIcon` and `components/Icons.tsx` are
  presentation only. The disabled submit button appears only as
  `requires !isLoading` on `BeginSubmit` and `Submit`.
