/** The record types the form and its service share. They carry no behaviour. */
module Types {
  import opened Js

  /** The form's fields: only the selected employee. */
  datatype FormData = FormData(employeeName: string)

  /** The JSON body sent to the processing endpoint. `fileData` is declared
      a string, but it is `undefined` (here `None`) when the data URL read
      from the file has no comma; `JSON.stringify` then leaves the key out. */
  datatype ApiPayload = ApiPayload(
    employeeName: string,
    fileData: Option<string>,
    fileName: string,
    mimeType: string)

  datatype StatusType = Success | Error | Info

  /** What the status banner shows; `statusType` is `type` in the source
      (a reserved word here), `None` standing for `null`. */
  datatype StatusState = StatusState(message: string, statusType: Option<StatusType>)

  /** The parsed response body. It is declared as `{status: 'success' |
      'error', message?: string}`, but nothing checks that, so the model keeps
      whatever the JSON carried. `status` is `None` when it is absent or not a
      string, which the strict test against `'error'` cannot tell apart.
      In a body whose `status` is `'error'`, `message` is `None` when it is
      absent or falsy (`null`, `0`, `false`), which `||` replaces alike; there
      a truthy non-string `message` makes `includes` throw, so such a body is
      not a parsed body at all but a `ParseFailed` outcome carrying that
      `TypeError`. For any other status `message` is never read, and a
      non-string one is `None`. */
  datatype ApiResponse = ApiResponse(status: Option<string>, message: Option<string>) {
    /** The body has the shape its declared type promises. */
    predicate Conforms() {
      status == Some("success") || status == Some("error")
    }
  }
}
