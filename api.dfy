/** `submitReview`: one POST to the processing endpoint, and the decision
    between returning the parsed body and rejecting with exactly one `Error`.
    The request itself and the reading of the body are browser calls; their
    outcomes arrive here as a `FetchOutcome`. */
module Api {
  import opened Js
  import opened Types

  // The messages are written as concatenations of short pieces only so that
  // the verifier can see which characters they contain; each is one message.

  /** Shown when the request could not be made at all. */
  const ConnectivityMessage: string :=
    "ไม่สามารถเชื่อมต่อ" + "กับเซิร์ฟเวอร์ได้ " + "กรุณาตรวจสอบ"
    + "การเชื่อมต่ออินเทอร์เน็ต" + "ของคุณแล้วลองอีกครั้ง"

  const ServerErrorPrefix: string := "The server encountered an error " + "(Status: "
  const ServerErrorSuffix: string :=
    "). This may be due to a " + "server-side configuration issue, "
    + "such as incorrect Google Drive " + "folder permissions."

  /** Shown when a response arrives with a status outside 200-299. */
  function ServerErrorMessage(status: nat): string {
    ServerErrorPrefix + NatToString(status) + ServerErrorSuffix
  }

  /** Used when the server reports an error without a message. */
  const DefaultServerError: string := "The server reported " + "an error after " + "processing the request."

  /** Replaces a server error that names both `getFolderById` and `DriveApp`. */
  const ConfigurationErrorMessage: string :=
    "Server configuration error: " + "Could not access the Google " + "Drive folder. Please verify the "
    + "Folder ID in the Google Apps " + "Script and check its sharing " + "permissions."

  /** Shown for any caught error whose message mentions `JSON`. */
  const InvalidFormatMessage: string := "ได้รับรูปแบบการตอบกลับ" + "ที่ไม่ถูกต้องจากเซิร์ฟเวอร์"

  /** How reading the body as JSON ended: the parsed value, or the value
      thrown while reading or inspecting it (its wording is the engine's). */
  datatype BodyOutcome = Parsed(data: ApiResponse) | ParseFailed(error: Thrown)

  /** How `fetch` ended: it threw, or it returned a response whose status
      code is `status` and whose body, if read, gives `body`. */
  datatype FetchOutcome = NetworkFailure | Responded(status: nat, body: BodyOutcome)

  /** `response.ok`: the Fetch Standard defines it as a status in 200-299. */
  predicate IsOk(status: nat) {
    200 <= status <= 299
  }

  /** `data.message || default`: an absent or empty message is replaced. */
  function ServerMessage(data: ApiResponse): string {
    if data.message.Some? && data.message.value != "" then data.message.value else DefaultServerError
  }

  /** The `catch` around the body handling: an `Error` whose message does not
      mention `JSON` is re-thrown as it is; anything else becomes the
      invalid-format message. */
  function Rethrow(error: Thrown): Settled<ApiResponse> {
    if error.ErrorObject? && !Includes(error.message, "JSON") then Rejected(error)
    else Rejected(ErrorObject(InvalidFormatMessage))
  }

  /** The `try` block on a parsed body: a body reporting `'error'` throws,
      after the one rewrite for the Drive folder failure; any other is returned. */
  function InspectBody(data: ApiResponse): Settled<ApiResponse> {
    if data.status == Some("error") then
      var m := ServerMessage(data);
      if Includes(m, "getFolderById") && Includes(m, "DriveApp") then Rethrow(ErrorObject(ConfigurationErrorMessage))
      else Rethrow(ErrorObject(m))
    else Resolved(data)
  }

  /** `submitReview(payload)`, given how its one request ended. It rejects
      only with `Error` objects, and it resolves exactly when a successful
      response carried a body whose status is anything but `'error'`, giving
      that body back unchanged. */
  function SubmitReview(fetched: FetchOutcome): (r: Settled<ApiResponse>)
    ensures r.Rejected? ==> r.reason.ErrorObject?
    ensures r.Resolved? <==>
      fetched.Responded? && IsOk(fetched.status) && fetched.body.Parsed? && fetched.body.data.status != Some("error")
    ensures r.Resolved? ==> r.value == fetched.body.data
  {
    match fetched
    case NetworkFailure => Rejected(ErrorObject(ConnectivityMessage))
    case Responded(status, body) =>
      if !IsOk(status) then Rejected(ErrorObject(ServerErrorMessage(status)))
      else
        match body
        case ParseFailed(error) => Rethrow(error)
        case Parsed(data) => InspectBody(data)
  }

  // ---------------------------------------------------------------------
  // Properties of the classification

  /** A failed request gives the connectivity message, whatever else. */
  lemma NetworkFailureRejects()
    ensures SubmitReview(NetworkFailure) == Rejected(ErrorObject(ConnectivityMessage))
  {
  }

  /** A response outside 200-299 is rejected with its status code in the
      message, and its body is never looked at. */
  lemma NotOkIgnoresBody(status: nat, body: BodyOutcome, other: BodyOutcome)
    requires !IsOk(status)
    ensures SubmitReview(Responded(status, body)) == Rejected(ErrorObject(ServerErrorMessage(status)))
    ensures SubmitReview(Responded(status, body)) == SubmitReview(Responded(status, other))
  {
  }

  /** The server error message shows the status code's decimal numeral ... */
  lemma ServerErrorShowsStatus(status: nat)
    ensures Includes(ServerErrorMessage(status), NatToString(status))
  {
    IncludesInfix(ServerErrorPrefix, NatToString(status), ServerErrorSuffix);
  }

  /** ... and determines it: different codes give different messages. */
  lemma ServerErrorDeterminesStatus(m: nat, n: nat)
    requires ServerErrorMessage(m) == ServerErrorMessage(n)
    ensures m == n
  {
    var a, b := ServerErrorMessage(m), ServerErrorMessage(n);
    var lo := |ServerErrorPrefix|;
    assert a[lo..|a| - |ServerErrorSuffix|] == NatToString(m);
    assert b[lo..|b| - |ServerErrorSuffix|] == NatToString(n);
    NatToStringInjective(m, n);
  }

  /** None of the fixed messages mentions `JSON`. The connectivity message is
      thrown before the body's `try` block and the invalid-format message by
      the `catch` itself, so no `catch` tests either of them; for the default
      and configuration messages this is why the `catch` passes them on
      unchanged. The default message does not name the folder call either. */
  lemma ConnectivityLacksJson()
    ensures !Includes(ConnectivityMessage, "JSON")
  {
    assert 'J' !in ConnectivityMessage;
    ExcludesMissingChar(ConnectivityMessage, "JSON", 0);
  }

  lemma DefaultPassesCatch()
    ensures !Includes(DefaultServerError, "JSON")
  {
    assert 'J' !in DefaultServerError;
    ExcludesMissingChar(DefaultServerError, "JSON", 0);
  }

  lemma DefaultNamesNoFolderCall()
    ensures !Includes(DefaultServerError, "getFolderById")
  {
    assert "getFolderById"[3] == 'F' && 'F' !in DefaultServerError;
    ExcludesMissingChar(DefaultServerError, "getFolderById", 3);
  }

  lemma ConfigurationPassesCatch()
    ensures !Includes(ConfigurationErrorMessage, "JSON")
  {
    assert 'J' !in ConfigurationErrorMessage;
    ExcludesMissingChar(ConfigurationErrorMessage, "JSON", 0);
  }

  lemma InvalidFormatLacksJson()
    ensures !Includes(InvalidFormatMessage, "JSON")
  {
    assert 'J' !in InvalidFormatMessage;
    ExcludesMissingChar(InvalidFormatMessage, "JSON", 0);
  }

  /** Nor does the server error message, whatever the status code (it, too,
      is thrown before the body's `try` block). */
  lemma ServerErrorLacksJson(status: nat)
    ensures !Includes(ServerErrorMessage(status), "JSON")
  {
    assert 'J' !in ServerErrorPrefix && 'J' !in ServerErrorSuffix;
    assert 'J' !in NatToString(status);
    ExcludesMissingChar(ServerErrorMessage(status), "JSON", 0);
  }

  /** A body reporting `'error'` after a successful response: both names of
      the Drive folder failure give the configuration message (one alone is
      not enough); otherwise the server's message, or the default one when it
      is absent or empty, is passed on, unless it mentions `JSON`, in which
      case the invalid-format message replaces it. */
  lemma ServerReportedError(status: nat, data: ApiResponse)
    requires IsOk(status) && data.status == Some("error")
    ensures var r := SubmitReview(Responded(status, Parsed(data)));
      var m := if data.message.Some? && data.message.value != "" then data.message.value else DefaultServerError;
      && (Includes(m, "getFolderById") && Includes(m, "DriveApp") ==>
            r == Rejected(ErrorObject(ConfigurationErrorMessage)))
      && (!(Includes(m, "getFolderById") && Includes(m, "DriveApp")) && Includes(m, "JSON") ==>
            r == Rejected(ErrorObject(InvalidFormatMessage)))
      && (!(Includes(m, "getFolderById") && Includes(m, "DriveApp")) && !Includes(m, "JSON") ==>
            r == Rejected(ErrorObject(m)))
  {
    ConfigurationPassesCatch();
  }

  /** An absent or empty message in a body reporting `'error'` gives the default message. */
  lemma MissingServerMessage(status: nat, data: ApiResponse)
    requires IsOk(status) && data.status == Some("error")
    requires data.message.None? || data.message == Some("")
    ensures SubmitReview(Responded(status, Parsed(data))) == Rejected(ErrorObject(DefaultServerError))
  {
    DefaultPassesCatch();
    DefaultNamesNoFolderCall();
  }

  /** A body that could not be read gives the invalid-format message when the
      thrown value is not an `Error` or its message mentions `JSON`, and the
      thrown message itself otherwise. */
  lemma UnreadableBody(status: nat, error: Thrown)
    requires IsOk(status)
    ensures var r := SubmitReview(Responded(status, ParseFailed(error)));
      && (error.ErrorObject? && !Includes(error.message, "JSON") ==> r == Rejected(error))
      && (error.OtherValue? || Includes(error.message, "JSON") ==> r == Rejected(ErrorObject(InvalidFormatMessage)))
  {
  }

  /** Because of the `JSON` rule, a server-reported error that mentions JSON,
      and does not name both parts of the Drive folder failure, is shown
      exactly like a body that failed to parse with such a message. */
  lemma JsonMentionLooksLikeBadBody(status: nat, data: ApiResponse, error: Thrown)
    requires IsOk(status) && data.status == Some("error")
    requires data.message.Some? && Includes(data.message.value, "JSON")
    requires !(Includes(data.message.value, "getFolderById") && Includes(data.message.value, "DriveApp"))
    requires error.ErrorObject? && Includes(error.message, "JSON")
    ensures SubmitReview(Responded(status, Parsed(data))) == SubmitReview(Responded(status, ParseFailed(error)))
    ensures SubmitReview(Responded(status, Parsed(data))) == Rejected(ErrorObject(InvalidFormatMessage))
  {
  }

  /** A resolved body that has its declared shape reports `'success'`: of the
      declared statuses, only `'success'` is ever returned. */
  lemma ResolvedConformingIsSuccess(fetched: FetchOutcome)
    requires SubmitReview(fetched).Resolved? && SubmitReview(fetched).value.Conforms()
    ensures SubmitReview(fetched).value.status == Some("success")
  {
  }

  /** No rejection reaches the user with `JSON` in its message. */
  lemma RejectionNeverMentionsJson(fetched: FetchOutcome)
    requires SubmitReview(fetched).Rejected?
    ensures !Includes(SubmitReview(fetched).reason.message, "JSON")
  {
    ConnectivityLacksJson();
    ConfigurationPassesCatch();
    InvalidFormatLacksJson();
    DefaultPassesCatch();
    if fetched.Responded? && !IsOk(fetched.status) {
      ServerErrorLacksJson(fetched.status);
    }
  }
}
