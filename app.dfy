/** The review form: its six pieces of state, the handlers that change them,
    the two effects that derive the preview URL and the banner's visibility,
    and the submission pipeline (read the file, build the payload, submit,
    report). Browser calls are replaced by the outcomes they deliver. */
module App {
  import opened Js
  import opened Types
  import Api

  const SelectEmployeeMessage: string := "กรุณาเลือกพนักงาน"
  const SelectImageMessage: string := "กรุณาเลือกรูปภาพเพื่อเป็นหลักฐาน"
  const UploadingMessage: string := "กำลังอัปโหลดรีวิวของคุณ " + "กรุณารอสักครู่..."
  const ThankYouMessage: string := "ขอบคุณ! รีวิวของคุณ" + "ถูกส่งเรียบร้อยแล้ว"
  const UnexpectedErrorMessage: string := "An unexpected error occurred."
  const ReadFailedMessage: string := "Failed to read file as Base64 string."

  const InitialFormData: FormData := FormData("")
  const NoStatus: StatusState := StatusState("", None)

  /** A `File` the user picked. `id` stands for the object's identity, which
      is what React compares when deciding whether `file` changed. */
  datatype FileHandle = FileHandle(id: nat, name: string, mimeType: string)

  /** `reader.result` at `onload`: a string (the data URL), or something else. */
  datatype ReaderResult = TextResult(text: string) | NonTextResult

  /** How `readAsDataURL` ended: `onload` with a result, or `onerror`. */
  datatype ReadOutcome = Loaded(result: ReaderResult) | ReadError

  /** An object URL from `URL.createObjectURL`, as an opaque token. */
  datatype ObjectUrl = ObjectUrl(serial: nat)

  /** What the `handleSubmit` closure captured when validation passed. */
  datatype Attempt = Attempt(employeeName: string, file: FileHandle)

  // ---------------------------------------------------------------------
  // File encoding

  /** `dataUrl.split(',')[1]`: the text between the first comma and the next
      one, or `undefined` (`None`) when there is no comma at all. */
  function DataUrlPayload(dataUrl: string): (r: Option<string>)
    ensures r.Some? ==> ',' !in r.value
  {
    var parts := Split(dataUrl, ',');
    if |parts| >= 2 then SplitPartsLackSep(dataUrl, ',', 1); Some(parts[1]) else None
  }

  /** There is a payload exactly when the data URL has a comma. */
  lemma DataUrlPayloadPresent(dataUrl: string)
    ensures DataUrlPayload(dataUrl).Some? <==> ',' in dataUrl
  {
    SplitSingle(dataUrl, ',');
  }

  /** Whatever comes after the first comma, up to any second comma, is the payload. */
  lemma DataUrlPayloadOf(header: string, data: string, rest: string)
    requires ',' !in header && ',' !in data
    requires rest == [] || rest[0] == ','
    ensures DataUrlPayload(header + [','] + data + rest) == Some(data)
  {
    var t := data + rest;
    SplitPrefix(data, rest, ',');
    assert Split(rest, ',')[0] == [];
    assert Split(t, ',')[0] == data;
    var u := [','] + t;
    assert u[1..] == t;
    assert Split(u, ',') == [[]] + Split(t, ',');
    assert header + [','] + data + rest == header + u;
    SplitPrefix(header, u, ',');
  }

  /** Conversely, every payload is found that way: it sits right after the
      first comma and runs to the end or to the next comma. */
  lemma DataUrlPayloadShape(dataUrl: string) returns (header: string, rest: string)
    requires DataUrlPayload(dataUrl).Some?
    ensures dataUrl == header + [','] + DataUrlPayload(dataUrl).value + rest
    ensures ',' !in header && ',' !in DataUrlPayload(dataUrl).value
    ensures rest == [] || rest[0] == ','
  {
    var parts := Split(dataUrl, ',');
    SplitJoin(dataUrl, ',');
    SplitPartsLackSep(dataUrl, ',', 0);
    SplitPartsLackSep(dataUrl, ',', 1);
    header := parts[0];
    assert parts[1..][1..] == parts[2..];
    rest := if |parts| == 2 then [] else [','] + Join(parts[2..], ',');
    assert Join(parts, ',') == parts[0] + [','] + Join(parts[1..], ',');
  }

  /** `fileToBase64(file)`, given how the read ended: a string result resolves
      with its data-URL payload; any other result rejects with an `Error`; a
      read error rejects with the error event, which is not an `Error`. */
  function FileToBase64(read: ReadOutcome): (r: Settled<Option<string>>)
    ensures r.Resolved? <==> read.Loaded? && read.result.TextResult?
    ensures r.Resolved? ==> r.value == DataUrlPayload(read.result.text)
    ensures read == Loaded(NonTextResult) ==> r == Rejected(ErrorObject(ReadFailedMessage))
    ensures read.ReadError? ==> r == Rejected(OtherValue)
  {
    match read
    case Loaded(TextResult(text)) => Resolved(DataUrlPayload(text))
    case Loaded(NonTextResult) => Rejected(ErrorObject(ReadFailedMessage))
    case ReadError => Rejected(OtherValue)
  }

  // ---------------------------------------------------------------------
  // Submission pipeline

  /** The validation gate of `handleSubmit`: the first missing input's
      message, or `None` when both an employee and a file are present. */
  function ValidationError(formData: FormData, file: Option<FileHandle>): (err: Option<string>)
    ensures err.None? <==> formData.employeeName != "" && file.Some?
    ensures formData.employeeName == "" ==> err == Some(SelectEmployeeMessage)
    ensures formData.employeeName != "" && file.None? ==> err == Some(SelectImageMessage)
  {
    if formData.employeeName == "" then Some(SelectEmployeeMessage)
    else if file.None? then Some(SelectImageMessage)
    else None
  }

  /** The body sent for an attempt, once the file has been read. */
  function PayloadFor(attempt: Attempt, fileData: Option<string>): ApiPayload {
    ApiPayload(attempt.employeeName, fileData, attempt.file.name, attempt.file.mimeType)
  }

  /** How the two awaited steps of the `try` block end: a failed read rejects
      with the read's reason and never reaches the service; a read that gives a
      string ends as the submission does. */
  function SubmissionOutcome(read: ReadOutcome, fetched: Api.FetchOutcome): (r: Settled<ApiResponse>)
    ensures !(read.Loaded? && read.result.TextResult?) ==> r.Rejected? && r.reason == FileToBase64(read).reason
    ensures read.Loaded? && read.result.TextResult? ==> r == Api.SubmitReview(fetched)
  {
    match FileToBase64(read)
    case Rejected(reason) => Rejected(reason)
    case Resolved(_) => Api.SubmitReview(fetched)
  }

  /** The banner text of the `catch`: an `Error`'s message, otherwise a fixed
      one. It is empty, so the banner stays hidden, only for an `Error` whose
      message is empty. */
  function ErrorText(reason: Thrown): (text: string)
    ensures !reason.ErrorObject? ==> text == UnexpectedErrorMessage
    ensures text == "" <==> reason == ErrorObject("")
  {
    if reason.ErrorObject? then reason.message else UnexpectedErrorMessage
  }

  /** The submission succeeds exactly when the file reads as a string and the
      service resolves; a failed read never reaches the service. */
  lemma SubmissionOutcomeCases(read: ReadOutcome, fetched: Api.FetchOutcome)
    ensures SubmissionOutcome(read, fetched).Resolved? <==>
      read.Loaded? && read.result.TextResult? && Api.SubmitReview(fetched).Resolved?
    ensures read.ReadError? ==> ErrorText(SubmissionOutcome(read, fetched).reason) == UnexpectedErrorMessage
    ensures read == Loaded(NonTextResult) ==> ErrorText(SubmissionOutcome(read, fetched).reason) == ReadFailedMessage
    ensures read.Loaded? && read.result.TextResult? && SubmissionOutcome(read, fetched).Rejected? ==>
      ErrorText(SubmissionOutcome(read, fetched).reason) == Api.SubmitReview(fetched).reason.message
  {
  }

  /** A failed submission leaves the banner empty (so hidden) only when the
      body could not be read and the thrown `Error` had an empty message;
      every other failure shows a non-empty message. */
  lemma FailureTextEmptyOnlyForSilentParseError(read: ReadOutcome, fetched: Api.FetchOutcome)
    requires SubmissionOutcome(read, fetched).Rejected?
    requires ErrorText(SubmissionOutcome(read, fetched).reason) == ""
    ensures fetched.Responded? && Api.IsOk(fetched.status)
    ensures fetched.body == Api.ParseFailed(ErrorObject(""))
  {
  }

  // ---------------------------------------------------------------------
  // The component's state

  /** The component `App`: `formData`, `file`, `previewUrl`, `isLoading`,
      `status` and `showStatus` are its state; `pending` is the attempt an
      awaiting `handleSubmit` holds; `liveUrls` and `urlsCreated` record what
      the browser's object-URL registry holds and has handed out. */
  class ReviewForm {
    var formData: FormData
    var file: Option<FileHandle>
    var previewUrl: Option<ObjectUrl>
    var isLoading: bool
    var status: StatusState
    var showStatus: bool
    var pending: Option<Attempt>
    var urlsCreated: nat
    ghost var liveUrls: set<ObjectUrl>

    /** The state as it is once the effects have run: a preview exists exactly
        while a file is staged, it is the only object URL not yet revoked, and
        the banner is shown exactly when the status has a message. */
    ghost predicate Valid()
      reads this
    {
      && (previewUrl.Some? <==> file.Some?)
      && liveUrls == (if previewUrl.Some? then {previewUrl.value} else {})
      && (previewUrl.Some? ==> previewUrl.value.serial < urlsCreated)
      && showStatus == (status.message != "")
      && (isLoading <==> pending.Some?)
    }

    /** The initial `useState` values. */
    constructor ()
      ensures Valid()
      ensures formData == InitialFormData && file.None? && previewUrl.None?
      ensures !isLoading && status == NoStatus && !showStatus && pending.None?
      ensures liveUrls == {}
    {
      formData := InitialFormData;
      file := None;
      previewUrl := None;
      isLoading := false;
      status := NoStatus;
      showStatus := false;
      pending := None;
      urlsCreated := 0;
      liveUrls := {};
    }

    /** `setStatus(s)` followed by the effect on `status`. */
    method SetStatus(s: StatusState)
      requires Valid()
      modifies this
      ensures Valid()
      ensures status == s && showStatus == (s.message != "")
      ensures formData == old(formData) && file == old(file) && previewUrl == old(previewUrl)
      ensures isLoading == old(isLoading) && pending == old(pending)
      ensures urlsCreated == old(urlsCreated) && liveUrls == old(liveUrls)
    {
      status := s;
      showStatus := s.message != "";
    }

    /** `setFile(f)` followed by the effect on `file`: when the file really
        changes, the old preview URL is revoked and, for a new file, a fresh
        one is created; setting the same file again does nothing. */
    method SetFile(f: Option<FileHandle>)
      requires Valid()
      modifies this
      ensures Valid()
      ensures file == f
      ensures formData == old(formData) && status == old(status) && showStatus == old(showStatus)
      ensures isLoading == old(isLoading) && pending == old(pending)
      ensures f == old(file) ==>
        previewUrl == old(previewUrl) && urlsCreated == old(urlsCreated) && liveUrls == old(liveUrls)
      ensures f != old(file) && f.Some? ==>
        previewUrl == Some(ObjectUrl(old(urlsCreated))) && urlsCreated == old(urlsCreated) + 1
      ensures f != old(file) && f.None? ==> previewUrl.None? && urlsCreated == old(urlsCreated)
      ensures f != old(file) && old(previewUrl).Some? ==> old(previewUrl).value !in liveUrls
    {
      if f != file {
        if previewUrl.Some? {
          liveUrls := liveUrls - {previewUrl.value};
        }
        file := f;
        if f.Some? {
          var url := ObjectUrl(urlsCreated);
          urlsCreated := urlsCreated + 1;
          liveUrls := liveUrls + {url};
          previewUrl := Some(url);
        } else {
          previewUrl := None;
        }
      }
    }

    /** `handleInputChange` on the employee selector. */
    method SelectEmployee(value: string)
      requires Valid()
      modifies this
      ensures Valid()
      ensures formData == FormData(value)
      ensures file == old(file) && previewUrl == old(previewUrl) && status == old(status)
      ensures showStatus == old(showStatus) && isLoading == old(isLoading) && pending == old(pending)
      ensures urlsCreated == old(urlsCreated) && liveUrls == old(liveUrls)
    {
      formData := formData.(employeeName := value);
    }

    /** `handleFileChange`: with at least one file, stage the first one and
        clear the status; with none, change nothing. */
    method ChangeFile(files: seq<FileHandle>)
      requires Valid()
      modifies this
      ensures Valid()
      ensures formData == old(formData) && isLoading == old(isLoading) && pending == old(pending)
      ensures |files| == 0 ==>
        file == old(file) && previewUrl == old(previewUrl) && status == old(status) && showStatus == old(showStatus)
        && urlsCreated == old(urlsCreated) && liveUrls == old(liveUrls)
      ensures |files| > 0 ==> file == Some(files[0]) && status == NoStatus && !showStatus
      ensures |files| > 0 && Some(files[0]) == old(file) ==>
        previewUrl == old(previewUrl) && urlsCreated == old(urlsCreated) && liveUrls == old(liveUrls)
      ensures |files| > 0 && Some(files[0]) != old(file) ==>
        previewUrl == Some(ObjectUrl(old(urlsCreated))) && urlsCreated == old(urlsCreated) + 1
      ensures |files| > 0 && Some(files[0]) != old(file) && old(previewUrl).Some? ==>
        old(previewUrl).value !in liveUrls
    {
      if |files| > 0 {
        SetFile(Some(files[0]));
        SetStatus(NoStatus);
      }
    }

    /** `handleRemoveFile`: unstage the file, touching neither the form data
        nor the status. */
    method RemoveFile()
      requires Valid()
      modifies this
      ensures Valid()
      ensures file.None? && previewUrl.None? && liveUrls == {}
      ensures formData == old(formData) && status == old(status) && showStatus == old(showStatus)
      ensures isLoading == old(isLoading) && pending == old(pending)
      ensures urlsCreated == old(urlsCreated)
    {
      SetFile(None);
    }

    /** The part of `handleSubmit` before its first `await`: the validation
        gate, then, if it passes, the loading phase begins. The submit button
        is disabled while loading, so this is never entered twice. */
    method BeginSubmit() returns (started: bool)
      requires Valid() && !isLoading
      modifies this
      ensures Valid()
      ensures started <==> ValidationError(old(formData), old(file)).None?
      ensures formData == old(formData) && file == old(file) && previewUrl == old(previewUrl)
      ensures urlsCreated == old(urlsCreated) && liveUrls == old(liveUrls)
      ensures !started ==>
        status == StatusState(ValidationError(old(formData), old(file)).value, Some(Error))
        && !isLoading && pending.None?
      ensures started ==>
        status == StatusState(UploadingMessage, Some(Info))
        && isLoading && pending == Some(Attempt(old(formData).employeeName, old(file).value))
    {
      var err := ValidationError(formData, file);
      if err.Some? {
        SetStatus(StatusState(err.value, Some(Error)));
        return false;
      }
      isLoading, pending := true, Some(Attempt(formData.employeeName, file.value));
      SetStatus(StatusState(UploadingMessage, Some(Info)));
      started := true;
    }

    /** The rest of `handleSubmit`, once the read and the request have ended:
        the payload is built from what was captured, and on success the status
        thanks the user and the form is reset, on failure the status shows the
        error and the form is kept; loading ends either way. Returns the
        payload sent, if the read let it be sent. */
    method FinishSubmit(read: ReadOutcome, fetched: Api.FetchOutcome) returns (sent: Option<ApiPayload>)
      requires Valid() && pending.Some?
      modifies this
      ensures Valid()
      ensures !isLoading && pending.None? && urlsCreated == old(urlsCreated)
      ensures var enc := FileToBase64(read);
        sent == (if enc.Resolved? then Some(PayloadFor(old(pending).value, enc.value)) else None)
      ensures var outcome := SubmissionOutcome(read, fetched);
        && (outcome.Resolved? ==>
              status == StatusState(ThankYouMessage, Some(Success)) && showStatus
              && formData == InitialFormData && file.None? && previewUrl.None? && liveUrls == {})
        && (outcome.Rejected? ==>
              status == StatusState(ErrorText(outcome.reason), Some(Error))
              && formData == old(formData) && file == old(file) && previewUrl == old(previewUrl)
              && liveUrls == old(liveUrls))
    {
      var attempt := pending.value;
      var enc := FileToBase64(read);
      var outcome: Settled<ApiResponse>;
      if enc.Resolved? {
        sent := Some(PayloadFor(attempt, enc.value));
        outcome := Api.SubmitReview(fetched);
      } else {
        sent := None;
        outcome := Rejected(enc.reason);
      }
      if outcome.Resolved? {
        SetStatus(StatusState(ThankYouMessage, Some(Success)));
        formData := InitialFormData;
        RemoveFile();
      } else {
        SetStatus(StatusState(ErrorText(outcome.reason), Some(Error)));
      }
      isLoading, pending := false, None;
    }

    /** `handleSubmit` from start to end, with nothing else happening while it
        awaits. Only a submission that passes validation and reads the file
        sends a payload, and that payload holds the selected employee, the
        encoded text and the file's name and type. */
    method Submit(read: ReadOutcome, fetched: Api.FetchOutcome) returns (sent: Option<ApiPayload>)
      requires Valid() && !isLoading
      modifies this
      ensures Valid()
      ensures !isLoading && pending.None? && urlsCreated == old(urlsCreated)
      ensures sent.Some? <==> ValidationError(old(formData), old(file)).None? && FileToBase64(read).Resolved?
      ensures sent.Some? ==> sent.value == ApiPayload(
        old(formData).employeeName, FileToBase64(read).value, old(file).value.name, old(file).value.mimeType)
      ensures ValidationError(old(formData), old(file)).Some? ==>
        status == StatusState(ValidationError(old(formData), old(file)).value, Some(Error))
        && formData == old(formData) && file == old(file) && previewUrl == old(previewUrl)
        && urlsCreated == old(urlsCreated) && liveUrls == old(liveUrls)
      ensures ValidationError(old(formData), old(file)).None? ==>
        var outcome := SubmissionOutcome(read, fetched);
        && (outcome.Resolved? ==>
              status == StatusState(ThankYouMessage, Some(Success))
              && formData == InitialFormData && file.None? && previewUrl.None? && liveUrls == {})
        && (outcome.Rejected? ==>
              status == StatusState(ErrorText(outcome.reason), Some(Error))
              && formData == old(formData) && file == old(file) && previewUrl == old(previewUrl)
              && liveUrls == old(liveUrls))
    {
      var started := BeginSubmit();
      if started {
        sent := FinishSubmit(read, fetched);
      } else {
        sent := None;
      }
    }
  }
}
