/** Runs of the form that a user can cause, checked from the contracts of
    `App.ReviewForm` alone: the validation messages, the connectivity and
    server errors, the Drive folder rewrite, a success, and replacing the
    photo. */
module Scenarios {
  import opened Js
  import opened Types
  import opened App
  import Api

  const Photo: FileHandle := FileHandle(1, "review.png", "image/png")

  /** No employee selected: the first message, and nothing is sent. */
  method NoEmployee(read: ReadOutcome, fetched: Api.FetchOutcome) {
    var form := new ReviewForm();
    form.ChangeFile([Photo]);
    var sent := form.Submit(read, fetched);
    assert sent.None? && form.status == StatusState(SelectEmployeeMessage, Some(Error));
    assert form.file == Some(Photo) && !form.isLoading;
  }

  /** An employee but no file: the second message, and nothing is sent. */
  method NoFile(read: ReadOutcome, fetched: Api.FetchOutcome) {
    var form := new ReviewForm();
    form.SelectEmployee("Somchai");
    var sent := form.Submit(read, fetched);
    assert sent.None? && form.status == StatusState(SelectImageMessage, Some(Error));
    assert form.formData == FormData("Somchai");
  }

  /** The request fails: the connectivity message, and the form is kept. */
  method RequestFails(dataUrl: string) {
    var form := new ReviewForm();
    form.SelectEmployee("Somchai");
    form.ChangeFile([Photo]);
    var sent := form.Submit(Loaded(TextResult(dataUrl)), Api.NetworkFailure);
    assert sent == Some(ApiPayload("Somchai", DataUrlPayload(dataUrl), "review.png", "image/png"));
    assert form.status == StatusState(Api.ConnectivityMessage, Some(Error));
    assert form.formData == FormData("Somchai") && form.file == Some(Photo) && form.previewUrl.Some?;
  }

  /** HTTP 500: the error names the status code. */
  method ServerFails(dataUrl: string, body: Api.BodyOutcome) {
    var form := new ReviewForm();
    form.SelectEmployee("Somchai");
    form.ChangeFile([Photo]);
    var sent := form.Submit(Loaded(TextResult(dataUrl)), Api.Responded(500, body));
    Api.ServerErrorShowsStatus(500);
    assert NatToString(500) == "500";
    assert form.status.statusType == Some(Error) && Includes(form.status.message, "500");
  }

  /** The Drive folder failure reported in a 200 response is rewritten. */
  method FolderNotShared(dataUrl: string) {
    var form := new ReviewForm();
    form.SelectEmployee("Somchai");
    form.ChangeFile([Photo]);
    var before, between, after := "Exception: ", " failed: ", " denied";
    var m := before + "getFolderById" + (between + "DriveApp" + after);
    IncludesInfix(before, "getFolderById", between + "DriveApp" + after);
    assert m == (before + "getFolderById" + between) + "DriveApp" + after;
    IncludesInfix(before + "getFolderById" + between, "DriveApp", after);
    var data := ApiResponse(Some("error"), Some(m));
    Api.ServerReportedError(200, data);
    var sent := form.Submit(Loaded(TextResult(dataUrl)), Api.Responded(200, Api.Parsed(data)));
    assert form.status == StatusState(Api.ConfigurationErrorMessage, Some(Error));
  }

  /** A 200 response with `{"status": "success"}`: thanks, and the form is reset. */
  method Succeeds(dataUrl: string) {
    var form := new ReviewForm();
    form.SelectEmployee("Somchai");
    form.ChangeFile([Photo]);
    var data := ApiResponse(Some("success"), None);
    var sent := form.Submit(Loaded(TextResult(dataUrl)), Api.Responded(200, Api.Parsed(data)));
    assert form.status == StatusState(ThankYouMessage, Some(Success)) && form.showStatus;
    assert form.formData == InitialFormData && form.file.None? && form.liveUrls == {};
  }

  /** The file input is shown only while no photo is staged, so a photo is
      replaced by removing it and picking another: the first preview URL is
      revoked for good, and only the new one is live. */
  method ReplacePhoto() {
    var form := new ReviewForm();
    form.ChangeFile([Photo]);
    var first := form.previewUrl.value;
    form.RemoveFile();
    var other := FileHandle(2, "review.png", "image/png");
    form.ChangeFile([other]);
    assert form.file == Some(other);
    assert first !in form.liveUrls && form.liveUrls == {form.previewUrl.value};
  }
}
