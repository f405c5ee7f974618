/**
 * The new-knowledge-base page (app/home/knowledge/new/page.tsx): choosing
 * and removing files, validating the form before upload, reacting to the
 * upload response, and the progress-polling loop.
 */
module NewKnowledgePage {
  import opened Wrappers
  import opened JsText

  /** A chosen file, as far as the page uses it. */
  datatype FileEntry = FileEntry(name: string, size: nat)

  datatype PageState = PageState(title: string, files: seq<FileEntry>, error: string, loading: bool)

  /** The progress snapshot shown while polling. */
  datatype Progress = Progress(percentage: real, currentStep: string, errors: seq<string>)

  const NotLoggedInOrEmptyTitle := "用户未登录或标题为空"
  const NoFileSelected := "请至少选择一个文件"
  const UnknownError := "发生未知错误"

  /** `handleFileChange`: a new choice replaces the whole list and clears the
      error; an event without a file list changes nothing. */
  function HandleFileChange(st: PageState, chosen: Option<seq<FileEntry>>): (r: PageState)
    ensures chosen.None? ==> r == st
    ensures chosen.Some? ==> r.files == chosen.value && r.error == ""
    ensures r.title == st.title && r.loading == st.loading
  {
    match chosen
    case Some(fs) => st.(files := fs, error := "")
    case None => st
  }

  /** `newFiles.splice(index, 1)`: removes the element at index, if there is one. */
  function RemoveFileAt(files: seq<FileEntry>, index: nat): (r: seq<FileEntry>)
    ensures index < |files| ==> |r| == |files| - 1
    ensures index < |files| ==> forall k :: 0 <= k < |r| ==> r[k] == (if k < index then files[k] else files[k + 1])
    ensures index >= |files| ==> r == files
    ensures multiset(r) <= multiset(files)
  {
    if index < |files| then
      assert files == files[..index] + [files[index]] + files[index + 1..];
      files[..index] + files[index + 1..]
    else files
  }

  /** The form data posted to /api/knowledge. */
  datatype UploadRequest = UploadRequest(title: string, files: seq<FileEntry>)

  datatype SubmitOutcome = SubmitOutcome(state: PageState, request: Option<UploadRequest>)

  /** `handleSubmit` up to the upload: the login-and-title check comes first,
      then the file-count check; only when both pass is the request sent. */
  function HandleSubmit(st: PageState, userId: Option<string>): (r: SubmitOutcome)
    ensures var signedIn := userId.Some? && userId.value != "";
      var titled := exists i :: 0 <= i < |st.title| && !IsJsWhitespace(st.title[i]);
      && (!signedIn || !titled ==> r.request.None? && r.state.error == NotLoggedInOrEmptyTitle)
      && (signedIn && titled && |st.files| == 0 ==> r.request.None? && r.state.error == NoFileSelected)
      && (r.request.Some? <==> signedIn && titled && |st.files| > 0)
    ensures r.request.Some? ==> r.request.value == UploadRequest(st.title, st.files) && r.state.loading && r.state.error == ""
    ensures r.request.None? ==> !r.state.loading
    ensures r.state.title == st.title && r.state.files == st.files
  {
    var busy := st.(loading := true, error := "");
    if userId.None? || userId.value == "" || Trim(st.title) == "" then
      SubmitOutcome(busy.(error := NotLoggedInOrEmptyTitle, loading := false), None)
    else if |st.files| == 0 then
      SubmitOutcome(busy.(error := NoFileSelected, loading := false), None)
    else
      SubmitOutcome(busy, Some(UploadRequest(st.title, st.files)))
  }

  /** How the upload request ended. */
  datatype UploadResponse =
    | Accepted(taskId: string)        // ok response carrying the task id
    | Refused(body: string)           // non-ok response; its text is thrown
    | Threw(message: Option<string>)  // fetch or JSON failure; None when not an Error

  /** The rest of `handleSubmit`: polling starts only for an accepted upload,
      a failure's message becomes the error, and loading ends either way. */
  function AfterUpload(st: PageState, resp: UploadResponse): (r: (PageState, Option<string>))
    ensures !r.0.loading
    ensures r.1.Some? <==> resp.Accepted?
    ensures resp.Accepted? ==> r.1 == Some(resp.taskId) && r.0.error == st.error
    ensures resp.Refused? ==> r.0.error == resp.body
    ensures resp.Threw? ==> r.0.error == (if resp.message.Some? then resp.message.value else UnknownError)
    ensures r.0.title == st.title && r.0.files == st.files
  {
    match resp
    case Accepted(id) => (st.(loading := false), Some(id))
    case Refused(body) => (st.(error := body, loading := false), None)
    case Threw(m) => (st.(error := if m.Some? then m.value else UnknownError, loading := false), None)
  }

  /** One answer to the progress request. */
  datatype PollResponse =
    | NotOk                                                            // `!res.ok`
    | Snapshot(percentage: real, currentStep: string, errors: seq<string>)
    | PollThrew                                                        // fetch or JSON failure, caught and logged

  /** What one `poll()` does. */
  datatype PollStep = PollStep(progress: Progress, loading: bool, reschedule: bool, navigate: bool)

  /** `poll`: a snapshot is shown; below 100 percent another poll is scheduled,
      otherwise loading ends and the page moves to the list iff no file failed.
      A non-ok or failed request stops polling and changes nothing. */
  function Poll(progress: Progress, loading: bool, resp: PollResponse): (r: PollStep)
    ensures r.reschedule <==> resp.Snapshot? && resp.percentage < 100.0
    ensures r.navigate <==> resp.Snapshot? && resp.percentage >= 100.0 && |resp.errors| == 0
    ensures r.reschedule ==> !r.navigate
    ensures resp.Snapshot? ==> r.progress == Progress(resp.percentage, resp.currentStep, resp.errors)
    ensures resp.Snapshot? && resp.percentage >= 100.0 ==> !r.loading
    ensures !resp.Snapshot? || resp.percentage < 100.0 ==> r.loading == loading
    ensures !resp.Snapshot? ==> r.progress == progress
  {
    match resp
    case Snapshot(p, step, errs) =>
      var shown := Progress(p, step, errs);
      if p < 100.0 then PollStep(shown, loading, true, false)
      else PollStep(shown, false, false, |errs| == 0)
    case _ => PollStep(progress, loading, false, false)
  }

  /** A poll that schedules another. */
  predicate Continues(resp: PollResponse) {
    resp.Snapshot? && resp.percentage < 100.0
  }

  /** The number of progress requests the page issues when the server answers
      with `answers` in turn: polling goes on while each answer continues it. */
  function Requests(answers: seq<PollResponse>): (n: nat)
    ensures n <= |answers|
    ensures |answers| > 0 ==> n >= 1
    ensures forall k :: 0 <= k < n - 1 ==> Continues(answers[k])
    ensures n < |answers| ==> n >= 1 && !Continues(answers[n - 1])
    ensures n == |answers| && n > 0 && Continues(answers[n - 1]) ==> forall k :: 0 <= k < n ==> Continues(answers[k])
  {
    if |answers| == 0 then 0
    else if Continues(answers[0]) then 1 + Requests(answers[1..])
    else 1
  }
}
