/**
 * The per-task steps of `Program`: URL resolution and seeding from the
 * stored states, the HEAD probe (`RetrieveCurrentState`), the download
 * (`DownloadIfAvailable`), the post-download action
 * (`ExecuteFileActionIfAvailable`) and the target path of a download.
 * Network, file system and process outcomes are inputs (`Outcomes`).
 */
module Program {
  import opened Basics
  import opened DotNet
  import opened DownloadFileStates
  import opened FileActions

  /** A `DownloadFileTask` object: `Url`, `link_xpath`, `action` and the run-time `DownloadState`. */
  datatype DownloadFileTask = DownloadFileTask(
    url: Uri,
    xPath: Option<string>,
    postdownloadAction: Option<FileAction>,
    downloadState: Option<DownloadFileState>)

  /**
   * What `ResolveUrl` obtains for a task with a non-empty XPath: the absolute
   * link (resolved against the page URL when relative), or nothing, which
   * covers a failed page load, no matching node, no `href` and an unparsable link.
   */
  datatype LinkOutcome = LinkUnresolved | LinkResolved(target: Uri)

  /**
   * The HEAD probe: the request could not be set up, which throws before the
   * `try` (no request handler for the URL's scheme in `CreateDefault`, a
   * request type that refuses the HEAD method, or a relative URL whose
   * `LocalPath` the log line reads), a failed request, or a response with its
   * headers.
   */
  datatype ProbeOutcome = NoRequestHandler | ProbeFailed | Responded(headers: Headers)

  /**
   * The GET download: failing before `DownloadPath` is assigned (the response
   * or the target path could not be obtained), failing after it (deleting,
   * creating or writing the file), or completing.
   */
  datatype DownloadOutcome = FailedBeforePath | FailedAfterPath | Completed

  /** Everything the outside world decides for one task in one run. */
  datatype Outcomes = Outcomes(
    link: LinkOutcome,
    probe: ProbeOutcome,
    download: DownloadOutcome,
    processOk: bool,
    deleteOk: bool)

  /** Exceptions that escape a step (download errors never do). */
  datatype Fault =
    | LinkResolutionFailed
    | NullState                 // a stored entry that is JSON null
    | RequestNotSupported
    | ActionFailed(error: TriggerError)

  /** What `DownloadIfAvailable` did to the file system. */
  datatype DownloadReport = NotAttempted | DownloadFailed | Downloaded(path: string)

  /** What `ExecuteFileActionIfAvailable` did. */
  datatype ActionReport = NotTriggered | ActionDone(done: Triggered) | ActionThrew(error: TriggerError)

  /**
   * The end of one task's pipeline: the probe step threw (the continuations
   * never run and the task keeps its seeded state), or all three steps ran,
   * leaving `state` as the task's `DownloadState` and the download and the
   * action as reported.
   */
  datatype TaskRun =
    | ProbeThrew(fault: Fault)
    | Ran(state: DownloadFileState, download: DownloadReport, action: ActionReport)

  /** A task run that ends in an exception, which makes `Task.WaitAll` throw. */
  predicate Faulted(run: TaskRun)
  {
    run.ProbeThrew? || run.action.ActionThrew?
  }

  /** `ResolveUrl`: the task's own URL unless it has a non-empty XPath. */
  function ResolveUrl(task: DownloadFileTask, link: LinkOutcome): (r: Result<Uri, Fault>)
    ensures task.xPath.None? || task.xPath == Some([]) ==> r == Ok(task.url)
    ensures r.Err? <==> task.xPath.Some? && task.xPath.value != [] && link.LinkUnresolved?
    ensures task.xPath.Some? && task.xPath.value != [] && link.LinkResolved? ==> r == Ok(link.target)
  {
    if task.xPath.None? || task.xPath.value == [] then Ok(task.url)
    else match link
      case LinkUnresolved => Err(LinkResolutionFailed)
      case LinkResolved(target) => Ok(target)
  }

  /**
   * The starting state of a task whose URL is `url` (lines 25-27): the stored
   * entry when there is one, else a fresh state that only knows its URL and
   * says a new version is available.
   */
  function SeedState(url: Uri, prior: map<Uri, Option<Fingerprint>>): (r: Option<DownloadFileState>)
    ensures url !in prior ==>
      r.Some? && r.value.isNewVersionAvailable && r.value.downloadPath == None &&
      ToFingerprint(r.value) == Fingerprint(url, None, None, None)
    ensures url in prior && prior[url].Some? ==>
      r.Some? && !r.value.isNewVersionAvailable && r.value.downloadPath == None &&
      ToFingerprint(r.value) == prior[url].value
    ensures url in prior && prior[url].None? ==> r.None?
  {
    if url in prior then
      match prior[url]
      case Some(f) => Some(FromFingerprint(f))
      case None => None
    else
      Some(DownloadFileState(url, None, None, None, None, true))
  }

  /** One iteration of the seeding loop: resolve the URL, then seed the state. */
  function SeedTask(task: DownloadFileTask, link: LinkOutcome, prior: map<Uri, Option<Fingerprint>>): (r: Result<DownloadFileTask, Fault>)
    ensures r.Ok? <==> ResolveUrl(task, link).Ok?
    ensures r.Ok? ==>
      r.value.url == ResolveUrl(task, link).value &&
      r.value.downloadState == SeedState(r.value.url, prior) &&
      r.value.xPath == task.xPath && r.value.postdownloadAction == task.postdownloadAction
  {
    match ResolveUrl(task, link)
    case Err(f) => Err(f)
    case Ok(url) => Ok(task.(url := url, downloadState := SeedState(url, prior)))
  }

  /**
   * `RetrieveCurrentState`: a null state or an unsupported scheme throws;
   * a failed probe returns the state it was given; a response gives a new
   * state with the request URL and the response headers, flagged as new iff
   * it is `!=` the previous state.
   */
  function RetrieveCurrentState(prevState: Option<DownloadFileState>, probe: ProbeOutcome): (r: Result<DownloadFileState, Fault>)
    ensures prevState.None? ==> r == Err(NullState)
    ensures prevState.Some? && probe.NoRequestHandler? ==> r == Err(RequestNotSupported)
    ensures prevState.Some? && probe.ProbeFailed? ==> r == Ok(prevState.value)
    ensures prevState.Some? && probe.Responded? ==>
      var prev, h := prevState.value, probe.headers;
      && r.Ok?
      && ToFingerprint(r.value) == Fingerprint(prev.url, h.contentMd5, h.contentLength, h.lastModified)
      && r.value.downloadPath == None
      && (r.value.isNewVersionAvailable <==>
            (h.contentMd5, h.contentLength, h.lastModified) != (prev.md5Hash, prev.length, prev.lastModified))
  {
    if prevState.None? then Err(NullState)
    else match probe
      case NoRequestHandler => Err(RequestNotSupported)
      case ProbeFailed => Ok(prevState.value)
      case Responded(headers) =>
        var current := CreateFromWebResponse(prevState.value.url, headers);
        Ok(current.(isNewVersionAvailable := OpNotEquals(Some(current), prevState)))
  }

  /**
   * `GetTargetFilePath`: the last segment of the URL's local path placed in
   * the target directory (`targetDir` stands for the already absolute
   * configured directory).
   */
  function GetTargetFilePath(targetDir: string, url: Uri): (r: string)
    ensures FileName(url.localPath) != [] ==> FileName(r) == FileName(url.localPath)
    ensures FileName(url.localPath) == [] ==> r == targetDir
    ensures |targetDir| <= |r| && r[..|targetDir|] == targetDir
    ensures FileName(url.localPath) != [] ==> |targetDir| < |r|
    ensures FileName(url.localPath) != [] ==>
      r == targetDir + FileName(url.localPath) || r == targetDir + "/" + FileName(url.localPath)
  {
    Combine(targetDir, FileName(url.localPath))
  }

  /**
   * Two URLs get the same target path exactly when their last segments are
   * equal, whatever else differs in the URLs; in particular every URL whose
   * local path ends in '/' lands on the target directory itself.
   */
  lemma {:induction false} TargetPathsCollideIffSameFileName(targetDir: string, u1: Uri, u2: Uri)
    ensures GetTargetFilePath(targetDir, u1) == GetTargetFilePath(targetDir, u2) <==>
            FileName(u1.localPath) == FileName(u2.localPath)
  {
    var n1, n2 := FileName(u1.localPath), FileName(u2.localPath);
    var p1, p2 := GetTargetFilePath(targetDir, u1), GetTargetFilePath(targetDir, u2);
    if n1 != [] && n2 != [] {
      assert p1 == p2 ==> n1 == n2 by {
        if p1 == p2 { assert FileName(p1) == FileName(p2); }
      }
    } else if n1 != [] || n2 != [] {
      assert |p1| != |p2|;
    }
  }

  /**
   * `DownloadIfAvailable`: downloads iff the state says a new version is
   * available; every download error is swallowed. The state's fingerprint
   * and flag are never changed; only `DownloadPath` may be set.
   */
  function DownloadIfAvailable(state: DownloadFileState, download: DownloadOutcome, targetDir: string): (r: (DownloadFileState, DownloadReport))
    ensures ToFingerprint(r.0) == ToFingerprint(state)
    ensures r.0.isNewVersionAvailable == state.isNewVersionAvailable
    ensures r.1.NotAttempted? <==> !state.isNewVersionAvailable
    ensures r.1.Downloaded? <==> state.isNewVersionAvailable && download.Completed?
    ensures r.1.Downloaded? ==> r.1.path == GetTargetFilePath(targetDir, state.url)
    ensures r.0.downloadPath ==
      if state.isNewVersionAvailable && !download.FailedBeforePath?
      then Some(GetTargetFilePath(targetDir, state.url)) else state.downloadPath
  {
    if !state.isNewVersionAvailable then (state, NotAttempted)
    else match download
      case FailedBeforePath => (state, DownloadFailed)
      case FailedAfterPath =>
        (state.(downloadPath := Some(GetTargetFilePath(targetDir, state.url))), DownloadFailed)
      case Completed =>
        var path := GetTargetFilePath(targetDir, state.url);
        (state.(downloadPath := Some(path)), Downloaded(path))
  }

  /**
   * `ExecuteFileActionIfAvailable`: triggers the action iff the state says a
   * new version is available and an action is configured, with the state's
   * `DownloadPath` (null when the download failed early); an exception from
   * the action propagates.
   */
  function ExecuteFileActionIfAvailable(state: DownloadFileState, action: Option<FileAction>, processOk: bool, deleteOk: bool): (r: ActionReport)
    ensures r.NotTriggered? <==> !(state.isNewVersionAvailable && action.Some?)
    ensures !r.NotTriggered? ==>
      match Trigger(action.value, state.downloadPath, processOk, deleteOk)
      case Ok(done) => r == ActionDone(done)
      case Err(e) => r == ActionThrew(e)
  {
    if state.isNewVersionAvailable && action.Some? then
      match Trigger(action.value, state.downloadPath, processOk, deleteOk)
      case Ok(done) => ActionDone(done)
      case Err(e) => ActionThrew(e)
    else NotTriggered
  }

  /**
   * One task's chain of continuations (lines 31-38): probe, then download,
   * then action; a throwing probe stops the chain. The task ends up holding
   * the state the probe returned, whatever the download did.
   */
  function RunTask(task: DownloadFileTask, outcomes: Outcomes, targetDir: string): (r: TaskRun)
    ensures r.ProbeThrew? <==> RetrieveCurrentState(task.downloadState, outcomes.probe).Err?
    ensures r.Ran? ==>
      var probed := RetrieveCurrentState(task.downloadState, outcomes.probe).value;
      && ToFingerprint(r.state) == ToFingerprint(probed)
      && (r.download.NotAttempted? <==> !probed.isNewVersionAvailable)
      && (r.action.NotTriggered? <==> !(probed.isNewVersionAvailable && task.postdownloadAction.Some?))
  {
    match RetrieveCurrentState(task.downloadState, outcomes.probe)
    case Err(fault) => ProbeThrew(fault)
    case Ok(probed) =>
      var (state, download) := DownloadIfAvailable(probed, outcomes.download, targetDir);
      var action := ExecuteFileActionIfAvailable(state, task.postdownloadAction, outcomes.processOk, outcomes.deleteOk);
      Ran(state, download, action)
  }

  /**
   * A probe that fails for a URL the stored map does not know leaves the
   * fresh seed in place, so the file is still downloaded (and the action
   * triggered when one is configured), and the task ends with a fingerprint
   * that holds only the URL.
   */
  lemma ProbeFailureOnUnseenUrl(task: DownloadFileTask, prior: map<Uri, Option<Fingerprint>>, outcomes: Outcomes, targetDir: string)
    requires task.url !in prior && task.downloadState == SeedState(task.url, prior)
    requires outcomes.probe.ProbeFailed?
    ensures var r := RunTask(task, outcomes, targetDir);
      && r.Ran?
      && !r.download.NotAttempted?
      && (r.action.NotTriggered? <==> task.postdownloadAction.None?)
      && ToFingerprint(r.state) == Fingerprint(task.url, None, None, None)
  {
  }

  /**
   * A URL the stored map does not know, whose server sends none of the three
   * headers, is never downloaded, not even on the first run: the fresh seed
   * and the probed state are `==`, so no new version is reported.
   */
  lemma HeaderlessUnseenUrlIsNotDownloaded(task: DownloadFileTask, prior: map<Uri, Option<Fingerprint>>, outcomes: Outcomes, targetDir: string)
    requires task.url !in prior && task.downloadState == SeedState(task.url, prior)
    requires outcomes.probe == Responded(Headers(None, None, None))
    ensures var r := RunTask(task, outcomes, targetDir);
      && r.Ran?
      && r.download.NotAttempted?
      && r.action.NotTriggered?
      && ToFingerprint(r.state) == Fingerprint(task.url, None, None, None)
  {
  }

  /**
   * A probe that fails for a URL the stored map knows returns the stored
   * state, whose flag is false: nothing is downloaded, no action runs, and
   * the stored fingerprint is kept.
   */
  lemma ProbeFailureOnKnownUrl(task: DownloadFileTask, prior: map<Uri, Option<Fingerprint>>, outcomes: Outcomes, targetDir: string)
    requires task.url in prior && prior[task.url].Some? && task.downloadState == SeedState(task.url, prior)
    requires outcomes.probe.ProbeFailed?
    ensures var r := RunTask(task, outcomes, targetDir);
      && r.Ran?
      && r.download.NotAttempted?
      && r.action.NotTriggered?
      && ToFingerprint(r.state) == prior[task.url].value
  {
  }

  /**
   * After a successful probe the task holds the fingerprint the probe saw,
   * whether the download then failed early, failed late or completed.
   */
  lemma ProbedFingerprintIsKept(task: DownloadFileTask, outcomes: Outcomes, targetDir: string)
    requires task.downloadState.Some? && outcomes.probe.Responded?
    ensures var r := RunTask(task, outcomes, targetDir);
      var h := outcomes.probe.headers;
      && r.Ran?
      && ToFingerprint(r.state) ==
           Fingerprint(task.downloadState.value.url, h.contentMd5, h.contentLength, h.lastModified)
  {
  }

  /**
   * Whether the action is triggered does not depend on how the download
   * went: changing only the download outcome changes at most the path the
   * action is given.
   */
  lemma ActionIgnoresDownloadResult(task: DownloadFileTask, outcomes: Outcomes, other: DownloadOutcome, targetDir: string)
    ensures var r1 := RunTask(task, outcomes, targetDir);
      var r2 := RunTask(task, outcomes.(download := other), targetDir);
      && (r1.Ran? <==> r2.Ran?)
      && (r1.Ran? ==> (r1.action.NotTriggered? <==> r2.action.NotTriggered?))
  {
  }

  /**
   * Idempotence of one task: once a probe's fingerprint has been stored, a
   * later probe that sees the same headers for the same URL finds no new
   * version, so nothing is downloaded and no action runs, and the task keeps
   * the same fingerprint. This holds even when the server sends none of the
   * three headers.
   */
  lemma UnchangedResourceIsNotDownloadedAgain(
    task: DownloadFileTask, prior: map<Uri, Option<Fingerprint>>, outcomes: Outcomes, targetDir: string)
    requires task.downloadState == SeedState(task.url, prior)
    requires outcomes.probe.Responded?
    requires var h := outcomes.probe.headers;
      task.url in prior && prior[task.url] == Some(Fingerprint(task.url, h.contentMd5, h.contentLength, h.lastModified))
    ensures var r := RunTask(task, outcomes, targetDir);
      && r.Ran?
      && r.download.NotAttempted?
      && r.action.NotTriggered?
      && ToFingerprint(r.state) == prior[task.url].value
  {
    var h := outcomes.probe.headers;
    var stored := Fingerprint(task.url, h.contentMd5, h.contentLength, h.lastModified);
    assert task.downloadState == Some(FromFingerprint(stored));
    var probed := RetrieveCurrentState(task.downloadState, outcomes.probe).value;
    assert !probed.isNewVersionAvailable;
  }

  /**
   * A worked case: the store holds length "10" for a URL `u` whose local
   * path is `/a.bin`, the probe now reports length "20", so the file is
   * downloaded to `a.bin` in the target directory and the task ends with
   * length "20".
   */
  lemma {:induction false} ChangedLengthIsDownloaded(u: Uri, targetDir: string)
    requires u.localPath == "/a.bin"
    requires targetDir != [] && targetDir[|targetDir| - 1] != '/'
    ensures var prior := map[u := Some(Fingerprint(u, None, Some("10"), None))];
      var task := DownloadFileTask(u, None, None, SeedState(u, prior));
      var r := RunTask(task, Outcomes(LinkUnresolved, Responded(Headers(None, Some("20"), None)), Completed, true, true), targetDir);
      && r.Ran?
      && r.download == Downloaded(targetDir + "/a.bin")
      && r.action.NotTriggered?
      && ToFingerprint(r.state) == Fingerprint(u, None, Some("20"), None)
  {
    var prior := map[u := Some(Fingerprint(u, None, Some("10"), None))];
    var prev := SeedState(u, prior);
    assert prev == Some(DownloadFileState(u, None, Some("10"), None, None, false));
    var h := Headers(None, Some("20"), None);
    assert "20"[0] != "10"[0];
    var probed := RetrieveCurrentState(prev, Responded(h)).value;
    assert probed.isNewVersionAvailable && probed.url == u;
    var (state, download) := DownloadIfAvailable(probed, Completed, targetDir);
    assert download == Downloaded(GetTargetFilePath(targetDir, u));
    ABinTargetPath(targetDir, u);
  }

  /** The target path of `/a.bin` in a directory without a trailing separator. */
  lemma {:induction false} ABinTargetPath(targetDir: string, u: Uri)
    requires targetDir != [] && targetDir[|targetDir| - 1] != '/'
    requires u.localPath == "/a.bin"
    ensures GetTargetFilePath(targetDir, u) == targetDir + "/a.bin"
  {
    FileNameAfterSeparator("/", "a.bin");
    assert "/" + "a.bin" == u.localPath;
    assert targetDir + "/" + "a.bin" == targetDir + ("/" + "a.bin");
  }
}
