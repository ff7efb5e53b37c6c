/**
 * `Program.Main`: seed every task from the stored states, run every task's
 * pipeline, wait for all of them, key the final states by URL and write
 * them, all inside one `try` whose `catch` only logs. The tasks run in
 * parallel but share no state the decisions read (the flags, the
 * fingerprints and the written map), so they are run here one after the other.
 */
module Orchestrator {
  import opened Basics
  import opened DownloadFileStates
  import opened Program

  /** The end of a run. */
  datatype RunOutcome =
    /** `ResolveUrl` threw for task `index`; no pipeline was started and nothing was written. */
    | SeedingThrew(index: nat)
    /** Every pipeline ran; `written` is the state file's new content, if it was written. */
    | Finished(runs: seq<TaskRun>, written: Option<map<Uri, Fingerprint>>)

  /** The index of the first task whose URL cannot be resolved, or the number of tasks. */
  function FirstUnresolved(tasks: seq<DownloadFileTask>, outcomes: seq<Outcomes>): (k: nat)
    requires |tasks| == |outcomes|
    ensures k <= |tasks|
    ensures forall i :: 0 <= i < k ==> ResolveUrl(tasks[i], outcomes[i].link).Ok?
    ensures k < |tasks| ==> ResolveUrl(tasks[k], outcomes[k].link).Err?
    decreases |tasks|
  {
    if tasks == [] || ResolveUrl(tasks[0], outcomes[0].link).Err? then 0
    else 1 + FirstUnresolved(tasks[1..], outcomes[1..])
  }

  /** The first `k` tasks after the seeding loop has handled them. */
  function Seeded(tasks: seq<DownloadFileTask>, prior: map<Uri, Option<Fingerprint>>, outcomes: seq<Outcomes>, k: nat): (r: seq<DownloadFileTask>)
    requires |tasks| == |outcomes| && k <= FirstUnresolved(tasks, outcomes)
    ensures |r| == k
    ensures forall i :: 0 <= i < k ==> SeedTask(tasks[i], outcomes[i].link, prior) == Ok(r[i])
  {
    seq(k, i requires 0 <= i < k => SeedTask(tasks[i], outcomes[i].link, prior).value)
  }

  /** Each pipeline applied to its seeded task. */
  function RunAll(seeded: seq<DownloadFileTask>, outcomes: seq<Outcomes>, targetDir: string): (r: seq<TaskRun>)
    requires |seeded| == |outcomes|
    ensures |r| == |seeded|
    ensures forall i :: 0 <= i < |r| ==> r[i] == RunTask(seeded[i], outcomes[i], targetDir)
  {
    seq(|seeded|, i requires 0 <= i < |seeded| => RunTask(seeded[i], outcomes[i], targetDir))
  }

  /** A task after its pipeline: updated when the probe step completed, as seeded otherwise. */
  function AfterRun(seeded: DownloadFileTask, run: TaskRun): DownloadFileTask
  {
    if run.Ran? then seeded.(downloadState := Some(run.state)) else seeded
  }

  /** Some pipeline ended in an exception. */
  predicate AnyFaulted(runs: seq<TaskRun>)
  {
    exists i :: 0 <= i < |runs| && Faulted(runs[i])
  }

  /** `_.DownloadState` of every task once no pipeline faulted. */
  function FinalStates(runs: seq<TaskRun>): (r: seq<DownloadFileState>)
    requires !AnyFaulted(runs)
    ensures |r| == |runs|
    ensures forall i :: 0 <= i < |runs| ==> runs[i].Ran? && r[i] == runs[i].state
  {
    seq(|runs|, i requires 0 <= i < |runs| => assert !Faulted(runs[i]); runs[i].state)
  }

  /** No two states share a URL. */
  predicate DistinctUrls(states: seq<DownloadFileState>)
  {
    forall i, j :: 0 <= i < j < |states| ==> states[i].url != states[j].url
  }

  /** The URLs of the states. */
  function UrlSet(states: seq<DownloadFileState>): set<Uri>
  {
    set i | 0 <= i < |states| :: states[i].url
  }

  /** The dictionary `ToDictionary` builds when the keys are distinct. */
  function StateMap(states: seq<DownloadFileState>): (m: map<Uri, DownloadFileState>)
    requires DistinctUrls(states)
    ensures m.Keys == UrlSet(states)
    ensures forall i :: 0 <= i < |states| ==> m[states[i].url] == states[i]
  {
    map i | 0 <= i < |states| :: states[i].url := states[i]
  }

  /** `WriteStatesByUrlToFile`: each state is written without its ignored fields. */
  function Serialise(m: map<Uri, DownloadFileState>): (r: map<Uri, Fingerprint>)
    ensures r.Keys == m.Keys
    ensures forall u :: u in m ==> r[u] == ToFingerprint(m[u])
  {
    map u | u in m :: ToFingerprint(m[u])
  }

  /**
   * What gets written after the pipelines: nothing if any pipeline faulted
   * (`WaitAll` throws) or two final states share a URL (`ToDictionary`
   * throws), otherwise the final states keyed by their URLs.
   */
  function Written(runs: seq<TaskRun>): Option<map<Uri, Fingerprint>>
  {
    if AnyFaulted(runs) then None
    else
      var states := FinalStates(runs);
      if DistinctUrls(states) then Some(Serialise(StateMap(states))) else None
  }

  /** The whole of `Main` once the task list and the stored states are loaded. */
  function RunSpec(tasks: seq<DownloadFileTask>, prior: map<Uri, Option<Fingerprint>>, outcomes: seq<Outcomes>, targetDir: string): RunOutcome
    requires |tasks| == |outcomes|
  {
    var k := FirstUnresolved(tasks, outcomes);
    if k < |tasks| then SeedingThrew(k)
    else
      var runs := RunAll(Seeded(tasks, prior, outcomes, k), outcomes, targetDir);
      Finished(runs, Written(runs))
  }

  /**
   * `ToDictionary(_ => _.DownloadState.Url, _ => _.DownloadState)`: adds the
   * states in order and throws with the first key that is already present.
   */
  method ToDictionary(states: seq<DownloadFileState>) returns (r: Result<map<Uri, DownloadFileState>, Uri>)
    ensures r.Ok? <==> DistinctUrls(states)
    ensures r.Ok? ==> r.value.Keys == UrlSet(states)
    ensures r.Ok? ==> forall i :: 0 <= i < |states| ==> r.value[states[i].url] == states[i]
    ensures r.Err? ==> exists j :: (0 <= j < |states| && r.error == states[j].url &&
      DistinctUrls(states[..j]) && exists i :: 0 <= i < j && states[i].url == states[j].url)
  {
    var m: map<Uri, DownloadFileState> := map[];
    var j := 0;
    while j < |states|
      invariant 0 <= j <= |states|
      invariant forall a, b :: 0 <= a < b < j ==> states[a].url != states[b].url
      invariant forall i :: 0 <= i < j ==> states[i].url in m && m[states[i].url] == states[i]
      invariant forall u :: u in m ==> exists i :: 0 <= i < j && states[i].url == u
    {
      var url := states[j].url;
      if url in m {
        var i :| 0 <= i < j && states[i].url == url;
        assert DistinctUrls(states[..j]) by {
          forall a, b | 0 <= a < b < j ensures states[..j][a].url != states[..j][b].url {
          }
        }
        return Err(url);
      }
      m := m[url := states[j]];
      j := j + 1;
    }
    assert m.Keys == UrlSet(states);
    return Ok(m);
  }

  /** A map with the keys and values `ToDictionary` promises is `StateMap`. */
  lemma {:induction false} DictionaryIsStateMap(states: seq<DownloadFileState>, m: map<Uri, DownloadFileState>)
    requires DistinctUrls(states)
    requires m.Keys == UrlSet(states)
    requires forall i :: 0 <= i < |states| ==> m[states[i].url] == states[i]
    ensures m == StateMap(states)
  {
    var sm := StateMap(states);
    assert m.Keys == sm.Keys;
    forall u | u in m ensures m[u] == sm[u] {
      var i :| 0 <= i < |states| && states[i].url == u;
    }
  }

  /**
   * The seeding loop (lines 23-28): each task's URL is resolved and its
   * state seeded, in place, until `ResolveUrl` throws.
   */
  method SeedTasks(tasks: array<DownloadFileTask>, prior: map<Uri, Option<Fingerprint>>, outcomes: seq<Outcomes>)
    returns (threwAt: Option<nat>)
    requires tasks.Length == |outcomes|
    modifies tasks
    ensures var k := FirstUnresolved(old(tasks[..]), outcomes);
      && (threwAt.None? <==> k == tasks.Length)
      && (threwAt.Some? ==> threwAt.value == k)
      && (forall i :: 0 <= i < k ==> SeedTask(old(tasks[i]), outcomes[i].link, prior) == Ok(tasks[i]))
      && (forall i :: k <= i < tasks.Length ==> tasks[i] == old(tasks[i]))
  {
    ghost var initial := tasks[..];
    var i := 0;
    while i < tasks.Length
      invariant 0 <= i <= tasks.Length
      invariant i <= FirstUnresolved(initial, outcomes)
      invariant forall k :: 0 <= k < i ==> SeedTask(initial[k], outcomes[k].link, prior) == Ok(tasks[k])
      invariant forall k :: i <= k < tasks.Length ==> tasks[k] == initial[k]
    {
      var seeded := SeedTask(tasks[i], outcomes[i].link, prior);
      if seeded.Err? {
        return Some(i);
      }
      tasks[i] := seeded.value;
      i := i + 1;
    }
    return None;
  }

  /**
   * The pipelines (lines 30-40), one after the other: each task is updated
   * when its probe step completes; `faulted` is whether `WaitAll` throws.
   */
  method RunPipelines(tasks: array<DownloadFileTask>, outcomes: seq<Outcomes>, targetDir: string)
    returns (runs: seq<TaskRun>, faulted: bool)
    requires tasks.Length == |outcomes|
    modifies tasks
    ensures runs == RunAll(old(tasks[..]), outcomes, targetDir)
    ensures faulted <==> AnyFaulted(runs)
    ensures forall k :: 0 <= k < tasks.Length ==> tasks[k] == AfterRun(old(tasks[k]), runs[k])
  {
    ghost var seeded := tasks[..];
    runs, faulted := [], false;
    var i := 0;
    while i < tasks.Length
      invariant 0 <= i <= tasks.Length
      invariant |runs| == i
      invariant forall k :: 0 <= k < i ==> runs[k] == RunTask(seeded[k], outcomes[k], targetDir)
      invariant faulted <==> AnyFaulted(runs)
      invariant forall k :: 0 <= k < i ==> tasks[k] == AfterRun(seeded[k], runs[k])
      invariant forall k :: i <= k < tasks.Length ==> tasks[k] == seeded[k]
    {
      var run := RunTask(tasks[i], outcomes[i], targetDir);
      if run.Ran? {
        tasks[i] := tasks[i].(downloadState := Some(run.state));
      }
      faulted := faulted || Faulted(run);
      runs := runs + [run];
      i := i + 1;
      assert runs[i - 1] == run;
    }
    assert runs == RunAll(seeded, outcomes, targetDir);
  }

  /**
   * `Main` over the task array: seed, run the pipelines, and build and write
   * the state map only when no exception escaped.
   */
  method Run(tasks: array<DownloadFileTask>, prior: map<Uri, Option<Fingerprint>>, outcomes: seq<Outcomes>, targetDir: string)
    returns (outcome: RunOutcome)
    requires tasks.Length == |outcomes|
    modifies tasks
    ensures outcome == RunSpec(old(tasks[..]), prior, outcomes, targetDir)
    ensures outcome.SeedingThrew? ==>
      && (forall i :: 0 <= i < outcome.index ==> SeedTask(old(tasks[i]), outcomes[i].link, prior) == Ok(tasks[i]))
      && (forall i :: outcome.index <= i < tasks.Length ==> tasks[i] == old(tasks[i]))
    ensures outcome.Finished? ==>
      forall i :: 0 <= i < tasks.Length ==>
        && SeedTask(old(tasks[i]), outcomes[i].link, prior).Ok?
        && tasks[i] == AfterRun(SeedTask(old(tasks[i]), outcomes[i].link, prior).value, outcome.runs[i])
  {
    ghost var initial := tasks[..];
    var threwAt := SeedTasks(tasks, prior, outcomes);
    if threwAt.Some? {
      return SeedingThrew(threwAt.value);
    }
    SeededAll(initial, prior, outcomes, tasks[..]);
    var runs, faulted := RunPipelines(tasks, outcomes, targetDir);
    if faulted {
      return Finished(runs, None);
    }
    var states := FinalStates(runs);
    var dictionary := ToDictionary(states);
    if dictionary.Err? {
      return Finished(runs, None);
    }
    DictionaryIsStateMap(states, dictionary.value);
    return Finished(runs, Some(Serialise(dictionary.value)));
  }

  /** A sequence of tasks that seeding turned, one by one, into `seeded` is `Seeded`. */
  lemma {:induction false} SeededAll(
    tasks: seq<DownloadFileTask>, prior: map<Uri, Option<Fingerprint>>, outcomes: seq<Outcomes>, seeded: seq<DownloadFileTask>)
    requires |tasks| == |outcomes| == |seeded| && FirstUnresolved(tasks, outcomes) == |tasks|
    requires forall i :: 0 <= i < |tasks| ==> SeedTask(tasks[i], outcomes[i].link, prior) == Ok(seeded[i])
    ensures seeded == Seeded(tasks, prior, outcomes, |tasks|)
  {
    var r := Seeded(tasks, prior, outcomes, |tasks|);
    forall i | 0 <= i < |tasks| ensures seeded[i] == r[i] {
    }
  }

  /** Every stored entry is filed under its own URL. */
  predicate ConsistentStore(prior: map<Uri, Option<Fingerprint>>)
  {
    forall u :: u in prior && prior[u].Some? ==> prior[u].value.url == u
  }

  /** The written map as the next run reads it back. */
  function Stored(m: map<Uri, Fingerprint>): (r: map<Uri, Option<Fingerprint>>)
    ensures r.Keys == m.Keys
    ensures forall u :: u in m ==> r[u] == Some(m[u])
  {
    map u | u in m :: Some(m[u])
  }

  /** A pipeline that runs keeps the URL of the state it was seeded with. */
  lemma {:induction false} RanKeepsSeededUrl(seeded: DownloadFileTask, outcomes: Outcomes, targetDir: string)
    requires RunTask(seeded, outcomes, targetDir).Ran?
    ensures seeded.downloadState.Some?
    ensures RunTask(seeded, outcomes, targetDir).state.url == seeded.downloadState.value.url
  {
  }

  /**
   * The written map files every final state under that state's own URL, and
   * holds nothing else: each entry's key is the URL inside it.
   */
  lemma {:induction false} WrittenMapHoldsFinalStates(
    tasks: seq<DownloadFileTask>, prior: map<Uri, Option<Fingerprint>>, outcomes: seq<Outcomes>, targetDir: string)
    requires |tasks| == |outcomes|
    requires RunSpec(tasks, prior, outcomes, targetDir).Finished?
    requires RunSpec(tasks, prior, outcomes, targetDir).written.Some?
    ensures var o := RunSpec(tasks, prior, outcomes, targetDir);
      var m := o.written.value;
      && (forall u :: u in m ==> m[u].url == u)
      && (forall i :: 0 <= i < |o.runs| ==>
            o.runs[i].Ran? &&
            o.runs[i].state.url in m &&
            m[o.runs[i].state.url] == ToFingerprint(o.runs[i].state))
      && (forall u :: u in m ==> exists i :: (0 <= i < |o.runs| && o.runs[i].Ran? &&
            o.runs[i].state.url == u))
  {
    var o := RunSpec(tasks, prior, outcomes, targetDir);
    var runs := o.runs;
    assert !AnyFaulted(runs);
    var states := FinalStates(runs);
    assert DistinctUrls(states);
    var m := o.written.value;
    assert m == Serialise(StateMap(states));
    forall i | 0 <= i < |runs|
      ensures runs[i].Ran? && states[i] == runs[i].state
    {
      assert !Faulted(runs[i]);
    }
  }

  /** Resolved URLs of tasks that all resolve. */
  function ResolvedUrls(tasks: seq<DownloadFileTask>, outcomes: seq<Outcomes>): (r: set<Uri>)
    requires |tasks| == |outcomes|
  {
    set i | 0 <= i < |tasks| && ResolveUrl(tasks[i], outcomes[i].link).Ok? :: ResolveUrl(tasks[i], outcomes[i].link).value
  }

  /**
   * With a consistent store, a task whose pipeline ran ends with a state
   * for its own resolved URL.
   */
  lemma {:induction false} RanEndsAtResolvedUrl(
    tasks: seq<DownloadFileTask>, prior: map<Uri, Option<Fingerprint>>, outcomes: seq<Outcomes>, targetDir: string, i: nat)
    requires |tasks| == |outcomes| && ConsistentStore(prior)
    requires FirstUnresolved(tasks, outcomes) == |tasks| && i < |tasks|
    requires RunTask(Seeded(tasks, prior, outcomes, |tasks|)[i], outcomes[i], targetDir).Ran?
    ensures var run := RunTask(Seeded(tasks, prior, outcomes, |tasks|)[i], outcomes[i], targetDir);
      run.state.url == ResolveUrl(tasks[i], outcomes[i].link).value
  {
    var seeded := Seeded(tasks, prior, outcomes, |tasks|)[i];
    RanKeepsSeededUrl(seeded, outcomes[i], targetDir);
    var u := seeded.url;
    assert seeded.downloadState == SeedState(u, prior);
    assert seeded.downloadState.value.url == u;
  }

  /**
   * The written map files every entry under its own URL, so a run that
   * reads it back starts from a consistent store.
   */
  lemma {:induction false} WrittenMapIsConsistent(
    tasks: seq<DownloadFileTask>, prior: map<Uri, Option<Fingerprint>>, outcomes: seq<Outcomes>, targetDir: string)
    requires |tasks| == |outcomes|
    requires RunSpec(tasks, prior, outcomes, targetDir).Finished?
    requires RunSpec(tasks, prior, outcomes, targetDir).written.Some?
    ensures ConsistentStore(Stored(RunSpec(tasks, prior, outcomes, targetDir).written.value))
  {
    WrittenMapHoldsFinalStates(tasks, prior, outcomes, targetDir);
  }

  /**
   * When the stored map files every entry under its own URL, the written map
   * has exactly the task URLs as keys.
   */
  lemma {:induction false} WrittenKeysAreTaskUrls(
    tasks: seq<DownloadFileTask>, prior: map<Uri, Option<Fingerprint>>, outcomes: seq<Outcomes>, targetDir: string)
    requires |tasks| == |outcomes| && ConsistentStore(prior)
    requires RunSpec(tasks, prior, outcomes, targetDir).Finished?
    requires RunSpec(tasks, prior, outcomes, targetDir).written.Some?
    ensures RunSpec(tasks, prior, outcomes, targetDir).written.value.Keys == ResolvedUrls(tasks, outcomes)
  {
    var states := WrittenFromFinalStates(tasks, prior, outcomes, targetDir);
    FinalUrlsAreResolvedUrls(tasks, prior, outcomes, targetDir);
  }

  /**
   * With a consistent store and no faulted pipeline, the final states'
   * URLs are the tasks' resolved URLs.
   */
  lemma {:induction false} FinalUrlsAreResolvedUrls(
    tasks: seq<DownloadFileTask>, prior: map<Uri, Option<Fingerprint>>, outcomes: seq<Outcomes>, targetDir: string)
    requires |tasks| == |outcomes| && ConsistentStore(prior)
    requires FirstUnresolved(tasks, outcomes) == |tasks|
    requires !AnyFaulted(RunAll(Seeded(tasks, prior, outcomes, |tasks|), outcomes, targetDir))
    ensures var states := FinalStates(RunAll(Seeded(tasks, prior, outcomes, |tasks|), outcomes, targetDir));
      UrlSet(states) == ResolvedUrls(tasks, outcomes)
  {
    var runs := RunAll(Seeded(tasks, prior, outcomes, |tasks|), outcomes, targetDir);
    var states := FinalStates(runs);
    var urls := seq(|tasks|, i requires 0 <= i < |tasks| => ResolveUrl(tasks[i], outcomes[i].link).value);
    forall i | 0 <= i < |tasks| ensures states[i].url == urls[i] {
      assert !Faulted(runs[i]);
      RanEndsAtResolvedUrl(tasks, prior, outcomes, targetDir, i);
    }
    SameUrlSets(states, urls);
    assert ResolvedUrls(tasks, outcomes) == set i | 0 <= i < |urls| :: urls[i];
  }

  /** A written map is the serialised `StateMap` of the runs' final states. */
  lemma {:induction false} WrittenFromFinalStates(
    tasks: seq<DownloadFileTask>, prior: map<Uri, Option<Fingerprint>>, outcomes: seq<Outcomes>, targetDir: string)
    returns (states: seq<DownloadFileState>)
    requires |tasks| == |outcomes|
    requires RunSpec(tasks, prior, outcomes, targetDir).Finished?
    requires RunSpec(tasks, prior, outcomes, targetDir).written.Some?
    ensures FirstUnresolved(tasks, outcomes) == |tasks|
    ensures var runs := RunSpec(tasks, prior, outcomes, targetDir).runs;
      && runs == RunAll(Seeded(tasks, prior, outcomes, |tasks|), outcomes, targetDir)
      && !AnyFaulted(runs) && states == FinalStates(runs) && DistinctUrls(states)
      && |states| == |tasks|
      && RunSpec(tasks, prior, outcomes, targetDir).written == Some(Serialise(StateMap(states)))
  {
    var runs := RunSpec(tasks, prior, outcomes, targetDir).runs;
    states := FinalStates(runs);
  }

  /** Pointwise equal URL sequences give the same set of URLs. */
  lemma {:induction false} SameUrlSets(states: seq<DownloadFileState>, urls: seq<Uri>)
    requires |states| == |urls|
    requires forall i :: 0 <= i < |states| ==> states[i].url == urls[i]
    ensures UrlSet(states) == set i | 0 <= i < |urls| :: urls[i]
  {
  }

  /**
   * Two tasks that resolve to the same URL end with states for the same
   * URL, so `ToDictionary` throws and nothing is written.
   */
  lemma {:induction false} DuplicateTaskUrlsPreventWrite(
    tasks: seq<DownloadFileTask>, prior: map<Uri, Option<Fingerprint>>, outcomes: seq<Outcomes>, targetDir: string, i: nat, j: nat)
    requires |tasks| == |outcomes|
    requires i < j < |tasks|
    requires ResolveUrl(tasks[i], outcomes[i].link).Ok? && ResolveUrl(tasks[j], outcomes[j].link).Ok?
    requires ResolveUrl(tasks[i], outcomes[i].link).value == ResolveUrl(tasks[j], outcomes[j].link).value
    requires RunSpec(tasks, prior, outcomes, targetDir).Finished?
    ensures RunSpec(tasks, prior, outcomes, targetDir).written.None?
  {
    var o := RunSpec(tasks, prior, outcomes, targetDir);
    if !AnyFaulted(o.runs) {
      var seeded := Seeded(tasks, prior, outcomes, |tasks|);
      assert seeded[i].downloadState == seeded[j].downloadState;
      assert !Faulted(o.runs[i]) && !Faulted(o.runs[j]);
      RanKeepsSeededUrl(seeded[i], outcomes[i], targetDir);
      RanKeepsSeededUrl(seeded[j], outcomes[j], targetDir);
      var states := FinalStates(o.runs);
      assert states[i].url == states[j].url;
    }
  }

  /** An exception from any task's action means nothing is written. */
  lemma {:induction false} ActionFailurePreventsWrite(
    tasks: seq<DownloadFileTask>, prior: map<Uri, Option<Fingerprint>>, outcomes: seq<Outcomes>, targetDir: string, i: nat)
    requires |tasks| == |outcomes|
    requires RunSpec(tasks, prior, outcomes, targetDir).Finished?
    requires i < |tasks| && RunSpec(tasks, prior, outcomes, targetDir).runs[i].Ran?
    requires RunSpec(tasks, prior, outcomes, targetDir).runs[i].action.ActionThrew?
    ensures RunSpec(tasks, prior, outcomes, targetDir).written.None?
  {
    assert Faulted(RunSpec(tasks, prior, outcomes, targetDir).runs[i]);
  }

  /** A run whose tasks all resolve, whose pipelines do not fault and whose final URLs are distinct writes its final states. */
  lemma {:induction false} CleanRunWrites(
    tasks: seq<DownloadFileTask>, prior: map<Uri, Option<Fingerprint>>, outcomes: seq<Outcomes>, targetDir: string)
    requires |tasks| == |outcomes|
    requires FirstUnresolved(tasks, outcomes) == |tasks|
    requires !AnyFaulted(RunAll(Seeded(tasks, prior, outcomes, |tasks|), outcomes, targetDir))
    requires DistinctUrls(FinalStates(RunAll(Seeded(tasks, prior, outcomes, |tasks|), outcomes, targetDir)))
    ensures var runs := RunAll(Seeded(tasks, prior, outcomes, |tasks|), outcomes, targetDir);
      RunSpec(tasks, prior, outcomes, targetDir) == Finished(runs, Some(Serialise(StateMap(FinalStates(runs)))))
  {
  }

  /** Whether seeding succeeds depends on the tasks and the link outcomes only. */
  lemma {:induction false} ResolutionDependsOnLinksOnly(tasks: seq<DownloadFileTask>, outcomes: seq<Outcomes>, again: seq<Outcomes>)
    requires |tasks| == |outcomes| == |again|
    requires forall i :: 0 <= i < |tasks| ==> again[i].link == outcomes[i].link
    ensures FirstUnresolved(tasks, again) == FirstUnresolved(tasks, outcomes)
    decreases |tasks|
  {
    if tasks != [] {
      ResolutionDependsOnLinksOnly(tasks[1..], outcomes[1..], again[1..]);
    }
  }

  /**
   * With a consistent store, every task whose probe responds ends with the
   * fingerprint of its resolved URL and the headers seen.
   */
  lemma {:induction false} ProbedTaskEndsWithHeaders(
    tasks: seq<DownloadFileTask>, prior: map<Uri, Option<Fingerprint>>, outcomes: seq<Outcomes>, targetDir: string, i: nat)
    requires |tasks| == |outcomes| && ConsistentStore(prior)
    requires FirstUnresolved(tasks, outcomes) == |tasks| && i < |tasks|
    requires outcomes[i].probe.Responded?
    requires RunTask(Seeded(tasks, prior, outcomes, |tasks|)[i], outcomes[i], targetDir).Ran?
    ensures var run := RunTask(Seeded(tasks, prior, outcomes, |tasks|)[i], outcomes[i], targetDir);
      var h := outcomes[i].probe.headers;
      ToFingerprint(run.state) ==
        Fingerprint(ResolveUrl(tasks[i], outcomes[i].link).value, h.contentMd5, h.contentLength, h.lastModified)
  {
    var seeded := Seeded(tasks, prior, outcomes, |tasks|)[i];
    RanEndsAtResolvedUrl(tasks, prior, outcomes, targetDir, i);
    ProbedFingerprintIsKept(seeded, outcomes[i], targetDir);
  }

  /**
   * In the run after a written run, with the same resolved URLs and the same
   * headers, every task's pipeline runs without downloading or acting and
   * ends with the fingerprint the first run wrote for its URL.
   */
  lemma {:induction false} SecondRunTask(
    tasks: seq<DownloadFileTask>, m: map<Uri, Fingerprint>, again: seq<Outcomes>, targetDir: string, i: nat)
    requires |tasks| == |again| && FirstUnresolved(tasks, again) == |tasks| && i < |tasks|
    requires again[i].probe.Responded?
    requires var u := ResolveUrl(tasks[i], again[i].link).value;
      u in m && m[u] == Observed(u, again[i].probe.headers)
    ensures var run := RunTask(Seeded(tasks, Stored(m), again, |tasks|)[i], again[i], targetDir);
      && run.Ran? && run.download.NotAttempted? && run.action.NotTriggered?
      && run.state.url == ResolveUrl(tasks[i], again[i].link).value
      && ToFingerprint(run.state) == m[ResolveUrl(tasks[i], again[i].link).value]
  {
    var seeded := Seeded(tasks, Stored(m), again, |tasks|)[i];
    assert seeded.url == ResolveUrl(tasks[i], again[i].link).value;
    UnchangedResourceIsNotDownloadedAgain(seeded, Stored(m), again[i], targetDir);
  }

  /**
   * Idempotence of a run: when a run writes the state file, a second run
   * over the same tasks that resolves the same URLs and sees the same
   * headers downloads nothing, triggers no action and writes the same map.
   */
  lemma {:induction false} RunIsIdempotent(
    tasks: seq<DownloadFileTask>, prior: map<Uri, Option<Fingerprint>>, outcomes: seq<Outcomes>, again: seq<Outcomes>, targetDir: string)
    requires |tasks| == |outcomes| == |again| && ConsistentStore(prior)
    requires forall i :: 0 <= i < |tasks| ==>
      outcomes[i].probe.Responded? && again[i].probe == outcomes[i].probe && again[i].link == outcomes[i].link
    requires RunSpec(tasks, prior, outcomes, targetDir).Finished?
    requires RunSpec(tasks, prior, outcomes, targetDir).written.Some?
    ensures var m := RunSpec(tasks, prior, outcomes, targetDir).written.value;
      var second := RunSpec(tasks, Stored(m), again, targetDir);
      && second.Finished? && second.written == Some(m)
      && forall i :: 0 <= i < |second.runs| ==>
           second.runs[i].Ran? && second.runs[i].download.NotAttempted? && second.runs[i].action.NotTriggered?
  {
    var states := WrittenFromFinalStates(tasks, prior, outcomes, targetDir);
    var m := Serialise(StateMap(states));
    var urls := FirstRunFingerprints(tasks, prior, outcomes, targetDir);
    SecondRunInputs(tasks, outcomes, again, states, urls, m);
    SecondRunWrites(tasks, m, again, targetDir, urls);
  }

  /** The fingerprint a responding probe of `url` produces. */
  function Observed(url: Uri, h: Headers): (f: Fingerprint)
    ensures f.url == url
  {
    Fingerprint(url, h.contentMd5, h.contentLength, h.lastModified)
  }

  /**
   * A run from a stored map `m` whose keys are the distinct resolved URLs
   * `urls`, each holding the fingerprint the probe observes, downloads
   * nothing, triggers no action and writes `m` again.
   */
  lemma {:induction false} SecondRunWrites(
    tasks: seq<DownloadFileTask>, m: map<Uri, Fingerprint>, again: seq<Outcomes>, targetDir: string, urls: seq<Uri>)
    requires |tasks| == |again| == |urls|
    requires forall i, j :: 0 <= i < j < |urls| ==> urls[i] != urls[j]
    requires m.Keys == set i | 0 <= i < |urls| :: urls[i]
    requires forall i :: 0 <= i < |tasks| ==>
      && again[i].probe.Responded?
      && ResolveUrl(tasks[i], again[i].link) == Ok(urls[i])
      && urls[i] in m && m[urls[i]] == Observed(urls[i], again[i].probe.headers)
    ensures var second := RunSpec(tasks, Stored(m), again, targetDir);
      && second.Finished? && second.written == Some(m)
      && forall i :: 0 <= i < |second.runs| ==>
           second.runs[i].Ran? && second.runs[i].download.NotAttempted? && second.runs[i].action.NotTriggered?
  {
    var states := SecondRunFingerprints(tasks, m, again, targetDir, urls);
    RebuiltMap(states, urls, m);
    CleanRunWrites(tasks, Stored(m), again, targetDir);
  }

  /**
   * States that carry, in order, distinct URLs `urls` and under each the
   * fingerprint `m` holds for it, where `m` has exactly those keys, are
   * written as `m` again.
   */
  lemma {:induction false} RebuiltMap(states: seq<DownloadFileState>, urls: seq<Uri>, m: map<Uri, Fingerprint>)
    requires |states| == |urls|
    requires forall i, j :: 0 <= i < j < |urls| ==> urls[i] != urls[j]
    requires m.Keys == set i | 0 <= i < |urls| :: urls[i]
    requires forall i :: 0 <= i < |urls| ==> states[i].url == urls[i] && urls[i] in m && ToFingerprint(states[i]) == m[urls[i]]
    ensures DistinctUrls(states)
    ensures Serialise(StateMap(states)) == m
  {
    assert DistinctUrls(states);
    SameUrlSets(states, urls);
    var sm := StateMap(states);
    var w := Serialise(sm);
    assert w.Keys == m.Keys;
    forall u | u in m ensures w[u] == m[u] {
      var i :| 0 <= i < |urls| && urls[i] == u;
      assert sm[u] == states[i];
    }
    SameEntries(w, m);
  }

  /** Maps with the same keys and the same value under each key are equal. */
  lemma {:induction false} SameEntries(w: map<Uri, Fingerprint>, m: map<Uri, Fingerprint>)
    requires w.Keys == m.Keys
    requires forall u :: u in m ==> w[u] == m[u]
    ensures w == m
  {
  }

  /**
   * What the second run sees: the same resolved URLs and, under each of
   * them in the written map, the fingerprint its probe observes again.
   */
  lemma {:induction false} SecondRunInputs(
    tasks: seq<DownloadFileTask>, outcomes: seq<Outcomes>, again: seq<Outcomes>,
    states: seq<DownloadFileState>, urls: seq<Uri>, m: map<Uri, Fingerprint>)
    requires |tasks| == |outcomes| == |again| == |states| == |urls|
    requires DistinctUrls(states) && m == Serialise(StateMap(states))
    requires forall i :: 0 <= i < |tasks| ==>
      outcomes[i].probe.Responded? && again[i].probe == outcomes[i].probe && again[i].link == outcomes[i].link
    requires forall i :: 0 <= i < |tasks| ==>
      && ResolveUrl(tasks[i], outcomes[i].link) == Ok(urls[i])
      && states[i].url == urls[i]
      && ToFingerprint(states[i]) == Observed(urls[i], outcomes[i].probe.headers)
    ensures forall i, j :: 0 <= i < j < |urls| ==> urls[i] != urls[j]
    ensures m.Keys == set i | 0 <= i < |urls| :: urls[i]
    ensures forall i :: 0 <= i < |tasks| ==>
      && again[i].probe.Responded?
      && ResolveUrl(tasks[i], again[i].link) == Ok(urls[i])
      && urls[i] in m && m[urls[i]] == Observed(urls[i], again[i].probe.headers)
  {
    SerialisedEntries(states);
    SameUrlSets(states, urls);
  }

  /** After the first run, each task's final state is its resolved URL with the headers seen. */
  lemma {:induction false} FirstRunFingerprints(
    tasks: seq<DownloadFileTask>, prior: map<Uri, Option<Fingerprint>>, outcomes: seq<Outcomes>, targetDir: string)
    returns (urls: seq<Uri>)
    requires |tasks| == |outcomes| && ConsistentStore(prior)
    requires forall i :: 0 <= i < |tasks| ==> outcomes[i].probe.Responded?
    requires FirstUnresolved(tasks, outcomes) == |tasks|
    requires !AnyFaulted(RunAll(Seeded(tasks, prior, outcomes, |tasks|), outcomes, targetDir))
    ensures var states := FinalStates(RunAll(Seeded(tasks, prior, outcomes, |tasks|), outcomes, targetDir));
      && |urls| == |states| == |tasks|
      && forall i :: 0 <= i < |tasks| ==>
           && ResolveUrl(tasks[i], outcomes[i].link) == Ok(urls[i])
           && states[i].url == urls[i]
           && ToFingerprint(states[i]) == Observed(urls[i], outcomes[i].probe.headers)
  {
    var runs := RunAll(Seeded(tasks, prior, outcomes, |tasks|), outcomes, targetDir);
    urls := seq(|tasks|, i requires 0 <= i < |tasks| => ResolveUrl(tasks[i], outcomes[i].link).value);
    forall i | 0 <= i < |tasks|
      ensures ToFingerprint(runs[i].state) == Observed(urls[i], outcomes[i].probe.headers)
    {
      assert !Faulted(runs[i]);
      ProbedTaskEndsWithHeaders(tasks, prior, outcomes, targetDir, i);
    }
  }

  /** The serialised `StateMap` holds each state's fingerprint under its URL. */
  lemma {:induction false} SerialisedEntries(states: seq<DownloadFileState>)
    requires DistinctUrls(states)
    ensures forall i :: 0 <= i < |states| ==>
      states[i].url in Serialise(StateMap(states)) && Serialise(StateMap(states))[states[i].url] == ToFingerprint(states[i])
  {
  }

  /** In the second run each task skips download and action and keeps the stored fingerprint. */
  lemma {:induction false} SecondRunFingerprints(
    tasks: seq<DownloadFileTask>, m: map<Uri, Fingerprint>, again: seq<Outcomes>, targetDir: string, urls: seq<Uri>)
    returns (states: seq<DownloadFileState>)
    requires |tasks| == |again| == |urls|
    requires forall i :: 0 <= i < |tasks| ==>
      && again[i].probe.Responded?
      && ResolveUrl(tasks[i], again[i].link) == Ok(urls[i])
      && urls[i] in m && m[urls[i]] == Observed(urls[i], again[i].probe.headers)
    ensures FirstUnresolved(tasks, again) == |tasks|
    ensures var second := RunAll(Seeded(tasks, Stored(m), again, |tasks|), again, targetDir);
      && !AnyFaulted(second)
      && (forall i :: 0 <= i < |second| ==> second[i].Ran? && second[i].download.NotAttempted? && second[i].action.NotTriggered?)
      && states == FinalStates(second)
      && forall i :: 0 <= i < |tasks| ==> states[i].url == urls[i] && ToFingerprint(states[i]) == m[urls[i]]
  {
    var second := RunAll(Seeded(tasks, Stored(m), again, |tasks|), again, targetDir);
    forall i | 0 <= i < |tasks|
      ensures second[i].Ran? && second[i].download.NotAttempted? && second[i].action.NotTriggered?
      ensures second[i].state.url == urls[i] && ToFingerprint(second[i].state) == m[urls[i]]
    {
      SecondRunTask(tasks, m, again, targetDir, i);
    }
    assert !AnyFaulted(second);
    states := FinalStates(second);
  }

  /**
   * The worked case over a whole run: one task for a URL `u` whose local
   * path is `/a.bin`, stored with length "10", probed with length "20". The
   * file is downloaded to `a.bin` in the target directory and the state file
   * is rewritten with length "20" as the only entry.
   */
  lemma {:induction false} ChangedLengthIsWritten(u: Uri, targetDir: string)
    requires u.localPath == "/a.bin"
    requires targetDir != [] && targetDir[|targetDir| - 1] != '/'
    ensures var prior := map[u := Some(Fingerprint(u, None, Some("10"), None))];
      var o := RunSpec([DownloadFileTask(u, None, None, None)], prior,
                       [Outcomes(LinkUnresolved, Responded(Headers(None, Some("20"), None)), Completed, true, true)], targetDir);
      && o.Finished? && |o.runs| == 1 && o.runs[0].Ran?
      && o.runs[0].download == Downloaded(targetDir + "/a.bin")
      && o.written == Some(map[u := Fingerprint(u, None, Some("20"), None)])
  {
    var prior := map[u := Some(Fingerprint(u, None, Some("10"), None))];
    var task := DownloadFileTask(u, None, None, None);
    var out := Outcomes(LinkUnresolved, Responded(Headers(None, Some("20"), None)), Completed, true, true);
    assert SeedTask(task, out.link, prior) == Ok(DownloadFileTask(u, None, None, SeedState(u, prior)));
    ChangedLengthIsDownloaded(u, targetDir);
    SingleTaskRun(task, prior, out, targetDir);
  }

  /**
   * A run of one task that resolves and whose pipeline completes without an
   * exception writes exactly that task's final fingerprint.
   */
  lemma {:induction false} SingleTaskRun(
    task: DownloadFileTask, prior: map<Uri, Option<Fingerprint>>, out: Outcomes, targetDir: string)
    requires SeedTask(task, out.link, prior).Ok?
    requires !Faulted(RunTask(SeedTask(task, out.link, prior).value, out, targetDir))
    ensures var run := RunTask(SeedTask(task, out.link, prior).value, out, targetDir);
      RunSpec([task], prior, [out], targetDir) == Finished([run], Some(map[run.state.url := ToFingerprint(run.state)]))
  {
    var tasks, outcomes := [task], [out];
    assert FirstUnresolved(tasks, outcomes) == 1 by {
      assert FirstUnresolved(tasks[1..], outcomes[1..]) == 0;
    }
    var run := RunTask(SeedTask(task, out.link, prior).value, out, targetDir);
    var runs := RunAll(Seeded(tasks, prior, outcomes, 1), outcomes, targetDir);
    assert runs == [run];
    assert !AnyFaulted(runs);
    var states := FinalStates(runs);
    assert states == [run.state];
    assert DistinctUrls(states);
    var sm := map[run.state.url := run.state];
    assert StateMap(states) == sm;
    assert Serialise(sm) == map[run.state.url := ToFingerprint(run.state)];
    assert Written(runs) == Some(Serialise(sm));
  }
}
