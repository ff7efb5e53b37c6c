# FileDownloader change-detection pipeline in Dafny

FileDownloader reads a list of download tasks and the state file of its
previous run. It then does the following:

- It resolves each task's URL. A task with an XPath rule takes the URL from
  a link on a web page.
- It seeds each task with the stored `DownloadFileState` for that URL, or
  with a fresh state that says "new version available".
- It runs one pipeline per task:
  1. a HEAD probe, which compares the `Content-MD5`, `Content-Length` and
     `Last-Modified` headers with the previous state;
  2. a GET download when something changed;
  3. the task's post-download `FileAction`, which substitutes the downloaded
     file's path for `{download}` in a command line, runs it, and deletes the
     file unless `keep_file` is set.
- Finally it keys the tasks' final states by URL and writes them back to the
  state file.

All of this happens inside one `try` whose `catch` only logs. Any exception
that escapes a pipeline or the seeding loop therefore leaves the state file
untouched.

The model turns every network, file system and process result into an input.
`Outcomes` holds, per task:

- what link resolution found;
- what the probe returned (the request could not be set up, a failure, or the headers);
- how far the download got;
- whether the process ran;
- whether the file could be deleted.

A previously stored state file is a `map<Uri, Option<Fingerprint>>`. A
`Fingerprint` is the persisted part of a state. `None` is a JSON `null`
entry.

The modules are:

- `Basics`: `Option`, `Result`.
- `DotNet`: ordinal `String.Replace`, plus `Path.GetFileName` and
  `Path.Combine` over '/'-separated paths.
- `DownloadFileStates`: the state record, its equality operators, and how it
  is serialised.
- `FileActions`: `FileAction.Trigger`.
- `Program`: the per-task steps, as pure functions over the oracle outcomes.
- `Orchestrator`: `Main`. It is an imperative method over the task array.
  The seeding loop and the pipeline loop update the array's elements in
  place, and a loop builds the dictionary. Specification functions
  (`RunSpec`) and lemmas about whole runs sit beside it.

The tasks run in parallel in the program, but they share no state that the
decisions read (the flags, the fingerprints and the written map) until the
final join. So they are run here one after the other. `Task.WaitAll` throwing
becomes "some pipeline faulted".

## Model

| member | source | states |
|---|---|---|
| DownloadFileStates.ToFingerprint | FileDownloader/Program.cs:205-219 | a serialised state keeps the state's own URL (`DownloadPath` and `IsNewVersionAvailable` are JSON-ignored) |
| DownloadFileStates.FromFingerprint | FileDownloader/Program.cs:240-246 | a deserialised entry has a null `DownloadPath` and a false flag, and serialising it again gives back the stored entry |
| DownloadFileStates.CreateFromWebResponse | FileDownloader/Program.cs:253-260 | the new state holds the request URL and the three header values (null when absent), no download path and a false flag |
| DownloadFileStates.EqualsIffSameFingerprint | FileDownloader/Program.cs:221-228 | `Equals` holds exactly when URL, MD5 hash, length and last-modified all match, two nulls matching |
| DownloadFileStates.EqualsIgnoresRuntimeFields | FileDownloader/Program.cs:221-228 | changing `DownloadPath` or `IsNewVersionAvailable` on either side never changes `Equals` |
| DownloadFileStates.OpEqualsIsEquivalence | FileDownloader/Program.cs:262-265 | `==` is reflexive, symmetric and transitive, and a null equals only a null |
| DownloadFileStates.OpEqualsByFingerprint | FileDownloader/Program.cs:262-269 | `==` is true for two nulls, false when exactly one side is null, and on two states true iff their fingerprints coincide; `!=` is its negation |
| DotNet.ReplaceWithoutOccurrence | FileDownloader/Program.cs:176-177 | a template without the placeholder comes out of `Replace` unchanged |
| DotNet.ReplaceLeftmost | FileDownloader/Program.cs:176-177 | the leftmost placeholder occurrence is replaced by the path, the text before it is kept and the rest is replaced the same way, so every non-overlapping occurrence is replaced |
| DotNet.ReplaceSkipsPrefix | FileDownloader/Program.cs:176-177 | a prefix containing no occurrence is copied unchanged |
| DotNet.ReplaceWholePlaceholder | FileDownloader/Program.cs:163-166 | a template that is exactly the placeholder becomes exactly the replacement |
| DotNet.FileName | FileDownloader/Program.cs:125 | the file name holds no separator, is a suffix of the path, and is either the whole path or preceded by a separator |
| DotNet.Combine | FileDownloader/Program.cs:125 | a non-empty name is appended to the directory, possibly after one inserted separator, so the result starts with the directory and its file name is that name; an empty name gives the directory |
| DotNet.FileNameAfterSeparator | FileDownloader/Program.cs:125 | a path ending in a separator followed by a separator-free name has that name as its file name |
| FileActions.Trigger | FileDownloader/Program.cs:174-185 | succeeds iff command and arguments are non-null, the command left after replacing the placeholder (a null path removing it) is non-empty, the process ran, and either the file is kept or a non-null path was deleted; an empty command always throws; null `args` always fails; the file is deleted iff `keep_file` is false; the command line is the placeholder-replaced templates |
| FileActions.DefaultCommandRunsFile | FileDownloader/Program.cs:163-176 | with the default command, a successful trigger runs the downloaded file's path itself |
| FileActions.DefaultCommandWithoutPathFails | FileDownloader/Program.cs:174-179 | the default command with a null path (a download that failed before its path was chosen) becomes empty, so `Trigger` always throws |
| FileActions.DefaultActionFails | FileDownloader/Program.cs:166-177 | an action with every field defaulted always throws on its null `args` |
| Program.ResolveUrl | FileDownloader/Program.cs:50-61 | without an XPath, or with an empty one, the task's own URL; with a non-empty XPath, the link found on the page (already made absolute); it fails exactly when a non-empty XPath is given and no link was found |
| Program.SeedState | FileDownloader/Program.cs:25-27 | an unknown URL gets a fresh state with only the URL and a true flag; a stored entry is reused with a false flag; a null entry seeds a null state |
| Program.SeedTask | FileDownloader/Program.cs:23-28 | seeding succeeds iff the URL resolves, and then sets the resolved URL and its seeded state and keeps XPath and action |
| Program.RetrieveCurrentState | FileDownloader/Program.cs:63-76 | a null state or an unsupported scheme throws; a failed probe returns the previous state; a response gives the previous URL with the observed headers, flagged new iff the header triple differs from the previous one |
| Program.GetTargetFilePath | FileDownloader/Program.cs:124-128 | the target path is the URL's last local-path segment directly inside the target directory (the directory, an optional separator, then the segment), or the directory itself when that segment is empty |
| Program.TargetPathsCollideIffSameFileName | FileDownloader/Program.cs:124-128 | two URLs get the same target path iff their last segments are equal, so all URLs whose local path ends in '/' share the target directory itself as their path |
| Program.ABinTargetPath | FileDownloader/Program.cs:124-128 | `/a.bin` lands at `<dir>/a.bin` |
| Program.DownloadIfAvailable | FileDownloader/Program.cs:78-113 | a download is attempted iff the flag is set; errors are swallowed; fingerprint and flag never change; `DownloadPath` is set exactly when the download got past the point of choosing the path |
| Program.ExecuteFileActionIfAvailable | FileDownloader/Program.cs:115-122 | the action is triggered iff the flag is set and an action is configured, with the state's download path, and its exception propagates |
| Program.RunTask | FileDownloader/Program.cs:30-38 | the chain stops iff the probe step throws; otherwise the task ends with the probed fingerprint, the download was skipped iff the probe found no new version, and the action was skipped iff no new version or no action |
| Program.ProbeFailureOnUnseenUrl | FileDownloader/Program.cs:73-74 | a failed probe of a URL absent from the store still downloads and triggers a configured action, ending with a URL-only fingerprint |
| Program.HeaderlessUnseenUrlIsNotDownloaded | FileDownloader/Program.cs:63-71 | a URL absent from the store whose server sends none of the three headers is neither downloaded nor acted on, even on the first run, and ends with a URL-only fingerprint |
| Program.ProbeFailureOnKnownUrl | FileDownloader/Program.cs:73-74 | a failed probe of a stored URL downloads nothing, triggers nothing and keeps the stored fingerprint |
| Program.ProbedFingerprintIsKept | FileDownloader/Program.cs:78-113 | after a response the task holds the observed fingerprint whatever the download did |
| Program.ActionIgnoresDownloadResult | FileDownloader/Program.cs:115-122 | whether the action is triggered does not depend on the download outcome |
| Program.UnchangedResourceIsNotDownloadedAgain | FileDownloader/Program.cs:63-71 | a stored fingerprint probed again with the same headers (all-null included) gives no download, no action and the same fingerprint |
| Program.ChangedLengthIsDownloaded | FileDownloader/Program.cs:63-113 | stored length "10", probed length "20": downloaded to `<dir>/a.bin`, no action, new fingerprint with length "20" |
| Orchestrator.FirstUnresolved | FileDownloader/Program.cs:23-24 | the index of the first task whose URL does not resolve: all earlier ones resolve |
| Orchestrator.Seeded | FileDownloader/Program.cs:23-28 | the seeded tasks are the successful `SeedTask` results, in order |
| Orchestrator.RunAll | FileDownloader/Program.cs:30-39 | one pipeline result per task, each `RunTask` of its seeded task |
| Orchestrator.FinalStates | FileDownloader/Program.cs:40-42 | with no faulted pipeline every task ran, and its final state is the one its pipeline left |
| Orchestrator.StateMap | FileDownloader/Program.cs:42 | with distinct URLs, the dictionary's keys are the states' URLs and each maps to its state |
| Orchestrator.Serialise | FileDownloader/Program.cs:248-251 | the written map has the dictionary's keys, each with its state's fingerprint |
| Orchestrator.Stored | FileDownloader/Program.cs:240-246 | reading a written map back gives the same keys with non-null entries |
| Orchestrator.ToDictionary | FileDownloader/Program.cs:42 | succeeds iff the URLs are distinct, then maps each URL to its state; otherwise reports the first URL already present |
| Orchestrator.DictionaryIsStateMap | FileDownloader/Program.cs:42 | a dictionary with those keys and values is `StateMap` |
| Orchestrator.SeedTasks | FileDownloader/Program.cs:23-28 | the seeding loop updates tasks in place up to the first unresolvable URL, where it throws, leaving later tasks untouched |
| Orchestrator.RunPipelines | FileDownloader/Program.cs:30-40 | the pipeline loop yields `RunAll` of the seeded tasks, reports a fault iff some pipeline faulted, and leaves each task updated with its pipeline's final state when the probe step completed and as seeded otherwise |
| Orchestrator.Run | FileDownloader/Program.cs:18-47 | `Main`'s outcome and written map are `RunSpec` of the initial tasks, and every task is left as seeding and its pipeline left it |
| Orchestrator.SeededAll | FileDownloader/Program.cs:23-28 | the array after the seeding loop is `Seeded` |
| Orchestrator.RanKeepsSeededUrl | FileDownloader/Program.cs:30-38 | a pipeline that ran ends with the URL of the state it was seeded with |
| Orchestrator.WrittenMapHoldsFinalStates | FileDownloader/Program.cs:40-43 | the written map files each entry under the entry's own URL, holds every final state's fingerprint, and holds nothing else |
| Orchestrator.RanEndsAtResolvedUrl | FileDownloader/Program.cs:23-38 | with a consistent store, a task that ran ends at its own resolved URL |
| Orchestrator.WrittenMapIsConsistent | FileDownloader/Program.cs:40-43 | a written map, read back, is a consistent store |
| Orchestrator.WrittenKeysAreTaskUrls | FileDownloader/Program.cs:23-43 | from a consistent store, the written keys are exactly the tasks' resolved URLs |
| Orchestrator.FinalUrlsAreResolvedUrls | FileDownloader/Program.cs:23-42 | from a consistent store, the final states' URLs are the resolved URLs |
| Orchestrator.WrittenFromFinalStates | FileDownloader/Program.cs:40-43 | a write means every task resolved, no pipeline faulted, the final URLs are distinct, and the map is their serialised dictionary |
| Orchestrator.DuplicateTaskUrlsPreventWrite | FileDownloader/Program.cs:42 | two tasks resolving to the same URL make `ToDictionary` throw, so nothing is written |
| Orchestrator.ActionFailurePreventsWrite | FileDownloader/Program.cs:38-40 | one action exception means nothing is written for any task |
| Orchestrator.CleanRunWrites | FileDownloader/Program.cs:40-43 | all resolved, no fault and distinct final URLs means the final states are written |
| Orchestrator.ResolutionDependsOnLinksOnly | FileDownloader/Program.cs:23-24 | where seeding stops depends only on the tasks and the link outcomes |
| Orchestrator.ProbedTaskEndsWithHeaders | FileDownloader/Program.cs:63-71 | from a consistent store, a task whose probe responded ends with its resolved URL and the observed headers |
| Orchestrator.SecondRunTask | FileDownloader/Program.cs:63-71 | with the fingerprint stored under its URL, a task seeing the same headers downloads nothing, triggers nothing and keeps that fingerprint |
| Orchestrator.RunIsIdempotent | FileDownloader/Program.cs:18-47 | after a run that writes and whose probes all responded, a second run from what it wrote, with the same links and headers, downloads nothing, triggers nothing and writes the same map |
| Orchestrator.SecondRunWrites | FileDownloader/Program.cs:18-47 | a run from a stored map holding each resolved URL's observed fingerprint writes that map again, cleanly |
| Orchestrator.RebuiltMap | FileDownloader/Program.cs:42-43 | states carrying, in order, distinct URLs and the fingerprints a map holds for them serialise to that map |
| Orchestrator.SecondRunInputs | FileDownloader/Program.cs:42-43 | the written map has the tasks' resolved URLs as distinct keys, each with the fingerprint its probe observes |
| Orchestrator.FirstRunFingerprints | FileDownloader/Program.cs:63-71 | after a run whose probes all respond, each final state is its resolved URL with the headers seen |
| Orchestrator.SerialisedEntries | FileDownloader/Program.cs:42-43 | the written map holds each state's fingerprint under its URL |
| Orchestrator.SecondRunFingerprints | FileDownloader/Program.cs:30-38 | in the second run every pipeline runs without download or action and ends with the stored fingerprint |
| Orchestrator.ChangedLengthIsWritten | FileDownloader/Program.cs:18-47 | one task stored with length "10" and probed with length "20" is downloaded to `<dir>/a.bin` and the state file becomes that single entry with length "20" |
| Orchestrator.SingleTaskRun | FileDownloader/Program.cs:18-47 | a one-task run without exception writes exactly that task's final fingerprint |

## Behaviour worth knowing

- **No headers at all.** A probe's state is compared with the previous
  state field by field, two absent headers being equal. When the server
  sends none of the three headers and the stored entry has none either, the
  states are `==`, the flag is false and nothing is downloaded
  (`UnchangedResourceIsNotDownloadedAgain`). The same holds for a URL that
  is not in the store at all: its fresh seed has no headers, so a server
  that sends none of them is never downloaded from, not even on the first
  run (`HeaderlessUnseenUrlIsNotDownloaded`).
- **Failed probe.** A failed probe returns the previous state unchanged. For
  a URL that is not in the store, the fresh seed's flag is true, so the file
  is still downloaded (`ProbeFailureOnUnseenUrl`); for a stored URL nothing
  happens (`ProbeFailureOnKnownUrl`).
- **Failed download.** A failed download still leaves the newly observed
  fingerprint in the task, and that fingerprint is what gets written
  (`ProbedFingerprintIsKept`).
- **Failed action.** An action's exception faults its task, `WaitAll`
  throws, and the state file is not written for any task
  (`ActionFailurePreventsWrite`). With the default command, a download that
  failed before its path was chosen leaves an empty command line, which
  always throws (`DefaultCommandWithoutPathFails`).
- **Failed link resolution.** `ResolveUrl` runs in the seeding loop, outside
  every pipeline, so a link that cannot be resolved ends the run before any
  probe and nothing is written (`Orchestrator.Run`, `SeedingThrew`).
- **Header presence.** A header present on one side and absent on the other
  counts as a difference.
- **Written keys.** The written map is keyed by each final state's own URL
  rather than by the task's URL. From a store that files every entry under
  its own URL, which is what a write always produces
  (`WrittenMapIsConsistent`), the two coincide (`WrittenKeysAreTaskUrls`).

## Left out

- **HTTP and HTML.** `HtmlWeb`, XPath selection, `Helper.CreateUrl` and
  relative-URI resolution in `ResolveUrl` are reduced to `LinkOutcome`.
  `WebRequest` HEAD and GET are reduced to `ProbeOutcome` and
  `DownloadOutcome`. These are network and library behaviour.
- **File I/O in the download.** The byte-copy loop and `FileStream`,
  `File.Exists` and `File.Delete` (lines 86-103) are not modelled. Only
  whether the download failed before `DownloadPath` was set, failed after
  it, or completed is an input.
- **Processes.** `Process.Start` and the ten-minute `WaitForExit` are
  reduced to the `processOk` input, except for an empty command, which
  always throws.
- **JSON and the state file.** Deserialising the task list, reading and
  writing the state file, and the `File.Exists` checks at lines 20 and 241
  are not modelled. The stored map is a parameter, and `Serialise` is what
  would be written.
- **Path normalisation.** `Path.Combine` with the current directory and
  `Path.GetFullPath` normalisation are not modelled. `targetDir` stands for
  the already absolute target directory, and '/' is the only separator.
- **URIs.** `Uri` is four strings compared structurally. .NET's `Uri`
  equality rules (case-insensitive scheme and host, ignored fragment) are
  not modelled.
- **Object identity.** `DownloadFileState` is a value, not an object.
  Two tasks with the same URL share one stored object. But a stored object
  has a false flag, so neither download nor action mutates it. A probe that
  responds creates a new object. And such duplicates make `ToDictionary`
  throw anyway.
- **Unused equality.** `GetHashCode`, `DownloadFileTask.Equals` and
  `FileAction.Equals` are not used by the pipeline.
- **Logging.** NLog is not modelled. Of line 64, only its exception on a
  null state is modelled.
- **Configuration.** `AppSettings` and `appsettings.cs` configuration
  lookup is not modelled.
- **Concurrency.** Task scheduling is not modelled. The pipelines are run
  in order, and the join is the "some pipeline faulted" test.
- **Shared target files.** Two flagged tasks whose URLs end in the same
  segment (`TargetPathsCollideIffSameFileName`) delete, create and write the
  same file at the same time, and a `keep_file: false` action of one may
  delete the file the other downloaded. The model gives each task its own
  download, process and delete outcomes and does not correlate them; the
  flags and the written map never read the file, so they are unaffected.
