/**
 * `FileAction`: the post-download action of a task. `Trigger` substitutes the
 * downloaded file's path for the `{download}` placeholder in the command and
 * the arguments, runs the command, and deletes the file unless `keep_file`.
 */
module FileActions {
  import opened Basics
  import opened DotNet

  /** `DownloadedFilePathPlaceholder`. */
  const Placeholder: string := "{download}"

  /** JSON fields `command`, `args` and `keep_file`; `None` is a null string. */
  datatype FileAction = FileAction(rawCommand: Option<string>, rawArguments: Option<string>, keepFile: bool)

  /** An action as deserialised from an empty JSON object: the property initialisers. */
  const DefaultAction: FileAction := FileAction(Some(Placeholder), None, true)

  /** The exceptions `Trigger` can throw. */
  datatype TriggerError =
    | NullCommand        // `RawCommand.Replace` on a null command
    | NullArguments      // `RawArguments.Replace` on a null `args`
    | EmptyCommand       // `Process.Start` with no file name to run
    | ProcessFailed      // `Process.Start` or the wait for exit threw
    | NullFilePath       // `File.Delete(null)`
    | DeleteFailed       // `File.Delete` threw on an I/O error

  /** What a successful `Trigger` did: the command line it ran and whether it deleted the file. */
  datatype Triggered = Triggered(command: string, arguments: string, deleted: bool)

  /** `string.Replace` with a null replacement removes the occurrences. */
  function NullAsEmpty(s: Option<string>): string
  {
    if s.Some? then s.value else []
  }

  /**
   * `Trigger(filePath)`. `processOk` is whether starting the process and
   * waiting for its exit succeeded; `deleteOk` whether `File.Delete` of a
   * non-null path succeeded. A command line whose command is empty is refused
   * by `Process.Start` whatever `processOk` says.
   */
  function Trigger(action: FileAction, filePath: Option<string>, processOk: bool, deleteOk: bool): (r: Result<Triggered, TriggerError>)
    ensures r.Ok? <==>
      action.rawCommand.Some? && action.rawArguments.Some? &&
      Replace(action.rawCommand.value, Placeholder, NullAsEmpty(filePath)) != [] && processOk &&
      (action.keepFile || (filePath.Some? && deleteOk))
    ensures action.rawArguments.None? ==> r.Err?
    ensures
      (action.rawCommand.Some? && action.rawArguments.Some? &&
       Replace(action.rawCommand.value, Placeholder, NullAsEmpty(filePath)) == []) ==>
      r == Err(EmptyCommand)
    ensures r.Ok? ==> r.value.deleted == !action.keepFile
    ensures r.Ok? ==>
      r.value.command == Replace(action.rawCommand.value, Placeholder, NullAsEmpty(filePath)) &&
      r.value.arguments == Replace(action.rawArguments.value, Placeholder, NullAsEmpty(filePath))
  {
    if action.rawCommand.None? then Err(NullCommand)
    else
      var command := Replace(action.rawCommand.value, Placeholder, NullAsEmpty(filePath));
      if action.rawArguments.None? then Err(NullArguments)
      else
        var arguments := Replace(action.rawArguments.value, Placeholder, NullAsEmpty(filePath));
        if command == [] then Err(EmptyCommand)
        else if !processOk then Err(ProcessFailed)
        else if action.keepFile then Ok(Triggered(command, arguments, false))
        else if filePath.None? then Err(NullFilePath)
        else if !deleteOk then Err(DeleteFailed)
        else Ok(Triggered(command, arguments, true))
  }

  /** The default command is the placeholder alone, so it runs the downloaded file itself. */
  lemma DefaultCommandRunsFile(action: FileAction, path: string, processOk: bool, deleteOk: bool)
    requires action.rawCommand == DefaultAction.rawCommand
    requires Trigger(action, Some(path), processOk, deleteOk).Ok?
    ensures Trigger(action, Some(path), processOk, deleteOk).value.command == path
  {
    ReplaceWholePlaceholder(Placeholder, path);
  }

  /**
   * The default command with a null path (the download failed before its
   * path was chosen) is the empty string, so `Trigger` always throws.
   */
  lemma DefaultCommandWithoutPathFails(action: FileAction, processOk: bool, deleteOk: bool)
    requires action.rawCommand == DefaultAction.rawCommand && action.rawArguments.Some?
    ensures Trigger(action, None, processOk, deleteOk) == Err(EmptyCommand)
  {
    ReplaceWholePlaceholder(Placeholder, []);
  }

  /** An action with every field defaulted always fails, because `args` is null. */
  lemma DefaultActionFails(filePath: Option<string>, processOk: bool, deleteOk: bool)
    ensures Trigger(DefaultAction, filePath, processOk, deleteOk) == Err(NullArguments)
  {
  }
}
