# sublime-DM build command, modelled in Dafny

This project models the core of the `exec_in_window` build command of the
sublime-DM plugin (a Sublime Text plugin for the DM language). The command
finds the nearest build file (`.dme` for the compiler, `.dmb` for the daemon
and the seeker) by walking up from the edited file's directory. It then
assembles the command line and starts the build process in that file's
directory. While the process runs, its output is streamed into an output
view; when it exits, a completion banner and a status line are posted.

Modules:

- `Wrappers` (wrappers.dfy): `Option`, `Result` and Python truthiness of an
  optional string.
- `UpwardSearch` (upward_search.dfy): `walk_up` and `getBuildFileDetails`.
  The filesystem is a map from canonical paths (component sequences, the
  root is `[]`) to an optional listing of named entries with an is-directory
  flag. `WalkUp` is the generator as a recursive function. Its termination
  measure is the path length. The nested loops of `getBuildFileDetails` and
  the partition loop of `walk_up` are methods proved equal to the functions.
- `CommandLine` (command_line.dfy): `get_setting` over the two settings
  files, the argument list of each launch mode, the `''` placeholder, the
  extension, the splice of the build file's bare name and the working
  directory (`Prepare`).
- `Output` (output.dfy): newline normalisation, decoding through an abstract
  codec, the texts `finish` reports, and the output view with the append
  and clear text commands (class `OutputView`).
- `Controller` (controller.dfy): class `ExecInWindowCommand`, holding the
  current process identity, the quiet flag, the encoding, the post command
  and the output view. Ghost logs record every process killed, every status
  message posted and every post command run. Its methods are `Run` (with
  helpers `Kill`, `Build`, `Assemble` and `Start`), `AppendData` and
  `Finish` (with helper `ReportExit`).

Some behaviours of the code are easy to misread; the model
follows the code as written:

- A directory whose listing fails ends the whole walk (the generator
  returns, exec_in_window.py:209-213). The walk does not skip that level, and
  no directory above it is examined (`NothingAboveUnreadable`,
  `UnreadableStartEndsSearch`).
- What is spliced into the argument list is the build file's bare name, not
  its full path. It resolves because the process runs in the build file's
  directory.
- A decode failure assigns `None` only to the local `proc`
  (exec_in_window.py:147). The current process stays current, and its next
  chunks are still shown (`AppendData` changes only the view and the kill
  log).
- Each launch mode runs `get_setting` before the kill test. When
  `get_setting` gives `None` for a key the mode needs (the key is absent
  from the DM settings, and absent or empty in the Preferences), the
  concatenation raises even on a kill request (`Run`, first postcondition).
- The "not found" message goes through `append_data(None, …)` before the
  current process is reset (exec_in_window.py:58, before line 78). So it is
  dropped while an earlier process is still current (the `Run` ensures about
  the not-found case). Since `finish` never resets the current process
  (exec_in_window.py:161-181), a process that has exited stays current: after
  any build that spawned, a later "not found" message is shown again only after a
  kill request or a build whose spawn fails, since both leave no process
  current (`NotFoundHiddenAfterBuild`). The spawn-failure report comes
  after that reset (exec_in_window.py:101-111) and is always shown.
- When not quiet, `finish` for a superseded process still runs the post
  command; its banners are dropped and that process is killed once per
  banner.
- The mode argument lists contain no `''` placeholder. So in any mode an
  unsaved view makes `cmd.index('')` raise, unless the configured executable
  path is empty (`ModesNeedSavedFile`).

Searching twice with the same inputs gives the same result because
`FindBuildFile` is a function.

## Model

| member | source | states |
|---|---|---|
| `UpwardSearch.PartitionEntries` | exec_in_window.py:216-221 | the loop returns exactly the directory names and the non-directory names of the listing, in listing order |
| `UpwardSearch.PartitionMembers` | exec_in_window.py:216-221 | a name is among the directories iff it is a directory entry, among the others iff it is a non-directory entry, and no entry is lost |
| `UpwardSearch.WalkUpVisits` | exec_in_window.py:206-232 | the walk visits the start directory and then successive parents, each of them listable, with that directory's partitioned listing; it stops after the root or right before the first directory whose listing fails; at most depth + 1 levels |
| `UpwardSearch.NothingAboveUnreadable` | exec_in_window.py:209-213 | when the k-th ancestor cannot be listed, the walk holds at most k levels (ancestors 0..k-1), all below that ancestor |
| `UpwardSearch.FirstMatchSpec` | exec_in_window.py:236-238 | the inner loop returns the earliest file name whose lower-cased form ends with the extension, and returns nothing iff no name matches |
| `UpwardSearch.FindInSpec` | exec_in_window.py:235-238 | the outer loop returns the first level holding a match, paired with that level's first match, and nothing iff no level holds one |
| `UpwardSearch.GetBuildFileDetails` | exec_in_window.py:234-240 | the nested loops with their early return compute the search function, including the `BuildFileNotFound` message |
| `UpwardSearch.FindBuildFileSpec` | exec_in_window.py:234-240 | the search fails, with "Unable to find build file with extension: " + ext, iff no visited directory holds a matching non-directory; otherwise it returns a matching non-directory of the nearest such ancestor, and no nearer visited ancestor holds one |
| `UpwardSearch.UnreadableStartEndsSearch` | exec_in_window.py:209-213 | an unreadable start directory ends the search even though its parent holds a build file |
| `UpwardSearch.NearestAncestorScenario` | exec_in_window.py:234-240 | from /proj/src/sub, with only /proj holding BUILD.DME, the search returns (BUILD.DME, /proj) (the match ignores case) |
| `UpwardSearch.SearchMovesUp` | exec_in_window.py:223-238 | a listable directory (not the root) whose files hold no match hands the search, unchanged, to its parent |
| `UpwardSearch.SearchStopsHere` | exec_in_window.py:235-238 | a listable directory whose files hold a match ends the search with its first match and that directory |
| `CommandLine.GetSetting` | exec_in_window.py:190-198 | the Preferences value of "dm_" + key when it is present and non-empty, else the DM value (possibly absent) |
| `CommandLine.Executable` | exec_in_window.py:31 | installation path + executable name, and a raised error iff `get_setting` gives None for either key (absent from the DM settings, and absent or empty in the Preferences) |
| `CommandLine.ModeArgv` | exec_in_window.py:30-37 | seeker wins over daemon, daemon over maker: they give [install+seeker/daemon, "dmbstub", "-trusted"] or [install+compiler]; with no flag the caller's command is kept; it raises iff a set flag's settings are missing |
| `CommandLine.IndexOf` | exec_in_window.py:53 | `list.index`: the position of the first occurrence, absent iff the element is absent |
| `CommandLine.ReplacePlaceholder` | exec_in_window.py:48-53 | only the first '' is replaced by the temporary path, the length and the other elements are kept, and the replacement fails iff there is no '' |
| `CommandLine.Extension` | exec_in_window.py:56 | ".dmb" iff daemon or seeker mode, ".dme" otherwise |
| `CommandLine.Splice` | exec_in_window.py:63-66 | daemon/seeker: index 1 becomes the bare name, the length and the other elements are kept, and only a list shorter than two fails; other modes: the name is appended, so the old list is a prefix and the length grows by one |
| `CommandLine.PrepareSpec` | exec_in_window.py:48-66 | the launch uses the build file the search finds from the source file's directory with the mode's extension; the working directory is that file's directory; the argv is the substituted command with the name spliced in; each failure (no placeholder, no build file, no second argument) holds exactly when its own cause does |
| `CommandLine.StubModesNeverLackSecondArgument` | exec_in_window.py:33-37 | in daemon/seeker mode the `cmd[1]` overwrite never fails |
| `CommandLine.ModesNeedSavedFile` | exec_in_window.py:30-53 | with a mode flag and an unsaved view, assembly raises for want of a '' placeholder (unless the executable path is empty) |
| `CommandLine.CompilerScenario` | exec_in_window.py:61-66 | compiler mode with x.dme in /proj gives argv ["/opt/dm/dmcomp", "x.dme"] and working directory /proj |
| `CommandLine.DaemonScenario` | exec_in_window.py:61-66 | daemon mode with site.dmb in /proj gives argv ["/opt/dm/dmdaemon", "site.dmb", "-trusted"] |
| `Output.NormalizeIsOnePass` | exec_in_window.py:151 | the two `replace` passes make every "\r\n" and every lone "\r" a "\n" and keep all other characters |
| `Output.NormalizeSpec` | exec_in_window.py:151 | normalised text has no '\r', normalisation leaves a text unchanged iff it has no '\r', and it is idempotent |
| `Output.NormalizeExample` | exec_in_window.py:151 | "a\r\nb\rc" becomes "a\nb\nc" |
| `Output.RenderedMessage` | exec_in_window.py:141-151 | a plugin message that the codec round-trips and that has no '\r' is inserted exactly as written |
| `Output.RenderedDecodeFailure` | exec_in_window.py:145-146 | on a decode failure the inserted text is "[Decode error - output not " + encoding + "]\n" whatever the payload was (normalised if the encoding name holds '\r') |
| `Output.NatToStringValue` | exec_in_window.py:181 | the digits `%d` prints read back as the number |
| `Output.IntToStringValue` | exec_in_window.py:171 | `%d` of an exit code: a minus sign iff it is negative, followed by digits that read back as its magnitude |
| `Output.StatusLineSpec` | exec_in_window.py:178-181 | the status line is "Build finished" iff the error count is 0; otherwise it is "Build finished with N errors" where N reads back as the count |
| `Output.FinishMessages` | exec_in_window.py:165-171 | exit code 0 or none: the Finished banner, then the Post Command marker only when a post command is set; any other code: only the "with exit code" banner |
| `Output.ExitCodeScenario` | exec_in_window.py:171 | exit code 2 after 3.2 s gives "\n[Finished in 3.2s with exit code 2]\n" |
| `Output.OutputView.Append` | exec_in_window.py:17-21 | the data goes at the end of the view and nowhere else; empty data leaves the view as it was |
| `Output.OutputView.Clear` | exec_in_window.py:23-25 | the view becomes empty |
| `Controller.ExecInWindowCommand.AppendData` | exec_in_window.py:134-157 | an event from a process other than the current one leaves the view unchanged and kills that process if there is one; an event from the current one appends its decoded, normalised text at the end; the current process is never changed, not even on a decode failure |
| `Controller.ExecInWindowCommand.Kill` | exec_in_window.py:39-44 | with a current process: it is killed, forgotten, and "[Cancelled]" is appended through the codec; with none: nothing changes |
| `Controller.ExecInWindowCommand.Start` | exec_in_window.py:76-111 | encoding and quiet are taken from the call; the previous process is forgotten, not killed; the view is cleared; "Building" is posted unless quiet; the new process becomes current, or on a spawn failure the report lines (and "[Finished]" unless quiet) are the view's whole text |
| `Controller.ExecInWindowCommand.Build` | exec_in_window.py:46-111 | past the kill branch: the post command is recorded; a missing build file is reported (shown only when no process is current); other assembly errors escape with the state unchanged; a successful `Prepare` is started |
| `Controller.ExecInWindowCommand.Assemble` | exec_in_window.py:48-66 | the placeholder edit, the search with its nested loops and the splice, stopping at the first error, compute `Prepare` |
| `Controller.ExecInWindowCommand.ReportExit` | exec_in_window.py:162-171 | the banners of `finish` are appended for the current process (a stale one is killed once per banner), and the post command is run after a clean exit whenever one is set |
| `Controller.ExecInWindowCommand.Run` | exec_in_window.py:28-111 | a missing setting raises before anything changes; a kill request never starts a build; otherwise the post command is recorded, a missing build file is reported (shown only when no process is current) and other assembly errors escape with the state unchanged; a successful assembly starts the launch `Prepare` describes |
| `Controller.ExecInWindowCommand.Finish` | exec_in_window.py:161-181 | when not quiet the banners are appended only for the current process (a stale process is killed once per banner); when not quiet, the post command is run after a clean exit whenever one is set, current or not; the status line is posted only for the current process |
| `Controller.IdentityIsolation` | exec_in_window.py:78-101 | after a second build starts, it is the current process, and only its output reaches the freshly cleared view; output of the first is dropped and the first process is killed, exactly once |
| `Controller.NotFoundHiddenAfterBuild` | exec_in_window.py:57-59 | after a build that spawned and finished cleanly, a build whose build file is missing reports not-found but leaves the view exactly as it was, because `finish` keeps the exited process current |

## Left out

- The Sublime Text API: opening the output view, scratch and read-only
  flags, the result regex settings, and the selection tracking with `show`
  auto-scrolling. The model has one output view, while the source opens
  "Build System.dm" in each build file's directory.
- `find_all_results`: the number of recognised error locations is an input
  of `Finish`.
- `AsyncProcess` (spawning, `kill`, `poll`, `exit_code`, `start_time`) and
  the `set_timeout` marshalling in `on_data` and `on_finished`. A process is
  an opaque identity, and a kill is a log entry. Output and exit events are
  calls of `AppendData` and `Finish`. Spawn success or failure is an input
  of `Run`, so cross-process event ordering is not modelled.
- `os.chdir`, the environment (`env`, `build_env` merging, `os.environ`) and
  Python's `str(cmd)` form. The spawn report takes the argument-list text
  and the PATH value as opaque strings. Its `[dir: …]` line is the working
  directory, which is where `os.chdir` went.
- `create_temp_file`: only the returned path is modelled, not the file it
  writes.
- `path.realpath`: paths are taken as canonical, and the parent drops the
  last component.
- Elapsed time: it is an opaque string standing for the `%.1f` text.
- Text codecs: `encode` and `decode` are opaque functions, and each can fail.
- `is_enabled`: it depends on `AsyncProcess.poll`.
- `str.lower()` is modelled for ASCII letters only.
- Settings values are strings, so non-string JSON values and their
  truthiness are not modelled.
- The source never initialises `proc`, `encoding` or `output_view`. So on
  the very first call, the kill branch and the "not found" report of
  exec_in_window.py:58 would raise `AttributeError`; once lines 68 and 78
  have run, `append_data` works. The model's constructor starts with no
  current process, encoding "utf-8" and an empty view.
- The `print(e)` of a listing failure (exec_in_window.py:212) writes to the
  console; the model only ends the walk there.
- Process identities are assumed fresh: `AsyncProcess` always creates a new
  object, while `Run` accepts any `spawn.id`, including one used before.
- Argument lists are values. The model does not capture the aliasing of the
  caller's list (or of the mutable `cmd = []` default) that in-place edits
  cause in Python. The `self.file` attribute is not kept because nothing
  reads it.
