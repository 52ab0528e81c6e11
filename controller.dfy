/** The controller `ExecInWindowCommand`: `run` (mode argument list, kill
    branch, assembly and spawn), `append_data` and `finish`.

    The child process is opaque: a process is known only by its identity,
    its output and its exit arrive as calls of `AppendData` and `Finish`, and
    whether spawning it succeeds is an input of `Run`. Killing a process,
    posting a status message and running a command are recorded in ghost
    logs. */
module Controller {
  import opened Wrappers
  import opened UpwardSearch
  import opened CommandLine
  import opened Output

  /** The identity of an `AsyncProcess`. */
  type ProcId = nat

  /** The keyword arguments of `run` that the model uses. */
  datatype RunArgs = RunArgs(cmd: seq<string>, encoding: string, quiet: bool, kill: bool,
                             maker: bool, daemon: bool, seeker: bool, postCommand: Option<string>)

  /** What creating the `AsyncProcess` gives: a new process, or the OSError
      message together with the two foreign strings its report prints (the
      Python form of the argument list and the PATH value). */
  datatype Spawn = Spawned(id: ProcId) | SpawnError(message: string, cmdText: string, pathVar: string)

  /** How a call of `run` ended. `Raised` is an exception that escapes `run`. */
  datatype Outcome =
    | Raised(error: RunError)
    | Cancelled
    | NothingToCancel
    | BuildFileMissing(message: string)
    | SpawnFailed(launch: Launch)
    | Started(launch: Launch, id: ProcId)

  /** The argument list after the three mode tests. */
  function BaseArgv(args: RunArgs, st: Settings): Result<seq<string>, RunError>
  {
    ModeArgv(st, args.maker, args.daemon, args.seeker, args.cmd)
  }

  /** The assembly `run` performs once past the kill branch. */
  function Assembly(args: RunArgs, st: Settings, fileName: Option<Path>, tempPath: Path, fs: FileSystem): Result<Launch, RunError>
    requires BaseArgv(args, st).Ok?
  {
    Prepare(BaseArgv(args, st).value, fileName, tempPath, fs, args.daemon || args.seeker)
  }

  /** The text the diagnostic lines `run` appends when spawning fails
      insert, message by message. */
  function SpawnReportText(codecs: Codecs, encoding: string, e: Spawn, launch: Launch, quiet: bool): string
    requires e.SpawnError?
  {
    Rendered(codecs, encoding, Text(e.message + "\n"))
    + Rendered(codecs, encoding, Text("[cmd:  " + e.cmdText + "]\n"))
    + Rendered(codecs, encoding, Text("[dir:  " + Render(launch.workingDir) + "]\n"))
    + Rendered(codecs, encoding, Text("[path: " + e.pathVar + "]\n"))
    + (if quiet then "" else Rendered(codecs, encoding, Text("[Finished]")))
  }

  /** The concatenated text that appending each message in turn inserts. */
  function RenderAll(codecs: Codecs, encoding: string, msgs: seq<string>): string
  {
    if msgs == [] then "" else Rendered(codecs, encoding, Text(msgs[0])) + RenderAll(codecs, encoding, msgs[1..])
  }

  function Repeat(p: ProcId, n: nat): (r: seq<ProcId>)
    ensures |r| == n && forall i :: 0 <= i < n ==> r[i] == p
  {
    if n == 0 then [] else [p] + Repeat(p, n - 1)
  }

  class ExecInWindowCommand {
    /** The current process, the one whose events are shown. */
    var proc: Option<ProcId>
    var quiet: bool
    var encoding: string
    var postCommand: Option<string>
    /** The output view ("Build System.dm"). */
    const view: OutputView
    const codecs: Codecs

    /** Every process `kill` was called on, in order. */
    ghost var kills: seq<ProcId>
    /** Every status-bar message posted, in order. */
    ghost var statusMessages: seq<string>
    /** Every window command run as a post command, in order. */
    ghost var commands: seq<string>

    constructor (codecs: Codecs)
      ensures proc == None && !quiet && encoding == "utf-8" && postCommand == None
      ensures fresh(view) && view.text == "" && this.codecs == codecs
      ensures kills == [] && statusMessages == [] && commands == []
    {
      proc, quiet, encoding, postCommand := None, false, "utf-8", None;
      view := new OutputView();
      this.codecs := codecs;
      kills, statusMessages, commands := [], [], [];
    }

    /** `append_data(proc, data)`: output of a process other than the current
        one is dropped and that process killed; otherwise the decoded,
        newline-normalised text goes at the end of the view. A decode failure
        inserts the notice and leaves the current process as it was. */
    method AppendData(p: Option<ProcId>, data: Payload)
      modifies this`kills, view
      ensures p != proc ==> view.text == old(view.text)
                            && kills == old(kills) + (if p.Some? then [p.value] else [])
      ensures p == proc ==> view.text == old(view.text) + Rendered(codecs, encoding, data)
                            && kills == old(kills)
    {
      if p != proc {
        if p.Some? {
          kills := kills + [p.value];
        }
        return;
      }
      var text: string;
      var decoded := Decoded(codecs, encoding, data);
      if decoded.Some? {
        text := decoded.value;
      } else {
        text := DecodeErrorNotice(encoding);
      }
      text := Normalize(text);
      view.Append(text);
    }

    /** `finish(proc)`: when not quiet, the exit banner (and, after a clean
        exit with a post command set, its marker) goes through `append_data`
        and the post command is run; the status line is posted only when the
        finished process is still the current one. */
    method Finish(p: ProcId, exitCode: Option<int>, elapsed: string, errorCount: nat)
      modifies this`kills, this`statusMessages, this`commands, view
      ensures var msgs := if quiet then [] else FinishMessages(exitCode, elapsed, postCommand);
              && (Some(p) == proc ==> view.text == old(view.text) + RenderAll(codecs, encoding, msgs)
                                      && kills == old(kills)
                                      && statusMessages == old(statusMessages) + [StatusLine(errorCount)])
              && (Some(p) != proc ==> view.text == old(view.text)
                                      && kills == old(kills) + Repeat(p, |msgs|)
                                      && statusMessages == old(statusMessages))
      ensures commands == old(commands) + (if !quiet && Succeeded(exitCode) && Truthy(postCommand)
                                           then [postCommand.value] else [])
    {
      if !quiet {
        ReportExit(p, exitCode, elapsed);
      }
      assert RenderAll(codecs, encoding, []) == "";
      if Some(p) != proc {
        return;
      }
      statusMessages := statusMessages + [StatusLine(errorCount)];
    }

    /** The banner part of `finish`, run when not quiet. */
    method ReportExit(p: ProcId, exitCode: Option<int>, elapsed: string)
      modifies this`kills, this`commands, view
      ensures var msgs := FinishMessages(exitCode, elapsed, postCommand);
              && (Some(p) == proc ==> view.text == old(view.text) + RenderAll(codecs, encoding, msgs)
                                      && kills == old(kills))
              && (Some(p) != proc ==> view.text == old(view.text) && kills == old(kills) + Repeat(p, |msgs|))
      ensures commands == old(commands) + (if Succeeded(exitCode) && Truthy(postCommand)
                                           then [postCommand.value] else [])
    {
      ghost var msgs := FinishMessages(exitCode, elapsed, postCommand);
      if exitCode == None || exitCode == Some(0) {
        AppendData(Some(p), Text(FinishedBanner(elapsed)));
        if Truthy(postCommand) {
          AppendData(Some(p), Text(PostCommandBanner(postCommand.value)));
          commands := commands + [postCommand.value];
          assert msgs[1..][1..] == [];
          assert Repeat(p, 2) == [p, p];
        } else {
          assert msgs[1..] == [];
        }
      } else {
        AppendData(Some(p), Text(ExitCodeBanner(elapsed, exitCode.value)));
        assert msgs[1..] == [];
      }
    }

    /** `run(...)`: the mode argument list, then either the kill branch or the
        assembly, the reset of the output view and the spawn. */
    method Run(args: RunArgs, st: Settings, fileName: Option<Path>, tempPath: Path, fs: FileSystem, spawn: Spawn)
      returns (outcome: Outcome)
      modifies this, view
      // a missing setting raises before anything else happens, even for kill
      ensures BaseArgv(args, st).Err? ==> outcome == Raised(BaseArgv(args, st).error)
                                          && unchanged(this) && unchanged(view)
      // kill with a current process: it is killed, forgotten and cancelled on screen
      ensures BaseArgv(args, st).Ok? && args.kill && old(proc).Some? ==>
                outcome == Cancelled && proc == None
                && kills == old(kills) + [old(proc).value]
                && view.text == old(view.text) + Rendered(codecs, encoding, Text("[Cancelled]"))
                && quiet == old(quiet) && encoding == old(encoding) && postCommand == old(postCommand)
                && statusMessages == old(statusMessages) && commands == old(commands)
      // kill with no current process: nothing happens
      ensures BaseArgv(args, st).Ok? && args.kill && old(proc).None? ==>
                outcome == NothingToCancel && unchanged(this) && unchanged(view)
      // otherwise the post command is recorded first, and no process is killed
      ensures BaseArgv(args, st).Ok? && !args.kill ==>
                postCommand == args.postCommand && kills == old(kills) && commands == old(commands)
      // the command cannot be assembled: the exception escapes
      ensures BaseArgv(args, st).Ok? && !args.kill && Assembly(args, st, fileName, tempPath, fs).Err?
              && !Assembly(args, st, fileName, tempPath, fs).error.BuildFileNotFound? ==>
                outcome == Raised(Assembly(args, st, fileName, tempPath, fs).error)
                && proc == old(proc) && quiet == old(quiet) && encoding == old(encoding)
                && view.text == old(view.text) && statusMessages == old(statusMessages)
      // no build file: the message is appended, and shown only if no process is current
      ensures BaseArgv(args, st).Ok? && !args.kill && Assembly(args, st, fileName, tempPath, fs).Err?
              && Assembly(args, st, fileName, tempPath, fs).error.BuildFileNotFound? ==>
                var message := Assembly(args, st, fileName, tempPath, fs).error.message;
                outcome == BuildFileMissing(message)
                && proc == old(proc) && quiet == old(quiet) && encoding == old(encoding)
                && statusMessages == old(statusMessages)
                && view.text == old(view.text) + (if proc.None? then Rendered(codecs, encoding, Text(message + "\n")) else "")
      // assembled: the view is cleared, the old process forgotten (not killed),
      // and the new one becomes current, or the spawn failure is reported
      ensures BaseArgv(args, st).Ok? && !args.kill && Assembly(args, st, fileName, tempPath, fs).Ok? ==>
                var launch := Assembly(args, st, fileName, tempPath, fs).value;
                quiet == args.quiet && encoding == args.encoding
                && statusMessages == old(statusMessages) + (if args.quiet then [] else ["Building"])
                && (spawn.Spawned? ==> outcome == Started(launch, spawn.id) && proc == Some(spawn.id)
                                       && view.text == "")
                && (spawn.SpawnError? ==> outcome == SpawnFailed(launch) && proc == None
                                          && view.text == SpawnReportText(codecs, encoding, spawn, launch, args.quiet))
    {
      var cmd: seq<string>;
      match BaseArgv(args, st)
      case Err(e) => return Raised(e);
      case Ok(c) => cmd := c;
      if args.kill {
        outcome := Kill();
        return;
      }
      outcome := Build(args, cmd, fileName, tempPath, fs, spawn);
    }

    /** The part of `run` past the kill branch, from the base argument list on. */
    method Build(args: RunArgs, base: seq<string>, fileName: Option<Path>, tempPath: Path, fs: FileSystem, spawn: Spawn)
      returns (outcome: Outcome)
      modifies this`postCommand, this`encoding, this`quiet, this`proc, this`statusMessages, this`kills, view
      ensures postCommand == args.postCommand && kills == old(kills)
      ensures var r := Prepare(base, fileName, tempPath, fs, args.daemon || args.seeker);
              r.Err? && !r.error.BuildFileNotFound? ==>
                outcome == Raised(r.error)
                && proc == old(proc) && quiet == old(quiet) && encoding == old(encoding)
                && view.text == old(view.text) && statusMessages == old(statusMessages)
      ensures var r := Prepare(base, fileName, tempPath, fs, args.daemon || args.seeker);
              r.Err? && r.error.BuildFileNotFound? ==>
                outcome == BuildFileMissing(r.error.message)
                && proc == old(proc) && quiet == old(quiet) && encoding == old(encoding)
                && statusMessages == old(statusMessages)
                && view.text == old(view.text) + (if proc.None? then Rendered(codecs, encoding, Text(r.error.message + "\n")) else "")
      ensures var r := Prepare(base, fileName, tempPath, fs, args.daemon || args.seeker);
              r.Ok? ==>
                quiet == args.quiet && encoding == args.encoding
                && statusMessages == old(statusMessages) + (if args.quiet then [] else ["Building"])
                && (spawn.Spawned? ==> outcome == Started(r.value, spawn.id) && proc == Some(spawn.id)
                                       && view.text == "")
                && (spawn.SpawnError? ==> outcome == SpawnFailed(r.value) && proc == None
                                          && view.text == SpawnReportText(codecs, encoding, spawn, r.value, args.quiet))
    {
      postCommand := args.postCommand;
      var assembled := Assemble(base, fileName, tempPath, fs, args.daemon || args.seeker);
      match assembled
      case Err(BuildFileNotFound(message)) =>
        AppendData(None, Text(message + "\n"));
        return BuildFileMissing(message);
      case Err(e) =>
        return Raised(e);
      case Ok(launch) =>
        outcome := Start(launch, args.encoding, args.quiet, spawn);
    }

    /** The assembly steps of `run`: the placeholder edit, the search from the
        source file's directory and the splice, stopping at the first error. */
    static method Assemble(base: seq<string>, fileName: Option<Path>, tempPath: Path, fs: FileSystem,
                           daemonOrSeeker: bool) returns (r: Result<Launch, RunError>)
      ensures r == Prepare(base, fileName, tempPath, fs, daemonOrSeeker)
    {
      var cmd := base;
      var file: Path;
      if fileName.Some? {
        file := fileName.value;
      } else {
        file := tempPath;
        match ReplacePlaceholder(cmd, Render(tempPath))
        case Err(e) => return Err(e);
        case Ok(c) => cmd := c;
      }
      var found := GetBuildFileDetails(fs, Parent(file), Extension(daemonOrSeeker));
      if found.Err? {
        return Err(BuildFileNotFound(found.error));
      }
      match Splice(cmd, found.value.name, daemonOrSeeker)
      case Err(e) => return Err(e);
      case Ok(c) => cmd := c;
      return Ok(Launch(cmd, found.value.dir, found.value));
    }

    /** The kill branch of `run`. */
    method Kill() returns (outcome: Outcome)
      modifies this`proc, this`kills, view
      ensures old(proc).Some? ==>
                outcome == Cancelled && proc == None
                && kills == old(kills) + [old(proc).value]
                && view.text == old(view.text) + Rendered(codecs, encoding, Text("[Cancelled]"))
      ensures old(proc).None? ==> outcome == NothingToCancel && unchanged(this) && unchanged(view)
    {
      if proc.Some? {
        kills := kills + [proc.value];
        proc := None;
        AppendData(None, Text("[Cancelled]"));
        return Cancelled;
      }
      return NothingToCancel;
    }

    /** The end of `run` once the command is assembled: the view is reset,
        the previous process forgotten (not killed) and the new one spawned. */
    method Start(launch: Launch, enc: string, beQuiet: bool, spawn: Spawn) returns (outcome: Outcome)
      modifies this`encoding, this`quiet, this`proc, this`statusMessages, this`kills, view
      ensures quiet == beQuiet && encoding == enc && kills == old(kills)
      ensures statusMessages == old(statusMessages) + (if beQuiet then [] else ["Building"])
      ensures spawn.Spawned? ==> outcome == Started(launch, spawn.id) && proc == Some(spawn.id) && view.text == ""
      ensures spawn.SpawnError? ==> outcome == SpawnFailed(launch) && proc == None
                                    && view.text == SpawnReportText(codecs, encoding, spawn, launch, beQuiet)
    {
      encoding := enc;
      quiet := beQuiet;
      proc := None;
      view.Clear();
      if !quiet {
        statusMessages := statusMessages + ["Building"];
      }
      match spawn
      case Spawned(id) =>
        proc := Some(id);
        return Started(launch, id);
      case SpawnError(message, cmdText, pathVar) =>
        ghost var r0 := Rendered(codecs, encoding, Text(message + "\n"));
        ghost var r1 := Rendered(codecs, encoding, Text("[cmd:  " + cmdText + "]\n"));
        ghost var r2 := Rendered(codecs, encoding, Text("[dir:  " + Render(launch.workingDir) + "]\n"));
        ghost var r3 := Rendered(codecs, encoding, Text("[path: " + pathVar + "]\n"));
        AppendData(None, Text(message + "\n"));
        assert view.text == r0;
        AppendData(None, Text("[cmd:  " + cmdText + "]\n"));
        assert view.text == r0 + r1;
        AppendData(None, Text("[dir:  " + Render(launch.workingDir) + "]\n"));
        assert view.text == r0 + r1 + r2;
        AppendData(None, Text("[path: " + pathVar + "]\n"));
        assert view.text == r0 + r1 + r2 + r3;
        if !quiet {
          AppendData(None, Text("[Finished]"));
        }
        return SpawnFailed(launch);
    }
  }

  /** Two builds in a row: once the second process is current, output of the
      first is dropped (and that process killed) while output of the second
      reaches the freshly cleared view. */
  method IdentityIsolation(codecs: Codecs, args: RunArgs, st: Settings, fileName: Option<Path>, tempPath: Path,
                           fs: FileSystem, p1: ProcId, p2: ProcId, staleOutput: seq<byte>, newOutput: seq<byte>)
    returns (current: Option<ProcId>, shown: string, ghost killed: seq<ProcId>)
    requires p1 != p2 && !args.kill
    requires BaseArgv(args, st).Ok? && Assembly(args, st, fileName, tempPath, fs).Ok?
    ensures current == Some(p2)
    ensures shown == Rendered(codecs, args.encoding, Raw(newOutput))
    ensures killed == [p1]
  {
    var c := new ExecInWindowCommand(codecs);
    var first := c.Run(args, st, fileName, tempPath, fs, Spawned(p1));
    var second := c.Run(args, st, fileName, tempPath, fs, Spawned(p2));
    assert c.proc == Some(p2) && c.view.text == "";
    c.AppendData(Some(p1), Raw(staleOutput));
    assert c.kills == [p1] && c.view.text == "";
    c.AppendData(Some(p2), Raw(newOutput));
    current, shown, killed := c.proc, c.view.text, c.kills;
  }

  /** A build that spawned, its clean exit, then a build whose build file is
      missing: `finish` leaves the exited process current, so the "not found"
      message is dropped and the view keeps what the first build left. */
  method NotFoundHiddenAfterBuild(codecs: Codecs, first: RunArgs, second: RunArgs, st: Settings,
                                  fileName: Option<Path>, tempPath: Path, fs: FileSystem, p: ProcId,
                                  elapsed: string)
    returns (before: string, after: string, outcome: Outcome)
    requires !first.kill && BaseArgv(first, st).Ok? && Assembly(first, st, fileName, tempPath, fs).Ok?
    requires !second.kill && BaseArgv(second, st).Ok? && Assembly(second, st, fileName, tempPath, fs).Err?
    requires Assembly(second, st, fileName, tempPath, fs).error.BuildFileNotFound?
    ensures outcome == BuildFileMissing(Assembly(second, st, fileName, tempPath, fs).error.message)
    ensures after == before
  {
    var c := new ExecInWindowCommand(codecs);
    var started := c.Run(first, st, fileName, tempPath, fs, Spawned(p));
    assert c.proc == Some(p);
    c.Finish(p, Some(0), elapsed, 0);
    before := c.view.text;
    outcome := c.Run(second, st, fileName, tempPath, fs, Spawned(p + 1));
    after := c.view.text;
  }
}
