/** Command-line assembly of `ExecInWindowCommand.run`: the settings lookup,
    the argument list each launch mode starts from, the temporary-file
    placeholder, the build-file extension, and splicing the found build file
    into the argument list. */
module CommandLine {
  import opened Wrappers
  import opened UpwardSearch

  /** The two settings files, each a map from key to value; a key that is
      absent reads as `None`. */
  datatype Settings = Settings(preferences: map<string, string>, dm: map<string, string>)

  /** The exceptions `run` can meet while assembling the command line.
      `BuildFileNotFound` is caught and reported; the others escape `run`. */
  datatype RunError =
    | MissingSetting       // `None + str`: `get_setting` gave None (absent from DM, and absent or empty in Preferences)
    | NoPlaceholder        // `cmd.index('')` finds no placeholder
    | NoSecondArgument     // `cmd[1] = ...` on a list shorter than two
    | BuildFileNotFound(message: string)

  /** What the assembly produces: the final argument list, the working
      directory and the build file it was derived from. */
  datatype Launch = Launch(argv: seq<string>, workingDir: Path, buildFile: BuildFile)

  function Lookup(m: map<string, string>, key: string): Option<string>
  {
    if key in m then Some(m[key]) else None
  }

  /** `get_setting(config)`: the Preferences value of "dm_" + config when it
      is truthy (present and non-empty), and the DM value otherwise. */
  function GetSetting(st: Settings, config: string): (r: Option<string>)
    ensures var key := "dm_" + config;
            Truthy(Lookup(st.preferences, key)) ==> r == Lookup(st.preferences, key)
    ensures var key := "dm_" + config;
            !Truthy(Lookup(st.preferences, key)) ==> r == Lookup(st.dm, key)
  {
    var key := "dm_" + config;
    var p := Lookup(st.preferences, key);
    if Truthy(p) then p else Lookup(st.dm, key)
  }


  /** `get_setting("installation_path") + get_setting(exe)`. */
  function Executable(st: Settings, exe: string): (r: Result<string, RunError>)
    ensures r.Ok? <==> GetSetting(st, "installation_path").Some? && GetSetting(st, exe).Some?
    ensures r.Ok? ==> r.value == GetSetting(st, "installation_path").value + GetSetting(st, exe).value
    ensures r.Err? ==> r.error == MissingSetting
  {
    match (GetSetting(st, "installation_path"), GetSetting(st, exe))
    case (Some(dir), Some(name)) => Ok(dir + name)
    case _ => Err(MissingSetting)
  }

  function StubArgv(exe: string): seq<string>
  {
    [exe, "dmbstub", "-trusted"]
  }

  /** The three mode tests at the head of `run`, in source order: maker, then
      daemon, then seeker, each replacing `cmd` when its flag is set. */
  function ModeArgv(st: Settings, maker: bool, daemon: bool, seeker: bool, cmd: seq<string>): (r: Result<seq<string>, RunError>)
    ensures r.Err? <==> (maker && Executable(st, "compiler_executable").Err?)
                        || (daemon && Executable(st, "daemon_executable").Err?)
                        || (seeker && Executable(st, "seeker_executable").Err?)
    ensures r.Err? ==> r.error == MissingSetting
    ensures r.Ok? && seeker ==> r.value == StubArgv(Executable(st, "seeker_executable").value)
    ensures r.Ok? && daemon && !seeker ==> r.value == StubArgv(Executable(st, "daemon_executable").value)
    ensures r.Ok? && maker && !daemon && !seeker ==> r.value == [Executable(st, "compiler_executable").value]
    ensures r.Ok? && !maker && !daemon && !seeker ==> r.value == cmd
  {
    var afterMaker :-
      if maker then
        match Executable(st, "compiler_executable")
        case Ok(exe) => Ok([exe])
        case Err(e) => Err(e)
      else Ok(cmd);
    var afterDaemon :-
      if daemon then
        match Executable(st, "daemon_executable")
        case Ok(exe) => Ok(StubArgv(exe))
        case Err(e) => Err(e)
      else Ok(afterMaker);
    if seeker then
      match Executable(st, "seeker_executable")
      case Ok(exe) => Ok(StubArgv(exe))
      case Err(e) => Err(e)
    else Ok(afterDaemon)
  }

  /** `list.index(x)`: the position of the first occurrence, if any. */
  function IndexOf(s: seq<string>, x: string): (r: Option<nat>)
    ensures r.None? <==> x !in s
    ensures r.Some? ==> r.value < |s| && s[r.value] == x && forall j :: 0 <= j < r.value ==> s[j] != x
  {
    if s == [] then None
    else if s[0] == x then Some(0)
    else
      match IndexOf(s[1..], x)
      case None => None
      case Some(k) => Some(k + 1)
  }

  /** `cmd[cmd.index('')] = path`: only the first placeholder is replaced. */
  function ReplacePlaceholder(cmd: seq<string>, path: string): (r: Result<seq<string>, RunError>)
    ensures r.Err? <==> "" !in cmd
    ensures r.Err? ==> r.error == NoPlaceholder
    ensures r.Ok? ==> |r.value| == |cmd|
                      && exists k :: 0 <= k < |cmd| && cmd[k] == "" && (forall j :: 0 <= j < k ==> cmd[j] != "")
                                     && r.value == cmd[k := path]
  {
    match IndexOf(cmd, "")
    case None => Err(NoPlaceholder)
    case Some(k) => Ok(cmd[k := path])
  }

  /** The build-file extension the search looks for. */
  function Extension(daemonOrSeeker: bool): (ext: string)
    ensures ext == ".dmb" <==> daemonOrSeeker
    ensures ext == ".dme" <==> !daemonOrSeeker
  {
    if daemonOrSeeker then ".dmb" else ".dme"
  }

  /** Daemon and seeker overwrite `cmd[1]` with the build file's bare name;
      the other modes append it. */
  function Splice(cmd: seq<string>, name: string, daemonOrSeeker: bool): (r: Result<seq<string>, RunError>)
    ensures daemonOrSeeker ==> (r.Err? <==> |cmd| < 2)
    ensures r.Err? ==> r.error == NoSecondArgument
    ensures daemonOrSeeker && r.Ok? ==>
              |r.value| == |cmd| && r.value[1] == name
              && forall i :: 0 <= i < |cmd| && i != 1 ==> r.value[i] == cmd[i]
    ensures !daemonOrSeeker ==> r.Ok? && |r.value| == |cmd| + 1 && r.value[..|cmd|] == cmd
                                && r.value[|cmd|] == name
  {
    if daemonOrSeeker then
      if |cmd| < 2 then Err(NoSecondArgument) else Ok(cmd[1 := name])
    else Ok(cmd + [name])
  }

  /** A path as the string the operating system sees. */
  function Render(p: Path): (s: string)
    ensures |s| >= 1 && s[0] == '/'
  {
    if p == [] then "/" else JoinComponents(p)
  }

  function JoinComponents(p: Path): (s: string)
    ensures p != [] ==> |s| >= 1 && s[0] == '/'
  {
    if p == [] then "" else "/" + p[0] + JoinComponents(p[1..])
  }

  /** The file the build starts from: the view's own file, or the temporary copy. */
  function SourceFile(fileName: Option<Path>, tempPath: Path): Path
  {
    if fileName.Some? then fileName.value else tempPath
  }

  /** The part of `run` after the kill branch that assembles the launch: the
      placeholder, the upward search from the source file's directory, the
      splice and the working directory. */
  function Prepare(cmd: seq<string>, fileName: Option<Path>, tempPath: Path, fs: FileSystem,
                   daemonOrSeeker: bool): Result<Launch, RunError>
  {
    var argv :- if fileName.Some? then Ok(cmd) else ReplacePlaceholder(cmd, Render(tempPath));
    var bf :- match FindBuildFile(fs, Parent(SourceFile(fileName, tempPath)), Extension(daemonOrSeeker))
              case Ok(bf) => Ok(bf)
              case Err(message) => Err(BuildFileNotFound(message));
    var spliced :- Splice(argv, bf.name, daemonOrSeeker);
    Ok(Launch(spliced, bf.dir, bf))
  }

  /** What a successful assembly is: the build file is the one the search
      finds from the source file's directory with the mode's extension, the
      working directory is that file's directory, and the argument list is
      the (placeholder-substituted) command with the bare name spliced in. */
  lemma PrepareSpec(cmd: seq<string>, fileName: Option<Path>, tempPath: Path, fs: FileSystem, daemonOrSeeker: bool)
    ensures var r := Prepare(cmd, fileName, tempPath, fs, daemonOrSeeker);
            var search := FindBuildFile(fs, Parent(SourceFile(fileName, tempPath)), Extension(daemonOrSeeker));
            var argv := if fileName.Some? then Ok(cmd) else ReplacePlaceholder(cmd, Render(tempPath));
            && (r.Ok? <==> argv.Ok? && search.Ok? && Splice(argv.value, search.value.name, daemonOrSeeker).Ok?)
            && (r.Ok? ==> r.value.buildFile == search.value
                          && r.value.workingDir == search.value.dir
                          && r.value.argv == Splice(argv.value, search.value.name, daemonOrSeeker).value)
            && (r == Err(NoPlaceholder) <==> fileName.None? && "" !in cmd)
            && (r.Err? && r.error.BuildFileNotFound? <==> argv.Ok? && search.Err?)
            && (r.Err? && r.error.BuildFileNotFound? ==> r.error.message == search.error)
            && (r == Err(NoSecondArgument) <==>
                  argv.Ok? && search.Ok? && Splice(argv.value, search.value.name, daemonOrSeeker).Err?)
  {
  }

  /** In daemon and seeker mode the argument list always has a second slot
      for the build file, so the overwrite never fails. */
  lemma StubModesNeverLackSecondArgument(st: Settings, maker: bool, daemon: bool, seeker: bool, cmd: seq<string>,
                                         fileName: Option<Path>, tempPath: Path, fs: FileSystem)
    requires daemon || seeker
    requires ModeArgv(st, maker, daemon, seeker, cmd).Ok?
    ensures Prepare(ModeArgv(st, maker, daemon, seeker, cmd).value, fileName, tempPath, fs, true) != Err(NoSecondArgument)
  {
    var argv := ModeArgv(st, maker, daemon, seeker, cmd).value;
    assert |argv| == 3;
    PrepareSpec(argv, fileName, tempPath, fs, true);
  }

  /** A mode flag replaces the caller's command by one without a '' slot
      (unless the configured executable path is empty), so an unsaved view
      cannot be built in any mode: `cmd.index('')` raises. */
  lemma ModesNeedSavedFile(st: Settings, maker: bool, daemon: bool, seeker: bool, cmd: seq<string>,
                           tempPath: Path, fs: FileSystem)
    requires maker || daemon || seeker
    requires ModeArgv(st, maker, daemon, seeker, cmd).Ok?
    requires ModeArgv(st, maker, daemon, seeker, cmd).value[0] != ""
    ensures Prepare(ModeArgv(st, maker, daemon, seeker, cmd).value, None, tempPath, fs, daemon || seeker) == Err(NoPlaceholder)
  {
    var argv := ModeArgv(st, maker, daemon, seeker, cmd).value;
    assert "" !in argv;
    PrepareSpec(argv, None, tempPath, fs, daemon || seeker);
  }

  /** Scenario: compiler mode, argument list ["/opt/dm/dmcomp"], x.dme in /proj:
      the bare name is appended. */
  lemma CompilerScenario()
    ensures Prepare(["/opt/dm/dmcomp"], Some(["proj", "main.dm"]), [],
                    map[["proj"] := Some([Entry("x.dme", false)])], false)
            == Ok(Launch(["/opt/dm/dmcomp", "x.dme"], ["proj"], BuildFile("x.dme", ["proj"])))
  {
    assert Lower("x.dme") == "x.dme";
    SingleFileSearch("x.dme", ".dme");
    assert Parent(SourceFile(Some(["proj", "main.dm"]), [])) == ["proj"];
    var cmd: seq<string> := ["/opt/dm/dmcomp"];
    assert Splice(cmd, "x.dme", false).value == cmd + ["x.dme"] == ["/opt/dm/dmcomp", "x.dme"];
  }

  /** Scenario: daemon mode, site.dmb in /proj: index 1 is overwritten with
      the bare name. */
  lemma DaemonScenario()
    ensures Prepare(StubArgv("/opt/dm/dmdaemon"), Some(["proj", "code.dm"]), [],
                    map[["proj"] := Some([Entry("site.dmb", false)])], true)
            == Ok(Launch(["/opt/dm/dmdaemon", "site.dmb", "-trusted"], ["proj"], BuildFile("site.dmb", ["proj"])))
  {
    assert Lower("site.dmb") == "site.dmb";
    SingleFileSearch("site.dmb", ".dmb");
    assert Parent(SourceFile(Some(["proj", "code.dm"]), [])) == ["proj"];
    var cmd := StubArgv("/opt/dm/dmdaemon");
    assert Splice(cmd, "site.dmb", true).value == cmd[1 := "site.dmb"] == ["/opt/dm/dmdaemon", "site.dmb", "-trusted"];
  }
}
