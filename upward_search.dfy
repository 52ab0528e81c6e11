/** The upward build-file search: `walk_up` and `getBuildFileDetails`.

    A path is the sequence of its components below the filesystem root, so
    the root is `[]` and the parent of a path drops its last component.
    Paths are taken to be canonical already (symbolic links resolved). */
module UpwardSearch {
  import opened Wrappers

  type Path = seq<string>

  /** One entry of a directory listing: its name and whether it is a directory. */
  datatype Entry = Entry(name: string, isDir: bool)

  /** What listing each directory gives: `None` when listing it fails
      (permission denied, I/O error). A path missing from the map cannot be
      listed either. */
  type FileSystem = map<Path, Option<seq<Entry>>>

  /** One step of the walk: a directory with its sub-directory names and its
      other (non-directory) names, in listing order. */
  datatype Level = Level(dir: Path, dirs: seq<string>, nondirs: seq<string>)

  /** The result of a successful search: the build file's bare name and the
      directory that holds it. */
  datatype BuildFile = BuildFile(name: string, dir: Path)

  function Listing(fs: FileSystem, p: Path): Option<seq<Entry>>
  {
    if p in fs then fs[p] else None
  }

  /** The canonical parent directory; the root is its own parent. */
  function Parent(p: Path): (q: Path)
    ensures p == [] ==> q == []
    ensures p != [] ==> |q| == |p| - 1 && q == p[..|p| - 1]
  {
    if p == [] then [] else p[..|p| - 1]
  }

  /** The k-th ancestor of p (the 0-th is p itself). */
  function Ancestor(p: Path, k: nat): Path
    requires k <= |p|
  {
    p[..|p| - k]
  }

  /** Names of the directory entries, in listing order. */
  function DirNames(es: seq<Entry>): seq<string>
  {
    if es == [] then []
    else (if es[0].isDir then [es[0].name] else []) + DirNames(es[1..])
  }

  /** Names of the non-directory entries, in listing order. */
  function FileNames(es: seq<Entry>): seq<string>
  {
    if es == [] then []
    else (if es[0].isDir then [] else [es[0].name]) + FileNames(es[1..])
  }

  /** The partition loses no entry and invents none. */
  lemma {:induction false} PartitionMembers(es: seq<Entry>)
    ensures forall n :: n in DirNames(es) <==> Entry(n, true) in es
    ensures forall n :: n in FileNames(es) <==> Entry(n, false) in es
    ensures |DirNames(es)| + |FileNames(es)| == |es|
  {
    if es != [] {
      PartitionMembers(es[1..]);
      assert es == [es[0]] + es[1..];
    }
  }

  /** The loop of `walk_up` that sorts a listing into directories and the rest. */
  method PartitionEntries(names: seq<Entry>) returns (dirs: seq<string>, nondirs: seq<string>)
    ensures dirs == DirNames(names) && nondirs == FileNames(names)
  {
    dirs, nondirs := [], [];
    var i := 0;
    while i < |names|
      invariant 0 <= i <= |names|
      invariant dirs + DirNames(names[i..]) == DirNames(names)
      invariant nondirs + FileNames(names[i..]) == FileNames(names)
    {
      assert names[i..][1..] == names[i + 1..];
      if names[i].isDir {
        dirs := dirs + [names[i].name];
      } else {
        nondirs := nondirs + [names[i].name];
      }
      i := i + 1;
    }
  }

  /** The levels `walk_up(bottom)` yields: the start directory, then each
      parent in turn, ending after the root (the directory that is its own
      parent) or just before the first directory that cannot be listed. */
  function WalkUp(fs: FileSystem, bottom: Path): seq<Level>
    decreases |bottom|
  {
    match Listing(fs, bottom)
    case None => []
    case Some(names) =>
      var here := Level(bottom, DirNames(names), FileNames(names));
      var up := Parent(bottom);
      if up == bottom then [here] else [here] + WalkUp(fs, up)
  }

  /** ASCII lower-casing of one character. */
  function LowerChar(c: char): (d: char)
    ensures 'A' <= c <= 'Z' ==> d as int == c as int + 32
    ensures !('A' <= c <= 'Z') ==> d == c
  {
    if 'A' <= c <= 'Z' then (c as int + 32) as char else c
  }

  function Lower(s: string): (r: string)
    ensures |r| == |s| && forall i :: 0 <= i < |s| ==> r[i] == LowerChar(s[i])
  {
    seq(|s|, i requires 0 <= i < |s| => LowerChar(s[i]))
  }

  predicate EndsWith(s: string, suffix: string)
  {
    |suffix| <= |s| && s[|s| - |suffix|..] == suffix
  }

  /** `file.lower().endswith(extension)` */
  predicate Matches(name: string, ext: string)
  {
    EndsWith(Lower(name), ext)
  }

  /** The inner loop of `getBuildFileDetails`: the first file name that matches. */
  function FirstMatch(files: seq<string>, ext: string): Option<string>
  {
    if files == [] then None
    else if Matches(files[0], ext) then Some(files[0])
    else FirstMatch(files[1..], ext)
  }

  /** The outer loop of `getBuildFileDetails` over the levels of the walk. */
  function FindIn(levels: seq<Level>, ext: string): Option<BuildFile>
  {
    if levels == [] then None
    else
      match FirstMatch(levels[0].nondirs, ext)
      case Some(n) => Some(BuildFile(n, levels[0].dir))
      case None => FindIn(levels[1..], ext)
  }

  /** FirstMatch gives the earliest matching name, and nothing iff none matches. */
  lemma {:induction false} FirstMatchSpec(files: seq<string>, ext: string)
    ensures FirstMatch(files, ext).None? <==> forall n :: n in files ==> !Matches(n, ext)
    ensures FirstMatch(files, ext).Some? ==>
              exists k :: 0 <= k < |files| && files[k] == FirstMatch(files, ext).value && Matches(files[k], ext)
                          && forall j :: 0 <= j < k ==> !Matches(files[j], ext)
  {
    if files != [] && !Matches(files[0], ext) {
      var rest := files[1..];
      FirstMatchSpec(rest, ext);
      assert files == [files[0]] + rest;
      var r := FirstMatch(rest, ext);
      if r.Some? {
        var k :| 0 <= k < |rest| && rest[k] == r.value && Matches(rest[k], ext)
                 && forall j :: 0 <= j < k ==> !Matches(rest[j], ext);
        assert files[k + 1] == r.value;
        forall j | 0 <= j < k + 1 ensures !Matches(files[j], ext) {
          if j > 0 { assert files[j] == rest[j - 1]; }
        }
      }
    }
  }

  /** FindIn gives the first level holding a match, with that level's first
      match, and nothing iff no level holds one. */
  lemma {:induction false} FindInSpec(levels: seq<Level>, ext: string)
    ensures FindIn(levels, ext).None? <==> forall i :: 0 <= i < |levels| ==> FirstMatch(levels[i].nondirs, ext).None?
    ensures FindIn(levels, ext).Some? ==>
              var bf := FindIn(levels, ext).value;
              exists i :: 0 <= i < |levels| && levels[i].dir == bf.dir
                          && FirstMatch(levels[i].nondirs, ext) == Some(bf.name)
                          && forall j :: 0 <= j < i ==> FirstMatch(levels[j].nondirs, ext).None?
  {
    if levels != [] && FirstMatch(levels[0].nondirs, ext).None? {
      var rest := levels[1..];
      FindInSpec(rest, ext);
      assert forall i :: 0 < i < |levels| ==> levels[i] == rest[i - 1];
      var r := FindIn(rest, ext);
      if r.Some? {
        var i :| 0 <= i < |rest| && rest[i].dir == r.value.dir
                 && FirstMatch(rest[i].nondirs, ext) == Some(r.value.name)
                 && forall j :: 0 <= j < i ==> FirstMatch(rest[j].nondirs, ext).None?;
        assert levels[i + 1] == rest[i];
      }
    }
  }

  function NotFoundMessage(ext: string): string
  {
    "Unable to find build file with extension: " + ext
  }

  /** `getBuildFileDetails(startDir, extension)`: the build file, or the
      message of the `BuildFileNotFound` it raises. */
  function FindBuildFile(fs: FileSystem, startDir: Path, ext: string): Result<BuildFile, string>
  {
    match FindIn(WalkUp(fs, startDir), ext)
    case Some(bf) => Ok(bf)
    case None => Err(NotFoundMessage(ext))
  }

  /** The nested loops of `getBuildFileDetails`, with their early return. */
  method GetBuildFileDetails(fs: FileSystem, startDir: Path, ext: string) returns (r: Result<BuildFile, string>)
    ensures r == FindBuildFile(fs, startDir, ext)
  {
    var levels := WalkUp(fs, startDir);
    var i := 0;
    while i < |levels|
      invariant 0 <= i <= |levels|
      invariant FindIn(levels, ext) == FindIn(levels[i..], ext)
    {
      var files := levels[i].nondirs;
      var j := 0;
      while j < |files|
        invariant 0 <= j <= |files|
        invariant FirstMatch(files, ext) == FirstMatch(files[j..], ext)
      {
        if Matches(files[j], ext) {
          return Ok(BuildFile(files[j], levels[i].dir));
        }
        assert files[j..][1..] == files[j + 1..];
        j := j + 1;
      }
      assert levels[i..][1..] == levels[i + 1..];
      i := i + 1;
    }
    return Err(NotFoundMessage(ext));
  }

  /** Directory d can be listed and holds a non-directory whose name matches. */
  predicate HasBuildFile(fs: FileSystem, d: Path, ext: string)
  {
    Listing(fs, d).Some? && exists e :: e in Listing(fs, d).value && !e.isDir && Matches(e.name, ext)
  }

  /** The walk visits the start directory and then successive parents, every
      one of them listable; it ends at the root or right below the first
      directory whose listing fails. */
  lemma {:induction false} WalkUpVisits(fs: FileSystem, p: Path)
    ensures |WalkUp(fs, p)| <= |p| + 1
    ensures forall i :: 0 <= i < |WalkUp(fs, p)| ==>
              WalkUp(fs, p)[i].dir == Ancestor(p, i) && Listing(fs, Ancestor(p, i)).Some?
              && WalkUp(fs, p)[i].dirs == DirNames(Listing(fs, Ancestor(p, i)).value)
              && WalkUp(fs, p)[i].nondirs == FileNames(Listing(fs, Ancestor(p, i)).value)
    ensures |WalkUp(fs, p)| == |p| + 1 || Listing(fs, Ancestor(p, |WalkUp(fs, p)|)).None?
    decreases |p|
  {
    assert Ancestor(p, 0) == p;
    if Listing(fs, p).Some? && p != [] {
      var up := Parent(p);
      WalkUpVisits(fs, up);
      var w := WalkUp(fs, p);
      assert w == [w[0]] + WalkUp(fs, up);
      forall i | 0 < i < |w|
        ensures w[i].dir == Ancestor(p, i)
      {
        assert w[i] == WalkUp(fs, up)[i - 1];
        assert Ancestor(up, i - 1) == Ancestor(p, i);
      }
      assert |w| < |p| + 1 ==> Ancestor(up, |w| - 1) == Ancestor(p, |w|);
    }
  }

  /** Nothing above a directory that cannot be listed is ever examined. */
  lemma NothingAboveUnreadable(fs: FileSystem, p: Path, k: nat)
    requires k <= |p| && Listing(fs, Ancestor(p, k)).None?
    ensures |WalkUp(fs, p)| <= k
    ensures forall i :: 0 <= i < |WalkUp(fs, p)| ==> |WalkUp(fs, p)[i].dir| > |p| - k
  {
    WalkUpVisits(fs, p);
  }

  /** The search finds the nearest visited directory, start directory first,
      that holds a matching non-directory, and names one of its files; it
      fails iff no visited directory holds one. */
  lemma FindBuildFileSpec(fs: FileSystem, start: Path, ext: string)
    ensures FindBuildFile(fs, start, ext).Err? <==>
              forall k :: 0 <= k <= |start| && k < |WalkUp(fs, start)| ==> !HasBuildFile(fs, Ancestor(start, k), ext)
    ensures FindBuildFile(fs, start, ext).Err? ==> FindBuildFile(fs, start, ext).error == NotFoundMessage(ext)
    ensures FindBuildFile(fs, start, ext).Ok? ==>
              var bf := FindBuildFile(fs, start, ext).value;
              exists k :: 0 <= k < |WalkUp(fs, start)| && k <= |start| && bf.dir == Ancestor(start, k)
                          && Listing(fs, bf.dir).Some? && Entry(bf.name, false) in Listing(fs, bf.dir).value
                          && Matches(bf.name, ext)
                          && forall j :: 0 <= j < k ==> !HasBuildFile(fs, Ancestor(start, j), ext)
  {
    var w := WalkUp(fs, start);
    WalkUpVisits(fs, start);
    FindInSpec(w, ext);
    forall k | 0 <= k < |w|
      ensures FirstMatch(w[k].nondirs, ext).None? <==> !HasBuildFile(fs, Ancestor(start, k), ext)
      ensures FirstMatch(w[k].nondirs, ext).Some? ==>
                Entry(FirstMatch(w[k].nondirs, ext).value, false) in Listing(fs, Ancestor(start, k)).value
                && Matches(FirstMatch(w[k].nondirs, ext).value, ext)
    {
      FirstMatchSpec(w[k].nondirs, ext);
      PartitionMembers(Listing(fs, Ancestor(start, k)).value);
    }
  }

  /** Unlike a search that skips unreadable levels, a start directory that
      cannot be listed ends the search even when its parent holds a build file. */
  lemma UnreadableStartEndsSearch()
    ensures FindBuildFile(map[["proj", "src"] := None, ["proj"] := Some([Entry("build.dme", false)])],
                          ["proj", "src"], ".dme").Err?
  {
  }

  /** Scenario: /proj/src/sub, where only /proj holds a .dme file. */
  lemma NearestAncestorScenario(fs: FileSystem)
    requires fs == map[["proj", "src", "sub"] := Some([Entry("notes.txt", false)]),
                       ["proj", "src"] := Some([Entry("sub", true)]),
                       ["proj"] := Some([Entry("src", true), Entry("BUILD.DME", false)]),
                       [] := Some([Entry("proj", true)])]
    ensures FindBuildFile(fs, ["proj", "src", "sub"], ".dme") == Ok(BuildFile("BUILD.DME", ["proj"]))
  {
    var sub, src, proj := ["proj", "src", "sub"], ["proj", "src"], ["proj"];
    assert Parent(sub) == src && Parent(src) == proj;
    var e1 := [Entry("notes.txt", false)];
    assert e1[1..] == [];
    assert Lower("notes.txt") == "notes.txt";
    assert FirstMatch(FileNames(e1), ".dme") == None;
    SearchMovesUp(fs, sub, ".dme");
    var e2 := [Entry("sub", true)];
    assert e2[1..] == [];
    assert FirstMatch(FileNames(e2), ".dme") == None;
    SearchMovesUp(fs, src, ".dme");
    var e3 := [Entry("src", true), Entry("BUILD.DME", false)];
    assert e3[1..][1..] == [];
    assert Lower("BUILD.DME") == "build.dme";
    assert FirstMatch(FileNames(e3), ".dme") == Some("BUILD.DME");
    SearchStopsHere(fs, proj, ".dme");
  }

  /** A listable directory without a match hands the search to its parent. */
  lemma SearchMovesUp(fs: FileSystem, d: Path, ext: string)
    requires Listing(fs, d).Some? && Parent(d) != d
    requires FirstMatch(FileNames(Listing(fs, d).value), ext).None?
    ensures FindBuildFile(fs, d, ext) == FindBuildFile(fs, Parent(d), ext)
  {
    var w := WalkUp(fs, d);
    assert w[1..] == WalkUp(fs, Parent(d));
  }

  /** A listable directory with a match ends the search with its first match. */
  lemma SearchStopsHere(fs: FileSystem, d: Path, ext: string)
    requires Listing(fs, d).Some?
    requires FirstMatch(FileNames(Listing(fs, d).value), ext).Some?
    ensures FindBuildFile(fs, d, ext) == Ok(BuildFile(FirstMatch(FileNames(Listing(fs, d).value), ext).value, d))
  {
  }

  /** A one-directory tree /proj holding a single file that matches. */
  lemma SingleFileSearch(name: string, ext: string)
    requires Matches(name, ext)
    ensures FindBuildFile(map[["proj"] := Some([Entry(name, false)])], ["proj"], ext) == Ok(BuildFile(name, ["proj"]))
  {
    var fs := map[["proj"] := Some([Entry(name, false)])];
    var es := [Entry(name, false)];
    assert es[1..] == [];
    assert FileNames(es) == [name] && DirNames(es) == [];
    assert Parent(["proj"]) == [];
    assert Listing(fs, []) == None;
    assert WalkUp(fs, ["proj"]) == [Level(["proj"], [], [name])];
  }
}
