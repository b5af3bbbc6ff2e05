/**
 * mapi_build.py: assembling a question package from a title, a description
 * file, a tests file and three lists of files. The filesystem is a map from
 * path to contents: the text `open(path).read()` returns, after Python's
 * universal-newline translation. Opening a path the map lacks raises, and
 * the model reports that path.
 */
module MapiBuild {
  import opened Wrappers
  import opened Strings
  import opened VplFiles

  /** The name `add_file` gives an entry: the rename when there is one, else the last path component. */
  function FileName(path: string, rename: string): string
  {
    if rename != "" then rename else BaseName(path)
  }

  lemma FileNameIsRenameOrBase(path: string, rename: string)
    ensures rename != "" ==> FileName(path, rename) == rename
    ensures rename == "" ==> Sep !in FileName(path, rename) && EndsWith(path, FileName(path, rename))
    ensures rename == "" && Sep !in path ==> FileName(path, rename) == path
  {
    BaseNameIsLastComponent(path);
  }

  /** `JsonVPL(title, description)` and its `add_file`. */
  class JsonVpl {
    var title: string
    var description: string
    var upload: seq<JsonFile>
    var keep: seq<JsonFile>
    var required: seq<JsonFile>

    function Pkg(): Package
      reads this
    {
      Package(title, description, upload, keep, required)
    }

    constructor (title: string, description: string)
      ensures Pkg() == Package(title, description, [], [], [])
    {
      this.title := title;
      this.description := description;
      upload := [];
      keep := [];
      required := [];
    }

    /** `add_file(ftype, exec_file, rename)`: `ok` is false when the file cannot be opened,
        and then nothing changes. */
    method AddFile(ftype: FileType, execFile: string, rename: string, fs: map<string, string>) returns (ok: bool)
      modifies this
      ensures ok <==> execFile in fs
      ensures ok ==> Pkg() == AddTo(old(Pkg()), ftype, JsonFile(FileName(execFile, rename), fs[execFile]))
      ensures !ok ==> Pkg() == old(Pkg())
    {
      if execFile !in fs {
        return false;
      }
      var fileName := if rename != "" then rename else BaseName(execFile);
      var jfile := JsonFile(fileName, fs[execFile]);
      if ftype == Upload {
        upload := upload + [jfile];
      } else if ftype == Keep {
        keep := keep + [jfile];
      } else {
        required := required + [jfile];
      }
      ok := true;
    }
  }

  // ---------------------------------------------------------------------
  // build

  /** The parsed command line `build` reads: `None` is an option that was not given. */
  datatype BuildArgs = BuildArgs(
    title: string,
    description: string,
    tests: Option<string>,
    upload: Option<seq<string>>,
    keep: Option<seq<string>>,
    required: Option<(string, string)>)

  /** One `add_file` call. */
  datatype Call = Call(ftype: FileType, path: string, rename: string)

  /** A path is opened by `build` exactly as `fs` says. */
  function Perform(p: Package, c: Call, fs: map<string, string>): Result<Package, string>
  {
    if c.path in fs then Ok(AddTo(p, c.ftype, JsonFile(FileName(c.path, c.rename), fs[c.path])))
    else Err(c.path)
  }

  /** A sequence of calls, stopping at the first path that cannot be opened. */
  function Replay(p: Package, calls: seq<Call>, fs: map<string, string>): Result<Package, string>
    decreases |calls|
  {
    if calls == [] then Ok(p)
    else match Perform(p, calls[0], fs)
      case Err(e) => Err(e)
      case Ok(q) => Replay(q, calls[1..], fs)
  }

  lemma ReplayCons(p: Package, c: Call, rest: seq<Call>, fs: map<string, string>)
    ensures Replay(p, [c] + rest, fs) ==
              if c.path in fs then Replay(AddTo(p, c.ftype, JsonFile(FileName(c.path, c.rename), fs[c.path])), rest, fs)
              else Err(c.path)
  {
    assert ([c] + rest)[0] == c && ([c] + rest)[1..] == rest;
  }

  function Calls(t: FileType, paths: seq<string>): (cs: seq<Call>)
    ensures |cs| == |paths|
    ensures forall i :: 0 <= i < |paths| ==> cs[i] == Call(t, paths[i], "")
  {
    seq(|paths|, i requires 0 <= i < |paths| => Call(t, paths[i], ""))
  }

  lemma CallsFrom(t: FileType, paths: seq<string>, i: nat)
    requires i < |paths|
    ensures Calls(t, paths[i..]) == [Call(t, paths[i], "")] + Calls(t, paths[i + 1..])
  {
  }

  function OrEmpty(o: Option<seq<string>>): seq<string>
  {
    if o.Some? then o.value else []
  }

  /** `if args.tests:` is false for a missing option and for an empty path. */
  predicate TestsGiven(args: BuildArgs)
  {
    args.tests.Some? && args.tests.value != ""
  }

  predicate RequiredGiven(args: BuildArgs)
  {
    args.required.Some? && args.required.value.0 != ""
  }

  function TestsCalls(args: BuildArgs): seq<Call>
  {
    if TestsGiven(args) then [Call(Upload, args.tests.value, CasesName)] else []
  }

  function RequiredCalls(args: BuildArgs): seq<Call>
  {
    if RequiredGiven(args) then [Call(Required, args.required.value.0, args.required.value.1)] else []
  }

  /** The `add_file` calls `build` makes, in order: tests, keep files, upload files, required file. */
  function BuildCalls(args: BuildArgs): seq<Call>
  {
    TestsCalls(args) + (Calls(Keep, OrEmpty(args.keep)) + (Calls(Upload, OrEmpty(args.upload)) + RequiredCalls(args)))
  }

  /** What `build(args)` returns, or the first path it cannot open. */
  function BuildPlan(args: BuildArgs, fs: map<string, string>): Result<Package, string>
  {
    if args.description !in fs then Err(args.description)
    else Replay(Package(args.title, fs[args.description], [], [], []), BuildCalls(args), fs)
  }

  lemma {:induction false} ReplayConcat(p: Package, a: seq<Call>, b: seq<Call>, fs: map<string, string>)
    ensures Replay(p, a + b, fs) == match Replay(p, a, fs) case Err(e) => Err(e) case Ok(q) => Replay(q, b, fs)
    decreases |a|
  {
    if a == [] {
      assert a + b == b;
    } else {
      assert (a + b)[0] == a[0] && (a + b)[1..] == a[1..] + b;
      if a[0].path in fs {
        ReplayConcat(AddTo(p, a[0].ftype, JsonFile(FileName(a[0].path, a[0].rename), fs[a[0].path])), a[1..], b, fs);
      }
    }
  }

  /** One `for entry in ...: jvpl.add_file(...)` loop of `build`; `missing` is the path that raised. */
  method AddAll(jvpl: JsonVpl, t: FileType, paths: seq<string>, fs: map<string, string>) returns (missing: Option<string>)
    modifies jvpl
    ensures Replay(old(jvpl.Pkg()), Calls(t, paths), fs).Err? ==>
              missing == Some(Replay(old(jvpl.Pkg()), Calls(t, paths), fs).error)
    ensures Replay(old(jvpl.Pkg()), Calls(t, paths), fs).Ok? ==>
              missing == None && jvpl.Pkg() == Replay(old(jvpl.Pkg()), Calls(t, paths), fs).value
  {
    var i := 0;
    while i < |paths|
      invariant 0 <= i <= |paths|
      invariant Replay(old(jvpl.Pkg()), Calls(t, paths), fs) == Replay(jvpl.Pkg(), Calls(t, paths[i..]), fs)
    {
      CallsFrom(t, paths, i);
      ReplayCons(jvpl.Pkg(), Call(t, paths[i], ""), Calls(t, paths[i + 1..]), fs);
      var ok := jvpl.AddFile(t, paths[i], "", fs);
      if !ok {
        return Some(paths[i]);
      }
      i := i + 1;
    }
    assert Calls(t, paths[i..]) == [];
    missing := None;
  }

  /** `build(args)`. */
  method Build(args: BuildArgs, fs: map<string, string>) returns (r: Result<JsonVpl, string>)
    ensures BuildPlan(args, fs).Err? <==> r.Err?
    ensures r.Err? ==> r.error == BuildPlan(args, fs).error
    ensures r.Ok? ==> fresh(r.value) && r.value.Pkg() == BuildPlan(args, fs).value
  {
    if args.description !in fs {
      return Err(args.description);
    }
    var description := fs[args.description];
    var jvpl := new JsonVpl(args.title, description);
    ghost var keepCalls := Calls(Keep, OrEmpty(args.keep));
    ghost var uploadCalls := Calls(Upload, OrEmpty(args.upload));
    ghost var tail := RequiredCalls(args);
    if TestsGiven(args) {
      ReplayCons(jvpl.Pkg(), Call(Upload, args.tests.value, CasesName), keepCalls + (uploadCalls + tail), fs);
      var ok := jvpl.AddFile(Upload, args.tests.value, CasesName, fs);
      if !ok {
        return Err(args.tests.value);
      }
    } else {
      assert BuildCalls(args) == keepCalls + (uploadCalls + tail);
    }
    assert Replay(jvpl.Pkg(), keepCalls + (uploadCalls + tail), fs) == BuildPlan(args, fs);
    ReplayConcat(jvpl.Pkg(), keepCalls, uploadCalls + tail, fs);
    if args.keep.Some? {
      var missing := AddAll(jvpl, Keep, args.keep.value, fs);
      if missing.Some? {
        return Err(missing.value);
      }
    }
    assert Replay(jvpl.Pkg(), uploadCalls + tail, fs) == BuildPlan(args, fs);
    ReplayConcat(jvpl.Pkg(), uploadCalls, tail, fs);
    if args.upload.Some? {
      var missing := AddAll(jvpl, Upload, args.upload.value, fs);
      if missing.Some? {
        return Err(missing.value);
      }
    }
    assert Replay(jvpl.Pkg(), tail, fs) == BuildPlan(args, fs);
    if args.required.Some? {
      var (file, filename) := args.required.value;
      if file != "" {
        assert tail == [Call(Required, file, filename)] + [];
        ReplayCons(jvpl.Pkg(), Call(Required, file, filename), [], fs);
        var ok := jvpl.AddFile(Required, file, filename, fs);
        if !ok {
          return Err(file);
        }
      }
    }
    r := Ok(jvpl);
  }

  // ---------------------------------------------------------------------
  // What the calls produce

  /** The entries of those calls that choose group `t`. */
  function Chosen(calls: seq<Call>, t: FileType, fs: map<string, string>): seq<JsonFile>
  {
    if calls == [] then []
    else
      (if calls[0].ftype == t && calls[0].path in fs
       then [JsonFile(FileName(calls[0].path, calls[0].rename), fs[calls[0].path])] else [])
      + Chosen(calls[1..], t, fs)
  }

  predicate AllOpen(calls: seq<Call>, fs: map<string, string>)
  {
    forall i :: 0 <= i < |calls| ==> calls[i].path in fs
  }

  /** Replaying succeeds exactly when every path can be opened, and then each group
      grows by the entries of the calls that chose it, in call order. */
  lemma {:induction false} ReplayGroups(p: Package, calls: seq<Call>, fs: map<string, string>)
    ensures Replay(p, calls, fs).Ok? <==> AllOpen(calls, fs)
    ensures Replay(p, calls, fs).Ok? ==>
              Replay(p, calls, fs).value.title == p.title &&
              Replay(p, calls, fs).value.description == p.description &&
              forall t :: Group(Replay(p, calls, fs).value, t) == Group(p, t) + Chosen(calls, t, fs)
    decreases |calls|
  {
    if calls != [] {
      var c := calls[0];
      if c.path in fs {
        var f := JsonFile(FileName(c.path, c.rename), fs[c.path]);
        var q := AddTo(p, c.ftype, f);
        ReplayGroups(q, calls[1..], fs);
        AddToTouchesOneGroup(p, c.ftype, f);
        if AllOpen(calls[1..], fs) {
          forall i | 0 <= i < |calls| ensures calls[i].path in fs {
            if i > 0 { assert calls[i] == calls[1..][i - 1]; }
          }
        } else {
          var i :| 0 <= i < |calls[1..]| && calls[1..][i].path !in fs;
          assert calls[i + 1] == calls[1..][i];
        }
      } else {
        assert !(calls[0].path in fs);
      }
    }
  }

  /** Replaying fails at the first call whose path cannot be opened. */
  lemma {:induction false} ReplayFailsAtFirstMissing(p: Package, calls: seq<Call>, fs: map<string, string>)
    requires Replay(p, calls, fs).Err?
    ensures exists i :: 0 <= i < |calls| && calls[i].path == Replay(p, calls, fs).error &&
              calls[i].path !in fs && AllOpen(calls[..i], fs)
    decreases |calls|
  {
    var c := calls[0];
    if c.path in fs {
      var q := AddTo(p, c.ftype, JsonFile(FileName(c.path, c.rename), fs[c.path]));
      ReplayFailsAtFirstMissing(q, calls[1..], fs);
      var i :| 0 <= i < |calls[1..]| && calls[1..][i].path == Replay(q, calls[1..], fs).error &&
               calls[1..][i].path !in fs && AllOpen(calls[1..][..i], fs);
      assert calls[i + 1] == calls[1..][i];
      forall j | 0 <= j < i + 1 ensures calls[j].path in fs {
        if j > 0 { assert calls[j] == calls[1..][..i][j - 1]; }
      }
      assert AllOpen(calls[..i + 1], fs);
    } else {
      assert AllOpen(calls[..0], fs);
    }
  }

  lemma {:induction false} ChosenConcat(a: seq<Call>, b: seq<Call>, t: FileType, fs: map<string, string>)
    ensures Chosen(a + b, t, fs) == Chosen(a, t, fs) + Chosen(b, t, fs)
  {
    if a == [] {
      assert a + b == b;
    } else {
      assert (a + b)[0] == a[0] && (a + b)[1..] == a[1..] + b;
      ChosenConcat(a[1..], b, t, fs);
    }
  }

  /** The files of a list of paths, named by their last component, in list order. */
  function Files(paths: seq<string>, fs: map<string, string>): (files: seq<JsonFile>)
    requires forall q <- paths :: q in fs
    ensures |files| == |paths|
    ensures forall i :: 0 <= i < |paths| ==> files[i] == JsonFile(BaseName(paths[i]), fs[paths[i]])
  {
    seq(|paths|, i requires 0 <= i < |paths| => JsonFile(BaseName(paths[i]), fs[paths[i]]))
  }

  /** Calls for one group put the files of their paths in that group and nothing in the others. */
  lemma {:induction false} ChosenCalls(t: FileType, paths: seq<string>, fs: map<string, string>)
    requires forall q <- paths :: q in fs
    ensures Chosen(Calls(t, paths), t, fs) == Files(paths, fs)
    ensures forall u :: u != t ==> Chosen(Calls(t, paths), u, fs) == []
  {
    if paths != [] {
      assert Calls(t, paths)[1..] == Calls(t, paths[1..]);
      ChosenCalls(t, paths[1..], fs);
      assert Files(paths, fs) == [JsonFile(BaseName(paths[0]), fs[paths[0]])] + Files(paths[1..], fs);
    }
  }

  /** The paths `build` opens after the description, in order. */
  function OpenedPaths(args: BuildArgs): seq<string>
  {
    (if TestsGiven(args) then [args.tests.value] else [])
    + (OrEmpty(args.keep) + (OrEmpty(args.upload) + (if RequiredGiven(args) then [args.required.value.0] else [])))
  }

  function Paths(calls: seq<Call>): (ps: seq<string>)
    ensures |ps| == |calls|
    ensures forall i :: 0 <= i < |calls| ==> ps[i] == calls[i].path
  {
    seq(|calls|, i requires 0 <= i < |calls| => calls[i].path)
  }

  lemma PathsConcat(a: seq<Call>, b: seq<Call>)
    ensures Paths(a + b) == Paths(a) + Paths(b)
  {
  }

  lemma PathsOfCalls(t: FileType, ps: seq<string>)
    ensures Paths(Calls(t, ps)) == ps
  {
  }

  lemma BuildCallPaths(args: BuildArgs)
    ensures |BuildCalls(args)| == |OpenedPaths(args)|
    ensures forall i :: 0 <= i < |BuildCalls(args)| ==> BuildCalls(args)[i].path == OpenedPaths(args)[i]
  {
    var k, u := OrEmpty(args.keep), OrEmpty(args.upload);
    var tc, kc, uc, rc := TestsCalls(args), Calls(Keep, k), Calls(Upload, u), RequiredCalls(args);
    var tp := if TestsGiven(args) then [args.tests.value] else [];
    var rp := if RequiredGiven(args) then [args.required.value.0] else [];
    assert Paths(tc) == tp;
    assert Paths(rc) == rp;
    PathsOfCalls(Keep, k);
    PathsOfCalls(Upload, u);
    PathsConcat(uc, rc);
    PathsConcat(kc, uc + rc);
    PathsConcat(tc, kc + (uc + rc));
    assert Paths(BuildCalls(args)) == tp + (k + (u + rp)) == OpenedPaths(args);
  }

  /** `build` raises exactly when the description or one of the paths it opens is missing,
      and it is the first missing one that raises. */
  lemma BuildFailsIffMissing(args: BuildArgs, fs: map<string, string>)
    ensures BuildPlan(args, fs).Err? <==>
              args.description !in fs || exists i :: 0 <= i < |OpenedPaths(args)| && OpenedPaths(args)[i] !in fs
    ensures BuildPlan(args, fs).Err? && args.description in fs ==>
              exists i :: 0 <= i < |OpenedPaths(args)| && OpenedPaths(args)[i] == BuildPlan(args, fs).error &&
                (forall j :: 0 <= j < i ==> OpenedPaths(args)[j] in fs)
  {
    if args.description in fs {
      var p0 := Package(args.title, fs[args.description], [], [], []);
      var calls := BuildCalls(args);
      BuildCallPaths(args);
      ReplayGroups(p0, calls, fs);
      if Replay(p0, calls, fs).Err? {
        ReplayFailsAtFirstMissing(p0, calls, fs);
        var i :| 0 <= i < |calls| && calls[i].path == Replay(p0, calls, fs).error &&
                 calls[i].path !in fs && AllOpen(calls[..i], fs);
        forall j | 0 <= j < i ensures OpenedPaths(args)[j] in fs {
          assert calls[..i][j] == calls[j];
        }
      }
    }
  }

  function TestsEntry(args: BuildArgs, fs: map<string, string>): seq<JsonFile>
    requires TestsGiven(args) ==> args.tests.value in fs
  {
    if TestsGiven(args) then [JsonFile(CasesName, fs[args.tests.value])] else []
  }

  function RequiredEntry(args: BuildArgs, fs: map<string, string>): seq<JsonFile>
    requires RequiredGiven(args) ==> args.required.value.0 in fs
  {
    if RequiredGiven(args)
    then [JsonFile(FileName(args.required.value.0, args.required.value.1), fs[args.required.value.0])]
    else []
  }

  predicate AllArgsOpen(args: BuildArgs, fs: map<string, string>)
  {
    (TestsGiven(args) ==> args.tests.value in fs) &&
    (forall q <- OrEmpty(args.keep) :: q in fs) &&
    (forall q <- OrEmpty(args.upload) :: q in fs) &&
    (RequiredGiven(args) ==> args.required.value.0 in fs)
  }

  lemma ChosenSingle(c: Call, t: FileType, fs: map<string, string>)
    ensures Chosen([c], t, fs) ==
              if c.ftype == t && c.path in fs then [JsonFile(FileName(c.path, c.rename), fs[c.path])] else []
  {
    assert [c][1..] == [];
  }

  /** The entries the calls of `build` put in each group. */
  lemma BuildChosen(args: BuildArgs, fs: map<string, string>)
    requires AllArgsOpen(args, fs)
    ensures Chosen(BuildCalls(args), Upload, fs) == TestsEntry(args, fs) + Files(OrEmpty(args.upload), fs)
    ensures Chosen(BuildCalls(args), Keep, fs) == Files(OrEmpty(args.keep), fs)
    ensures Chosen(BuildCalls(args), Required, fs) == RequiredEntry(args, fs)
  {
    BuildChosenUpload(args, fs);
    BuildChosenKeep(args, fs);
    BuildChosenRequired(args, fs);
  }

  lemma BuildChosenUpload(args: BuildArgs, fs: map<string, string>)
    requires AllArgsOpen(args, fs)
    ensures Chosen(BuildCalls(args), Upload, fs) == TestsEntry(args, fs) + Files(OrEmpty(args.upload), fs)
  {
    var tc, rc := TestsCalls(args), RequiredCalls(args);
    ChosenCalls(Keep, OrEmpty(args.keep), fs);
    ChosenCalls(Upload, OrEmpty(args.upload), fs);
    if TestsGiven(args) { ChosenSingle(tc[0], Upload, fs); }
    if RequiredGiven(args) { ChosenSingle(rc[0], Upload, fs); }
    BuildCallsChosen(args, Upload, fs);
  }

  lemma BuildChosenKeep(args: BuildArgs, fs: map<string, string>)
    requires AllArgsOpen(args, fs)
    ensures Chosen(BuildCalls(args), Keep, fs) == Files(OrEmpty(args.keep), fs)
  {
    var tc, rc := TestsCalls(args), RequiredCalls(args);
    ChosenCalls(Keep, OrEmpty(args.keep), fs);
    ChosenCalls(Upload, OrEmpty(args.upload), fs);
    if TestsGiven(args) { ChosenSingle(tc[0], Keep, fs); }
    if RequiredGiven(args) { ChosenSingle(rc[0], Keep, fs); }
    BuildCallsChosen(args, Keep, fs);
  }

  lemma BuildChosenRequired(args: BuildArgs, fs: map<string, string>)
    requires AllArgsOpen(args, fs)
    ensures Chosen(BuildCalls(args), Required, fs) == RequiredEntry(args, fs)
  {
    var tc, rc := TestsCalls(args), RequiredCalls(args);
    ChosenCalls(Keep, OrEmpty(args.keep), fs);
    ChosenCalls(Upload, OrEmpty(args.upload), fs);
    if TestsGiven(args) { ChosenSingle(tc[0], Required, fs); }
    if RequiredGiven(args) { ChosenSingle(rc[0], Required, fs); }
    BuildCallsChosen(args, Required, fs);
  }

  lemma BuildCallsChosen(args: BuildArgs, t: FileType, fs: map<string, string>)
    ensures Chosen(BuildCalls(args), t, fs) ==
              Chosen(TestsCalls(args), t, fs) + (Chosen(Calls(Keep, OrEmpty(args.keep)), t, fs) +
              (Chosen(Calls(Upload, OrEmpty(args.upload)), t, fs) + Chosen(RequiredCalls(args), t, fs)))
  {
    var tc, kc, uc, rc := TestsCalls(args), Calls(Keep, OrEmpty(args.keep)), Calls(Upload, OrEmpty(args.upload)), RequiredCalls(args);
    ChosenConcat(uc, rc, t, fs);
    ChosenConcat(kc, uc + rc, t, fs);
    ChosenConcat(tc, kc + (uc + rc), t, fs);
  }

  /** A successful `build` holds the title, the description file's contents, the tests file
      as `vpl_evaluate.cases` ahead of the upload files, the keep files, and at most one
      required file under its rename; each list keeps argument order. */
  lemma BuildGroups(args: BuildArgs, fs: map<string, string>)
    requires BuildPlan(args, fs).Ok?
    ensures args.description in fs && AllArgsOpen(args, fs)
    ensures var p := BuildPlan(args, fs).value;
            p.title == args.title && p.description == fs[args.description] &&
            p.upload == TestsEntry(args, fs) + Files(OrEmpty(args.upload), fs) &&
            p.keep == Files(OrEmpty(args.keep), fs) &&
            p.required == RequiredEntry(args, fs)
  {
    BuildFailsIffMissing(args, fs);
    var p0 := Package(args.title, fs[args.description], [], [], []);
    ReplayGroups(p0, BuildCalls(args), fs);
    assert AllArgsOpen(args, fs) by {
      forall q <- OpenedPaths(args) ensures q in fs {
        var i :| 0 <= i < |OpenedPaths(args)| && OpenedPaths(args)[i] == q;
      }
    }
    BuildChosen(args, fs);
    var p := BuildPlan(args, fs).value;
    assert Group(p, Upload) == p.upload && Group(p, Keep) == p.keep && Group(p, Required) == p.required;
  }

  /** With tests given, the first upload entry is the tests file under its fixed name. */
  lemma BuildTestsFirst(args: BuildArgs, fs: map<string, string>)
    requires BuildPlan(args, fs).Ok? && TestsGiven(args)
    ensures BuildPlan(args, fs).value.upload != []
    ensures BuildPlan(args, fs).value.upload[0] == JsonFile(CasesName, fs[args.tests.value])
  {
    BuildGroups(args, fs);
  }

  /** At most one required file, and one exactly when a non-empty path was given. */
  lemma BuildRequiredAtMostOne(args: BuildArgs, fs: map<string, string>)
    requires BuildPlan(args, fs).Ok?
    ensures |BuildPlan(args, fs).value.required| <= 1
    ensures |BuildPlan(args, fs).value.required| == 1 <==> RequiredGiven(args)
  {
    BuildGroups(args, fs);
  }
}
