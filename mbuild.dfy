/**
 * mbuild.py: the title of a question's Readme, the pandoc command line that
 * renders it, the package `mapi_build` assembles, and the command-line rules
 * of `main` (which options it demands, and what `--save` and `--load` keep).
 * A file's text (`content`, and the values of the map `fs` from path to text)
 * is what `open(path).read()` returns, after Python's universal-newline
 * translation; `Documents` holds what `json.load` parses from each file.
 */
module MBuild {
  import opened Wrappers
  import opened Strings
  import opened VplFiles
  import opened Config
  import MapiBuild

  // ---------------------------------------------------------------------
  // extract_title

  /** The first line of a file's text. */
  function FirstLine(content: string): (line: string)
    ensures '\n' !in line
  {
    SplitPiecesFree(content, '\n');
    Split(content, '\n')[0]
  }

  /** `extract_title` on the text of the file: a first line made only of `#` (the empty line
      included) gives the empty title; any other first line is the title as it stands. */
  function ExtractTitle(content: string): (t: string)
    ensures t == "" || t == FirstLine(content)
    ensures '\n' !in t
  {
    var title := FirstLine(content);
    var parts := Split(title, '\n');
    var parts := if Count(parts[0], '#') == |parts[0]| then parts[1..] else parts;
    Join(" ", parts)
  }

  lemma ExtractTitleCases(content: string)
    ensures (forall i :: 0 <= i < |FirstLine(content)| ==> FirstLine(content)[i] == '#') ==> ExtractTitle(content) == ""
    ensures !(forall i :: 0 <= i < |FirstLine(content)| ==> FirstLine(content)[i] == '#') ==>
              ExtractTitle(content) == FirstLine(content)
    ensures ExtractTitle(content) == "" <==> forall i :: 0 <= i < |FirstLine(content)| ==> FirstLine(content)[i] == '#'
  {
    var line := FirstLine(content);
    assert Split(line, '\n') == [line];
    CountIsLength(line, '#');
  }

  /** The title depends only on the first line: whatever follows the first newline is ignored. */
  lemma ExtractTitleFirstLineOnly(line: string, rest: string)
    requires '\n' !in line
    ensures FirstLine(line + "\n" + rest) == line
    ensures ExtractTitle(line + "\n" + rest) == ExtractTitle(line)
  {
    var s := line + "\n" + rest;
    assert s[..|line|] == line;
    FindAt(s, '\n', |line|);
    assert Split(line, '\n') == [line];
  }

  // ---------------------------------------------------------------------
  // the page title and the pandoc command of generate_html

  /** `title.replace('!', '\\!').replace('?', '\\?')`. */
  function PageTitle(title: string): (t: string)
    ensures t == Escape(title)
    ensures Unescape(t) == title
  {
    ReplaceOneChar(title, '!', "\\!");
    ReplaceOneChar(ReplaceAll(title, "!", "\\!"), '?', "\\?");
    SubstituteBoth(title);
    UnescapeEscape(title);
    ReplaceAll(ReplaceAll(title, "!", "\\!"), "?", "\\?")
  }

  /** A backslash before each `!` and each `?`, every other character kept. */
  function EscapeChar(c: char): string
  {
    if c == '!' then "\\!" else if c == '?' then "\\?" else [c]
  }

  function Escape(s: string): string
  {
    if s == [] then [] else EscapeChar(s[0]) + Escape(s[1..])
  }

  lemma {:induction false} SubstituteBoth(s: string)
    ensures Substitute(Substitute(s, '!', "\\!"), '?', "\\?") == Escape(s)
  {
    if s != [] {
      var h := if s[0] == '!' then "\\!" else [s[0]];
      assert Substitute(s, '!', "\\!") == h + Substitute(s[1..], '!', "\\!");
      SubstituteConcat(h, Substitute(s[1..], '!', "\\!"), '?', "\\?");
      SubstituteBoth(s[1..]);
      if s[0] == '!' {
        assert Substitute(h, '?', "\\?") == "\\!" by {
          assert h == ['\\'] + ['!'];
          SubstituteConcat(['\\'], ['!'], '?', "\\?");
        }
      } else {
        assert Substitute(h, '?', "\\?") == EscapeChar(s[0]) by {
          assert h[1..] == [];
        }
      }
    }
  }

  /** Reading an escaped title back: a backslash before `!` or `?` is dropped. */
  function Unescape(s: string): string
  {
    if |s| >= 2 && s[0] == '\\' && (s[1] == '!' || s[1] == '?') then [s[1]] + Unescape(s[2..])
    else if s == [] then []
    else [s[0]] + Unescape(s[1..])
  }

  lemma EscapeStartsSafely(s: string)
    ensures Escape(s) != [] ==> Escape(s)[0] != '!' && Escape(s)[0] != '?'
    ensures Escape(s) == [] <==> s == []
  {
  }

  /** The escaping loses nothing: reading back undoes it. */
  lemma {:induction false} UnescapeEscape(s: string)
    ensures Unescape(Escape(s)) == s
  {
    if s != [] {
      var rest := Escape(s[1..]);
      UnescapeEscape(s[1..]);
      EscapeStartsSafely(s[1..]);
      var e := EscapeChar(s[0]) + rest;
      if s[0] == '!' || s[0] == '?' {
        assert e[2..] == rest;
      } else {
        assert e[1..] == rest;
      }
    }
  }

  /** The argument list `generate_html` hands to pandoc. */
  function PandocCommand(inputFile: string, content: string, cssPath: string, outputFile: string, enableLatex: bool): (cmd: seq<string>)
    ensures |cmd| == (if enableLatex then 10 else 9)
    ensures cmd[1] == inputFile && cmd[8] == outputFile
    ensures cmd[5] == "pagetitle=" + Escape(ExtractTitle(content))
  {
    ["pandoc", inputFile, "--css", cssPath, "--metadata", "pagetitle=" + PageTitle(ExtractTitle(content)), "-s", "-o", outputFile]
    + (if enableLatex then ["--mathjax"] else [])
  }

  /** `--mathjax` is appended exactly when LaTeX is enabled, and nothing else depends on the flag. */
  lemma MathjaxIffLatex(inputFile: string, content: string, cssPath: string, outputFile: string, enableLatex: bool)
    ensures var cmd := PandocCommand(inputFile, content, cssPath, outputFile, enableLatex);
            |cmd| == (if enableLatex then 10 else 9) &&
            cmd[..9] == PandocCommand(inputFile, content, cssPath, outputFile, false) &&
            (enableLatex ==> cmd[9] == "--mathjax")
    ensures inputFile != "--mathjax" && cssPath != "--mathjax" && outputFile != "--mathjax" ==>
              ("--mathjax" in PandocCommand(inputFile, content, cssPath, outputFile, enableLatex) <==> enableLatex)
  {
    var base := PandocCommand(inputFile, content, cssPath, outputFile, false);
    assert "pagetitle="[0] != "--mathjax"[0];
    if "--mathjax" in base {
      var i :| 0 <= i < |base| && base[i] == "--mathjax";
      assert base[5][0] == 'p';
    }
  }

  // ---------------------------------------------------------------------
  // JsonVPL and mapi_build

  /** mbuild.py's `JsonVPL`: the tests travel as the first upload entry from the start. */
  class JsonVpl {
    var title: string
    var description: string
    var upload: seq<JsonFile>
    var keep: seq<JsonFile>
    var required: seq<JsonFile>

    function Pkg(): Package
      reads this
    {
      Package(title, description, upload, keep, required)
    }

    constructor (title: string, description: string, tests: string)
      ensures Pkg() == Package(title, description, [JsonFile(CasesName, tests)], [], [])
    {
      this.title := title;
      this.description := description;
      upload := [JsonFile(CasesName, tests)];
      keep := [];
      required := [];
    }

    /** `add_file(exec_file, ftype)`: always named by the last path component. */
    method AddFile(execFile: string, ftype: FileType, fs: map<string, string>) returns (ok: bool)
      modifies this
      ensures ok <==> execFile in fs
      ensures ok ==> Pkg() == AddTo(old(Pkg()), ftype, JsonFile(BaseName(execFile), fs[execFile]))
      ensures !ok ==> Pkg() == old(Pkg())
    {
      if execFile !in fs {
        return false;
      }
      var jfile := JsonFile(BaseName(execFile), fs[execFile]);
      if ftype == Upload {
        upload := upload + [jfile];
      } else if ftype == Keep {
        keep := keep + [jfile];
      } else {
        required := required + [jfile];
      }
      ok := true;
    }
  }

  /** The `add_file` calls of `mapi_build`: keep files, upload files, required files. */
  function PackCalls(required: seq<string>, keep: seq<string>, upload: seq<string>): seq<MapiBuild.Call>
  {
    MapiBuild.Calls(Keep, keep) + (MapiBuild.Calls(Upload, upload) + MapiBuild.Calls(Required, required))
  }

  /** Why `mapi_build` stops: a path it cannot open, or a `None` where it needs a path or a list
      (`open(None)` and `for entry in None` raise `TypeError`). */
  datatype PackFault = NotOpened(path: string) | NoneArgument

  function Opened(r: Result<Package, string>): Result<Package, PackFault>
  {
    match r
    case Ok(p) => Ok(p)
    case Err(path) => Err(NotOpened(path))
  }

  /** The package once the description and the tests file are read, before the loops. */
  function PackStart(title: string, descriptionFile: string, testsFile: Option<string>,
                     fs: map<string, string>): Result<Package, PackFault>
  {
    if descriptionFile !in fs then Err(NotOpened(descriptionFile))
    else if testsFile.None? then Err(NoneArgument)
    else if testsFile.value !in fs then Err(NotOpened(testsFile.value))
    else Ok(Package(title, fs[descriptionFile], [JsonFile(CasesName, fs[testsFile.value])], [], []))
  }

  /** One `for entry in paths: jvpl.add_file(entry, t)` loop, run when nothing raised before it. */
  function PackLoop(r: Result<Package, PackFault>, t: FileType, paths: Option<seq<string>>,
                    fs: map<string, string>): Result<Package, PackFault>
  {
    if r.Err? then r
    else if paths.None? then Err(NoneArgument)
    else Opened(MapiBuild.Replay(r.value, MapiBuild.Calls(t, paths.value), fs))
  }

  /** What `mapi_build` writes, or why it raises. */
  function PackPlan(title: string, descriptionFile: string, testsFile: Option<string>,
                    required: Option<seq<string>>, keep: Option<seq<string>>, upload: Option<seq<string>>,
                    fs: map<string, string>): Result<Package, PackFault>
  {
    var started := PackStart(title, descriptionFile, testsFile, fs);
    PackLoop(PackLoop(PackLoop(started, Keep, keep, fs), Upload, upload, fs), Required, required, fs)
  }

  /** One of the three loops of `mapi_build`. */
  method AddAll(jvpl: JsonVpl, t: FileType, paths: Option<seq<string>>, fs: map<string, string>)
    returns (fault: Option<PackFault>)
    modifies jvpl
    ensures PackLoop(Ok(old(jvpl.Pkg())), t, paths, fs).Err? ==>
              fault == Some(PackLoop(Ok(old(jvpl.Pkg())), t, paths, fs).error)
    ensures PackLoop(Ok(old(jvpl.Pkg())), t, paths, fs).Ok? ==>
              fault == None && jvpl.Pkg() == PackLoop(Ok(old(jvpl.Pkg())), t, paths, fs).value
  {
    if paths.None? {
      return Some(NoneArgument);
    }
    var ps := paths.value;
    var i := 0;
    while i < |ps|
      invariant 0 <= i <= |ps|
      invariant MapiBuild.Replay(old(jvpl.Pkg()), MapiBuild.Calls(t, ps), fs) ==
                MapiBuild.Replay(jvpl.Pkg(), MapiBuild.Calls(t, ps[i..]), fs)
    {
      MapiBuild.CallsFrom(t, ps, i);
      MapiBuild.ReplayCons(jvpl.Pkg(), MapiBuild.Call(t, ps[i], ""), MapiBuild.Calls(t, ps[i + 1..]), fs);
      var ok := jvpl.AddFile(ps[i], t, fs);
      if !ok {
        return Some(NotOpened(ps[i]));
      }
      i := i + 1;
    }
    assert MapiBuild.Calls(t, ps[i..]) == [];
    fault := None;
  }

  /** `mapi_build(...)` up to the write of the output file. */
  method PackVpl(title: string, descriptionFile: string, testsFile: Option<string>,
                 required: Option<seq<string>>, keep: Option<seq<string>>, upload: Option<seq<string>>,
                 fs: map<string, string>) returns (r: Result<JsonVpl, PackFault>)
    ensures PackPlan(title, descriptionFile, testsFile, required, keep, upload, fs).Err? <==> r.Err?
    ensures r.Err? ==> r.error == PackPlan(title, descriptionFile, testsFile, required, keep, upload, fs).error
    ensures r.Ok? ==> fresh(r.value)
    ensures r.Ok? ==> r.value.Pkg() == PackPlan(title, descriptionFile, testsFile, required, keep, upload, fs).value
  {
    if descriptionFile !in fs {
      return Err(NotOpened(descriptionFile));
    }
    var description := fs[descriptionFile];
    if testsFile.None? {
      return Err(NoneArgument);
    }
    if testsFile.value !in fs {
      return Err(NotOpened(testsFile.value));
    }
    var tests := fs[testsFile.value];
    var jvpl := new JsonVpl(title, description, tests);
    var fault := AddAll(jvpl, Keep, keep, fs);
    if fault.Some? {
      return Err(fault.value);
    }
    fault := AddAll(jvpl, Upload, upload, fs);
    if fault.Some? {
      return Err(fault.value);
    }
    fault := AddAll(jvpl, Required, required, fs);
    if fault.Some? {
      return Err(fault.value);
    }
    r := Ok(jvpl);
  }

  /** When every argument is present, the three loops are one replay of all their calls. */
  lemma PackPlanReplay(title: string, descriptionFile: string, testsFile: string,
                       required: seq<string>, keep: seq<string>, upload: seq<string>, fs: map<string, string>)
    requires descriptionFile in fs && testsFile in fs
    ensures PackPlan(title, descriptionFile, Some(testsFile), Some(required), Some(keep), Some(upload), fs) ==
              Opened(MapiBuild.Replay(Package(title, fs[descriptionFile], [JsonFile(CasesName, fs[testsFile])], [], []),
                                      PackCalls(required, keep, upload), fs))
  {
    var p0 := Package(title, fs[descriptionFile], [JsonFile(CasesName, fs[testsFile])], [], []);
    var kc, uc, rc := MapiBuild.Calls(Keep, keep), MapiBuild.Calls(Upload, upload), MapiBuild.Calls(Required, required);
    MapiBuild.ReplayConcat(p0, kc, uc + rc, fs);
    var afterKeep := MapiBuild.Replay(p0, kc, fs);
    if afterKeep.Ok? {
      MapiBuild.ReplayConcat(afterKeep.value, uc, rc, fs);
    }
  }

  /** A run of `mapi_build` that does not raise had every argument, and every file opened. */
  lemma PackPresent(title: string, descriptionFile: string, testsFile: Option<string>,
                    required: Option<seq<string>>, keep: Option<seq<string>>, upload: Option<seq<string>>,
                    fs: map<string, string>)
    requires PackPlan(title, descriptionFile, testsFile, required, keep, upload, fs).Ok?
    ensures descriptionFile in fs && testsFile.Some? && testsFile.value in fs
    ensures required.Some? && keep.Some? && upload.Some?
  {
    var s := PackStart(title, descriptionFile, testsFile, fs);
    var k := PackLoop(s, Keep, keep, fs);
    var u := PackLoop(k, Upload, upload, fs);
    assert PackLoop(u, Required, required, fs).Ok?;
    assert u.Ok? && k.Ok? && s.Ok?;
  }

  /** A successful `mapi_build` holds the cases file first in `upload`, then the upload files;
      the keep files in `keep` and the required files in `required`, each in argument order. */
  lemma PackGroups(title: string, descriptionFile: string, testsFile: Option<string>,
                   required: Option<seq<string>>, keep: Option<seq<string>>, upload: Option<seq<string>>,
                   fs: map<string, string>)
    requires PackPlan(title, descriptionFile, testsFile, required, keep, upload, fs).Ok?
    ensures descriptionFile in fs && testsFile.Some? && testsFile.value in fs
    ensures required.Some? && keep.Some? && upload.Some?
    ensures forall q <- keep.value + upload.value + required.value :: q in fs
    ensures var p := PackPlan(title, descriptionFile, testsFile, required, keep, upload, fs).value;
            p.title == title && p.description == fs[descriptionFile] &&
            p.upload == [JsonFile(CasesName, fs[testsFile.value])] + MapiBuild.Files(upload.value, fs) &&
            p.keep == MapiBuild.Files(keep.value, fs) &&
            p.required == MapiBuild.Files(required.value, fs)
  {
    PackPresent(title, descriptionFile, testsFile, required, keep, upload, fs);
    var ks, us, rs := keep.value, upload.value, required.value;
    PackPlanReplay(title, descriptionFile, testsFile.value, rs, ks, us, fs);
    var p0 := Package(title, fs[descriptionFile], [JsonFile(CasesName, fs[testsFile.value])], [], []);
    var calls := PackCalls(rs, ks, us);
    MapiBuild.ReplayGroups(p0, calls, fs);
    PackAllOpen(rs, ks, us, fs);
    PackChosen(rs, ks, us, fs);
    var p := MapiBuild.Replay(p0, calls, fs).value;
    assert Group(p, Upload) == p.upload && Group(p, Keep) == p.keep && Group(p, Required) == p.required;
  }

  /** The calls of `mapi_build` open exactly the listed files. */
  lemma PackAllOpen(required: seq<string>, keep: seq<string>, upload: seq<string>, fs: map<string, string>)
    ensures MapiBuild.AllOpen(PackCalls(required, keep, upload), fs) <==> forall q <- keep + upload + required :: q in fs
  {
    var kc, uc, rc := MapiBuild.Calls(Keep, keep), MapiBuild.Calls(Upload, upload), MapiBuild.Calls(Required, required);
    MapiBuild.PathsConcat(uc, rc);
    MapiBuild.PathsConcat(kc, uc + rc);
    MapiBuild.PathsOfCalls(Keep, keep);
    MapiBuild.PathsOfCalls(Upload, upload);
    MapiBuild.PathsOfCalls(Required, required);
    var calls := PackCalls(required, keep, upload);
    assert MapiBuild.Paths(calls) == keep + (upload + required);
    assert keep + (upload + required) == keep + upload + required;
  }

  lemma PackChosen(required: seq<string>, keep: seq<string>, upload: seq<string>, fs: map<string, string>)
    requires forall q <- keep + upload + required :: q in fs
    ensures MapiBuild.Chosen(PackCalls(required, keep, upload), Upload, fs) == MapiBuild.Files(upload, fs)
    ensures MapiBuild.Chosen(PackCalls(required, keep, upload), Keep, fs) == MapiBuild.Files(keep, fs)
    ensures MapiBuild.Chosen(PackCalls(required, keep, upload), Required, fs) == MapiBuild.Files(required, fs)
  {
    var kc, uc, rc := MapiBuild.Calls(Keep, keep), MapiBuild.Calls(Upload, upload), MapiBuild.Calls(Required, required);
    MapiBuild.ChosenCalls(Keep, keep, fs);
    MapiBuild.ChosenCalls(Upload, upload, fs);
    MapiBuild.ChosenCalls(Required, required, fs);
    forall t ensures MapiBuild.Chosen(PackCalls(required, keep, upload), t, fs) ==
                     MapiBuild.Chosen(kc, t, fs) + (MapiBuild.Chosen(uc, t, fs) + MapiBuild.Chosen(rc, t, fs)) {
      MapiBuild.ChosenConcat(uc, rc, t, fs);
      MapiBuild.ChosenConcat(kc, uc + rc, t, fs);
    }
  }

  /** `mapi_build` raises exactly when the description or the tests file is missing, an argument
      is `None`, or one of the listed files is missing. */
  lemma PackFailsIffMissing(title: string, descriptionFile: string, testsFile: Option<string>,
                            required: Option<seq<string>>, keep: Option<seq<string>>, upload: Option<seq<string>>,
                            fs: map<string, string>)
    ensures PackPlan(title, descriptionFile, testsFile, required, keep, upload, fs).Err? <==>
              descriptionFile !in fs || testsFile.None? || testsFile.value !in fs ||
              required.None? || keep.None? || upload.None? ||
              exists q <- keep.value + upload.value + required.value :: q !in fs
  {
    if PackPlan(title, descriptionFile, testsFile, required, keep, upload, fs).Ok? {
      PackGroups(title, descriptionFile, testsFile, required, keep, upload, fs);
    } else if descriptionFile in fs && testsFile.Some? && testsFile.value in fs &&
              required.Some? && keep.Some? && upload.Some? {
      var ks, us, rs := keep.value, upload.value, required.value;
      PackPlanReplay(title, descriptionFile, testsFile.value, rs, ks, us, fs);
      var p0 := Package(title, fs[descriptionFile], [JsonFile(CasesName, fs[testsFile.value])], [], []);
      MapiBuild.ReplayGroups(p0, PackCalls(rs, ks, us), fs);
      PackAllOpen(rs, ks, us, fs);
    }
  }

  /** Without `-t`, `main` hands `None` to `mapi_build`, which raises at `open(None)` once the
      description is read: `mbuild -m Readme.md -o out.json` fails whatever the other lists. */
  lemma NoTestsRaises(title: string, descriptionFile: string,
                      required: Option<seq<string>>, keep: Option<seq<string>>, upload: Option<seq<string>>,
                      fs: map<string, string>)
    requires descriptionFile in fs
    ensures PackPlan(title, descriptionFile, None, required, keep, upload, fs) == Err(NoneArgument)
  {
  }

  /** A `null` list loaded by `--load` raises when its loop is reached: a `keep` of `None` fails
      before any file is added, even when every upload and required file exists. */
  lemma NullKeepRaises(title: string, descriptionFile: string, testsFile: string,
                       required: Option<seq<string>>, upload: Option<seq<string>>, fs: map<string, string>)
    requires descriptionFile in fs && testsFile in fs
    ensures PackPlan(title, descriptionFile, Some(testsFile), required, None, upload, fs) == Err(NoneArgument)
  {
  }

  // ---------------------------------------------------------------------
  // main: the option rule, --save and --load

  /** The parsed options of `main`; `upload`, `keep` and `required` default to empty lists. */
  datatype CliArgs = CliArgs(
    markdown: Option<string>,
    tests: Option<string>,
    upload: Option<seq<string>>,
    keep: Option<seq<string>>,
    required: Option<seq<string>>,
    output: Option<string>,
    save: Option<string>,
    load: Option<string>,
    folder: Option<string>)

  /** `main` goes on only when a source (markdown, load or folder) and a target (output or save) are given. */
  function ArgsAccepted(a: CliArgs): (ok: bool)
    ensures ok <==> (a.markdown.Some? || a.load.Some? || a.folder.Some?) && (a.output.Some? || a.save.Some?)
  {
    !((a.markdown.None? && a.load.None? && a.folder.None?) || (a.output.None? && a.save.None?))
  }

  /** Python truthiness of an optional string. */
  predicate Truthy(o: Option<string>)
  {
    o.Some? && o.value != ""
  }

  /** The record `--save` writes (with no newline after it). */
  function SavedCfg(a: CliArgs): Cfg
  {
    Cfg(a.markdown, a.tests, a.upload, a.keep, a.required)
  }

  /** Why the `--load` step raises. */
  datatype LoadFailure =
    | OpenedNone               // open(None): TypeError
    | NotAFile(path: string)   // no such file, or a directory
    | BadConfig                // a key is missing or holds a value of another shape

  /** The config documents on disk, by path; directories are not keys. */
  type Documents = map<string, Json>

  /** The document the `--load` step opens as written: the `--folder` path. */
  function LoadDocumentAsWritten(a: CliArgs, docs: Documents): Result<Json, LoadFailure>
  {
    if a.folder.None? then Err(OpenedNone)
    else if a.folder.value !in docs then Err(NotAFile(a.folder.value))
    else Ok(docs[a.folder.value])
  }

  /** The document the `--load` step is meant to open: the `--load` path. */
  function LoadDocument(a: CliArgs, docs: Documents): (r: Result<Json, LoadFailure>)
    requires a.load.Some?
    ensures r.Ok? <==> a.load.value in docs
    ensures r.Ok? ==> r.value == docs[a.load.value]
  {
    if a.load.value in docs then Ok(docs[a.load.value]) else Err(NotAFile(a.load.value))
  }

  /** The body of the `with` block: `markdown` and `tests` are taken only when the loaded value
      is truthy, the three lists always. */
  function ApplyConfig(a: CliArgs, j: Json): (r: Result<CliArgs, LoadFailure>)
    ensures r.Ok? <==> ReadCfg(j).Some?
    ensures r.Ok? ==> var c := ReadCfg(j).value;
              r.value.upload == c.upload && r.value.keep == c.keep && r.value.required == c.required &&
              (Truthy(c.markdown) ==> r.value.markdown == c.markdown) &&
              (!Truthy(c.markdown) ==> r.value.markdown == a.markdown) &&
              (Truthy(c.tests) ==> r.value.tests == c.tests) &&
              (!Truthy(c.tests) ==> r.value.tests == a.tests) &&
              r.value.output == a.output && r.value.save == a.save &&
              r.value.load == a.load && r.value.folder == a.folder
  {
    match ReadCfg(j)
    case None => Err(BadConfig)
    case Some(c) =>
      Ok(a.(markdown := if Truthy(c.markdown) then c.markdown else a.markdown,
            tests := if Truthy(c.tests) then c.tests else a.tests,
            upload := c.upload, keep := c.keep, required := c.required))
  }

  /** The `--load` step of `main`, with the path it is meant to open. */
  function LoadStep(a: CliArgs, docs: Documents): (r: Result<CliArgs, LoadFailure>)
    ensures !Truthy(a.load) ==> r == Ok(a)
    ensures Truthy(a.load) && a.load.value !in docs ==> r == Err(NotAFile(a.load.value))
    ensures Truthy(a.load) && a.load.value in docs ==> r == ApplyConfig(a, docs[a.load.value])
  {
    if !Truthy(a.load) then Ok(a)
    else match LoadDocument(a, docs)
      case Err(e) => Err(e)
      case Ok(j) => ApplyConfig(a, j)
  }

  /** The `--load` step as written. */
  function LoadStepAsWritten(a: CliArgs, docs: Documents): (r: Result<CliArgs, LoadFailure>)
    ensures !Truthy(a.load) ==> r == Ok(a)
    ensures Truthy(a.load) && a.folder.None? ==> r == Err(OpenedNone)
    ensures Truthy(a.load) && a.folder.Some? && a.folder.value !in docs ==> r == Err(NotAFile(a.folder.value))
    ensures Truthy(a.load) && a.folder.Some? && a.folder.value in docs ==> r == ApplyConfig(a, docs[a.folder.value])
  {
    if !Truthy(a.load) then Ok(a)
    else match LoadDocumentAsWritten(a, docs)
      case Err(e) => Err(e)
      case Ok(j) => ApplyConfig(a, j)
  }

  /** As written, `mbuild --load cfg.json --output out` is accepted and then fails, though
      cfg.json holds a valid configuration; opening the `--load` path reads it. */
  lemma LoadOpensFolderAsWritten()
    ensures var c := Cfg(Some("Readme.md"), Some("cases.tio"), Some([]), Some([]), Some([]));
            var a := CliArgs(None, None, Some([]), Some([]), Some([]), Some("out"), None, Some("cfg.json"), None);
            var docs := map["cfg.json" := CfgDocument(c)];
            ArgsAccepted(a) && LoadStepAsWritten(a, docs) == Err(OpenedNone) && LoadStep(a, docs).Ok?
  {
    CfgRoundTrip(Cfg(Some("Readme.md"), Some("cases.tio"), Some([]), Some([]), Some([])));
  }

  /** What `--save` writes, `--load` restores: the three lists exactly, and `markdown` and
      `tests` whenever they were truthy. */
  lemma SaveThenLoad(saved: CliArgs, a: CliArgs, docs: Documents)
    requires Truthy(a.load) && a.load.value in docs && docs[a.load.value] == CfgDocument(SavedCfg(saved))
    ensures LoadStep(a, docs).Ok?
    ensures var b := LoadStep(a, docs).value;
            b.upload == saved.upload && b.keep == saved.keep && b.required == saved.required &&
            b.markdown == (if Truthy(saved.markdown) then saved.markdown else a.markdown) &&
            b.tests == (if Truthy(saved.tests) then saved.tests else a.tests) &&
            b.output == a.output && b.save == a.save && b.load == a.load && b.folder == a.folder
  {
    CfgRoundTrip(SavedCfg(saved));
  }

  /** The two loaders agree whenever `--folder` names the same document as `--load`. */
  lemma LoadAgreesWhenPathsCoincide(a: CliArgs, docs: Documents)
    requires Truthy(a.load) && a.folder == a.load
    ensures LoadStepAsWritten(a, docs) == LoadStep(a, docs)
  {
  }
}
