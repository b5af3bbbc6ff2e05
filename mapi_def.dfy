/**
 * mapi_def.py: the package configuration of a question folder. `load_folder`
 * sorts a directory listing into tests, keep and required files by name; the
 * listing is given as a value, each entry saying whether it is a regular file.
 * `build_cfg` turns the five fields into the JSON text that is written out.
 */
module MapiDef {
  import opened Wrappers
  import opened Strings
  import opened Config

  /** One name `os.listdir` returns, and whether `os.path.isfile` holds for it. */
  datatype DirEntry = DirEntry(name: string, isFile: bool)

  // ---------------------------------------------------------------------
  // list comprehensions

  /** `[x for x in xs if p(x)]`. */
  function Filter(xs: seq<string>, p: string -> bool): (ys: seq<string>)
    ensures |ys| <= |xs|
  {
    if xs == [] then [] else (if p(xs[0]) then [xs[0]] else []) + Filter(xs[1..], p)
  }

  /** A name survives a filter exactly when it is listed and passes the test. */
  lemma {:induction false} FilterMembers(xs: seq<string>, p: string -> bool)
    ensures forall x :: x in Filter(xs, p) <==> x in xs && p(x)
  {
    if xs != [] {
      FilterMembers(xs[1..], p);
      assert xs == [xs[0]] + xs[1..];
    }
  }

  /** The first survivor is the first listed name that passes. */
  lemma {:induction false} FilterFirst(xs: seq<string>, p: string -> bool)
    ensures Filter(xs, p) != [] <==> exists k :: 0 <= k < |xs| && p(xs[k])
    ensures Filter(xs, p) != [] ==>
              exists k :: 0 <= k < |xs| && xs[k] == Filter(xs, p)[0] && p(xs[k]) &&
                forall j :: 0 <= j < k ==> !p(xs[j])
  {
    if xs != [] {
      FilterFirst(xs[1..], p);
      if !p(xs[0]) {
        if exists k :: 0 <= k < |xs| && p(xs[k]) {
          var k :| 0 <= k < |xs| && p(xs[k]);
          assert xs[1..][k - 1] == xs[k];
        }
        if Filter(xs, p) != [] {
          var k :| 0 <= k < |xs[1..]| && xs[1..][k] == Filter(xs[1..], p)[0] && p(xs[1..][k]) &&
                   forall j :: 0 <= j < k ==> !p(xs[1..][j]);
          assert xs[k + 1] == xs[1..][k];
          forall j | 0 <= j < k + 1 ensures !p(xs[j]) {
            if j > 0 { assert xs[j] == xs[1..][j - 1]; }
          }
        }
      } else {
        assert p(xs[0]);
      }
    }
  }

  /** `[f for f in files if os.path.isfile(...)]`. */
  function RegularFiles(listing: seq<DirEntry>): (names: seq<string>)
    ensures forall x :: x in names <==> DirEntry(x, true) in listing
  {
    if listing == [] then []
    else (if listing[0].isFile then [listing[0].name] else []) + RegularFiles(listing[1..])
  }

  // ---------------------------------------------------------------------
  // the name tests of load_folder

  predicate NotHidden(f: string)
  {
    !StartsWith(f, ".")
  }

  predicate IsTestsName(f: string)
  {
    EndsWith(f, ".vpl") || EndsWith(f, ".tio")
  }

  predicate IsData(f: string)
  {
    StartsWith(Lower(f), "data")
  }

  predicate IsLib(f: string)
  {
    StartsWith(Lower(f), "lib")
  }

  predicate IsMain(f: string)
  {
    StartsWith(Lower(f), "main")
  }

  predicate IsStudent(f: string)
  {
    StartsWith(Lower(f), "student")
  }

  /** The names `load_folder` classifies: the regular files not starting with a dot. */
  function Candidates(listing: seq<DirEntry>): seq<string>
  {
    Filter(RegularFiles(listing), NotHidden)
  }

  // ---------------------------------------------------------------------
  // build_cfg and load_folder

  /** `build_cfg`: the five-key document serialised by `dumps`, followed by a newline. */
  function BuildCfg(c: Cfg, dumps: Json -> string): (out: string)
    ensures |out| > 0 && out[|out| - 1] == '\n'
    ensures out[..|out| - 1] == dumps(CfgDocument(c))
  {
    dumps(CfgDocument(c)) + "\n"
  }

  /** The document `build_cfg` serialises names exactly the five keys, in order, and reads back
      as the configuration it was built from. */
  lemma BuildCfgDocument(c: Cfg)
    ensures CfgDocument(c).JObject?
    ensures seq(|CfgDocument(c).fields|, i requires 0 <= i < |CfgDocument(c).fields| => CfgDocument(c).fields[i].0) == CfgKeys
    ensures ReadCfg(CfgDocument(c)) == Some(c)
  {
    CfgRoundTrip(c);
  }

  /** The `args` namespace of the `load` subcommand, whose five fields `load_folder` sets. */
  class FolderArgs {
    var markdown: Option<string>
    var tests: Option<string>
    var upload: Option<seq<string>>
    var keep: Option<seq<string>>
    var required: Option<seq<string>>

    function Fields(): Cfg
      reads this
    {
      Cfg(markdown, tests, upload, keep, required)
    }

    constructor ()
      ensures Fields() == Cfg(None, None, None, None, None)
    {
      markdown, tests, upload, keep, required := None, None, None, None, None;
    }
  }

  /** The configuration `load_folder` leaves in `args`. The `lib*` and `main*` names it puts in
      `keep` are overwritten by the `data*` names, and so do not appear. */
  function Classify(listing: seq<DirEntry>): (c: Cfg)
    ensures c.markdown == Some("Readme.md") && c.upload == Some([])
    ensures c.keep.Some? && c.required.Some?
    ensures c.tests.Some? ==> c.tests.value in Candidates(listing) && IsTestsName(c.tests.value)
  {
    var files := Candidates(listing);
    var vplFiles := Filter(files, IsTestsName);
    FilterMembers(files, IsTestsName);
    assert |vplFiles| > 0 ==> vplFiles[0] in vplFiles;
    Cfg(Some("Readme.md"),
        if |vplFiles| > 0 then Some(vplFiles[0]) else None,
        Some([]),
        Some(Filter(files, IsData)),
        Some(Filter(files, IsStudent)))
  }

  /** `load_folder(args)`, the assignments in source order. */
  method LoadFolder(args: FolderArgs, listing: seq<DirEntry>, dumps: Json -> string) returns (out: string)
    modifies args
    ensures args.Fields() == Classify(listing)
    ensures out == BuildCfg(Classify(listing), dumps)
  {
    var files := RegularFiles(listing);
    files := Filter(files, NotHidden);
    args.markdown := Some("Readme.md");
    var vplFiles := Filter(files, IsTestsName);
    if |vplFiles| > 0 {
      args.tests := Some(vplFiles[0]);
    } else {
      args.tests := None;
    }
    args.upload := Some([]);
    args.keep := Some(Filter(files, IsLib));
    args.keep := Some(args.keep.value + Filter(files, IsMain));
    args.required := Some(Filter(files, IsStudent));
    args.keep := Some(Filter(files, IsData));
    out := BuildCfg(args.Fields(), dumps);
  }

  // ---------------------------------------------------------------------
  // what the classification promises

  /** A name ever appears in the classification only if it is a listed regular file not starting with a dot. */
  lemma CandidateMembers(listing: seq<DirEntry>)
    ensures forall x :: x in Candidates(listing) <==> DirEntry(x, true) in listing && !StartsWith(x, ".")
  {
    FilterMembers(RegularFiles(listing), NotHidden);
  }

  /** `tests` is the first candidate ending in ".vpl" or ".tio", and absent when there is none. */
  lemma TestsIsFirstTestsFile(listing: seq<DirEntry>)
    ensures Classify(listing).tests.None? <==>
              forall k :: 0 <= k < |Candidates(listing)| ==> !IsTestsName(Candidates(listing)[k])
    ensures Classify(listing).tests.Some? ==>
              exists k :: 0 <= k < |Candidates(listing)| && Candidates(listing)[k] == Classify(listing).tests.value &&
                IsTestsName(Candidates(listing)[k]) &&
                forall j :: 0 <= j < k ==> !IsTestsName(Candidates(listing)[j])
  {
    FilterFirst(Candidates(listing), IsTestsName);
  }

  /** `keep` is exactly the candidates whose lower-case name starts with "data", `required`
      exactly those starting with "student", both in listing order. */
  lemma KeepAndRequiredMembers(listing: seq<DirEntry>)
    ensures Classify(listing).keep == Some(Filter(Candidates(listing), IsData))
    ensures Classify(listing).required == Some(Filter(Candidates(listing), IsStudent))
    ensures forall x :: x in Classify(listing).keep.value <==>
              DirEntry(x, true) in listing && !StartsWith(x, ".") && StartsWith(Lower(x), "data")
    ensures forall x :: x in Classify(listing).required.value <==>
              DirEntry(x, true) in listing && !StartsWith(x, ".") && StartsWith(Lower(x), "student")
  {
    CandidateMembers(listing);
    FilterMembers(Candidates(listing), IsData);
    FilterMembers(Candidates(listing), IsStudent);
  }

  /** The overwrite: no `lib*` or `main*` name ends up in `keep`. */
  lemma LibAndMainDropped(listing: seq<DirEntry>, x: string)
    requires StartsWith(Lower(x), "lib") || StartsWith(Lower(x), "main")
    ensures x !in Classify(listing).keep.value
  {
    var lx := Lower(x);
    assert lx[0] == 'l' || lx[0] == 'm';
    assert !StartsWith(lx, "data") by {
      if 4 <= |lx| {
        assert lx[..4][0] == lx[0];
      }
    }
    KeepAndRequiredMembers(listing);
  }

  /** Hidden names never appear in any category. */
  lemma HiddenNamesIgnored(listing: seq<DirEntry>, x: string)
    requires StartsWith(x, ".")
    ensures Classify(listing).tests != Some(x)
    ensures x !in Classify(listing).keep.value && x !in Classify(listing).required.value
  {
    CandidateMembers(listing);
    KeepAndRequiredMembers(listing);
    var vplFiles := Filter(Candidates(listing), IsTestsName);
    FilterMembers(Candidates(listing), IsTestsName);
    if |vplFiles| > 0 {
      assert vplFiles[0] in vplFiles;
    }
  }
}
