/**
 * The file entries of a question package, shared by mapi_build.py and
 * mbuild.py, which declare the same `JsonFile` and `JsonFileType`.
 */
module VplFiles {
  import opened Wrappers
  import opened Strings

  /** `os.sep` on the POSIX systems the scripts run on. */
  const Sep: char := '/'

  /** One file of a package. Both scripts always give it encoding 0 (plain text). */
  datatype JsonFile = JsonFile(name: string, contents: string)
  {
    const encoding: int := 0
  }

  /** The three groups of a package: sent once, kept across evaluations, required from the student. */
  datatype FileType = Upload | Keep | Required

  /** `str(jfile)`: name, contents and encoding separated by colons. */
  function FileText(f: JsonFile): (s: string)
    ensures |s| == |f.name| + |f.contents| + 3
    ensures StartsWith(s, f.name + ":") && EndsWith(s, ":0")
  {
    f.name + ":" + f.contents + ":" + "0"
  }

  /** Reads a `FileText` back: the name runs to the first colon, the text ends in ":0". */
  function ParseFileText(s: string): (r: Option<JsonFile>)
    ensures r.Some? ==> ':' !in r.value.name && FileText(r.value) == s
    ensures r.None? ==> ':' !in s || !EndsWith(s, ":0") || Find(s, ':') + 1 > |s| - 2
  {
    FindIn(s, ':');
    var k := Find(s, ':');
    if k < |s| && |s| >= 2 && s[|s| - 2..] == ":0" && k + 1 <= |s| - 2 then
      FindPrefixFree(s, ':');
      assert s == s[..k] + ":" + s[k + 1..|s| - 2] + ":" + "0";
      Some(JsonFile(s[..k], s[k + 1..|s| - 2]))
    else None
  }

  /** The string form of a file whose name has no colon determines the file. */
  lemma FileTextRoundTrip(f: JsonFile)
    requires ':' !in f.name
    ensures ParseFileText(FileText(f)) == Some(f)
  {
    var s := FileText(f);
    var n := |f.name|;
    assert s == f.name + (":" + f.contents + ":" + "0");
    assert s[..n] == f.name;
    assert s[n] == ':';
    FindAt(s, ':', n);
    assert s[n + 1..|s| - 2] == f.contents;
    assert s[|s| - 2..] == ":0";
    assert ParseFileText(s) == Some(JsonFile(s[..n], s[n + 1..|s| - 2]));
  }

  /** `path.split(os.sep)[-1]`: the last component of a path. */
  function BaseName(path: string): string
  {
    LastPiece(path, Sep)
  }

  /** The base name is the part of the path after its last separator (all of it when there is none). */
  lemma BaseNameIsLastComponent(path: string)
    ensures Sep !in BaseName(path)
    ensures EndsWith(path, BaseName(path))
    ensures BaseName(path) == path || path[|path| - |BaseName(path)| - 1] == Sep
    ensures BaseName(path) == path <==> Sep !in path
  {
    SplitLast(path, Sep);
    SplitPiecesFree(path, Sep);
    LastPieceOfSplit(path, Sep);
  }

  /** The name both scripts give the tests file inside the package. */
  const CasesName: string := "vpl_evaluate.cases"

  /** The state of a `JsonVPL`: a title, a description and the three ordered groups. */
  datatype Package = Package(title: string, description: string,
                             upload: seq<JsonFile>, keep: seq<JsonFile>, required: seq<JsonFile>)

  /** The group a file type selects. */
  function Group(p: Package, t: FileType): seq<JsonFile>
  {
    match t
    case Upload => p.upload
    case Keep => p.keep
    case Required => p.required
  }

  /** The append `add_file` performs once the entry is built. */
  function AddTo(p: Package, t: FileType, f: JsonFile): Package
  {
    match t
    case Upload => p.(upload := p.upload + [f])
    case Keep => p.(keep := p.keep + [f])
    case Required => p.(required := p.required + [f])
  }

  /** Adding a file appends it to its own group and leaves everything else as it was. */
  lemma AddToTouchesOneGroup(p: Package, t: FileType, f: JsonFile)
    ensures Group(AddTo(p, t, f), t) == Group(p, t) + [f]
    ensures forall u :: u != t ==> Group(AddTo(p, t, f), u) == Group(p, u)
    ensures AddTo(p, t, f).title == p.title && AddTo(p, t, f).description == p.description
  {
  }
}
