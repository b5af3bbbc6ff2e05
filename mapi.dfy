/**
 * mapi.py: finding a question's activity on the course page by its label,
 * deciding between creating, updating and skipping it, and the requests
 * `submitVpl` sends. The browser is replaced by the list of links the
 * course page shows when it is opened; remote writes are recorded as a
 * log of requests.
 */
module Mapi {
  import opened Wrappers
  import opened Strings

  /** A link of the course page: (url, text). */
  type Link = (string, string)

  const ViewPath := "/mod/vpl/view.php?id="
  /** The activity-type text Moodle appends to every VPL link. */
  const LabSuffix := " Laboratório Virtual de Programação"
  /** U+FEFF, the byte-order mark some link texts start with (`ord == 65279`). */
  const Bom: char := 0xFEFF as char
  /** The placeholder the URL templates carry for the activity id. */
  const IdMarker := "ID_QUESTAO"

  /** The exceptions the core raises. */
  datatype Fault =
    | TitleWordEmpty  // `index[0]` on an empty first word of the title: IndexError
    | LinkTextEmpty   // `text[0]` on a view link whose cleaned text is empty: IndexError
    | IdNotFound      // the lookup in `submitVpl` gave -1, and `.replace(..., -1)` raises TypeError

  /** `s.split(" ")[0]`. */
  function FirstWord(s: string): string
  {
    Split(s, ' ')[0]
  }

  /** MoodleAPI's configuration and the URLs its constructor derives from it. */
  datatype MoodleApi = MoodleApi(urlBase: string, course: string, section: string)
  {
    function CourseUrl(): string
    {
      urlBase + "/course/view.php?id=" + course
    }

    function NewVplUrl(): string
    {
      urlBase + "/course/modedit.php?add=vpl&type=&course=" + course + "&section=" + section + "&return=0&sr=0"
    }

    function UpdateUrl(id: string): string
    {
      ReplaceAll(urlBase + "/course/modedit.php?update=" + IdMarker, IdMarker, id)
    }

    function FilesSaveUrl(id: string): string
    {
      ReplaceAll(urlBase + "/mod/vpl/forms/executionfiles.json.php?id=" + IdMarker + "&action=save", IdMarker, id)
    }

    function RequiredSaveUrl(id: string): string
    {
      ReplaceAll(urlBase + "/mod/vpl/forms/requiredfiles.json.php?id=" + IdMarker + "&action=save", IdMarker, id)
    }

    /** Only links that start with this prefix are VPL activities. */
    function ViewPrefix(): (p: string)
      ensures p != ""
    {
      urlBase + ViewPath
    }
  }

  /** The marker cannot begin inside a string free of it and run on into a following copy of
      itself: its only `I` is its first character. */
  lemma NoMarkerIn(a: string)
    requires FreeOf(a, IdMarker)
    ensures forall i :: 0 <= i < |a| ==> !StartsWith((a + IdMarker)[i..], IdMarker)
  {
    forall i | 0 <= i < |a|
      ensures !StartsWith((a + IdMarker)[i..], IdMarker)
    {
      var s := (a + IdMarker)[i..];
      if i + |IdMarker| <= |a| {
        assert s[..|IdMarker|] == a[i..][..|IdMarker|];
      } else {
        var k := |a| - i;
        assert 1 <= k < |IdMarker|;
        assert s[k] == IdMarker[0] == 'I';
        assert IdMarker[k] != 'I';
        assert s[..|IdMarker|][k] == s[k];
      }
    }
  }

  /** When the marker does not occur in the base URL and the path before it, the update URL
      receives the id exactly where the marker was. */
  lemma UpdateUrlCarriesId(api: MoodleApi, id: string)
    requires FreeOf(api.urlBase + "/course/modedit.php?update=", IdMarker)
    ensures api.UpdateUrl(id) == api.urlBase + "/course/modedit.php?update=" + id
  {
    var u := api.urlBase + "/course/modedit.php?update=";
    NoMarkerIn(u);
    ReplaceMarker(u, IdMarker, "", id);
    assert u + IdMarker + "" == u + IdMarker;
  }

  lemma TailHasNoMarker(id: string)
    ensures ReplaceAll("&action=save", IdMarker, id) == "&action=save"
  {
    var t := "&action=save";
    forall i | 0 <= i < |t| ensures !StartsWith(t[i..], IdMarker) {
      assert t[i..][0] == t[i] && t[i] != 'I';
    }
    ReplaceAbsent(t, IdMarker, id);
  }

  /** The same for the URL that saves the execution files. */
  lemma FilesSaveUrlCarriesId(api: MoodleApi, id: string)
    requires FreeOf(api.urlBase + "/mod/vpl/forms/executionfiles.json.php?id=", IdMarker)
    ensures api.FilesSaveUrl(id) == api.urlBase + "/mod/vpl/forms/executionfiles.json.php?id=" + id + "&action=save"
  {
    var f := api.urlBase + "/mod/vpl/forms/executionfiles.json.php?id=";
    NoMarkerIn(f);
    ReplaceMarker(f, IdMarker, "&action=save", id);
    TailHasNoMarker(id);
  }

  /** The same for the URL that saves the required files. */
  lemma RequiredSaveUrlCarriesId(api: MoodleApi, id: string)
    requires FreeOf(api.urlBase + "/mod/vpl/forms/requiredfiles.json.php?id=", IdMarker)
    ensures api.RequiredSaveUrl(id) == api.urlBase + "/mod/vpl/forms/requiredfiles.json.php?id=" + id + "&action=save"
  {
    var f := api.urlBase + "/mod/vpl/forms/requiredfiles.json.php?id=";
    NoMarkerIn(f);
    ReplaceMarker(f, IdMarker, "&action=save", id);
    TailHasNoMarker(id);
  }

  /** No `I` in `u` is followed by a `D`. */
  predicate NoIdPair(u: string)
  {
    forall i :: 0 <= i < |u| - 1 ==> u[i] != 'I' || u[i + 1] != 'D'
  }

  /** The marker starts with "ID", so a text with no `I` followed by `D` is free of it. */
  lemma FreeOfMarkerByPairs(u: string)
    requires NoIdPair(u)
    ensures FreeOf(u, IdMarker)
  {
    forall i | 0 <= i < |u| ensures !StartsWith(u[i..], IdMarker) {
      if |IdMarker| <= |u[i..]| {
        assert u[i..][..|IdMarker|][1] == u[i + 1];
        assert u[i..][..|IdMarker|][0] == u[i];
      }
    }
  }

  /** Two texts free of the pair stay free of it when joined, unless the join creates one. */
  lemma NoIdPairConcat(a: string, b: string)
    requires NoIdPair(a) && NoIdPair(b)
    requires a == [] || b == [] || a[|a| - 1] != 'I' || b[0] != 'D'
    ensures NoIdPair(a + b)
  {
    forall i | 0 <= i < |a + b| - 1 ensures (a + b)[i] != 'I' || (a + b)[i + 1] != 'D' {
      if i + 1 < |a| {
        assert (a + b)[i] == a[i] && (a + b)[i + 1] == a[i + 1];
      } else if i >= |a| {
        assert (a + b)[i] == b[i - |a|] && (a + b)[i + 1] == b[i - |a| + 1];
      }
    }
  }

  const IfceBase := "https://moodle.IFCE.edu.br"

  /** The capitals of this base are `IFCE`: its `I` is followed by `F`. */
  lemma IfceBaseNoIdPair()
    ensures NoIdPair(IfceBase)
  {
    forall i | 0 <= i < |IfceBase| - 1 && IfceBase[i] == 'I' ensures IfceBase[i + 1] != 'D' {
      assert i == 15;
    }
  }

  /** A base URL with a capital I, such as "https://moodle.IFCE.edu.br", still meets the
      hypothesis of `UpdateUrlCarriesId`. */
  lemma CapitalIBaseCovered()
    ensures FreeOf(IfceBase + "/course/modedit.php?update=", IdMarker)
  {
    IfceBaseNoIdPair();
    NoIdPairConcat(IfceBase, "/course/modedit.php?update=");
    FreeOfMarkerByPairs(IfceBase + "/course/modedit.php?update=");
  }

  /** The same base meets the hypothesis of `FilesSaveUrlCarriesId`. */
  lemma CapitalIBaseCoveredFiles()
    ensures FreeOf(IfceBase + "/mod/vpl/forms/executionfiles.json.php?id=", IdMarker)
  {
    IfceBaseNoIdPair();
    NoIdPairConcat(IfceBase, "/mod/vpl/forms/executionfiles.json.php?id=");
    FreeOfMarkerByPairs(IfceBase + "/mod/vpl/forms/executionfiles.json.php?id=");
  }

  /** The same base meets the hypothesis of `RequiredSaveUrlCarriesId`. */
  lemma CapitalIBaseCoveredRequired()
    ensures FreeOf(IfceBase + "/mod/vpl/forms/requiredfiles.json.php?id=", IdMarker)
  {
    IfceBaseNoIdPair();
    NoIdPairConcat(IfceBase, "/mod/vpl/forms/requiredfiles.json.php?id=");
    FreeOfMarkerByPairs(IfceBase + "/mod/vpl/forms/requiredfiles.json.php?id=");
  }

  // ---------------------------------------------------------------------
  // getVplId

  /** The link text with the activity-type suffix removed. */
  function CleanText(text: string): string
  {
    ReplaceAll(text, LabSuffix, "")
  }

  /** The label word of a cleaned, non-empty link text: one leading BOM is dropped first. */
  function LinkWord(text: string): string
    requires text != ""
  {
    FirstWord(if text[0] == Bom then text[1..] else text)
  }

  /** What the lookup loop does with one link. */
  datatype Step = Pass | Hit(id: string) | Crash

  /** One iteration of the lookup loop for the title word `index`. */
  function Examine(api: MoodleApi, index: string, link: Link): (st: Step)
    ensures !StartsWith(link.0, api.ViewPrefix()) ==> st == Pass
    ensures st == Crash <==> StartsWith(link.0, api.ViewPrefix()) && CleanText(link.1) == ""
    ensures st.Hit? ==> StartsWith(index, "@") && st.id == ReplaceAll(link.0, api.ViewPrefix(), "")
  {
    var (url, text) := link;
    if !StartsWith(url, api.ViewPrefix()) then Pass
    else
      var cleaned := CleanText(text);
      var qid := ReplaceAll(url, api.ViewPrefix(), "");
      if cleaned == "" then Crash
      else if StartsWith(LinkWord(cleaned), "@") && LinkWord(cleaned) == index then Hit(qid)
      else Pass
  }

  /** The lookup loop: the first link that is not passed over decides. */
  function Scan(api: MoodleApi, index: string, links: seq<Link>): (r: Result<Option<string>, Fault>)
    ensures r.Err? ==> r.error == LinkTextEmpty
    ensures r.Ok? && r.value.Some? ==> StartsWith(index, "@")
    ensures links == [] ==> r == Ok(None)
  {
    if links == [] then Ok(None)
    else
      match Examine(api, index, links[0])
      case Pass => Scan(api, index, links[1..])
      case Hit(id) => Ok(Some(id))
      case Crash => Err(LinkTextEmpty)
  }

  /** `getVplId(title)` against the given course page: `Ok(None)` is the sentinel -1. */
  function LookupVplId(api: MoodleApi, title: string, links: seq<Link>): (r: Result<Option<string>, Fault>)
    ensures r == Err(TitleWordEmpty) <==> FirstWord(title) == ""
    ensures r.Ok? && r.value.Some? ==> StartsWith(FirstWord(title), "@")
  {
    var index := FirstWord(title);
    if index == "" then Err(TitleWordEmpty)
    else if index[0] != '@' then Ok(None)
    else Scan(api, index, links)
  }

  /** `MoodleAPI.getVplId`, with `browser.links()` given as `links`. */
  method GetVplId(api: MoodleApi, title: string, links: seq<Link>) returns (r: Result<Option<string>, Fault>)
    ensures r == LookupVplId(api, title, links)
  {
    var index := FirstWord(title);
    if index == "" {
      return Err(TitleWordEmpty);
    }
    if index[0] != '@' {
      return Ok(None);
    }
    var prefix := api.urlBase + ViewPath;
    var i := 0;
    while i < |links|
      invariant 0 <= i <= |links|
      invariant Scan(api, index, links) == Scan(api, index, links[i..])
    {
      assert links[i..][0] == links[i] && links[i..][1..] == links[i + 1..];
      var (url, text) := links[i];
      if StartsWith(url, prefix) {
        text := ReplaceAll(text, LabSuffix, "");
        var qid := ReplaceAll(url, prefix, "");
        if text == "" {
          return Err(LinkTextEmpty);
        }
        if text[0] == Bom {
          text := text[1..];
        }
        var qindex := FirstWord(text);
        if StartsWith(qindex, "@") && qindex == index {
          return Ok(Some(qid));
        }
      }
      i := i + 1;
    }
    return Ok(None);
  }

  /** Every link before position `k` is passed over. */
  ghost predicate PassedBefore(api: MoodleApi, index: string, links: seq<Link>, k: nat)
    requires k <= |links|
  {
    forall j :: 0 <= j < k ==> Examine(api, index, links[j]) == Pass
  }

  /** The scan returns what the first link that is not passed over says; `Ok(None)` when there is none. */
  lemma {:induction false} ScanFirstStop(api: MoodleApi, index: string, links: seq<Link>, k: nat)
    requires k <= |links| && PassedBefore(api, index, links, k)
    ensures k == |links| ==> Scan(api, index, links) == Ok(None)
    ensures k < |links| && Examine(api, index, links[k]).Hit? ==>
              Scan(api, index, links) == Ok(Some(Examine(api, index, links[k]).id))
    ensures k < |links| && Examine(api, index, links[k]).Crash? ==>
              Scan(api, index, links) == Err(LinkTextEmpty)
  {
    if k > 0 {
      assert Examine(api, index, links[0]) == Pass;
      assert PassedBefore(api, index, links[1..], k - 1) by {
        forall j | 0 <= j < k - 1 ensures Examine(api, index, links[1..][j]) == Pass {
          assert links[1..][j] == links[j + 1];
        }
      }
      ScanFirstStop(api, index, links[1..], k - 1);
      assert links[1..][k - 1..] == links[k..];
      if k < |links| { assert links[1..][k - 1] == links[k]; }
    }
  }

  /** Every result of the scan comes from a first link that is not passed over, or from there being none. */
  lemma {:induction false} ScanResultHasWitness(api: MoodleApi, index: string, links: seq<Link>)
    ensures Scan(api, index, links) == Ok(None) ==> PassedBefore(api, index, links, |links|)
    ensures Scan(api, index, links).Ok? && Scan(api, index, links).value.Some? ==>
              exists k :: 0 <= k < |links| && PassedBefore(api, index, links, k) &&
                Examine(api, index, links[k]) == Hit(Scan(api, index, links).value.value)
    ensures Scan(api, index, links).Err? ==>
              Scan(api, index, links).error == LinkTextEmpty &&
              exists k :: 0 <= k < |links| && PassedBefore(api, index, links, k) &&
                Examine(api, index, links[k]) == Crash
  {
    if links != [] {
      var s := Examine(api, index, links[0]);
      if s == Pass {
        ScanResultHasWitness(api, index, links[1..]);
        var tail := links[1..];
        forall k | 0 <= k <= |tail| && PassedBefore(api, index, tail, k)
          ensures PassedBefore(api, index, links, k + 1)
        {
          forall j | 0 <= j < k + 1 ensures Examine(api, index, links[j]) == Pass {
            if j > 0 { assert links[j] == tail[j - 1]; }
          }
        }
        if Scan(api, index, links).Ok? && Scan(api, index, links).value.Some? {
          var k :| 0 <= k < |tail| && PassedBefore(api, index, tail, k) &&
                   Examine(api, index, tail[k]) == Hit(Scan(api, index, tail).value.value);
          assert links[k + 1] == tail[k];
        }
        if Scan(api, index, links).Err? {
          var k :| 0 <= k < |tail| && PassedBefore(api, index, tail, k) && Examine(api, index, tail[k]) == Crash;
          assert links[k + 1] == tail[k];
        }
      } else {
        assert PassedBefore(api, index, links, 0);
      }
    }
  }

  /** First match wins: a hit after links that are all passed over is the answer, whatever follows. */
  lemma FirstMatchWins(api: MoodleApi, title: string, links: seq<Link>, k: nat, id: string)
    requires FirstWord(title) != "" && FirstWord(title)[0] == '@'
    requires k < |links| && PassedBefore(api, FirstWord(title), links, k)
    requires Examine(api, FirstWord(title), links[k]) == Hit(id)
    ensures LookupVplId(api, title, links) == Ok(Some(id))
  {
    ScanFirstStop(api, FirstWord(title), links, k);
  }

  /** A found id is the answer of the first link that is not passed over. */
  lemma FoundIdComesFromFirstHit(api: MoodleApi, title: string, links: seq<Link>, id: string)
    requires LookupVplId(api, title, links) == Ok(Some(id))
    ensures exists k :: 0 <= k < |links| && PassedBefore(api, FirstWord(title), links, k) &&
              Examine(api, FirstWord(title), links[k]) == Hit(id)
  {
    ScanResultHasWitness(api, FirstWord(title), links);
  }

  /** The sentinel -1 comes back exactly when the title has no `@` label or no link matches it. */
  lemma NotFoundIff(api: MoodleApi, title: string, links: seq<Link>)
    requires FirstWord(title) != ""
    ensures LookupVplId(api, title, links) == Ok(None) <==>
              FirstWord(title)[0] != '@' || PassedBefore(api, FirstWord(title), links, |links|)
  {
    var index := FirstWord(title);
    if index[0] == '@' {
      ScanResultHasWitness(api, index, links);
      if PassedBefore(api, index, links, |links|) {
        ScanFirstStop(api, index, links, |links|);
      }
    }
  }

  /** The lookup raises only on an empty title word, or on an empty link text reached before any match. */
  lemma RaisesOnlyOnEmptyText(api: MoodleApi, title: string, links: seq<Link>)
    requires LookupVplId(api, title, links).Err?
    ensures FirstWord(title) == "" <==> LookupVplId(api, title, links).error == TitleWordEmpty
    ensures FirstWord(title) != "" ==>
              exists k :: 0 <= k < |links| && PassedBefore(api, FirstWord(title), links, k) &&
                Examine(api, FirstWord(title), links[k]) == Crash
  {
    if FirstWord(title) != "" {
      ScanResultHasWitness(api, FirstWord(title), links);
    }
  }

  /** An unlabelled title is "not found" without looking at a single link. */
  lemma UnlabelledTitleIgnoresLinks(api: MoodleApi, title: string, links: seq<Link>, others: seq<Link>)
    requires FirstWord(title) != "" && FirstWord(title)[0] != '@'
    ensures LookupVplId(api, title, links) == LookupVplId(api, title, others) == Ok(None)
  {
  }

  /** Links outside the VPL view prefix are never candidates. */
  lemma NonViewLinksPassed(api: MoodleApi, index: string, url: string, text: string)
    requires !StartsWith(url, api.ViewPrefix())
    ensures Examine(api, index, (url, text)) == Pass
  {
  }

  /** A hit is a view link whose cleaned label word equals the title word; its id is the URL
      with the view prefix removed. */
  lemma HitIff(api: MoodleApi, index: string, url: string, text: string, id: string)
    requires StartsWith(index, "@")
    ensures Examine(api, index, (url, text)) == Hit(id) <==>
              StartsWith(url, api.ViewPrefix()) && CleanText(text) != "" &&
              LinkWord(CleanText(text)) == index && id == ReplaceAll(url, api.ViewPrefix(), "")
  {
  }

  /** The found id is exactly the rest of the URL when the view prefix does not occur in it again. */
  lemma HitIdIsUrlTail(api: MoodleApi, index: string, url: string, text: string, id: string)
    requires Examine(api, index, (url, text)) == Hit(id)
    requires var rest := url[|api.ViewPrefix()|..];
             forall i :: 0 <= i < |rest| ==> !StartsWith(rest[i..], api.ViewPrefix())
    ensures id == url[|api.ViewPrefix()|..]
  {
    var p := api.ViewPrefix();
    var rest := url[|p|..];
    assert url[..|p|] == p;
    ReplaceAbsent(rest, p, "");
  }

  lemma CleanTextKeepsBom(text: string)
    ensures CleanText([Bom] + text) == [Bom] + CleanText(text)
  {
    var s := [Bom] + text;
    assert s[1..] == text;
    if |s| >= |LabSuffix| {
      assert s[..|LabSuffix|][0] != LabSuffix[0];
    }
  }

  /** One leading byte-order mark on a link text makes no difference. */
  lemma LeadingBomIgnored(api: MoodleApi, index: string, url: string, text: string)
    requires CleanText(text) != "" && CleanText(text)[0] != Bom
    ensures Examine(api, index, (url, [Bom] + text)) == Examine(api, index, (url, text))
  {
    CleanTextKeepsBom(text);
    assert ([Bom] + CleanText(text))[1..] == CleanText(text);
  }

  // ---------------------------------------------------------------------
  // VPL

  /** An execution-file entry of a question document. */
  datatype FileEntry = FileEntry(name: string, contents: string, encoding: int)

  /** The fields of a question document that `VPL.load` reads; `requiredFile == None` is JSON null. */
  datatype QuestionDoc = QuestionDoc(
    title: string,
    description: string,
    executionFiles: seq<FileEntry>,
    requiredFile: Option<FileEntry>)

  /** What `submitVpl` sends of a VPL: its name, description and files. */
  datatype Draft = Draft(name: string, description: string, executionFiles: seq<FileEntry>, requiredFile: Option<FileEntry>)

  /** The entries with their encoding set to 0 (plain text), nothing else changed. */
  function PlainEncoding(files: seq<FileEntry>): (r: seq<FileEntry>)
    ensures |r| == |files|
    ensures forall i :: 0 <= i < |files| ==> r[i] == files[i].(encoding := 0)
  {
    seq(|files|, i requires 0 <= i < |files| => files[i].(encoding := 0))
  }

  /** The text `__str__` gives one execution file. */
  function FileBlock(f: FileEntry): string
  {
    "----" + f.name + "\n" + f.contents + "\n"
  }

  function FileBlocks(files: seq<FileEntry>): string
  {
    if files == [] then "" else FileBlocks(files[..|files| - 1]) + FileBlock(files[|files| - 1])
  }

  lemma {:induction false} FileBlocksConcat(a: seq<FileEntry>, b: seq<FileEntry>)
    ensures FileBlocks(a + b) == FileBlocks(a) + FileBlocks(b)
    decreases |b|
  {
    if b == [] {
      assert a + b == a;
    } else {
      var b' := b[..|b| - 1];
      var last := b[|b| - 1];
      assert (a + b)[..|a + b| - 1] == a + b';
      assert (a + b)[|a + b| - 1] == last;
      FileBlocksConcat(a, b');
      calc {
        FileBlocks(a + b);
        FileBlocks(a + b') + FileBlock(last);
        (FileBlocks(a) + FileBlocks(b')) + FileBlock(last);
        FileBlocks(a) + (FileBlocks(b') + FileBlock(last));
        FileBlocks(a) + FileBlocks(b);
      }
    }
  }

  /** `VPL.__str__`. */
  function Rendering(d: Draft): string
  {
    "title: " + d.name + "\n" + "description: " + d.description + FileBlocks(d.executionFiles) +
    (if d.requiredFile.Some? then "----" + d.requiredFile.value.name + "\n" + d.requiredFile.value.contents else "")
  }

  class Vpl {
    var id: string
    var name: string
    var description: string
    var tests: string
    var executionFiles: seq<FileEntry>
    var requiredFile: Option<FileEntry>

    /** `VPL(...)`: no id yet and no required file; the short description is not kept. */
    constructor (name: string, shortDescription: string, description: string, tests: string, executionFiles: seq<FileEntry>)
      ensures this.id == "" && this.name == name && this.description == description
      ensures this.tests == tests && this.executionFiles == executionFiles && this.requiredFile == None
    {
      this.id := "";
      this.name := name;
      this.description := description;
      this.tests := tests;
      this.executionFiles := executionFiles;
      this.requiredFile := None;
    }

    function Content(): Draft
      reads this`name, this`description, this`executionFiles, this`requiredFile
    {
      Draft(name, description, executionFiles, requiredFile)
    }

    /** `VPL.load` of an already parsed document: every execution file gets encoding 0, and a null
        required file leaves the current one in place. */
    method Load(doc: QuestionDoc)
      modifies this
      ensures name == doc.title && description == doc.description
      ensures executionFiles == PlainEncoding(doc.executionFiles)
      ensures requiredFile == if doc.requiredFile.Some? then doc.requiredFile else old(requiredFile)
      ensures id == old(id) && tests == old(tests)
    {
      name := doc.title;
      description := doc.description;
      executionFiles := doc.executionFiles;
      var i := 0;
      while i < |executionFiles|
        invariant 0 <= i <= |executionFiles| == |doc.executionFiles|
        invariant name == doc.title && description == doc.description
        invariant id == old(id) && tests == old(tests) && requiredFile == old(requiredFile)
        invariant forall j :: 0 <= j < i ==> executionFiles[j] == doc.executionFiles[j].(encoding := 0)
        invariant forall j :: i <= j < |executionFiles| ==> executionFiles[j] == doc.executionFiles[j]
      {
        executionFiles := executionFiles[i := executionFiles[i].(encoding := 0)];
        i := i + 1;
      }
      if doc.requiredFile.Some? {
        requiredFile := doc.requiredFile;
      }
    }

    /** `VPL.__str__`. */
    method Describe() returns (out: string)
      ensures out == Rendering(Content())
    {
      out := "title: " + name + "\n" + "description: " + description;
      ghost var head := out;
      var i := 0;
      while i < |executionFiles|
        invariant 0 <= i <= |executionFiles|
        invariant out == head + FileBlocks(executionFiles[..i])
      {
        var file := executionFiles[i];
        assert executionFiles[..i + 1][..i] == executionFiles[..i];
        out := out + "----" + file.name + "\n" + file.contents + "\n";
        i := i + 1;
      }
      assert executionFiles[..i] == executionFiles;
      if requiredFile.Some? {
        out := out + "----" + requiredFile.value.name + "\n" + requiredFile.value.contents;
      }
    }
  }

  // ---------------------------------------------------------------------
  // submitVpl and the two commands

  /** The remote writes, in the order they are sent. */
  datatype Request =
    | SubmitForm(formUrl: string, name: string, description: string)
    | SaveFiles(saveUrl: string, files: seq<FileEntry>)

  /** The requests sent, and the exception that ended the run if one did. */
  datatype Outcome = Outcome(requests: seq<Request>, fault: Option<Fault>)

  /** The required-files payload: the required file when there is one. */
  function RequiredPayload(rf: Option<FileEntry>): (files: seq<FileEntry>)
    ensures files == [] <==> rf.None?
    ensures rf.Some? ==> files == [rf.value]
  {
    if rf.Some? then [rf.value] else []
  }

  /** The id the files go to: the VPL's own id, or when it is empty the one the lookup finds. */
  function ResolveId(current: string, lookup: Result<Option<string>, Fault>): (r: Result<string, Fault>)
    ensures current != "" ==> r == Ok(current)
    ensures current == "" && lookup.Ok? && lookup.value.Some? ==> r == Ok(lookup.value.value)
    ensures current == "" && lookup == Ok(None) ==> r == Err(IdNotFound)
    ensures current == "" && lookup.Err? ==> r == Err(lookup.error)
  {
    if current != "" then Ok(current)
    else match lookup
      case Err(e) => Err(e)
      case Ok(None) => Err(IdNotFound)
      case Ok(Some(q)) => Ok(q)
  }

  /** What `submitVpl(url, vpl)` sends; `lookup` is what `getVplId(vpl.name)` would answer,
      consulted only when the VPL has no id. */
  function SubmitPlan(api: MoodleApi, url: string, id: string, d: Draft, lookup: Result<Option<string>, Fault>): Outcome
  {
    var form := SubmitForm(url, d.name, d.description);
    match ResolveId(id, lookup)
    case Err(e) => Outcome([form], Some(e))
    case Ok(q) =>
      Outcome([form, SaveFiles(api.FilesSaveUrl(q), d.executionFiles),
               SaveFiles(api.RequiredSaveUrl(q), RequiredPayload(d.requiredFile))], None)
  }

  /** `MoodleAPI.submitVpl`: the basic-info form, then the execution files and the required files,
      both sent to the resolved id, which the VPL keeps. */
  method SubmitVpl(api: MoodleApi, url: string, vpl: Vpl, links: seq<Link>) returns (out: Outcome)
    modifies vpl`id
    ensures out == SubmitPlan(api, url, old(vpl.id), vpl.Content(), LookupVplId(api, vpl.name, links))
    ensures ResolveId(old(vpl.id), LookupVplId(api, vpl.name, links)).Ok? ==>
              vpl.id == ResolveId(old(vpl.id), LookupVplId(api, vpl.name, links)).value
    ensures ResolveId(old(vpl.id), LookupVplId(api, vpl.name, links)).Err? ==> vpl.id == old(vpl.id)
  {
    ghost var lookup := LookupVplId(api, vpl.name, links);
    var requests := [SubmitForm(url, vpl.name, vpl.description)];
    if vpl.id == "" {
      var found := GetVplId(api, vpl.name, links);
      match found {
        case Err(e) =>
          return Outcome(requests, Some(e));
        case Ok(None) =>
          return Outcome(requests, Some(IdNotFound));
        case Ok(Some(q)) =>
          vpl.id := q;
      }
    }
    assert ResolveId(old(vpl.id), lookup) == Ok(vpl.id);
    requests := requests + [SaveFiles(api.FilesSaveUrl(vpl.id), vpl.executionFiles)];
    var vplFiles := [];
    if vpl.requiredFile.Some? {
      vplFiles := vplFiles + [vpl.requiredFile.value];
    }
    assert vplFiles == RequiredPayload(vpl.requiredFile);
    requests := requests + [SaveFiles(api.RequiredSaveUrl(vpl.id), vplFiles)];
    out := Outcome(requests, None);
    assert out == SubmitPlan(api, url, old(vpl.id), vpl.Content(), lookup);
  }

  /** A VPL with an id never consults the course page, and sends every group to that id. */
  lemma SubmitWithIdSkipsLookup(api: MoodleApi, url: string, id: string, d: Draft, lookup: Result<Option<string>, Fault>)
    requires id != ""
    ensures SubmitPlan(api, url, id, d, lookup) ==
              Outcome([SubmitForm(url, d.name, d.description), SaveFiles(api.FilesSaveUrl(id), d.executionFiles),
                       SaveFiles(api.RequiredSaveUrl(id), RequiredPayload(d.requiredFile))], None)
  {
  }

  /** The three outcomes of a lookup. */
  datatype Action = Create | Update(id: string) | Skip

  /** `main_add` (add) and `main_update` (update). */
  datatype Command = AddCommand | UpdateCommand

  /** The conditional in `main_add` / `main_update`. */
  function Decide(cmd: Command, found: Option<string>): (a: Action)
    ensures found.Some? ==> a == Update(found.value)
    ensures found.None? && cmd == AddCommand ==> a == Create
    ensures found.None? && cmd == UpdateCommand ==> a == Skip
  {
    match found
    case Some(q) => Update(q)
    case None => if cmd == AddCommand then Create else Skip
  }

  /** The state `VPL().load(doc)` leaves behind. */
  function Loaded(doc: QuestionDoc): Draft
  {
    Draft(doc.title, doc.description, PlainEncoding(doc.executionFiles), doc.requiredFile)
  }

  /** One question of a command: `before` is the course page when the action is decided, `after`
      the page `submitVpl` looks the id up on. */
  datatype Round = Round(doc: QuestionDoc, before: seq<Link>, after: seq<Link>)

  function ActionPlan(api: MoodleApi, a: Action, r: Round): Outcome
  {
    var lookup := LookupVplId(api, r.doc.title, r.after);
    match a
    case Skip => Outcome([], None)
    case Create => SubmitPlan(api, api.NewVplUrl(), "", Loaded(r.doc), lookup)
    case Update(q) => SubmitPlan(api, api.UpdateUrl(q), q, Loaded(r.doc), lookup)
  }

  function QuestionPlan(api: MoodleApi, cmd: Command, r: Round): Outcome
  {
    match LookupVplId(api, r.doc.title, r.before)
    case Err(e) => Outcome([], Some(e))
    case Ok(found) => ActionPlan(api, Decide(cmd, found), r)
  }

  /** One pass of the loop body of `main_add` / `main_update`. */
  method RunQuestion(api: MoodleApi, cmd: Command, r: Round) returns (out: Outcome)
    ensures out == QuestionPlan(api, cmd, r)
  {
    var vpl := new Vpl("", "", "", "", []);
    vpl.Load(r.doc);
    assert vpl.Content() == Loaded(r.doc);
    var qid := GetVplId(api, vpl.name, r.before);
    match qid {
      case Err(e) =>
        out := Outcome([], Some(e));
      case Ok(None) =>
        if cmd == AddCommand {
          out := SubmitVpl(api, api.NewVplUrl(), vpl, r.after);
          assert out == ActionPlan(api, Create, r);
        } else {
          out := Outcome([], None);
        }
      case Ok(Some(q)) =>
        vpl.id := q;
        out := SubmitVpl(api, api.UpdateUrl(vpl.id), vpl, r.after);
        assert out == ActionPlan(api, Update(q), r);
    }
  }

  /** `main_add` creates an unmatched question: the form goes to the new-activity URL. */
  lemma AddCreatesWhenNotFound(api: MoodleApi, r: Round)
    requires LookupVplId(api, r.doc.title, r.before) == Ok(None)
    ensures QuestionPlan(api, AddCommand, r).requests != []
    ensures QuestionPlan(api, AddCommand, r).requests[0] == SubmitForm(api.NewVplUrl(), r.doc.title, r.doc.description)
  {
  }

  /** `main_update` sends nothing for an unmatched question. */
  lemma UpdateSkipsWhenNotFound(api: MoodleApi, r: Round)
    requires LookupVplId(api, r.doc.title, r.before) == Ok(None)
    ensures QuestionPlan(api, UpdateCommand, r) == Outcome([], None)
  {
  }

  /** A matched question is updated in place by both commands, at the found id, without a second lookup. */
  lemma MatchedQuestionUpdated(api: MoodleApi, cmd: Command, r: Round, id: string)
    requires LookupVplId(api, r.doc.title, r.before) == Ok(Some(id)) && id != ""
    ensures QuestionPlan(api, cmd, r) ==
              Outcome([SubmitForm(api.UpdateUrl(id), r.doc.title, r.doc.description),
                       SaveFiles(api.FilesSaveUrl(id), PlainEncoding(r.doc.executionFiles)),
                       SaveFiles(api.RequiredSaveUrl(id), RequiredPayload(r.doc.requiredFile))], None)
  {
  }

  /** A lookup that raises stops the question before anything is sent. */
  lemma LookupFaultSendsNothing(api: MoodleApi, cmd: Command, r: Round, e: Fault)
    requires LookupVplId(api, r.doc.title, r.before) == Err(e)
    ensures QuestionPlan(api, cmd, r) == Outcome([], Some(e))
  {
  }

  /** A created question whose label is not on the page afterwards gets its form sent and then fails. */
  lemma CreatedButNotFound(api: MoodleApi, r: Round)
    requires LookupVplId(api, r.doc.title, r.before) == Ok(None)
    requires LookupVplId(api, r.doc.title, r.after) == Ok(None)
    ensures QuestionPlan(api, AddCommand, r) ==
              Outcome([SubmitForm(api.NewVplUrl(), r.doc.title, r.doc.description)], Some(IdNotFound))
  {
  }

  /** The outcomes of the questions from position `i` on, run one after another, stopping at
      the first that raises. */
  function ChainFrom(outs: seq<Outcome>, i: nat): Outcome
    decreases |outs| - i
  {
    if i >= |outs| then Outcome([], None)
    else if outs[i].fault.Some? then outs[i]
    else
      var rest := ChainFrom(outs, i + 1);
      Outcome(outs[i].requests + rest.requests, rest.fault)
  }

  /** All the questions, run one after another. */
  function Chain(outs: seq<Outcome>): Outcome
  {
    ChainFrom(outs, 0)
  }

  function QuestionOutcomes(api: MoodleApi, cmd: Command, rounds: seq<Round>): (outs: seq<Outcome>)
    ensures |outs| == |rounds|
    ensures forall i :: 0 <= i < |rounds| ==> outs[i] == QuestionPlan(api, cmd, rounds[i])
  {
    seq(|rounds|, i requires 0 <= i < |rounds| => QuestionPlan(api, cmd, rounds[i]))
  }

  /** The requests of a whole command. */
  function CommandPlan(api: MoodleApi, cmd: Command, rounds: seq<Round>): Outcome
  {
    Chain(QuestionOutcomes(api, cmd, rounds))
  }

  /** The requests `sent` already sent, followed by what `o` sends. */
  function After(sent: seq<Request>, o: Outcome): Outcome
  {
    Outcome(sent + o.requests, o.fault)
  }

  /** One step of the chain: a run that raises ends it, any other run is followed by the rest. */
  lemma ChainStep(outs: seq<Outcome>, i: nat, sent: seq<Request>)
    requires i < |outs|
    ensures outs[i].fault.Some? ==> After(sent, ChainFrom(outs, i)) == After(sent, outs[i])
    ensures outs[i].fault.None? ==>
              After(sent, ChainFrom(outs, i)) == After(sent + outs[i].requests, ChainFrom(outs, i + 1))
  {
    var rest := ChainFrom(outs, i + 1).requests;
    assert sent + (outs[i].requests + rest) == (sent + outs[i].requests) + rest;
  }

  /** `main_add` / `main_update`: the loop over the question files. */
  method RunCommand(api: MoodleApi, cmd: Command, rounds: seq<Round>) returns (out: Outcome)
    ensures out == CommandPlan(api, cmd, rounds)
  {
    ghost var outs := QuestionOutcomes(api, cmd, rounds);
    var requests := [];
    var i := 0;
    assert After([], Chain(outs)) == Chain(outs);
    while i < |rounds|
      invariant 0 <= i <= |rounds|
      invariant Chain(outs) == After(requests, ChainFrom(outs, i))
    {
      var sent := RunQuestion(api, cmd, rounds[i]);
      assert sent == outs[i];
      ChainStep(outs, i, requests);
      if sent.fault.Some? {
        return Outcome(requests + sent.requests, sent.fault);
      }
      requests := requests + sent.requests;
      i := i + 1;
    }
    assert requests + [] == requests;
    out := Outcome(requests, None);
  }

  /** From position `i` on, a chain raises exactly when one of its runs does, and then with that
      run's fault. */
  lemma {:induction false} ChainFault(outs: seq<Outcome>, i: nat)
    requires i <= |outs|
    ensures ChainFrom(outs, i).fault.None? <==> forall j :: i <= j < |outs| ==> outs[j].fault.None?
    ensures ChainFrom(outs, i).fault.Some? ==> exists j :: i <= j < |outs| && outs[j].fault == ChainFrom(outs, i).fault
    decreases |outs| - i
  {
    if i < |outs| && outs[i].fault.None? {
      ChainFault(outs, i + 1);
    }
  }

  /** A command raises exactly when one of its questions does, and then with that question's fault. */
  lemma CommandFaultIsQuestionFault(api: MoodleApi, cmd: Command, rounds: seq<Round>)
    ensures CommandPlan(api, cmd, rounds).fault.None? <==>
              forall i :: 0 <= i < |rounds| ==> QuestionPlan(api, cmd, rounds[i]).fault.None?
    ensures CommandPlan(api, cmd, rounds).fault.Some? ==>
              exists i :: 0 <= i < |rounds| && QuestionPlan(api, cmd, rounds[i]).fault == CommandPlan(api, cmd, rounds).fault
  {
    var outs := QuestionOutcomes(api, cmd, rounds);
    ChainFault(outs, 0);
    if CommandPlan(api, cmd, rounds).fault.Some? {
      var i :| 0 <= i < |outs| && outs[i].fault == Chain(outs).fault;
      assert QuestionPlan(api, cmd, rounds[i]) == outs[i];
    }
  }
}
