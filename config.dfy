/**
 * The five-key package configuration that mapi_def.py's `build_cfg` and
 * mbuild.py's `--save` write and mbuild.py's `--load` reads back. The JSON
 * document is kept as a value; its byte layout is not modelled.
 */
module Config {
  import opened Wrappers

  /** The JSON values the configuration uses; an object keeps its keys in insertion order. */
  datatype Json = JNull | JStr(text: string) | JList(items: seq<Json>) | JObject(fields: seq<(string, Json)>)

  /** A configuration: `None` stands for Python's `None`. */
  datatype Cfg = Cfg(
    markdown: Option<string>,
    tests: Option<string>,
    upload: Option<seq<string>>,
    keep: Option<seq<string>>,
    required: Option<seq<string>>)

  const CfgKeys: seq<string> := ["markdown", "tests", "upload", "keep", "required"]

  function StrOrNull(o: Option<string>): Json
  {
    if o.Some? then JStr(o.value) else JNull
  }

  function StrListOrNull(o: Option<seq<string>>): Json
  {
    if o.Some? then JList(seq(|o.value|, i requires 0 <= i < |o.value| => JStr(o.value[i]))) else JNull
  }

  /** The dictionary handed to `json.dumps`, keys in the order the scripts write them. */
  function CfgDocument(c: Cfg): (j: Json)
    ensures j.JObject? && |j.fields| == |CfgKeys|
    ensures forall i :: 0 <= i < |j.fields| ==> j.fields[i].0 == CfgKeys[i]
  {
    JObject([
      ("markdown", StrOrNull(c.markdown)),
      ("tests", StrOrNull(c.tests)),
      ("upload", StrListOrNull(c.upload)),
      ("keep", StrListOrNull(c.keep)),
      ("required", StrListOrNull(c.required))])
  }

  /** `obj[key]` for an object `json.load` parsed: when a key is repeated the last value wins. */
  function Lookup(fields: seq<(string, Json)>, key: string): Option<Json>
  {
    if fields == [] then None
    else
      var later := Lookup(fields[1..], key);
      if later.Some? then later
      else if fields[0].0 == key then Some(fields[0].1)
      else None
  }

  /** The value found is that of the last field with the key. */
  lemma {:induction false} LookupLast(fields: seq<(string, Json)>, key: string, p: nat)
    requires p < |fields| && fields[p].0 == key
    requires forall i :: p < i < |fields| ==> fields[i].0 != key
    ensures Lookup(fields, key) == Some(fields[p].1)
  {
    if p == 0 {
      LookupAbsent(fields[1..], key);
    } else {
      LookupLast(fields[1..], key, p - 1);
    }
  }

  /** A key no field carries is not found. */
  lemma {:induction false} LookupAbsent(fields: seq<(string, Json)>, key: string)
    requires forall i :: 0 <= i < |fields| ==> fields[i].0 != key
    ensures Lookup(fields, key) == None
  {
    if fields != [] {
      LookupAbsent(fields[1..], key);
    }
  }

  function ReadStr(j: Json): Option<Option<string>>
  {
    match j
    case JNull => Some(None)
    case JStr(s) => Some(Some(s))
    case _ => None
  }

  function ReadStrList(j: Json): Option<Option<seq<string>>>
  {
    match j
    case JNull => Some(None)
    case JList(items) =>
      if forall i :: 0 <= i < |items| ==> items[i].JStr?
      then Some(Some(seq(|items|, i requires 0 <= i < |items| => items[i].text)))
      else None
    case _ => None
  }

  /** Reading the five keys of a loaded document; `None` when a key is missing
      (a `KeyError`) or holds a value of another shape. */
  function ReadCfg(j: Json): Option<Cfg>
  {
    if !j.JObject? then None
    else
      var m := Lookup(j.fields, "markdown");
      var t := Lookup(j.fields, "tests");
      var u := Lookup(j.fields, "upload");
      var k := Lookup(j.fields, "keep");
      var r := Lookup(j.fields, "required");
      if m.None? || t.None? || u.None? || k.None? || r.None? then None
      else
        var m', t' := ReadStr(m.value), ReadStr(t.value);
        var u', k', r' := ReadStrList(u.value), ReadStrList(k.value), ReadStrList(r.value);
        if m'.None? || t'.None? || u'.None? || k'.None? || r'.None? then None
        else Some(Cfg(m'.value, t'.value, u'.value, k'.value, r'.value))
  }

  lemma StrListRoundTrip(o: Option<seq<string>>)
    ensures ReadStrList(StrListOrNull(o)) == Some(o)
  {
    if o.Some? {
      var items := seq(|o.value|, i requires 0 <= i < |o.value| => JStr(o.value[i]));
      assert StrListOrNull(o) == JList(items);
      assert seq(|items|, i requires 0 <= i < |items| => items[i].text) == o.value;
    }
  }

  /** Each of the five keys is found in a saved document with the value written under it. */
  lemma CfgFieldsFound(c: Cfg)
    ensures Lookup(CfgDocument(c).fields, "markdown") == Some(StrOrNull(c.markdown))
    ensures Lookup(CfgDocument(c).fields, "tests") == Some(StrOrNull(c.tests))
    ensures Lookup(CfgDocument(c).fields, "upload") == Some(StrListOrNull(c.upload))
    ensures Lookup(CfgDocument(c).fields, "keep") == Some(StrListOrNull(c.keep))
    ensures Lookup(CfgDocument(c).fields, "required") == Some(StrListOrNull(c.required))
  {
    var f := CfgDocument(c).fields;
    LookupLast(f, "markdown", 0);
    LookupLast(f, "tests", 1);
    LookupLast(f, "upload", 2);
    LookupLast(f, "keep", 3);
    LookupLast(f, "required", 4);
  }

  /** What the scripts save is what `--load` reads back. */
  lemma CfgRoundTrip(c: Cfg)
    ensures ReadCfg(CfgDocument(c)) == Some(c)
  {
    CfgFieldsFound(c);
    assert ReadStr(StrOrNull(c.markdown)) == Some(c.markdown);
    assert ReadStr(StrOrNull(c.tests)) == Some(c.tests);
    StrListRoundTrip(c.upload);
    StrListRoundTrip(c.keep);
    StrListRoundTrip(c.required);
  }
}
