/**
 * The few Python `str` operations the scripts rely on, written out on
 * `seq<char>`: `startswith`, `endswith`, `split` on one character,
 * `join`, `replace`, `count` of one character and an ASCII `lower`.
 */
module Strings {

  predicate StartsWith(s: string, p: string)
  {
    |p| <= |s| && s[..|p|] == p
  }

  predicate EndsWith(s: string, p: string)
  {
    |p| <= |s| && s[|s| - |p|..] == p
  }

  /** No occurrence of `p` starts anywhere in `s`: Python's `p not in s`, for a non-empty `p`. */
  predicate FreeOf(s: string, p: string)
  {
    forall i :: 0 <= i < |s| ==> !StartsWith(s[i..], p)
  }

  /** The position of the first `c` in `s`, or `|s|` when `c` does not occur (`FindIn`). */
  function Find(s: string, c: char): (k: nat)
    ensures k <= |s|
    ensures k < |s| ==> s[k] == c
  {
    if s == [] then 0
    else if s[0] == c then 0
    else 1 + Find(s[1..], c)
  }

  /** No character before the position `Find` gives is `c`. */
  lemma {:induction false} FindSkips(s: string, c: char)
    ensures forall j :: 0 <= j < Find(s, c) ==> s[j] != c
  {
    if s != [] && s[0] != c {
      FindSkips(s[1..], c);
      forall j | 0 < j < Find(s, c) ensures s[j] != c {
        assert s[j] == s[1..][j - 1];
      }
    }
  }

  /** `Find` stops inside `s` exactly when `c` occurs in it. */
  lemma FindIn(s: string, c: char)
    ensures Find(s, c) < |s| <==> c in s
  {
    FindSkips(s, c);
    if c in s {
      var i :| 0 <= i < |s| && s[i] == c;
    }
  }

  /** Nothing before the position `Find` gives is `c`. */
  lemma FindPrefixFree(s: string, c: char)
    ensures c !in s[..Find(s, c)]
  {
    FindSkips(s, c);
  }

  /** The first `c` is at `n` when `s[n]` is `c` and no earlier character is. */
  lemma FindAt(s: string, c: char, n: nat)
    requires n < |s| && s[n] == c && c !in s[..n]
    ensures Find(s, c) == n
  {
    FindSkips(s, c);
  }

  // ---------------------------------------------------------------------
  // split / join

  /** Python's `s.split(sep)` for a one-character separator: the pieces
      between separators, from left to right; never an empty list. */
  function Split(s: string, sep: char): (parts: seq<string>)
    ensures |parts| >= 1
    decreases |s|
  {
    var k := Find(s, sep);
    if k == |s| then [s]
    else [s[..k]] + Split(s[k + 1..], sep)
  }

  /** No piece of a split contains the separator. */
  lemma {:induction false} SplitPiecesFree(s: string, sep: char)
    ensures forall i :: 0 <= i < |Split(s, sep)| ==> sep !in Split(s, sep)[i]
    decreases |s|
  {
    var k := Find(s, sep);
    FindIn(s, sep);
    if k < |s| {
      var rest := Split(s[k + 1..], sep);
      SplitPiecesFree(s[k + 1..], sep);
      FindPrefixFree(s, sep);
      assert Split(s, sep) == [s[..k]] + rest;
      forall i | 0 <= i < |Split(s, sep)| ensures sep !in Split(s, sep)[i] {
        if i > 0 { assert Split(s, sep)[i] == rest[i - 1]; }
      }
    }
  }

  /** Python's `sep.join(parts)`. */
  function Join(sep: string, parts: seq<string>): string
  {
    if |parts| == 0 then ""
    else if |parts| == 1 then parts[0]
    else parts[0] + sep + Join(sep, parts[1..])
  }

  /** Joining the pieces of a split with the separator gives back the string. */
  lemma {:induction false} JoinSplit(s: string, sep: char)
    ensures Join([sep], Split(s, sep)) == s
    decreases |s|
  {
    var k := Find(s, sep);
    if k < |s| {
      var rest := Split(s[k + 1..], sep);
      JoinSplit(s[k + 1..], sep);
      assert Split(s, sep) == [s[..k]] + rest;
      assert ([s[..k]] + rest)[1..] == rest;
      assert s == s[..k] + [sep] + s[k + 1..];
    }
  }

  /** The first piece is the longest prefix free of the separator. */
  lemma SplitHead(s: string, sep: char)
    ensures StartsWith(s, Split(s, sep)[0])
    ensures sep !in s ==> Split(s, sep)[0] == s
    ensures sep in s ==> |Split(s, sep)[0]| < |s| && s[|Split(s, sep)[0]|] == sep
  {
    FindIn(s, sep);
  }

  /** Python's `s.split(sep)[-1]`: what follows the last separator (`LastPieceOfSplit`). */
  function LastPiece(s: string, sep: char): string
    decreases |s|
  {
    var k := Find(s, sep);
    if k == |s| then s else LastPiece(s[k + 1..], sep)
  }

  /** `LastPiece` is the last element of `Split`. */
  lemma {:induction false} LastPieceOfSplit(s: string, sep: char)
    ensures LastPiece(s, sep) == Split(s, sep)[|Split(s, sep)| - 1]
    decreases |s|
  {
    var k := Find(s, sep);
    if k < |s| {
      var rest := Split(s[k + 1..], sep);
      LastPieceOfSplit(s[k + 1..], sep);
      assert Split(s, sep) == [s[..k]] + rest;
      LastOfPrepend(s[..k], rest);
    }
  }

  lemma LastOfPrepend<T>(x: T, rest: seq<T>)
    requires |rest| >= 1
    ensures ([x] + rest)[|rest|] == rest[|rest| - 1]
  {
  }

  /** The last piece is a suffix of `s`, and either all of `s` or preceded by the separator. */
  lemma {:induction false} SplitLast(s: string, sep: char)
    ensures EndsWith(s, LastPiece(s, sep))
    ensures |LastPiece(s, sep)| < |s| ==> s[|s| - |LastPiece(s, sep)| - 1] == sep
    decreases |s|
  {
    var k := Find(s, sep);
    if k < |s| {
      var t := s[k + 1..];
      SplitLast(t, sep);
      var l := LastPiece(t, sep);
      assert LastPiece(s, sep) == l;
      DropSuffix(s, k + 1, |l|);
      if |l| < |t| {
        assert s[|s| - |l| - 1] == t[|t| - |l| - 1];
      }
    }
  }

  /** A suffix of `s[j..]` is a suffix of `s`. */
  lemma DropSuffix(s: string, j: nat, n: nat)
    requires j + n <= |s|
    ensures s[j..][|s| - j - n..] == s[|s| - n..]
  {
  }

  // ---------------------------------------------------------------------
  // replace

  /** Python's `s.replace(pat, rep)`: every non-overlapping occurrence of
      `pat`, found from left to right, is replaced; `rep` is not rescanned. */
  function ReplaceAll(s: string, pat: string, rep: string): string
    requires pat != ""
    decreases |s|
  {
    if |s| < |pat| then s
    else if s[..|pat|] == pat then rep + ReplaceAll(s[|pat|..], pat, rep)
    else [s[0]] + ReplaceAll(s[1..], pat, rep)
  }

  /** The first `n` characters of `s`, where no occurrence of `pat` starts, pass through
      `replace` unchanged. */
  lemma {:induction false} ReplaceFreePrefix(s: string, n: nat, pat: string, rep: string)
    requires pat != "" && n <= |s|
    requires forall i :: 0 <= i < n ==> !StartsWith(s[i..], pat)
    ensures ReplaceAll(s, pat, rep) == s[..n] + ReplaceAll(s[n..], pat, rep)
    decreases n
  {
    if n == 0 {
      assert s[..0] + ReplaceAll(s[0..], pat, rep) == ReplaceAll(s, pat, rep);
    } else if |s| < |pat| {
      assert ReplaceAll(s[n..], pat, rep) == s[n..];
      assert s[..n] + s[n..] == s;
    } else {
      assert s[0..] == s;
      var t := s[1..];
      forall i | 0 <= i < n - 1 ensures !StartsWith(t[i..], pat) {
        assert t[i..] == s[i + 1..];
      }
      ReplaceFreePrefix(t, n - 1, pat, rep);
      assert t[n - 1..] == s[n..];
      assert [s[0]] + t[..n - 1] == s[..n];
    }
  }

  /** A prefix in which no occurrence of `pat` starts passes through `replace` unchanged. */
  lemma ReplaceAfterFreePrefix(a: string, b: string, pat: string, rep: string)
    requires pat != ""
    requires forall i :: 0 <= i < |a| ==> !StartsWith((a + b)[i..], pat)
    ensures ReplaceAll(a + b, pat, rep) == a + ReplaceAll(b, pat, rep)
  {
    ReplaceFreePrefix(a + b, |a|, pat, rep);
    assert (a + b)[..|a|] == a && (a + b)[|a|..] == b;
  }

  /** A string in which `pat` never occurs is left unchanged by `replace`. */
  lemma ReplaceAbsent(s: string, pat: string, rep: string)
    requires pat != ""
    requires forall i :: 0 <= i < |s| ==> !StartsWith(s[i..], pat)
    ensures ReplaceAll(s, pat, rep) == s
  {
    assert s + "" == s;
    ReplaceAfterFreePrefix(s, "", pat, rep);
  }

  /** Replacing a marker that first occurs right after `a`. */
  lemma ReplaceMarker(a: string, pat: string, t: string, rep: string)
    requires pat != ""
    requires forall i :: 0 <= i < |a| ==> !StartsWith((a + pat)[i..], pat)
    ensures ReplaceAll(a + pat + t, pat, rep) == a + rep + ReplaceAll(t, pat, rep)
  {
    var s := a + pat + t;
    forall i | 0 <= i < |a|
      ensures !StartsWith((a + (pat + t))[i..], pat)
    {
      assert (a + (pat + t))[i..][..|pat|] == (a + pat)[i..][..|pat|];
    }
    assert s == a + (pat + t);
    ReplaceAfterFreePrefix(a, pat + t, pat, rep);
    assert (pat + t)[..|pat|] == pat;
    assert (pat + t)[|pat|..] == t;
  }

  /** Replacing each occurrence of one character, character by character. */
  function Substitute(s: string, c: char, rep: string): string
  {
    if s == [] then [] else (if s[0] == c then rep else [s[0]]) + Substitute(s[1..], c, rep)
  }

  /** `replace` with a one-character pattern is a per-character substitution. */
  lemma {:induction false} ReplaceOneChar(s: string, c: char, rep: string)
    ensures ReplaceAll(s, [c], rep) == Substitute(s, c, rep)
  {
    if s != [] {
      assert s[..1] == [s[0]];
      ReplaceOneChar(s[1..], c, rep);
    }
  }

  lemma {:induction false} SubstituteConcat(a: string, b: string, c: char, rep: string)
    ensures Substitute(a + b, c, rep) == Substitute(a, c, rep) + Substitute(b, c, rep)
  {
    if a == [] {
      assert a + b == b;
    } else {
      var h := if a[0] == c then rep else [a[0]];
      assert (a + b)[0] == a[0];
      assert (a + b)[1..] == a[1..] + b;
      SubstituteConcat(a[1..], b, c, rep);
      assert Substitute(a + b, c, rep) == h + Substitute(a[1..] + b, c, rep);
    }
  }

  // ---------------------------------------------------------------------
  // count / lower

  /** Python's `s.count(c)` for one character. */
  function Count(s: string, c: char): (n: nat)
    ensures n <= |s|
  {
    if s == [] then 0 else (if s[0] == c then 1 else 0) + Count(s[1..], c)
  }

  /** Every character is `c` exactly when `c` occurs `|s|` times. */
  lemma {:induction false} CountIsLength(s: string, c: char)
    ensures Count(s, c) == |s| <==> forall i :: 0 <= i < |s| ==> s[i] == c
  {
    if s != [] {
      CountIsLength(s[1..], c);
      if s[0] == c {
        if forall i :: 0 <= i < |s[1..]| ==> s[1..][i] == c {
          forall i | 0 <= i < |s| ensures s[i] == c {
            if i > 0 { assert s[i] == s[1..][i - 1]; }
          }
        }
      }
    }
  }

  function LowerChar(c: char): char
  {
    if 'A' <= c <= 'Z' then (c as int + 32) as char else c
  }

  /** `str.lower()` restricted to ASCII letters; every other character is kept. */
  function Lower(s: string): (r: string)
    ensures |r| == |s|
    ensures forall i :: 0 <= i < |s| ==> r[i] == LowerChar(s[i])
  {
    seq(|s|, i requires 0 <= i < |s| => LowerChar(s[i]))
  }
}
