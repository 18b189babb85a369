/** The few Python string operations the script relies on: the `in`
    operator on strings, `str.split(sep)`, `str.rsplit(c, 1)` and indexing
    the resulting list with `[1]`, which raises IndexError on a list of
    fewer than two items. */
module PyStr {
  import opened Wrappers
  import opened Exceptions

  /** `sub` occurs in `s` starting at index `i`. */
  predicate OccursAt(s: string, sub: string, i: nat) {
    i + |sub| <= |s| && s[i..i + |sub|] == sub
  }

  /** The first index at or after `from` where `sub` occurs in `s`. */
  function FindFrom(s: string, sub: string, from: nat): (r: Option<nat>)
    decreases |s| - from
    ensures r.Some? ==> from <= r.value && OccursAt(s, sub, r.value)
    ensures r.Some? ==> forall k :: from <= k < r.value ==> !OccursAt(s, sub, k)
    ensures r.None? ==> forall k :: from <= k ==> !OccursAt(s, sub, k)
  {
    if from + |sub| > |s| then None
    else if s[from..from + |sub|] == sub then Some(from)
    else FindFrom(s, sub, from + 1)
  }

  /** Python's `s.find(sub)`, with None for -1. */
  function Find(s: string, sub: string): Option<nat> {
    FindFrom(s, sub, 0)
  }

  /** Python's `sub in s` on strings. */
  predicate Contains(s: string, sub: string) {
    Find(s, sub).Some?
  }

  /** `sub in s` holds exactly when `sub` occurs somewhere in `s`. */
  lemma ContainsIff(s: string, sub: string)
    ensures Contains(s, sub) <==> exists k :: OccursAt(s, sub, k)
  {
    if !Contains(s, sub) {
      assert forall k :: 0 <= k ==> !OccursAt(s, sub, k);
    }
  }

  /** The first occurrence is the one Find reports. */
  lemma FindIsFirst(s: string, sub: string, j: nat)
    requires OccursAt(s, sub, j)
    requires forall k :: 0 <= k < j ==> !OccursAt(s, sub, k)
    ensures Find(s, sub) == Some(j)
  {
  }

  /** An occurrence in a suffix is an occurrence in the whole string. */
  lemma OccursInSuffix(s: string, sub: string, d: nat, k: nat)
    requires d <= |s|
    ensures OccursAt(s[d..], sub, k) <==> OccursAt(s, sub, d + k)
  {
    if d + k + |sub| <= |s| {
      assert s[d..][k..k + |sub|] == s[d + k..d + k + |sub|];
    }
  }

  /** An occurrence in a prefix is an occurrence in the whole string. */
  lemma OccursInPrefix(s: string, sub: string, e: nat, k: nat)
    requires e <= |s|
    requires OccursAt(s[..e], sub, k)
    ensures OccursAt(s, sub, k)
  {
    assert s[..e][k..k + |sub|] == s[k..k + |sub|];
  }

  /** A string that lacks the first character of `sub` does not contain it. */
  lemma NotContainsFirstChar(s: string, sub: string)
    requires |sub| > 0 && sub[0] !in s
    ensures !Contains(s, sub)
  {
    ContainsIff(s, sub);
  }

  /** A character other than the first of `sub`, put in front of a string
      that lacks `sub`, does not make it appear. */
  lemma NotContainsAfterChar(c: char, s: string, sub: string)
    requires |sub| > 0 && sub[0] != c && !Contains(s, sub)
    ensures !Contains([c] + s, sub)
  {
    var t := [c] + s;
    ContainsIff(s, sub);
    ContainsIff(t, sub);
    assert t[1..] == s;
    forall k: nat | OccursAt(t, sub, k)
      ensures false
    {
      if k > 0 {
        OccursInSuffix(t, sub, 1, k - 1);
      }
    }
  }

  /** Python's `s.split(sep)` with an explicit, non-empty separator: the
      pieces between the non-overlapping occurrences of `sep`, found from
      the left. */
  function Split(s: string, sep: string): (parts: seq<string>)
    requires |sep| > 0
    decreases |s|
    ensures |parts| >= 1
    ensures |parts| > 1 <==> Contains(s, sep)
  {
    match Find(s, sep)
    case None => [s]
    case Some(j) => [s[..j]] + Split(s[j + |sep|..], sep)
  }

  /** Python's `sep.join(parts)`. */
  function Join(parts: seq<string>, sep: string): string {
    if |parts| == 0 then ""
    else if |parts| == 1 then parts[0]
    else parts[0] + sep + Join(parts[1..], sep)
  }

  /** Joining the pieces of a split with its separator gives back the
      string. */
  lemma {:induction false} SplitJoin(s: string, sep: string)
    requires |sep| > 0
    decreases |s|
    ensures Join(Split(s, sep), sep) == s
  {
    match Find(s, sep)
    case None =>
    case Some(j) =>
      var rest := s[j + |sep|..];
      SplitJoin(rest, sep);
      var parts := Split(s, sep);
      assert parts[1..] == Split(rest, sep);
      assert s[j..j + |sep|] == sep;
      assert s == s[..j] + sep + rest;
  }

  /** No piece of a split contains the separator. */
  lemma {:induction false} SplitPiecesLackSeparator(s: string, sep: string, i: nat)
    requires |sep| > 0
    requires i < |Split(s, sep)|
    decreases |s|
    ensures !Contains(Split(s, sep)[i], sep)
  {
    match Find(s, sep)
    case None =>
    case Some(j) =>
      var rest := s[j + |sep|..];
      if i == 0 {
        TextBeforeFirst(s, sep, j);
      } else {
        assert Split(s, sep)[i] == Split(rest, sep)[i - 1];
        SplitPiecesLackSeparator(rest, sep, i - 1);
      }
  }

  /** The text before the first occurrence of `sep` does not contain it. */
  lemma TextBeforeFirst(s: string, sep: string, j: nat)
    requires |sep| > 0 && Find(s, sep) == Some(j)
    ensures !Contains(s[..j], sep)
  {
    ContainsIff(s[..j], sep);
    if Contains(s[..j], sep) {
      var k :| OccursAt(s[..j], sep, k);
      OccursInPrefix(s, sep, j, k);
      assert false;
    }
  }

  /** Python's `parts[1]`. */
  function Second(parts: seq<string>): Result<string, Error> {
    if |parts| >= 2 then Success(parts[1]) else Failure(IndexError)
  }

  /** Python's `s.split(sep)[1]`. */
  function SplitSecond(s: string, sep: string): Result<string, Error>
    requires |sep| > 0
  {
    Second(Split(s, sep))
  }

  /** `sep` first occurs in `s` at `j`, and `e` is where it next occurs
      after that one (or the end of `s` when it does not). */
  predicate BoundsSecondPiece(s: string, sep: string, j: nat, e: nat) {
    && OccursAt(s, sep, j)
    && (forall k :: 0 <= k < j ==> !OccursAt(s, sep, k))
    && j + |sep| <= e <= |s|
    && (e == |s| || OccursAt(s, sep, e))
    && (forall k :: j + |sep| <= k < e ==> !OccursAt(s, sep, k))
  }

  /** The first piece of splitting the suffix of `s` from `a` runs up to
      the next occurrence of `sep` at or after `a`, or to the end. */
  lemma FirstPieceOfSuffix(s: string, sep: string, a: nat) returns (e: nat)
    requires |sep| > 0 && a <= |s|
    ensures a <= e <= |s|
    ensures e == |s| || OccursAt(s, sep, e)
    ensures forall k :: a <= k < e ==> !OccursAt(s, sep, k)
    ensures Split(s[a..], sep)[0] == s[a..e]
  {
    var rest := s[a..];
    match Find(rest, sep)
    case None =>
      e := |s|;
      forall k | a <= k < e
        ensures !OccursAt(s, sep, k)
      {
        OccursInSuffix(s, sep, a, k - a);
      }
    case Some(j') =>
      e := a + j';
      assert rest[..j'] == s[a..e];
      OccursInSuffix(s, sep, a, j');
      forall k | a <= k < e
        ensures !OccursAt(s, sep, k)
      {
        OccursInSuffix(s, sep, a, k - a);
      }
  }

  /** `s.split(sep)[1]` raises IndexError exactly when `sep` does not occur
      in `s`; otherwise it is the text after the first occurrence of `sep`,
      up to the next occurrence or the end of `s`. */
  lemma SplitSecondSpec(s: string, sep: string)
    requires |sep| > 0
    ensures SplitSecond(s, sep).Failure? <==> !Contains(s, sep)
    ensures SplitSecond(s, sep).Failure? ==> SplitSecond(s, sep).error == IndexError
    ensures SplitSecond(s, sep).Success? ==>
      exists j: nat, e: nat ::
        BoundsSecondPiece(s, sep, j, e) && SplitSecond(s, sep).value == s[j + |sep|..e]
  {
    match Find(s, sep)
    case None =>
    case Some(j) =>
      var a := j + |sep|;
      assert Split(s, sep) == [s[..j]] + Split(s[a..], sep);
      var e := FirstPieceOfSuffix(s, sep, a);
      assert BoundsSecondPiece(s, sep, j, e);
  }

  /** The index of the last `c` in `s`. */
  function LastIndexOf(s: string, c: char): (r: Option<nat>)
    ensures r.Some? ==> r.value < |s| && s[r.value] == c && c !in s[r.value + 1..]
    ensures r.None? <==> c !in s
  {
    if |s| == 0 then None
    else if s[|s| - 1] == c then Some(|s| - 1)
    else
      var r := LastIndexOf(s[..|s| - 1], c);
      assert s == s[..|s| - 1] + [s[|s| - 1]];
      r
  }

  /** The last `c` of `dir + [c] + file` is the one put between them when
      `file` has none. */
  lemma LastIndexOfJoin(dir: string, c: char, file: string)
    requires c !in file
    ensures LastIndexOf(dir + [c] + file, c) == Some(|dir|)
  {
    var s := dir + [c] + file;
    var r := LastIndexOf(s, c);
    assert s[|dir|] == c;
    assert s[|dir| + 1..] == file;
    match r
    case None =>
    case Some(k) =>
      if k < |dir| {
        assert s[|dir|] in s[k + 1..] by {
          assert s[k + 1..][|dir| - k - 1] == s[|dir|];
        }
      }
  }

  /** Python's `s.rsplit(c, 1)` for a one-character separator `c`. */
  function RSplitOnce(s: string, c: char): seq<string> {
    match LastIndexOf(s, c)
    case None => [s]
    case Some(k) => [s[..k], s[k + 1..]]
  }

  /** `s.rsplit(c, 1)[1]` raises IndexError exactly when `c` is not in `s`;
      otherwise it is the text after the last `c`, and `s` is the text
      before it, `c`, and that text. */
  lemma RSplitSecondSpec(s: string, c: char)
    ensures Second(RSplitOnce(s, c)).Failure? <==> c !in s
    ensures Second(RSplitOnce(s, c)).Failure? ==> Second(RSplitOnce(s, c)).error == IndexError
    ensures Second(RSplitOnce(s, c)).Success? ==>
      var tail := Second(RSplitOnce(s, c)).value;
      && c !in tail
      && |tail| < |s|
      && s == s[..|s| - |tail| - 1] + [c] + tail
  {
    match LastIndexOf(s, c)
    case None =>
    case Some(k) =>
      assert s == s[..k] + [c] + s[k + 1..];
  }
}
