/** The few Python string primitives the core relies on, over `seq<char>`. */
module PyStr {

  /** The first index at or after `from` holding `c`, or -1. */
  function FindFrom(s: string, c: char, from: nat): (r: int)
    requires from <= |s|
    ensures r == -1 || from <= r < |s|
    ensures 0 <= r ==> s[r] == c
    ensures forall k :: from <= k < |s| && s[k] == c ==> 0 <= r <= k
    decreases |s| - from
  {
    if from == |s| then -1
    else if s[from] == c then from
    else FindFrom(s, c, from + 1)
  }

  /** The last index before `upto` holding `c`, or -1. */
  function RFindBefore(s: string, c: char, upto: nat): (r: int)
    requires upto <= |s|
    ensures -1 <= r < upto
    ensures 0 <= r ==> s[r] == c
    ensures forall k :: 0 <= k < upto && s[k] == c ==> k <= r
  {
    if upto == 0 then -1
    else if s[upto - 1] == c then upto - 1
    else RFindBefore(s, c, upto - 1)
  }

  /** `s.find(c)` for a one-character needle: the index of the first `c`, or -1. */
  function Find(s: string, c: char): (r: int)
    ensures -1 <= r < |s|
    ensures r == -1 <==> c !in s
    ensures 0 <= r ==> s[r] == c
    ensures forall k :: 0 <= k < |s| && s[k] == c ==> 0 <= r <= k
  {
    FindFrom(s, c, 0)
  }

  /** `s.rfind(c)` for a one-character needle: the index of the last `c`, or -1. */
  function RFind(s: string, c: char): (r: int)
    ensures -1 <= r < |s|
    ensures r == -1 <==> c !in s
    ensures 0 <= r ==> s[r] == c
    ensures forall k :: 0 <= k < |s| && s[k] == c ==> k <= r
  {
    RFindBefore(s, c, |s|)
  }

  /** A prefix without `c` shifts the first `c` by its length. */
  lemma FindPastPrefix(before: string, rest: string, c: char)
    requires c !in before && |rest| > 0 && rest[0] == c
    ensures Find(before + rest, c) == |before|
  {
    var text := before + rest;
    assert text[|before|] == c;
    assert forall k :: 0 <= k < |before| ==> text[k] == before[k];
  }

  /** A suffix without `c` leaves the last `c` where it was. */
  lemma RFindBeforeSuffix(rest: string, after: string, c: char)
    requires c !in after && |rest| > 0 && rest[|rest| - 1] == c
    ensures RFind(rest + after, c) == |rest| - 1
  {
    var text := rest + after;
    assert text[|rest| - 1] == c;
    assert forall k :: |rest| <= k < |text| ==> text[k] == after[k - |rest|];
  }

  /** `sep.join(parts)`. */
  function Join(sep: string, parts: seq<string>): string
  {
    if |parts| == 0 then ""
    else if |parts| == 1 then parts[0]
    else parts[0] + sep + Join(sep, parts[1..])
  }

  /** Where `parts[i]` begins inside `Join(sep, parts)`: the lengths of the
      earlier parts plus one separator after each of them. */
  function PartStart(sep: string, parts: seq<string>, i: nat): nat
    requires i < |parts|
  {
    if i == 0 then 0 else |parts[0]| + |sep| + PartStart(sep, parts[1..], i - 1)
  }

  /** The sum of the lengths of `parts`. */
  function TotalLength(parts: seq<string>): nat
  {
    if |parts| == 0 then 0 else |parts[0]| + TotalLength(parts[1..])
  }

  lemma JoinSingleton(sep: string, part: string)
    ensures Join(sep, [part]) == part
  {
  }

  /** The joined text is exactly as long as its parts plus one separator
      between each neighbouring pair. */
  lemma {:induction false} JoinLength(sep: string, parts: seq<string>)
    requires |parts| > 0
    ensures |Join(sep, parts)| == TotalLength(parts) + (|parts| - 1) * |sep|
  {
    if |parts| > 1 {
      JoinLength(sep, parts[1..]);
    }
  }

  /** Slicing past a known prefix is slicing the rest. */
  lemma SliceAfterPrefix(head: string, rest: string, lo: nat, hi: nat)
    requires lo <= hi <= |rest|
    ensures (head + rest)[|head| + lo .. |head| + hi] == rest[lo..hi]
  {
    assert (head + rest)[|head|..] == rest;
  }

  /** Every part occurs, in order, at its own offset of the joined text, and
      the separator follows every part but the last. */
  lemma {:induction false} JoinPart(sep: string, parts: seq<string>, i: nat)
    requires i < |parts|
    ensures PartStart(sep, parts, i) + |parts[i]| <= |Join(sep, parts)|
    ensures Join(sep, parts)[PartStart(sep, parts, i) .. PartStart(sep, parts, i) + |parts[i]|] == parts[i]
    ensures i + 1 < |parts| ==>
      PartStart(sep, parts, i) + |parts[i]| + |sep| <= |Join(sep, parts)| &&
      Join(sep, parts)[PartStart(sep, parts, i) + |parts[i]| .. PartStart(sep, parts, i) + |parts[i]| + |sep|] == sep
  {
    if |parts| > 1 {
      var head := parts[0] + sep;
      var rest := Join(sep, parts[1..]);
      assert Join(sep, parts) == head + rest;
      if i == 0 {
        assert (head + rest)[..|parts[0]|] == parts[0];
        assert (head + rest)[|parts[0]| .. |head|] == sep;
      } else {
        JoinPart(sep, parts[1..], i - 1);
        var p := PartStart(sep, parts[1..], i - 1);
        var n := |parts[i]|;
        assert PartStart(sep, parts, i) == |head| + p;
        SliceAfterPrefix(head, rest, p, p + n);
        if i + 1 < |parts| {
          SliceAfterPrefix(head, rest, p + n, p + n + |sep|);
        }
      }
    }
  }

  /** Python's `str.lower()` restricted to ASCII letters (see README for why
      this is exact for the extension check). */
  function LowerChar(c: char): char
  {
    if 'A' <= c <= 'Z' then (c as int + 32) as char else c
  }

  function Lower(s: string): (r: string)
  {
    if |s| == 0 then "" else [LowerChar(s[0])] + Lower(s[1..])
  }

  /** Lower-casing keeps the length and maps every character on its own. */
  lemma {:induction false} LowerPointwise(s: string)
    ensures |Lower(s)| == |s|
    ensures forall i :: 0 <= i < |s| ==> Lower(s)[i] == LowerChar(s[i])
  {
    if |s| > 0 {
      LowerPointwise(s[1..]);
    }
  }

  /** Lower-casing twice is lower-casing once. */
  lemma {:induction false} LowerIdempotent(s: string)
    ensures Lower(Lower(s)) == Lower(s)
  {
    if |s| > 0 {
      LowerIdempotent(s[1..]);
    }
  }

  /** POSIX `os.path.join(a, b)`: an absolute `b` replaces `a`; otherwise a
      single '/' is inserted unless `a` is empty or already ends with one. */
  function PathJoin(a: string, b: string): (r: string)
    ensures |b| > 0 && b[0] == '/' ==> r == b
    ensures (|b| == 0 || b[0] != '/') ==> |r| >= |a| + |b| && r[..|a|] == a && r[|r| - |b|..] == b
    ensures (|b| == 0 || b[0] != '/') && (|a| == 0 || a[|a| - 1] == '/') ==> r == a + b
    ensures (|b| == 0 || b[0] != '/') && |a| > 0 && a[|a| - 1] != '/' ==> r == a + "/" + b
  {
    if |b| > 0 && b[0] == '/' then b
    else if |a| == 0 || a[|a| - 1] == '/' then a + b
    else a + "/" + b
  }
}
