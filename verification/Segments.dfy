/**
 Stream segments and the merge that turns a pending batch into sink calls
 (appserver/jsonrpc.py).  A segment carries the sequence number of the first
 push it contains; a single push is a segment too.
 */
module Segments {
  import Utf8

  datatype Segment = Segment(num: nat, kind: string, text: string)

  /** The one kind whose segments are never merged. */
  const PROGRESS := "progress"

  // ---------------------------------------------------------------- bytes

  /** Length of the UTF-8 encoding of one character. */
  function CharSize(c: char): nat {
    var n := c as int;
    if n < 0x80 then 1 else if n < 0x800 then 2 else if n < 0x1_0000 then 3 else 4
  }

  function Utf8Size(s: string): nat {
    if s == "" then 0 else Utf8Size(s[..|s| - 1]) + CharSize(s[|s| - 1])
  }

  lemma {:induction false} Utf8SizeAppend(a: string, b: string)
    ensures Utf8Size(a + b) == Utf8Size(a) + Utf8Size(b)
  {
    if b == "" {
      assert a + b == a;
    } else {
      assert (a + b)[..|a + b| - 1] == a + b[..|b| - 1];
      Utf8SizeAppend(a, b[..|b| - 1]);
    }
  }

  function Bytes(segs: seq<Segment>): nat {
    if segs == [] then 0 else Bytes(segs[..|segs| - 1]) + Utf8Size(segs[|segs| - 1].text)
  }

  lemma {:induction false} BytesAppend(a: seq<Segment>, b: seq<Segment>)
    ensures Bytes(a + b) == Bytes(a) + Bytes(b)
  {
    if b == [] {
      assert a + b == a;
    } else {
      assert (a + b)[..|a + b| - 1] == a + b[..|b| - 1];
      BytesAppend(a, b[..|b| - 1]);
    }
  }

  // ---------------------------------------------------------------- texts

  function Texts(segs: seq<Segment>): string {
    if segs == [] then "" else Texts(segs[..|segs| - 1]) + segs[|segs| - 1].text
  }

  lemma {:induction false} TextsAppend(a: seq<Segment>, b: seq<Segment>)
    ensures Texts(a + b) == Texts(a) + Texts(b)
  {
    if b == [] {
      assert a + b == a;
    } else {
      assert (a + b)[..|a + b| - 1] == a + b[..|b| - 1];
      TextsAppend(a, b[..|b| - 1]);
    }
  }

  // ---------------------------------------------------------------- the bytes that are sent

  lemma {:induction false} Utf8SizeIsEncoded(s: string)
    ensures Utf8Size(s) == |Utf8.Encode(s)|
  {
    if s != "" {
      Utf8SizeIsEncoded(s[..|s| - 1]);
      var c := s[|s| - 1..];
      assert s == s[..|s| - 1] + c && c[1..] == "";
      Utf8.EncodeAppend(s[..|s| - 1], c);
    }
  }

  /** The byte count of a batch is the length of its whole text in UTF-8. */
  lemma {:induction false} BytesAreEncoded(segs: seq<Segment>)
    ensures Bytes(segs) == |Utf8.Encode(Texts(segs))|
  {
    if segs != [] {
      var last := segs[|segs| - 1].text;
      BytesAreEncoded(segs[..|segs| - 1]);
      Utf8SizeIsEncoded(last);
      Utf8.EncodeAppend(Texts(segs[..|segs| - 1]), last);
      hide Utf8Size;
    }
  }

  // ---------------------------------------------------------------- merge

  predicate Mergeable(a: Segment, b: Segment) {
    a.kind == b.kind && b.kind != PROGRESS
  }

  /** Append one segment, merging it into the last one when the kinds allow. */
  function Absorb(merged: seq<Segment>, x: Segment): seq<Segment> {
    var n := |merged|;
    if n > 0 && Mergeable(merged[n - 1], x)
    then merged[..n - 1] + [merged[n - 1].(text := merged[n - 1].text + x.text)]
    else merged + [x]
  }

  function Merge(segs: seq<Segment>): seq<Segment> {
    if segs == [] then [] else Absorb(Merge(segs[..|segs| - 1]), segs[|segs| - 1])
  }

  /** The source's merging loop computes Merge. */
  method MergeSegments(pending: seq<Segment>) returns (merged: seq<Segment>)
    ensures merged == Merge(pending)
  {
    merged := [];
    for i := 0 to |pending|
      invariant merged == Merge(pending[..i])
    {
      var x := pending[i];
      var n := |merged|;
      if n > 0 && merged[n - 1].kind == x.kind && x.kind != PROGRESS {
        merged := merged[..n - 1] + [merged[n - 1].(text := merged[n - 1].text + x.text)];
      } else {
        merged := merged + [x];
      }
      assert pending[..i + 1][..i] == pending[..i];
    }
    assert pending[..|pending|] == pending;
  }

  /** No two neighbours can be merged. */
  predicate Settled(segs: seq<Segment>) {
    forall i :: 0 < i < |segs| ==> !Mergeable(segs[i - 1], segs[i])
  }

  lemma {:induction false} MergeIsSettled(segs: seq<Segment>)
    ensures Settled(Merge(segs))
    ensures forall i :: 0 < i < |Merge(segs)| ==>
      Merge(segs)[i].kind == "progress" || Merge(segs)[i].kind != Merge(segs)[i - 1].kind
  {
    if segs != [] {
      MergeIsSettled(segs[..|segs| - 1]);
    }
  }

  /** Nothing of kind progress is ever joined to what comes before it. */
  lemma ProgressStandsAlone(segs: seq<Segment>, x: Segment)
    requires x.kind == "progress"
    ensures Merge(segs + [x]) == Merge(segs) + [x]
  {
    assert (segs + [x])[..|segs|] == segs;
  }

  lemma {:induction false} MergeOfSettled(segs: seq<Segment>)
    requires Settled(segs)
    ensures Merge(segs) == segs
  {
    if segs != [] {
      MergeOfSettled(segs[..|segs| - 1]);
    }
  }

  /** Merging an already merged head together with later segments is the same as merging once. */
  lemma {:induction false} MergeAgain(a: seq<Segment>, b: seq<Segment>)
    ensures Merge(Merge(a) + b) == Merge(a + b)
  {
    if b == [] {
      assert a + b == a;
      assert Merge(a) + b == Merge(a);
      MergeIsSettled(a);
      MergeOfSettled(Merge(a));
    } else {
      var b', x := b[..|b| - 1], b[|b| - 1];
      assert (a + b)[..|a + b| - 1] == a + b';
      assert (Merge(a) + b)[..|Merge(a) + b| - 1] == Merge(a) + b';
      MergeAgain(a, b');
    }
  }

  lemma {:induction false} MergeKeepsBytes(segs: seq<Segment>)
    ensures Bytes(Merge(segs)) == Bytes(segs)
    ensures |Utf8.Encode(Texts(Merge(segs)))| == |Utf8.Encode(Texts(segs))|
  {
    hide Utf8.Encode; hide Texts;
    BytesAreEncoded(segs);
    BytesAreEncoded(Merge(segs));
    if segs != [] {
      var s', x := segs[..|segs| - 1], segs[|segs| - 1];
      MergeKeepsBytes(s');
      var m := Merge(s');
      if |m| > 0 && Mergeable(m[|m| - 1], x) {
        var l := m[|m| - 1].(text := m[|m| - 1].text + x.text);
        Utf8SizeAppend(m[|m| - 1].text, x.text);
        assert (m[..|m| - 1] + [l])[..|m| - 1] == m[..|m| - 1];
      } else {
        assert (m + [x])[..|m|] == m;
      }
    }
  }

  // ---------------------------------------------------------------- tiling

  /** The history of pushes is numbered 1, 2, 3, ... */
  predicate Numbered(history: seq<Segment>) {
    forall i :: 0 <= i < |history| ==> history[i].num == i + 1
  }

  /** x is exactly the merge of the adjacent pushes ps. */
  predicate IsTile(x: Segment, ps: seq<Segment>) {
    && |ps| > 0
    && x.num == ps[0].num
    && x.text == Texts(ps)
    && (forall i :: 0 <= i < |ps| ==> ps[i].kind == x.kind)
    && (x.kind == PROGRESS ==> |ps| == 1)
  }

  /**
   The segments cut the push history into adjacent, non-empty runs, in order:
   every push is in exactly one segment and nothing else is.
   */
  predicate Tiles(segs: seq<Segment>, history: seq<Segment>) {
    if segs == [] then history == []
    else
      var x := segs[|segs| - 1];
      && 1 <= x.num <= |history|
      && IsTile(x, history[x.num - 1..])
      && Tiles(segs[..|segs| - 1], history[..x.num - 1])
  }

  predicate Increasing(segs: seq<Segment>) {
    forall i, j :: 0 <= i < j < |segs| ==> segs[i].num < segs[j].num
  }

  lemma TilesAppend(segs: seq<Segment>, x: Segment, history: seq<Segment>)
    requires 1 <= x.num <= |history| && IsTile(x, history[x.num - 1..])
    requires Tiles(segs, history[..x.num - 1])
    ensures Tiles(segs + [x], history)
  {
    assert (segs + [x])[..|segs|] == segs;
  }

  lemma TilesAddPush(segs: seq<Segment>, history: seq<Segment>, x: Segment)
    requires Tiles(segs, history) && x.num == |history| + 1
    ensures Tiles(segs + [x], history + [x])
  {
    assert (history + [x])[..|history|] == history;
    assert (history + [x])[|history|..] == [x];
    assert Texts([x]) == Texts([]) + x.text;
    TilesAppend(segs, x, history + [x]);
  }

  /** Two neighbouring tiles of one mergeable kind make one tile. */
  lemma TileJoin(l: Segment, ps: seq<Segment>, x: Segment, qs: seq<Segment>)
    requires IsTile(l, ps) && IsTile(x, qs) && Mergeable(l, x)
    ensures IsTile(l.(text := l.text + x.text), ps + qs)
  {
    TextsAppend(ps, qs);
  }

  /** Absorbing the next run of pushes into the last segment keeps the tiling. */
  lemma TilesAbsorb(segs: seq<Segment>, x: Segment, history: seq<Segment>)
    requires 1 <= x.num <= |history| && IsTile(x, history[x.num - 1..])
    requires Tiles(segs, history[..x.num - 1])
    ensures Tiles(Absorb(segs, x), history)
  {
    var n := |segs|;
    if n > 0 && Mergeable(segs[n - 1], x) {
      var l, h' := segs[n - 1], history[..x.num - 1];
      TileJoin(l, h'[l.num - 1..], x, history[x.num - 1..]);
      assert history[l.num - 1..] == h'[l.num - 1..] + history[x.num - 1..];
      assert history[..l.num - 1] == h'[..l.num - 1];
      TilesAppend(segs[..n - 1], l.(text := l.text + x.text), history);
    } else {
      TilesAppend(segs, x, history);
    }
  }

  /** The head of a tiling cannot lose its last segment to an Absorb of the tail. */
  lemma AbsorbAfter(a: seq<Segment>, m: seq<Segment>, x: Segment)
    requires m != []
    ensures Absorb(a + m, x) == a + Absorb(m, x)
  {
    assert (a + m)[..|a + m| - 1] == a + m[..|m| - 1];
  }

  /** Merging any tail of a tiling is again a tiling of the same history. */
  lemma {:induction false} TilesMerge(a: seq<Segment>, b: seq<Segment>, history: seq<Segment>)
    requires Tiles(a + b, history)
    ensures Tiles(a + Merge(b), history)
    decreases |b|
  {
    if b != [] {
      var b', x := b[..|b| - 1], b[|b| - 1];
      var h' := history[..x.num - 1];
      assert (a + b)[..|a + b| - 1] == a + b';
      TilesMerge(a, b', h');
      var m := Merge(b');
      if m == [] {
        assert a + Merge(b) == (a + m) + [x];
        TilesAppend(a + m, x, history);
      } else {
        TilesAbsorb(a + m, x, history);
        AbsorbAfter(a, m, x);
      }
    }
  }

  lemma {:induction false} TilesIncreasing(segs: seq<Segment>, history: seq<Segment>)
    requires Tiles(segs, history)
    ensures Increasing(segs)
    ensures forall i :: 0 <= i < |segs| ==> 1 <= segs[i].num <= |history|
  {
    if segs != [] {
      TilesIncreasing(segs[..|segs| - 1], history[..segs[|segs| - 1].num - 1]);
    }
  }

  /** All pushed text is in the segments, in push order. */
  lemma {:induction false} TilesTexts(segs: seq<Segment>, history: seq<Segment>)
    requires Tiles(segs, history)
    ensures Texts(segs) == Texts(history)
  {
    if segs != [] {
      var x := segs[|segs| - 1];
      TilesTexts(segs[..|segs| - 1], history[..x.num - 1]);
      TextsAppend(history[..x.num - 1], history[x.num - 1..]);
      assert history == history[..x.num - 1] + history[x.num - 1..];
    }
  }

  /** Segment j of the list is the one whose span of push numbers contains push number n. */
  predicate Holds(segs: seq<Segment>, j: nat, n: nat) {
    j < |segs| && segs[j].num <= n && (j + 1 < |segs| ==> n < segs[j + 1].num)
  }

  lemma HoldsOnce(segs: seq<Segment>, n: nat)
    requires Increasing(segs)
    ensures forall j: nat, k: nat :: Holds(segs, j, n) && Holds(segs, k, n) ==> j == k
  {}

  /** Every push number sits in exactly one segment, of its own kind. */
  lemma {:induction false} TilesHoldOnce(segs: seq<Segment>, history: seq<Segment>, n: nat) returns (j: nat)
    requires Tiles(segs, history) && Numbered(history) && 1 <= n <= |history|
    ensures Holds(segs, j, n) && segs[j].kind == history[n - 1].kind
    ensures forall k: nat :: Holds(segs, k, n) ==> k == j
  {
    hide Texts; hide Increasing;
    TilesIncreasing(segs, history);
    HoldsOnce(segs, n);
    var x := segs[|segs| - 1];
    if x.num <= n {
      j := |segs| - 1;
      assert history[x.num - 1..][n - x.num] == history[n - 1];
    } else {
      hide IsTile;
      j := TilesHoldOnce(segs[..|segs| - 1], history[..x.num - 1], n);
    }
  }

  // ---------------------------------------------------------------- sorting

  /** sorted(pending, key=seq): a stable insertion sort by sequence number. */
  function SortByNum(segs: seq<Segment>): seq<Segment> {
    if segs == [] then [] else Insert(SortByNum(segs[..|segs| - 1]), segs[|segs| - 1])
  }

  function Insert(sorted: seq<Segment>, x: Segment): seq<Segment> {
    if sorted == [] || sorted[|sorted| - 1].num <= x.num then sorted + [x]
    else Insert(sorted[..|sorted| - 1], x) + [sorted[|sorted| - 1]]
  }

  /** On a batch that is already in order the sort does nothing. */
  lemma {:induction false} SortIsNoOp(segs: seq<Segment>)
    requires Increasing(segs)
    ensures SortByNum(segs) == segs
  {
    if segs != [] {
      SortIsNoOp(segs[..|segs| - 1]);
    }
  }

  predicate InOrder(segs: seq<Segment>) { forall i :: 0 < i < |segs| ==> segs[i - 1].num <= segs[i].num }

  /** The segments with a number, in their order. */
  function WithNum(segs: seq<Segment>, num: nat): seq<Segment> {
    if segs == [] then []
    else
      var k := |segs| - 1;
      WithNum(segs[..k], num) + (if segs[k].num == num then [segs[k]] else [])
  }

  lemma {:induction false} InsertInOrder(sorted: seq<Segment>, x: Segment)
    requires InOrder(sorted)
    ensures var r := Insert(sorted, x);
      && InOrder(r) && |r| == |sorted| + 1
      && r[|r| - 1].num == (if sorted == [] || sorted[|sorted| - 1].num <= x.num then x else sorted[|sorted| - 1]).num
  {
    if sorted != [] && x.num < sorted[|sorted| - 1].num {
      InsertInOrder(sorted[..|sorted| - 1], x);
    }
  }

  lemma WithNumLast(segs: seq<Segment>, x: Segment, num: nat)
    ensures x.num == num ==> WithNum(segs + [x], num) == WithNum(segs, num) + [x]
    ensures x.num != num ==> WithNum(segs + [x], num) == WithNum(segs, num)
  {
    assert (segs + [x])[..|segs|] == segs;
  }

  lemma {:induction false} InsertIsStable(sorted: seq<Segment>, x: Segment, num: nat)
    ensures x.num == num ==> WithNum(Insert(sorted, x), num) == WithNum(sorted, num) + [x]
    ensures x.num != num ==> WithNum(Insert(sorted, x), num) == WithNum(sorted, num)
  {
    hide WithNum;
    if sorted == [] || sorted[|sorted| - 1].num <= x.num {
      WithNumLast(sorted, x, num);
    } else {
      var head, last := sorted[..|sorted| - 1], sorted[|sorted| - 1];
      InsertIsStable(head, x, num);
      assert Insert(sorted, x) == Insert(head, x) + [last];
      hide Insert;
      assert sorted == head + [last];
      WithNumLast(Insert(head, x), last, num);
      WithNumLast(head, last, num);
    }
  }

  /** The sort is one: in order, nothing lost or doubled, and equal numbers keep their order. */
  lemma {:induction false} SortExactly(segs: seq<Segment>, num: nat)
    ensures InOrder(SortByNum(segs)) && |SortByNum(segs)| == |segs|
    ensures WithNum(SortByNum(segs), num) == WithNum(segs, num)
  {
    if segs != [] {
      var k := |segs| - 1;
      SortExactly(segs[..k], num);
      InsertInOrder(SortByNum(segs[..k]), segs[k]);
      InsertIsStable(SortByNum(segs[..k]), segs[k], num);
    }
  }
}
