/**
 AppendOnlyLog (appserver/eventbus.py:83-188): a rolling log of published
 events with paged replay.
 */
module EventLog {
  import opened Wrappers

  /**
   name is the method field; payload is str(payload); wireSize is the size of its JSON, zero
   for what is not JSON; copyable says whether a deep copy of it succeeds.
   */
  datatype Event = Event(name: string, sessionId: string, agentId: string, payload: string,
                         wireSize: nat, copyable: bool, sendTo: Option<string>)

  /** A published event with its sequence number. */
  datatype Record = Record(event: Event, num: nat)

  /** Limits after max(1, ...). */
  datatype Limits = Limits(maxEntries: nat, maxBytes: nat) {
    predicate Ok() { maxEntries >= 1 && maxBytes >= 1 }
  }

  function Size(e: Event): nat {
    |e.name| + |e.sessionId| + |e.agentId| + |e.payload| + 64
  }

  function Total(rs: seq<Record>): nat {
    if rs == [] then 0 else Size(rs[0].event) + Total(rs[1..])
  }

  lemma {:induction false} TotalAppend(a: seq<Record>, b: seq<Record>)
    ensures Total(a + b) == Total(a) + Total(b)
  {
    if a == [] {
      assert a + b == b;
    } else {
      assert (a + b)[1..] == a[1..] + b;
      TotalAppend(a[1..], b);
    }
  }

  /** An entry counts with the length of its texts and 64 more. */
  lemma TotalOfNext(rs: seq<Record>, x: Record)
    ensures Total(rs + [x]) ==
      Total(rs) + |x.event.name| + |x.event.sessionId| + |x.event.agentId| + |x.event.payload| + 64
  {
    TotalAppend(rs, [x]);
    var none: seq<Record> := [x][1..];
    assert none == [];
  }

  // ---------------------------------------------------------------- retention

  /** not _should_roll() */
  predicate Fits(l: Limits, rs: seq<Record>) {
    |rs| <= l.maxEntries && (Total(rs) <= l.maxBytes || |rs| <= 1)
  }

  /** Drop from the front until the rest fits. */
  function Retained(l: Limits, rs: seq<Record>): (r: seq<Record>)
    ensures |r| <= |rs|
  {
    if rs == [] || Fits(l, rs) then rs else Retained(l, rs[1..])
  }

  /** What is retained is a suffix that fits, and no longer suffix fits. */
  lemma {:induction false} RetainedIsLongestFittingSuffix(l: Limits, rs: seq<Record>)
    requires l.Ok()
    ensures Retained(l, rs) == rs[|rs| - |Retained(l, rs)|..] && Fits(l, Retained(l, rs))
    ensures forall k :: 0 <= k < |rs| - |Retained(l, rs)| ==> !Fits(l, rs[k..])
    ensures rs != [] ==> Retained(l, rs) != []
    ensures forall part: seq<Record> ::
      Fits(l, part) <==> |part| <= l.maxEntries && (|part| <= 1 || Total(part) <= l.maxBytes)
  {
    if rs != [] && !Fits(l, rs) {
      RetainedIsLongestFittingSuffix(l, rs[1..]);
      assert rs[0..] == rs;
      forall k | 0 <= k < |rs| - |Retained(l, rs)|
        ensures !Fits(l, rs[k..])
      {
        if k > 0 { assert rs[k..] == rs[1..][k - 1..]; }
      }
    }
  }

  /** Rolling after each append keeps what rolling once over the whole history would keep. */
  lemma {:induction false} RetainedIncremental(l: Limits, rs: seq<Record>, x: Record)
    requires l.Ok()
    ensures Retained(l, rs + [x]) == Retained(l, Retained(l, rs) + [x])
  {
    if rs != [] && !Fits(l, rs) {
      RetainedIncremental(l, rs[1..], x);
      assert (rs + [x])[1..] == rs[1..] + [x];
      if Fits(l, rs + [x]) {
        TotalAppend(rs, [x]);
        assert false;
      }
    }
  }

  /** The rolling log; history is everything ever appended. */
  class AppendOnlyLog {
    const limits: Limits
    const persist: bool
    var entries: seq<Record>
    var bytes: int
    /** Counts changes of the deque, as its iterators do. */
    var version: nat
    ghost var history: seq<Record>

    ghost predicate Valid()
      reads this
    {
      && limits.Ok()
      && bytes == Total(entries)
      && entries == if persist then Retained(limits, history) else []
    }

    constructor (maxEntries: int, maxBytes: int, persist: bool)
      ensures Valid() && history == [] && entries == []
      ensures limits == Limits(if maxEntries < 1 then 1 else maxEntries, if maxBytes < 1 then 1 else maxBytes)
      ensures this.persist == persist && version == 0
    {
      limits := Limits(if maxEntries < 1 then 1 else maxEntries, if maxBytes < 1 then 1 else maxBytes);
      this.persist := persist;
      entries, bytes, version, history := [], 0, 0, [];
    }

    /** The copy that is stored is made first, and raises when the payload cannot be copied. */
    method Append(r: Record) returns (raised: bool)
      requires Valid()
      modifies this
      ensures Valid() && (raised <==> persist && !r.event.copyable)
      ensures history == if raised then old(history) else old(history) + [r]
      ensures raised ==> entries == old(entries)
      ensures !raised ==> entries == if persist then Retained(limits, old(entries) + [r]) else []
      ensures version > old(version) <==> persist && !raised
      ensures version >= old(version)
    {
      raised := persist && !r.event.copyable;
      if raised {
        return;
      }
      ghost var before := history;
      history := history + [r];
      if !persist {
        return;
      }
      RetainedIncremental(limits, before, r);
      TotalAppend(entries, [r]);
      assert Total([r]) == Size(r.event) + Total([]);
      entries, bytes, version := entries + [r], bytes + Size(r.event), version + 1;
      while |entries| > limits.maxEntries || (bytes > limits.maxBytes && |entries| > 1)
        invariant bytes == Total(entries)
        invariant Retained(limits, entries) == Retained(limits, old(entries) + [r])
        invariant version > old(version) && history == old(history) + [r] && !raised
        decreases |entries|
      {
        var removed := entries[0];
        bytes := if bytes - Size(removed.event) > 0 then bytes - Size(removed.event) else 0;
        entries, version := entries[1..], version + 1;
      }
    }

    /** An uninterrupted replay: the yielded events, or nothing when unavailable. */
    method IterFrom(after: int, pageSize: int) returns (r: Option<seq<Record>>)
      requires Valid()
      ensures r == Replay(persist, entries, after)
    {
      if !persist {
        return None;
      }
      if entries == [] {
        return Some([]);
      }
      if after < entries[0].num - 1 {
        return None;
      }
      var yielded, page: seq<Record> := [], [];
      for i := 0 to |entries|
        invariant yielded + page == Since(entries[..i], after)
      {
        assert entries[..i + 1][..i] == entries[..i];
        if entries[i].num > after {
          page := page + [entries[i]];
          if |page| >= pageSize {
            yielded, page := yielded + page, [];
          }
        }
      }
      assert entries[..|entries|] == entries;
      if page != [] {
        yielded := yielded + page;
      } else {
        assert yielded + page == yielded;
      }
      return Some(yielded);
    }
  }

  // ---------------------------------------------------------------- replay

  function Since(rs: seq<Record>, after: int): seq<Record> {
    if rs == [] then []
    else Since(rs[..|rs| - 1], after) + if rs[|rs| - 1].num > after then [rs[|rs| - 1]] else []
  }

  /** iter_from, read to the end without interruption. */
  function Replay(persist: bool, entries: seq<Record>, after: int): Option<seq<Record>> {
    if !persist then None
    else if entries == [] then Some([])
    else if after < entries[0].num - 1 then None
    else Some(Since(entries, after))
  }

  /** A replay is refused exactly by a log that keeps nothing, or has rolled past what comes after the cursor. */
  lemma RefusedExactly(persist: bool, entries: seq<Record>, after: int)
    ensures Replay(persist, entries, after).None? <==>
      !persist || (entries != [] && after < entries[0].num - 1)
  {}

  /** Numbers begin at one or later and grow; some may be missing. */
  predicate Numbered(history: seq<Record>) {
    && (forall i :: 0 <= i < |history| ==> history[i].num >= 1)
    && forall i, j :: 0 <= i < j < |history| ==> history[i].num < history[j].num
  }

  lemma SinceLast(rs: seq<Record>, x: Record, after: int)
    ensures Since(rs + [x], after) == Since(rs, after) + if x.num > after then [x] else []
  {
    assert (rs + [x])[..|rs|] == rs;
  }

  lemma {:induction false} SinceAppend(a: seq<Record>, b: seq<Record>, after: int)
    ensures Since(a + b, after) == Since(a, after) + Since(b, after)
  {
    if b == [] {
      assert a + b == a;
    } else {
      assert (a + b)[..|a + b| - 1] == a + b[..|b| - 1];
      SinceAppend(a, b[..|b| - 1], after);
    }
  }

  lemma {:induction false} SinceNone(rs: seq<Record>, after: int)
    requires forall i :: 0 <= i < |rs| ==> rs[i].num <= after
    ensures Since(rs, after) == []
  {
    if rs != [] {
      SinceNone(rs[..|rs| - 1], after);
    }
  }

  lemma {:induction false} SinceAll(rs: seq<Record>, after: int)
    requires forall i :: 0 <= i < |rs| ==> rs[i].num > after
    ensures Since(rs, after) == rs
  {
    if rs != [] {
      SinceAll(rs[..|rs| - 1], after);
      assert rs == rs[..|rs| - 1] + [rs[|rs| - 1]];
    }
  }

  lemma SinceAt(rs: seq<Record>, after: int, k: nat)
    requires k <= |rs|
    requires forall i :: 0 <= i < k ==> rs[i].num <= after
    requires forall i :: k <= i < |rs| ==> rs[i].num > after
    ensures Since(rs, after) == rs[k..]
  {
    assert rs == rs[..k] + rs[k..];
    SinceAppend(rs[..k], rs[k..], after);
    SinceNone(rs[..k], after);
    SinceAll(rs[k..], after);
  }

  /** Of a numbered history, the events after a cursor are all that were published from some point on. */
  lemma {:induction false} SinceIsSuffix(rs: seq<Record>, after: int) returns (k: nat)
    requires Numbered(rs)
    ensures k <= |rs| && Since(rs, after) == rs[k..]
    ensures forall i :: 0 <= i < k ==> rs[i].num <= after
    ensures forall i :: k <= i < |rs| ==> rs[i].num > after
  {
    k := 0;
    while k < |rs| && rs[k].num <= after
      invariant k <= |rs| && forall i :: 0 <= i < k ==> rs[i].num <= after
    {
      k := k + 1;
    }
    SinceAt(rs, after, k);
  }

  /**
   Replay from any cursor that is not before the rollover point yields exactly the
   published events with a larger number, all and in order; from an earlier cursor it
   is refused.
   */
  lemma ReplayIsExact(l: Limits, history: seq<Record>, after: int)
    requires l.Ok() && Numbered(history) && history != []
    ensures var entries := Retained(l, history);
      && entries != []
      && (Replay(true, entries, after) == None <==> after < entries[0].num - 1)
      && (after >= entries[0].num - 1 ==> Replay(true, entries, after) == Some(Since(history, after)))
  {
    RetainedIsLongestFittingSuffix(l, history);
    hide Retained; hide Fits;
    var entries := Retained(l, history);
    var cut := |history| - |entries|;
    if after >= entries[0].num - 1 {
      SinceOfSuffix(history, cut, after);
    }
    hide Since; hide Numbered;
  }

  lemma SinceOfSuffix(history: seq<Record>, cut: nat, after: int)
    requires Numbered(history) && cut < |history| && after >= history[cut].num - 1
    ensures Since(history[cut..], after) == Since(history, after)
  {
    assert forall i :: 0 <= i < cut ==> history[i].num < history[cut].num;
    SinceNone(history[..cut], after);
    SinceAppend(history[..cut], history[cut..], after);
    hide Since;
    assert history == history[..cut] + history[cut..];
  }

  /** Some published event with a larger number is no longer in the log. */
  predicate Lost(l: Limits, history: seq<Record>, after: int) {
    exists i :: 0 <= i < |history| - |Retained(l, history)| && history[i].num > after
  }

  /** The number before the first retained event was given to the last event that is gone, or is zero. */
  predicate GapFree(l: Limits, history: seq<Record>)
    requires l.Ok() && history != []
  {
    RetainedIsLongestFittingSuffix(l, history);
    var entries := Retained(l, history);
    var cut := |history| - |entries|;
    entries[0].num - 1 == if cut == 0 then 0 else history[cut - 1].num
  }

  /**
   A refused replay is one that has lost something, for every cursor, exactly when no
   number is missing just before the first retained event.
   */
  lemma RefusalMeansLoss(l: Limits, history: seq<Record>)
    requires l.Ok() && Numbered(history) && history != []
    ensures (forall after: nat :: Replay(true, Retained(l, history), after) == None <==> Lost(l, history, after)) <==>
      GapFree(l, history)
  {
    RetainedIsLongestFittingSuffix(l, history);
    var entries := Retained(l, history);
    var cut := |history| - |entries|;
    var last := if cut == 0 then 0 else history[cut - 1].num;
    hide Retained; hide Fits;
    forall after: nat
      ensures Replay(true, entries, after) == None <==> after < entries[0].num - 1
      ensures Lost(l, history, after) <==> after < last
    {
      ReplayIsExact(l, history, after);
      if after < last {
        assert history[cut - 1].num > after;
      }
    }
    hide Replay; hide Lost;
    if last < entries[0].num - 1 {
      assert Replay(true, entries, last) == None && !Lost(l, history, last);
    }
  }

  /** Resuming from the last number a consumer saw gives the rest of the same stream. */
  lemma ReplayResumes(l: Limits, history: seq<Record>, after: int, seen: nat)
    requires l.Ok() && Numbered(history) && history != []
    requires Replay(true, Retained(l, history), after).Some?
    requires 0 < seen <= |Replay(true, Retained(l, history), after).value|
    ensures var all := Replay(true, Retained(l, history), after).value;
      Replay(true, Retained(l, history), all[seen - 1].num) == Some(all[seen..])
  {
    ReplayIsExact(l, history, after);
    hide Retained; hide Replay;
    var all := Since(history, after);
    var k := SinceIsSuffix(history, after);
    var last := all[seen - 1].num;
    assert history[k + seen - 1].num == last;
    ReplayIsExact(l, history, last);
    SinceAt(history, last, k + seen);
    assert all[seen..] == history[k + seen..];
  }

  // ---------------------------------------------------------------- a replay among publishes

  /** A replay generator between two pages: pos entries scanned, yielded handed out, version of its deque. */
  datatype Cursor = Cursor(after: int, pageSize: int, version: nat, pos: nat,
                           yielded: seq<Record>, done: bool, broken: bool)

  /** Scan to the next full page or to the end. */
  function Scan(c: Cursor, entries: seq<Record>, page: nat): Cursor
    decreases |entries| - c.pos
  {
    if c.pos >= |entries| then c.(done := true)
    else
      var x := entries[c.pos];
      if x.num <= c.after then Scan(c.(pos := c.pos + 1), entries, page)
      else
        var c' := c.(pos := c.pos + 1, yielded := c.yielded + [x]);
        if page + 1 >= c.pageSize then c' else Scan(c', entries, page + 1)
  }

  /** The generator runs for the first time, up to its first page; None when the replay is refused. */
  function Open(l: Limits, history: seq<Record>, after: int, pageSize: int): Option<Cursor> {
    if Replay(true, Retained(l, history), after) == None then None
    else Some(Scan(Cursor(after, pageSize, |history|, 0, [], false, false), Retained(l, history), 0))
  }

  datatype Move = Appended(r: Record) | Fetched

  /** The log and one generator on it. */
  datatype Reading = Reading(history: seq<Record>, cursor: Cursor)

  /** The generator resumes: a deque changed since its iteration began raises. */
  function Fetch(l: Limits, g: Reading): Cursor
  {
    var c := g.cursor;
    if c.done || c.broken then c
    else if |g.history| != c.version then c.(broken := true)
    else Scan(c, Retained(l, g.history), 0)
  }

  function Advance(l: Limits, g: Reading, m: Move): Reading
  {
    match m
    case Appended(r) => g.(history := g.history + [r])
    case Fetched => g.(cursor := Fetch(l, g))
  }

  /** The generator was opened on this history and the log has only grown since. */
  predicate ReadingOk(l: Limits, before: seq<Record>, g: Reading) {
    && before <= g.history && g.cursor.version == |before|
    && CursorOk(g.cursor, Retained(l, before))
    && !(g.cursor.done && g.cursor.broken)
    && (g.cursor.broken ==> |g.history| > |before|)
  }

  predicate CursorOk(c: Cursor, entries: seq<Record>) {
    && c.pos <= |entries|
    && c.yielded == Since(entries[..c.pos], c.after)
    && (c.done ==> c.pos == |entries|)
  }

  lemma {:induction false} ScanKeepsOk(c: Cursor, entries: seq<Record>, page: nat)
    requires CursorOk(c, entries) && !c.done
    ensures var c' := Scan(c, entries, page);
      && CursorOk(c', entries) && c'.version == c.version && c'.after == c.after && c'.broken == c.broken
      && c'.pageSize == c.pageSize && (c'.pos > c.pos || c'.done)
    decreases |entries| - c.pos
  {
    if c.pos < |entries| {
      assert entries[..c.pos + 1][..c.pos] == entries[..c.pos];
      var x := entries[c.pos];
      if x.num <= c.after {
        ScanKeepsOk(c.(pos := c.pos + 1), entries, page);
      } else if page + 1 < c.pageSize {
        ScanKeepsOk(c.(pos := c.pos + 1, yielded := c.yielded + [x]), entries, page + 1);
      }
    }
  }

  lemma OpenIsOk(l: Limits, history: seq<Record>, after: int, pageSize: int)
    requires Open(l, history, after, pageSize).Some?
    ensures var c := Open(l, history, after, pageSize).value;
      ReadingOk(l, history, Reading(history, c)) && c.after == after
  {
    ScanKeepsOk(Cursor(after, pageSize, |history|, 0, [], false, false), Retained(l, history), 0);
  }

  lemma AdvanceKeepsOk(l: Limits, before: seq<Record>, g: Reading, m: Move)
    requires ReadingOk(l, before, g)
    ensures |g.history| == |before| ==> g.history == before
    ensures ReadingOk(l, before, Advance(l, g, m)) && Advance(l, g, m).cursor.after == g.cursor.after
  {
    var c := g.cursor;
    if m.Fetched? && !c.done && !c.broken && |g.history| == |before| {
      ScanKeepsOk(c, Retained(l, before), 0);
    }
    hide Retained; hide CursorOk;
  }

  /** The state after any interleaving of publishes and pages. */
  ghost function Moves(l: Limits, before: seq<Record>, g: Reading, moves: seq<Move>): (end: Reading)
    requires ReadingOk(l, before, g)
    ensures ReadingOk(l, before, end) && end.cursor.after == g.cursor.after
    decreases |moves|
  {
    if moves == [] then g
    else
      AdvanceKeepsOk(l, before, g, moves[0]);
      Moves(l, before, Advance(l, g, moves[0]), moves[1..])
  }

  /**
   However publishes and pages interleave after a replay was opened, what it has handed
   out is a gap-free prefix of the events published before it was opened, after its
   cursor; all of them once its scan has ended; and its next page raises exactly when
   it raised before or a publish came before its scan ended.
   */
  lemma ReplayAmongPublishes(l: Limits, before: seq<Record>, after: int, pageSize: int, moves: seq<Move>)
    requires l.Ok() && Numbered(before) && Open(l, before, after, pageSize).Some?
    ensures var c0 := Open(l, before, after, pageSize).value;
      && ReadingOk(l, before, Reading(before, c0))
      && var g := Moves(l, before, Reading(before, c0), moves);
      && g.cursor.yielded <= Since(before, after)
      && (g.cursor.done ==> g.cursor.yielded == Since(before, after))
      && (Fetch(l, g).broken <==> g.cursor.broken || (!g.cursor.done && |g.history| > |before|))
  {
    OpenIsOk(l, before, after, pageSize);
    if before != [] {
      ReplayIsExact(l, before, after);
    }
    var entries := Retained(l, before);
    var c0 := Open(l, before, after, pageSize).value;
    var g := Moves(l, before, Reading(before, c0), moves);
    SincePrefix(entries, g.cursor.pos, after);
    assert entries[..|entries|] == entries;
    AdvanceKeepsOk(l, before, g, Fetched);
    if !g.cursor.done && !g.cursor.broken && |g.history| == |before| {
      ScanKeepsOk(g.cursor, entries, 0);
    }
    hide Retained; hide Moves; hide Since; hide Scan;
  }

  function Fetches(n: nat): seq<Move> { seq(n, _ => Fetched) }

  /** Read on, a replay ends: completely if nothing was published before its scan ended, else by raising. */
  lemma {:induction false} ReplayEnds(l: Limits, before: seq<Record>, g: Reading, n: nat)
    requires ReadingOk(l, before, g) && n > |Retained(l, before)| - g.cursor.pos
    ensures var c := Moves(l, before, g, Fetches(n)).cursor;
      && (c.done || c.broken)
      && (c.broken <==> g.cursor.broken || (!g.cursor.done && |g.history| > |before|))
    decreases n
  {
    assert Fetches(n)[1..] == Fetches(n - 1);
    var g' := Advance(l, g, Fetched);
    AdvanceKeepsOk(l, before, g, Fetched);
    if g.cursor.done || g.cursor.broken || |g.history| > |before| {
      Stays(l, before, g', n - 1);
    } else {
      ScanKeepsOk(g.cursor, Retained(l, before), 0);
      if g'.cursor.done {
        Stays(l, before, g', n - 1);
      } else {
        ReplayEnds(l, before, g', n - 1);
      }
    }
  }

  lemma {:induction false} Stays(l: Limits, before: seq<Record>, g: Reading, n: nat)
    requires ReadingOk(l, before, g) && (g.cursor.done || g.cursor.broken)
    ensures Moves(l, before, g, Fetches(n)) == g
    decreases n
  {
    if n > 0 {
      assert Fetches(n)[1..] == Fetches(n - 1);
      Stays(l, before, g, n - 1);
    }
  }

  lemma {:induction false} SincePrefix(rs: seq<Record>, k: nat, after: int)
    requires k <= |rs|
    ensures Since(rs[..k], after) <= Since(rs, after)
  {
    if k < |rs| {
      SincePrefix(rs[..|rs| - 1], k, after);
      assert rs[..|rs| - 1][..k] == rs[..k];
    } else {
      assert rs[..k] == rs;
    }
  }

  /** Two published events, pages of one, and a publish after the first page: the second page raises. */
  lemma PublishBreaksReplay(first: Record, second: Record, third: Record)
    requires first.num == 1 && second.num == 2 && third.num == 3
    requires Size(first.event) + Size(second.event) <= 1_000_000
    ensures var l, before := Limits(100, 1_000_000), [first, second];
      && Open(l, before, 0, 1).Some?
      && ReadingOk(l, before, Reading(before, Open(l, before, 0, 1).value))
      && var c := Moves(l, before, Reading(before, Open(l, before, 0, 1).value), [Appended(third), Fetched]).cursor;
        c.broken && c.yielded == [first]
  {
    var l, before := Limits(100, 1_000_000), [first, second];
    TotalAppend([first], [second]);
    assert [first] + [second] == before && [first][1..] == [] && [second][1..] == [];
    assert Total([first]) == Size(first.event) + Total([]) && Total([second]) == Size(second.event) + Total([]);
    assert Retained(l, before) == before;
    OpenIsOk(l, before, 0, 1);
    var c := Open(l, before, 0, 1).value;
    assert c.yielded == [] + [first];
    assert [Appended(third), Fetched][1..] == [Fetched] && [Fetched][1..] == [];
    AdvanceKeepsOk(l, before, Reading(before, c), Appended(third));
  }
}
