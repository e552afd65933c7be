/**
 Token accounting of AgentRuntime (appserver/agent_runtime.py:331-402): a call that
 carries a run, task and attempt is booked once, on its agent's own ledger or on
 the pool that agents with no budget of their own share.
 */
module TokenLedger {
  import opened Wrappers
  import opened Text

  datatype Key = Key(run: string, task: string, attempt: int)
  datatype Call = Call(agent: string, tokens: int, key: Option<Key>)

  datatype Books = Books(usage: map<string, int>, shared: int, seen: set<string>)

  const EMPTY := Books(map[], 0, {})

  /** A call of record_token_usage, and whether its agent drew on the pool then. */
  datatype Entry = Entry(call: Call, pooled: bool)

  function KeyText(k: Key): string { k.run + ":" + k.task + ":" + Numeral(k.attempt) }

  function Usage(b: Books, agent: string): int { if agent in b.usage then b.usage[agent] else 0 }

  predicate IsReplay(b: Books, call: Call) { call.key.Some? && KeyText(call.key.value) in b.seen }

  function Record(b: Books, e: Entry): Books {
    if IsReplay(b, e.call) then b
    else
      var seen := if e.call.key.Some? then b.seen + {KeyText(e.call.key.value)} else b.seen;
      if e.pooled then b.(seen := seen, shared := b.shared + e.call.tokens)
      else b.(seen := seen, usage := b.usage[e.call.agent := Usage(b, e.call.agent) + e.call.tokens])
  }

  function RecordAll(h: seq<Entry>): Books {
    if h == [] then EMPTY else Record(RecordAll(h[..|h| - 1]), h[|h| - 1])
  }

  lemma RecordNext(h: seq<Entry>, e: Entry)
    ensures RecordAll(h + [e]) == Record(RecordAll(h), e)
  {
    assert (h + [e])[..|h|] == h;
  }

  // ---------------------------------------------------------------- what the books should say

  /** How two calls are recognised as the same: by the text the runtime keeps, or truly. */
  datatype Identity = ByText | ByKey

  predicate Same(how: Identity, a: Call, b: Call) {
    && a.key.Some? && b.key.Some?
    && (if how.ByText? then KeyText(a.key.value) == KeyText(b.key.value) else a.key == b.key)
  }

  /** The i-th call is unkeyed or the first with its key. */
  predicate First(h: seq<Entry>, i: nat, how: Identity)
    requires i < |h|
  {
    forall j :: 0 <= j < i ==> !Same(how, h[j].call, h[i].call)
  }

  datatype Ledger = Pool | Own(agent: string)

  /** What a tally is over: everything, or one ledger. */
  datatype Book = Every | Of(ledger: Ledger)

  predicate IsOn(e: Entry, ledger: Ledger) {
    match ledger
    case Pool => e.pooled
    case Own(agent) => !e.pooled && e.call.agent == agent
  }

  predicate On(e: Entry, book: Book) { book.Of? ==> IsOn(e, book.ledger) }

  /** What a ledger holds. */
  function Held(b: Books, ledger: Ledger): int {
    match ledger case Pool => b.shared case Own(agent) => Usage(b, agent)
  }

  /** Tokens of the first occurrences among the calls of a book. */
  function Tally(h: seq<Entry>, how: Identity, book: Book): int {
    if h == [] then 0
    else
      var k := |h| - 1;
      Tally(h[..k], how, book) + (if On(h[k], book) && First(h, k, how) then h[k].call.tokens else 0)
  }

  ghost function Total(usage: map<string, int>): int
    decreases |usage|
  {
    if usage == map[] then 0
    else
      var a :| a in usage;
      usage[a] + Total(usage - {a})
  }

  lemma {:induction false} TotalAt(usage: map<string, int>, a: string)
    requires a in usage
    ensures Total(usage) == usage[a] + Total(usage - {a})
    decreases |usage|
  {
    var b :| b in usage && Total(usage) == usage[b] + Total(usage - {b});
    if b != a {
      TotalAt(usage - {b}, a);
      TotalAt(usage - {a}, b);
      assert usage - {b} - {a} == usage - {a} - {b};
    }
  }

  lemma TotalAdds(usage: map<string, int>, a: string, n: int)
    ensures Total(usage[a := n]) == Total(usage) - (if a in usage then usage[a] else 0) + n
  {
    TotalAt(usage[a := n], a);
    assert usage[a := n] - {a} == usage - {a};
    if a in usage {
      TotalAt(usage, a);
    } else {
      assert usage - {a} == usage;
    }
  }

  // ---------------------------------------------------------------- the books are right

  /** Some call of h has the key text of c. */
  predicate Earlier(h: seq<Entry>, c: Call) {
    exists j :: 0 <= j < |h| && Same(ByText, h[j].call, c)
  }

  lemma EarlierGrows(h: seq<Entry>, c: Call)
    requires h != []
    ensures Earlier(h, c) <==> Earlier(h[..|h| - 1], c) || Same(ByText, h[|h| - 1].call, c)
  {
    hide Same;
    var k := |h| - 1;
    assert forall j :: 0 <= j < k ==> h[..k][j] == h[j];
  }

  lemma {:induction false} SeenIsHistory(h: seq<Entry>, c: Call)
    ensures IsReplay(RecordAll(h), c) <==> Earlier(h, c)
  {
    if h != [] {
      var k := |h| - 1;
      SeenIsHistory(h[..k], c);
      SeenGrows(RecordAll(h[..k]), h[k], c);
      EarlierGrows(h, c);
      hide IsReplay; hide Same; hide Record; hide Earlier;
    }
  }

  lemma SeenGrows(b: Books, e: Entry, c: Call)
    ensures IsReplay(Record(b, e), c) <==> IsReplay(b, c) || Same(ByText, e.call, c)
  {}

  /** A replayed call changes no ledger, whatever agent or amount it reports. */
  lemma ReplayChangesNothing(h: seq<Entry>, j: nat, again: Entry)
    requires j < |h| && h[j].call.key.Some? && again.call.key == h[j].call.key
    ensures RecordAll(h + [again]) == RecordAll(h)
  {
    assert (h + [again])[..|h|] == h;
    assert Same(ByText, h[j].call, again.call);
    SeenIsHistory(h, again.call);
  }

  /** Own ledgers and the pool together hold the tokens of the first occurrence of each key and each unkeyed call. */
  lemma {:induction false} LedgersAddUp(h: seq<Entry>)
    ensures var b := RecordAll(h); Total(b.usage) + b.shared == Tally(h, ByText, Every)
  {
    if h != [] {
      var k := |h| - 1;
      var b := RecordAll(h[..k]);
      LedgersAddUp(h[..k]);
      FirstIsNew(h, k);
      TotalAdds(b.usage, h[k].call.agent, Usage(b, h[k].call.agent) + h[k].call.tokens);
      hide First; hide IsReplay; hide Total;
    }
  }

  lemma FirstIsNew(h: seq<Entry>, k: nat)
    requires k < |h|
    ensures First(h, k, ByText) <==> !IsReplay(RecordAll(h[..k]), h[k].call)
  {
    SeenIsHistory(h[..k], h[k].call);
    assert forall j :: 0 <= j < k ==> h[..k][j] == h[j];
  }

  /** A call moves only the ledger it is booked on, by its tokens, and only the first time. */
  lemma HeldAfter(b: Books, e: Entry, ledger: Ledger)
    ensures Held(Record(b, e), ledger) ==
      Held(b, ledger) + (if IsOn(e, ledger) && !IsReplay(b, e.call) then e.call.tokens else 0)
  {
    hide IsReplay;
  }

  /** Each agent's ledger, and the pool, hold exactly the first occurrences booked on them. */
  lemma {:induction false} EachLedgerIsItsTally(h: seq<Entry>, ledger: Ledger)
    ensures Held(RecordAll(h), ledger) == Tally(h, ByText, Of(ledger))
  {
    if h != [] {
      var k := |h| - 1;
      EachLedgerIsItsTally(h[..k], ledger);
      FirstIsNew(h, k);
      HeldAfter(RecordAll(h[..k]), h[k], ledger);
      hide First; hide IsReplay; hide Held; hide Record;
    }
  }

  // ---------------------------------------------------------------- when the key text identifies the call

  predicate NoColon(s: string) { ':' !in s }

  /** One run id continues the other with a colon and what the other's task id begins with. */
  ghost predicate Overlap(a: Key, b: Key) {
    exists mid: string :: b.run == a.run + ":" + mid && a.task == mid + ":" + b.task
  }

  lemma ColonInside(p: string, a: string, q: string, b: string)
    requires p + ":" + a == q + ":" + b && |p| < |q|
    ensures !NoColon(a)
  {
    var s := p + ":" + a;
    assert s[|q|] == ':';
    assert s[|q|] == a[|q| - |p| - 1];
  }

  lemma SameCut(p: string, a: string, q: string, b: string)
    requires p + ":" + a == q + ":" + b && |p| == |q|
    ensures p == q && a == b
  {
    var s := p + ":" + a;
    assert s[..|p|] == p && s[..|q|] == q;
    assert s[|p| + 1..] == a && s[|q| + 1..] == b;
  }

  lemma SplitLast(p: string, a: string, q: string, b: string)
    requires NoColon(a) && NoColon(b) && p + ":" + a == q + ":" + b
    ensures p == q && a == b
  {
    hide NoColon;
    if |p| < |q| {
      ColonInside(p, a, q, b);
    } else if |q| < |p| {
      ColonInside(q, b, p, a);
    } else {
      SameCut(p, a, q, b);
    }
  }

  lemma SplitFirst(p: string, a: string, q: string, b: string)
    requires p + ":" + a == q + ":" + b && |p| < |q|
    ensures q == p + ":" + q[|p| + 1..] && a == q[|p| + 1..] + ":" + b
  {
    var s := p + ":" + a;
    var mid := q[|p| + 1..];
    assert s[..|p|] == p == q[..|p|];
    assert q[|p|] == s[|p|] == ':';
    assert q == q[..|p|] + [q[|p|]] + mid;
    assert a == s[|p| + 1..];
    assert s[|p| + 1..] == mid + ":" + b;
  }

  lemma OverlapCollides(a: Key, b: Key)
    requires Overlap(a, b) && a.attempt == b.attempt
    ensures KeyText(a) == KeyText(b) && a != b
  {
    var mid: string :| b.run == a.run + ":" + mid && a.task == mid + ":" + b.task;
    assert a.run + ":" + a.task == b.run + ":" + b.task;
  }

  /** Two different calls share a key text exactly when attempts agree and one run id overlaps the other's task id. */
  lemma KeyTextCollides(a: Key, b: Key)
    requires a != b
    ensures KeyText(a) == KeyText(b) <==> a.attempt == b.attempt && (Overlap(a, b) || Overlap(b, a))
  {
    if KeyText(a) == KeyText(b) {
      NumeralHasNoColon(a.attempt);
      NumeralHasNoColon(b.attempt);
      SplitLast(a.run + ":" + a.task, Numeral(a.attempt), b.run + ":" + b.task, Numeral(b.attempt));
      NumeralIsInjective(a.attempt, b.attempt);
      if |a.run| < |b.run| {
        SplitFirst(a.run, a.task, b.run, b.task);
        assert Overlap(a, b);
      } else if |b.run| < |a.run| {
        SplitFirst(b.run, b.task, a.run, a.task);
        assert Overlap(b, a);
      } else {
        SameCut(a.run, a.task, b.run, b.task);
      }
    }
    if a.attempt == b.attempt && Overlap(a, b) { OverlapCollides(a, b); }
    if a.attempt == b.attempt && Overlap(b, a) { OverlapCollides(b, a); }
  }

  /** The colon rule: run ids without a colon, or task ids without one. */
  predicate Separable(h: seq<Entry>) {
    || (forall i :: 0 <= i < |h| && h[i].call.key.Some? ==> NoColon(h[i].call.key.value.run))
    || (forall i :: 0 <= i < |h| && h[i].call.key.Some? ==> NoColon(h[i].call.key.value.task))
  }

  /** Then the ledgers hold each (run, task, attempt) once and nothing is lost to a collision. */
  lemma LedgersCountCallsOnce(h: seq<Entry>)
    requires Separable(h)
    ensures var b := RecordAll(h); Total(b.usage) + b.shared == Tally(h, ByKey, Every)
  {
    LedgersAddUp(h);
    SameTallies(h, Every);
  }

  lemma {:induction false} SameTallies(h: seq<Entry>, book: Book)
    requires Separable(h)
    ensures Tally(h, ByText, book) == Tally(h, ByKey, book)
  {
    if h != [] {
      var k := |h| - 1;
      SameTallies(h[..k], book);
      forall j | 0 <= j < k ensures Same(ByText, h[j].call, h[k].call) <==> Same(ByKey, h[j].call, h[k].call) {
        SeparableKeys(h, j, k);
      }
    }
  }

  lemma SeparableKeys(h: seq<Entry>, j: nat, k: nat)
    requires Separable(h) && j < |h| && k < |h|
    ensures Same(ByText, h[j].call, h[k].call) <==> Same(ByKey, h[j].call, h[k].call)
  {
    var a, b := h[j].call, h[k].call;
    if a.key.Some? && b.key.Some? && a.key != b.key {
      KeyTextCollides(a.key.value, b.key.value);
      if Overlap(a.key.value, b.key.value) { OverlapHasColons(a.key.value, b.key.value); }
      if Overlap(b.key.value, a.key.value) { OverlapHasColons(b.key.value, a.key.value); }
    }
  }

  lemma OverlapHasColons(a: Key, b: Key)
    requires Overlap(a, b)
    ensures !NoColon(b.run) && !NoColon(a.task)
  {
    var mid: string :| b.run == a.run + ":" + mid && a.task == mid + ":" + b.task;
    assert b.run[|a.run|] == ':';
    assert a.task[|mid|] == ':';
  }

  // ---------------------------------------------------------------- the budget breaker

  /** A ledger, its budget, how many calls may be between check and booking, and the largest estimate. */
  datatype Terms = Terms(ledger: Ledger, budget: int, q: nat, cap: nat)

  /** The books, and the estimates of calls on the ledger that passed the check and are not yet booked. */
  datatype Meter = Meter(books: Books, pending: seq<nat>)

  /** A check, the booking of a checked call, or a call on another ledger. */
  datatype Act = Check(est: nat) | Settle(k: nat, entry: Entry) | Elsewhere(other: Entry)

  predicate Passes(used: int, est: nat, budget: int) { used + est <= budget }

  predicate Possible(m: Meter, a: Act, t: Terms) {
    match a
    case Check(est) => est <= t.cap
    case Settle(k, e) => k < |m.pending| && IsOn(e, t.ledger) && e.call.tokens <= m.pending[k]
    case Elsewhere(e) => !IsOn(e, t.ledger)
  }

  function Tick(m: Meter, a: Act, t: Terms): Meter
    requires Possible(m, a, t)
  {
    match a
    case Check(est) => if Passes(Held(m.books, t.ledger), est, t.budget) then m.(pending := m.pending + [est]) else m
    case Settle(k, e) => Meter(Record(m.books, e), m.pending[..k] + m.pending[k + 1..])
    case Elsewhere(e) => m.(books := Record(m.books, e))
  }

  /** Every act is possible and at most q calls are ever between check and booking. */
  predicate Disciplined(m: Meter, acts: seq<Act>, t: Terms)
    decreases |acts|
  {
    && |m.pending| <= t.q
    && (acts != [] ==> Possible(m, acts[0], t) && Disciplined(Tick(m, acts[0], t), acts[1..], t))
  }

  function After(m: Meter, acts: seq<Act>, t: Terms): Meter
    requires Disciplined(m, acts, t)
    decreases |acts|
  {
    if acts == [] then m else After(Tick(m, acts[0], t), acts[1..], t)
  }

  function Sum(s: seq<nat>): nat { if s == [] then 0 else s[0] + Sum(s[1..]) }

  lemma {:induction false} SumSplit(a: seq<nat>, b: seq<nat>)
    ensures Sum(a + b) == Sum(a) + Sum(b)
  {
    if a == [] {
      assert a + b == b;
    } else {
      assert (a + b)[1..] == a[1..] + b;
      SumSplit(a[1..], b);
    }
  }

  lemma {:induction false} SumBound(s: seq<nat>, cap: nat)
    requires forall i :: 0 <= i < |s| ==> s[i] <= cap
    ensures Sum(s) <= |s| * cap
  {
    if s != [] {
      SumBound(s[1..], cap);
      assert |s| * cap == cap + |s[1..]| * cap;
    }
  }

  /** What the ledger can still reach stays under the budget plus the calls that were ahead of the last check. */
  predicate Bounded(m: Meter, t: Terms) {
    && (forall i :: 0 <= i < |m.pending| ==> m.pending[i] <= t.cap)
    && Held(m.books, t.ledger) + Sum(m.pending) <= t.budget + (t.q - 1) * t.cap
  }

  lemma Widen(a: nat, b: nat, c: nat)
    requires a <= b
    ensures a * c <= b * c
  {}

  lemma TickBounded(m: Meter, a: Act, t: Terms)
    requires t.q >= 1 && Bounded(m, t) && Possible(m, a, t) && |Tick(m, a, t).pending| <= t.q
    ensures Bounded(Tick(m, a, t), t)
  {
    hide Record; hide IsReplay; hide Held;
    match a
    case Check(est) => if Passes(Held(m.books, t.ledger), est, t.budget) {
      SumSplit(m.pending, [est]);
      SumBound(m.pending, t.cap);
      assert Sum([est]) == est;
      Widen(|m.pending|, t.q - 1, t.cap);
      hide Sum;
    }
    case Settle(k, e) => {
      HeldAfter(m.books, e, t.ledger);
      SumSplit(m.pending[..k], m.pending[k..]);
      SumSplit(m.pending[..k], m.pending[k + 1..]);
      assert m.pending == m.pending[..k] + m.pending[k..];
      assert m.pending[k..][1..] == m.pending[k + 1..];
      assert Sum(m.pending[k..]) == m.pending[k] + Sum(m.pending[k + 1..]);
      hide Sum;
    }
    case Elsewhere(e) => HeldAfter(m.books, e, t.ledger);
  }

  lemma {:induction false} AfterIsBounded(m: Meter, acts: seq<Act>, t: Terms)
    requires t.q >= 1 && Bounded(m, t) && Disciplined(m, acts, t)
    ensures Bounded(After(m, acts, t), t)
    decreases |acts|
  {
    hide Bounded; hide Tick; hide Possible;
    if acts != [] {
      TickBounded(m, acts[0], t);
      AfterIsBounded(Tick(m, acts[0], t), acts[1..], t);
    }
  }

  /** At most q calls between check and booking, none booking more than it checked, none checking more than cap. */
  lemma UsageWithinBudget(acts: seq<Act>, t: Terms)
    requires t.q >= 1 && t.budget >= 0 && Disciplined(Meter(EMPTY, []), acts, t)
    ensures Held(After(Meter(EMPTY, []), acts, t).books, t.ledger) <= t.budget + (t.q - 1) * t.cap
  {
    Widen(0, t.q - 1, t.cap);
    AfterIsBounded(Meter(EMPTY, []), acts, t);
  }

  function Times<T>(n: nat, x: T): seq<T> { seq(n, _ => x) }

  /** The acts keep the discipline and leave the ledger at end. */
  predicate EndsAt(m: Meter, acts: seq<Act>, t: Terms, end: int) {
    Disciplined(m, acts, t) && Held(After(m, acts, t).books, t.ledger) == end
  }

  lemma Tock(m: Meter, a: Act, rest: seq<Act>, t: Terms, end: int)
    requires |m.pending| <= t.q && Possible(m, a, t) && EndsAt(Tick(m, a, t), rest, t, end)
    ensures EndsAt(m, [a] + rest, t, end)
  {
    assert ([a] + rest)[1..] == rest;
    hide Tick; hide Possible;
  }

  /** k calls check together on a ledger with room for one. */
  lemma {:induction false} ChecksPass(b: Books, n: nat, k: nat, rest: seq<Act>, t: Terms, end: int)
    requires Passes(Held(b, t.ledger), t.cap, t.budget) && n + k <= t.q
    requires EndsAt(Meter(b, Times(n + k, t.cap)), rest, t, end)
    ensures EndsAt(Meter(b, Times(n, t.cap)), Times(k, Check(t.cap)) + rest, t, end)
    decreases k
  {
    if k == 0 {
      assert Times(0, Check(t.cap)) + rest == rest;
    } else {
      ChecksPass(b, n + 1, k - 1, rest, t, end);
      assert Times(n, t.cap) + [t.cap] == Times(n + 1, t.cap);
      assert Times(k, Check(t.cap)) + rest == [Check(t.cap)] + (Times(k - 1, Check(t.cap)) + rest);
      Tock(Meter(b, Times(n, t.cap)), Check(t.cap), Times(k - 1, Check(t.cap)) + rest, t, end);
      hide EndsAt;
    }
  }

  /** An unkeyed call of that many tokens on a ledger. */
  function CallOn(ledger: Ledger, tokens: int): (e: Entry)
    ensures IsOn(e, ledger) && e.call == Call(e.call.agent, tokens, None)
  {
    match ledger
    case Pool => Entry(Call("", tokens, None), true)
    case Own(agent) => Entry(Call(agent, tokens, None), false)
  }

  lemma {:induction false} AllSettle(b: Books, n: nat, t: Terms)
    requires n <= t.q
    ensures EndsAt(Meter(b, Times(n, t.cap)), Times(n, Settle(0, CallOn(t.ledger, t.cap))), t,
                   Held(b, t.ledger) + n * t.cap)
    decreases n
  {
    if n == 0 {
    } else {
      hide EndsAt; hide Held; hide Record; hide IsOn; hide CallOn;
      var e := CallOn(t.ledger, t.cap);
      AllSettle(Record(b, e), n - 1, t);
      OneSettles(b, n, t, e);
      hide Tick; hide Possible;
      assert Times(n, Settle(0, e)) == [Settle(0, e)] + Times(n - 1, Settle(0, e));
      Tock(Meter(b, Times(n, t.cap)), Settle(0, e), Times(n - 1, Settle(0, e)), t, Held(b, t.ledger) + n * t.cap);
    }
  }

  lemma OneSettles(b: Books, n: nat, t: Terms, e: Entry)
    requires n > 0 && IsOn(e, t.ledger) && e.call.tokens == t.cap && e.call.key.None?
    ensures var m := Meter(b, Times(n, t.cap));
      Possible(m, Settle(0, e), t) && Tick(m, Settle(0, e), t) == Meter(Record(b, e), Times(n - 1, t.cap))
    ensures Held(b, t.ledger) + n * t.cap == Held(Record(b, e), t.ledger) + (n - 1) * t.cap
  {
    hide Held; hide Record; hide IsOn;
    HeldAfter(b, e, t.ledger);
    var pending := Times(n, t.cap);
    assert pending[..0] + pending[1..] == Times(n - 1, t.cap);
    assert n * t.cap == t.cap + (n - 1) * t.cap;
  }

  /** The bound is exact: q calls that check a ledger with room for one reach it. */
  lemma BoundIsReached(b: Books, t: Terms) returns (acts: seq<Act>)
    requires t.q >= 1 && Held(b, t.ledger) == t.budget - t.cap
    ensures EndsAt(Meter(b, []), acts, t, t.budget + (t.q - 1) * t.cap)
  {
    var bookings := Times(t.q, Settle(0, CallOn(t.ledger, t.cap)));
    AllSettle(b, t.q, t);
    ChecksPass(b, 0, t.q, bookings, t, Held(b, t.ledger) + t.q * t.cap);
    assert Times(0, t.cap) == [];
    acts := Times(t.q, Check(t.cap)) + bookings;
    assert Held(b, t.ledger) + t.q * t.cap == t.budget + (t.q - 1) * t.cap;
    hide EndsAt;
  }

  /** The call an act books. */
  function BookedBy(a: Act): seq<Entry> {
    match a case Check(_) => [] case Settle(_, e) => [e] case Elsewhere(e) => [e]
  }

  /** The calls that acts book, in order. */
  function Booked(acts: seq<Act>): seq<Entry> {
    if acts == [] then [] else BookedBy(acts[0]) + Booked(acts[1..])
  }

  lemma TickBooks(h: seq<Entry>, m: Meter, a: Act, t: Terms)
    requires Possible(m, a, t) && m.books == RecordAll(h)
    ensures Tick(m, a, t).books == RecordAll(h + BookedBy(a))
  {
    hide Record; hide RecordAll; hide IsOn; hide Held; hide Passes;
    match a
    case Check(_) => assert h + [] == h;
    case Settle(_, e) => RecordNext(h, e);
    case Elsewhere(e) => RecordNext(h, e);
  }

  /** Whatever the acts, the books are those of the calls booked before and by them. */
  lemma {:induction false} BooksFollowActs(h: seq<Entry>, m: Meter, acts: seq<Act>, t: Terms)
    requires m.books == RecordAll(h) && Disciplined(m, acts, t)
    ensures After(m, acts, t).books == RecordAll(h + Booked(acts))
    decreases |acts|
  {
    hide RecordAll; hide Tick; hide Possible; hide BookedBy;
    if acts == [] {
      assert h + [] == h;
    } else {
      TickBooks(h, m, acts[0], t);
      BooksFollowActs(h + BookedBy(acts[0]), Tick(m, acts[0], t), acts[1..], t);
      assert h + Booked(acts) == h + BookedBy(acts[0]) + Booked(acts[1..]);
    }
  }
}
