/**
 EventBus (appserver/eventbus.py:191-319): sequenced publish, pattern routing
 and bounded subscriber queues that drop instead of blocking.
 */
module EventBus {
  import opened Wrappers
  import opened Text
  import opened EventLog

  const MAX_PAYLOAD_BYTES := 64 * 1024
  const QUEUE_CAPACITY := 1024

  // ---------------------------------------------------------------- routing

  /** Three-segment pattern matching. */
  function Match(pattern: string, agentId: string, name: string): bool {
    if pattern == "event/*" then true
    else if StartsWith(pattern, "agent/") then
      var parts := Split(pattern);
      if |parts| != 3 || parts[1] != agentId then false
      else if parts[2] == "*" then true
      else Last(name) == parts[2]
    else false
  }

  lemma SplitAgentPattern(agentId: string, tail: string)
    requires '/' !in agentId && '/' !in tail
    ensures Split("agent/" + agentId + "/" + tail) == ["agent", agentId, tail]
  {
    assert '/' !in "agent";
    SplitWithout("agent");
    SplitWithout(agentId);
    SplitWithout(tail);
    hide Split;
    assert "agent/" + agentId + "/" + tail == "agent" + "/" + (agentId + "/" + tail);
    SplitAt(agentId, tail);
    SplitAt("agent", agentId + "/" + tail);
  }

  /** A pattern matches exactly when it is the catch-all, the agent's wildcard or the agent's exact tail. */
  lemma MatchExactly(pattern: string, agentId: string, name: string)
    ensures Match(pattern, agentId, name) <==>
            || pattern == "event/*"
            || ('/' !in agentId &&
                (pattern == "agent/" + agentId + "/*" || pattern == "agent/" + agentId + "/" + Last(name)))
  {
    hide Split; hide Join;
    if pattern != "event/*" {
      if '/' !in agentId {
        SplitAgentPattern(agentId, "*");
        SplitAgentPattern(agentId, Last(name));
        assert "agent/" + agentId + "/*" == "agent/" + agentId + "/" + "*";
      }
      if Match(pattern, agentId, name) {
        PatternFromParts(pattern);
      }
    }
  }

  lemma PatternFromParts(pattern: string)
    requires StartsWith(pattern, "agent/") && |Split(pattern)| == 3
    ensures var parts := Split(pattern); pattern == "agent/" + parts[1] + "/" + parts[2]
  {
    var rest := pattern[|"agent/"|..];
    assert pattern == "agent" + "/" + rest;
    SplitAt("agent", rest);
    assert '/' !in "agent";
    SplitWithout("agent");
    var parts := Split(pattern);
    assert parts[0] == "agent" && parts[1..] == Split(rest);
    JoinSplit(rest);
    assert Join(parts[1..]) == parts[1] + "/" + Join(parts[1..][1..]);
  }

  predicate Routed(e: Event) { e.sendTo.Some? && e.sendTo.value != "*" }

  /** The agent whose subscriptions an event is delivered against. */
  function Target(e: Event): string { if Routed(e) then e.sendTo.value else e.agentId }

  predicate Wants(pattern: string, e: Event) { Match(pattern, Target(e), e.name) }

  /** A subscription that counts as a receiver for target. */
  predicate Receives(pattern: string, target: string) {
    || pattern == "agent/" + target + "/*"
    || (StartsWith(pattern, "agent/" + target + "/") && |Split(pattern)| == 3)
  }

  predicate DeadLetter(e: Event, patterns: seq<string>) {
    Routed(e) && forall i :: 0 <= i < |patterns| ==> !Receives(patterns[i], e.sendTo.value)
  }

  /** A dead letter is delivered at most to catch-all monitors. */
  lemma DeadLetterReachesOnlyMonitors(e: Event, patterns: seq<string>, i: nat)
    requires DeadLetter(e, patterns) && i < |patterns| && Wants(patterns[i], e)
    ensures patterns[i] == "event/*"
  {
    MatchExactly(patterns[i], Target(e), e.name);
  }

  // ---------------------------------------------------------------- subscriptions

  /** A queue entry: the published object and what it was when it was queued. */
  datatype Entry = Entry(obj: nat, record: Record)

  /**
   A subscription.  since: the last number given out before it; got: everything ever
   queued; dropAt/kept: number of the first dropped event and how many were queued
   before it.
   */
  datatype Sub = Sub(pattern: string, queue: seq<Entry>, dropped: bool,
                     since: nat, got: seq<Record>, dropAt: nat, kept: nat)

  function Subscribe(pattern: string, last: nat): Sub {
    Sub(pattern, [], false, last, [], 0, 0)
  }

  /** put_nowait, or mark the subscription as dropped when the queue is full. */
  function Deliver(s: Sub, x: Entry): Sub {
    if !Wants(s.pattern, x.record.event) then s
    else if |s.queue| < QUEUE_CAPACITY then
      s.(queue := s.queue + [x], got := s.got + [x.record])
    else if s.dropped then s
    else s.(dropped := true, dropAt := x.record.num, kept := |s.got|)
  }

  function Consume(s: Sub): Sub
    requires s.queue != []
  {
    s.(queue := s.queue[1..])
  }

  /** The published events a pattern wants. */
  function Wanted(pattern: string, rs: seq<Record>): seq<Record> {
    if rs == [] then []
    else Wanted(pattern, rs[..|rs| - 1]) + if Wants(pattern, rs[|rs| - 1].event) then [rs[|rs| - 1]] else []
  }

  predicate Ordered(rs: seq<Record>) {
    forall i, j :: 0 <= i < j < |rs| ==> rs[i].num < rs[j].num
  }

  function Records(q: seq<Entry>): seq<Record> {
    seq(|q|, i requires 0 <= i < |q| => q[i].record)
  }

  /** The queue holds the part of got that was not consumed yet. */
  predicate QueueOk(s: Sub) {
    |s.queue| <= QUEUE_CAPACITY && |s.queue| <= |s.got| && Records(s.queue) == s.got[|s.got| - |s.queue|..]
  }

  /** got is an ordered part of the wanted events since the subscription. */
  predicate GotOk(s: Sub, history: seq<Record>) {
    && Ordered(s.got)
    && forall i :: 0 <= i < |s.got| ==>
         s.got[i] in history && s.got[i].num > s.since && Wants(s.pattern, s.got[i].event)
  }

  /** The events with a smaller number. */
  function Below(rs: seq<Record>, num: int): seq<Record> {
    if rs == [] then []
    else Below(rs[..|rs| - 1], num) + if rs[|rs| - 1].num < num then [rs[|rs| - 1]] else []
  }

  /** Without a drop got is complete; otherwise it is complete up to the first drop. */
  predicate DropOk(s: Sub, history: seq<Record>) {
    && (!s.dropped ==> s.got == Wanted(s.pattern, Since(history, s.since)))
    && (s.dropped ==>
          && s.since < s.dropAt
          && s.kept <= |s.got|
          && s.got[..s.kept] == Wanted(s.pattern, Since(Below(history, s.dropAt), s.since))
          && exists i :: 0 <= i < |history| && history[i].num == s.dropAt && Wants(s.pattern, history[i].event))
  }

  /** The history is numbered, with numbers below next. */
  predicate NumberedBelow(history: seq<Record>, next: nat) {
    Numbered(history) && forall i :: 0 <= i < |history| ==> history[i].num < next
  }

  /** What every subscription guarantees about the events published so far, next being the next number. */
  predicate SubOk(s: Sub, history: seq<Record>, next: nat) {
    QueueOk(s) && GotOk(s, history) && DropOk(s, history) && s.since < next
  }

  lemma WantedLast(pattern: string, rs: seq<Record>, x: Record)
    ensures Wanted(pattern, rs + [x]) == Wanted(pattern, rs) + if Wants(pattern, x.event) then [x] else []
  {
    assert (rs + [x])[..|rs|] == rs;
  }

  lemma BelowLast(rs: seq<Record>, x: Record, num: int)
    ensures Below(rs + [x], num) == Below(rs, num) + if x.num < num then [x] else []
  {
    assert (rs + [x])[..|rs|] == rs;
  }

  lemma {:induction false} BelowAll(rs: seq<Record>, num: int)
    requires forall i :: 0 <= i < |rs| ==> rs[i].num < num
    ensures Below(rs, num) == rs
  {
    if rs != [] {
      BelowAll(rs[..|rs| - 1], num);
      assert rs == rs[..|rs| - 1] + [rs[|rs| - 1]];
    }
  }

  lemma {:induction false} BelowAt(rs: seq<Record>, num: int, k: nat)
    requires k <= |rs|
    requires forall i :: 0 <= i < k ==> rs[i].num < num
    requires forall i :: k <= i < |rs| ==> rs[i].num >= num
    ensures Below(rs, num) == rs[..k]
  {
    if k == |rs| {
      BelowAll(rs, num);
    } else {
      BelowAt(rs[..|rs| - 1], num, k);
      assert rs[..|rs| - 1][..k] == rs[..k];
    }
  }

  /** The events after since are those before num and those from num on. */
  lemma SinceParts(rs: seq<Record>, since: nat, num: nat)
    requires Numbered(rs) && since < num
    ensures Since(rs, since) == Since(Below(rs, num), since) + Since(rs, num - 1)
  {
    var k := SinceIsSuffix(rs, num - 1);
    BelowAt(rs, num, k);
    hide Since; hide Below; hide Numbered;
    SinceAppend(rs[..k], rs[k..], since);
    SinceAll(rs[k..], since);
    assert rs == rs[..k] + rs[k..];
  }

  lemma SubscribeOk(pattern: string, history: seq<Record>, next: nat)
    requires NumberedBelow(history, next) && next >= 1
    ensures SubOk(Subscribe(pattern, next - 1), history, next)
  {
    hide Since; hide Wants; hide Below; hide Numbered;
    SinceNone(history, next - 1);
  }

  lemma ConsumeKeepsSubOk(s: Sub, history: seq<Record>, next: nat)
    requires SubOk(s, history, next) && s.queue != []
    ensures SubOk(Consume(s), history, next)
  {
    hide Wants; hide Wanted; hide Since; hide Below;
    assert Records(s.queue[1..]) == Records(s.queue)[1..];
    assert s.got[|s.got| - |s.queue|..][1..] == s.got[|s.got| - |s.queue| + 1..];
  }

  lemma DeliverKeepsQueue(s: Sub, x: Entry)
    requires QueueOk(s)
    ensures QueueOk(Deliver(s, x))
  {
    hide Wants;
    var t := Deliver(s, x);
    if t.queue != s.queue {
      assert Records(t.queue) == Records(s.queue) + [x.record];
      assert t.got[|t.got| - |t.queue|..] == s.got[|s.got| - |s.queue|..] + [x.record];
    }
  }

  lemma DeliverKeepsGot(s: Sub, history: seq<Record>, next: nat, x: Entry)
    requires GotOk(s, history) && NumberedBelow(history, next) && x.record.num == next && s.since < next
    ensures GotOk(Deliver(s, x), history + [x.record])
  {
    hide Wants; hide Numbered;
    assert forall i :: 0 <= i < |s.got| ==> s.got[i].num < next;
  }

  lemma DeliverKeepsDrops(s: Sub, history: seq<Record>, next: nat, x: Entry)
    requires DropOk(s, history) && NumberedBelow(history, next) && x.record.num == next && s.since < next
    ensures DropOk(Deliver(s, x), history + [x.record])
  {
    var r, history' := x.record, history + [x.record];
    hide Wants; hide Wanted; hide Since; hide Below; hide Numbered;
    SinceLast(history, r, s.since);
    if s.dropped {
      var i :| 0 <= i < |history| && history[i].num == s.dropAt && Wants(s.pattern, history[i].event);
      assert history'[i] == history[i];
      BelowLast(history, r, s.dropAt);
      assert (s.got + [r])[..s.kept] == s.got[..s.kept];
      assert Below(history, s.dropAt) + [] == Below(history, s.dropAt);
    } else {
      WantedLast(s.pattern, Since(history, s.since), r);
      BelowLast(history, r, next);
      BelowAll(history, next);
      assert history'[|history|] == r && history + [] == history;
      assert s.got[..|s.got|] == s.got;
    }
  }

  lemma DeliverKeepsSubOk(s: Sub, history: seq<Record>, next: nat, x: Entry)
    requires SubOk(s, history, next) && NumberedBelow(history, next) && x.record.num == next
    ensures SubOk(Deliver(s, x), history + [x.record], next + 1)
  {
    DeliverKeepsQueue(s, x);
    DeliverKeepsGot(s, history, next, x);
    DeliverKeepsDrops(s, history, next, x);
    hide QueueOk; hide GotOk; hide DropOk; hide Wants;
  }

  lemma {:induction false} WantedAppend(pattern: string, a: seq<Record>, b: seq<Record>)
    ensures Wanted(pattern, a + b) == Wanted(pattern, a) + Wanted(pattern, b)
  {
    if b == [] {
      assert a + b == a;
    } else {
      assert (a + b)[..|a + b| - 1] == a + b[..|b| - 1];
      WantedAppend(pattern, a, b[..|b| - 1]);
    }
  }

  /**
   After drops, the events queued before the first drop followed by the wanted
   part of a replay from there are all wanted events since the subscription, as
   long as the log has not rolled past the first drop.
   */
  lemma ReplayRepairsDrops(s: Sub, l: Limits, history: seq<Record>, next: nat)
    requires l.Ok() && Numbered(history) && SubOk(s, history, next) && s.dropped
    requires Retained(l, history) != [] && Retained(l, history)[0].num <= s.dropAt
    ensures Replay(true, Retained(l, history), s.dropAt - 1).Some?
    ensures s.got[..s.kept] + Wanted(s.pattern, Replay(true, Retained(l, history), s.dropAt - 1).value)
         == Wanted(s.pattern, Since(history, s.since))
  {
    hide Wanted; hide Wants; hide Retained; hide Since; hide Below;
    ReplayIsExact(l, history, s.dropAt - 1);
    hide Replay; hide GotOk; hide QueueOk;
    SinceParts(history, s.since, s.dropAt);
    WantedAppend(s.pattern, Since(Below(history, s.dropAt), s.since), Since(history, s.dropAt - 1));
  }

  // ---------------------------------------------------------------- the bus

  /**
   next: the next number; history: everything published; seen: the current seq attribute
   of every object that was given a number.
   */
  datatype Bus = Bus(limits: Limits, persist: bool, entries: seq<Record>, subs: seq<Sub>, next: nat,
                     history: seq<Record>, seen: map<nat, nat>)

  datatype Action =
    | Publish(obj: nat, event: Event)
    | NewSub(pattern: string)
    | DropSub(i: nat)
    | Take(i: nat)

  function DeliverAll(subs: seq<Sub>, x: Entry): seq<Sub> {
    seq(|subs|, i requires 0 <= i < |subs| => Deliver(subs[i], x))
  }

  /** The log copies what it stores; a payload that cannot be copied raises there. */
  predicate Raises(b: Bus, e: Event) { b.persist && !e.copyable }

  /** A publish that raises has taken its number, and has set it on the object. */
  function Published(b: Bus, obj: nat, e: Event): Bus {
    if e.wireSize > MAX_PAYLOAD_BYTES then b
    else if Raises(b, e) then b.(next := b.next + 1, seen := b.seen[obj := b.next])
    else
      var r := Record(e, b.next);
      b.(entries := if b.persist then Retained(b.limits, b.entries + [r]) else [],
         subs := DeliverAll(b.subs, Entry(obj, r)),
         next := b.next + 1,
         history := b.history + [r],
         seen := b.seen[obj := r.num])
  }

  function Act(b: Bus, a: Action): Bus {
    match a
    case Publish(obj, e) => Published(b, obj, e)
    case NewSub(pattern) => b.(subs := b.subs + [Subscribe(pattern, if b.next >= 1 then b.next - 1 else 0)])
    case DropSub(i) => if i < |b.subs| then b.(subs := b.subs[..i] + b.subs[i + 1..]) else b
    case Take(i) =>
      if i < |b.subs| && b.subs[i].queue != [] then b.(subs := b.subs[i := Consume(b.subs[i])]) else b
  }

  function Acts(b: Bus, actions: seq<Action>): Bus {
    if actions == [] then b else Act(Acts(b, actions[..|actions| - 1]), actions[|actions| - 1])
  }

  predicate BusOk(b: Bus) {
    && b.limits.Ok() && b.next >= 1
    && NumberedBelow(b.history, b.next)
    && b.entries == (if b.persist then Retained(b.limits, b.history) else [])
    && forall i :: 0 <= i < |b.subs| ==> SubOk(b.subs[i], b.history, b.next)
  }

  lemma PublishKeepsBusOk(b: Bus, obj: nat, e: Event)
    requires BusOk(b)
    ensures BusOk(Published(b, obj, e))
  {
    hide Retained; hide Deliver; hide QueueOk; hide GotOk; hide DropOk;
    if e.wireSize <= MAX_PAYLOAD_BYTES && !Raises(b, e) {
      var r := Record(e, b.next);
      RetainedIncremental(b.limits, b.history, r);
      forall i | 0 <= i < |b.subs|
        ensures SubOk(Deliver(b.subs[i], Entry(obj, r)), b.history + [r], b.next + 1)
      {
        DeliverKeepsSubOk(b.subs[i], b.history, b.next, Entry(obj, r));
      }
      hide SubOk;
    }
  }

  lemma ActKeepsBusOk(b: Bus, a: Action)
    requires BusOk(b)
    ensures BusOk(Act(b, a))
  {
    hide SubOk; hide Retained; hide Deliver; hide NumberedBelow; hide Published;
    match a
    case Publish(obj, e) => PublishKeepsBusOk(b, obj, e);
    case NewSub(pattern) => SubscribeOk(pattern, b.history, b.next);
    case DropSub(i) =>
    case Take(i) =>
      if i < |b.subs| && b.subs[i].queue != [] {
        ConsumeKeepsSubOk(b.subs[i], b.history, b.next);
      }
  }

  function Fresh(limits: Limits, persist: bool): Bus {
    Bus(limits, persist, [], [], 1, [], map[])
  }

  /**
   After any mix of publishes, raising ones too, subscriptions and reads: numbers grow,
   the log is the longest fitting suffix of everything published, and every subscription
   keeps its guarantee.
   */
  lemma {:induction false} EveryRunIsOk(limits: Limits, persist: bool, actions: seq<Action>)
    requires limits.Ok()
    ensures BusOk(Acts(Fresh(limits, persist), actions))
  {
    if actions != [] {
      EveryRunIsOk(limits, persist, actions[..|actions| - 1]);
      ActKeepsBusOk(Acts(Fresh(limits, persist), actions[..|actions| - 1]), actions[|actions| - 1]);
    }
  }

  /** A subscription that never dropped got every wanted event published since it began, in order. */
  lemma UndroppedIsComplete(limits: Limits, persist: bool, actions: seq<Action>, i: nat)
    requires limits.Ok()
    requires i < |Acts(Fresh(limits, persist), actions).subs|
    requires !Acts(Fresh(limits, persist), actions).subs[i].dropped
    ensures var b := Acts(Fresh(limits, persist), actions);
      && b.subs[i].since < b.next
      && b.subs[i].got == Wanted(b.subs[i].pattern, Since(b.history, b.subs[i].since))
      && Ordered(b.subs[i].got)
  {
    hide Wanted; hide Acts; hide Act; hide Since;
    EveryRunIsOk(limits, persist, actions);
    var b := Acts(Fresh(limits, persist), actions);
    assert SubOk(b.subs[i], b.history, b.next);
  }

  /** The publish takes a number and raises. */
  predicate RaisesOn(persist: bool, a: Action) {
    a.Publish? && a.event.wireSize <= MAX_PAYLOAD_BYTES && persist && !a.event.copyable
  }

  function RaisedCount(persist: bool, actions: seq<Action>): nat {
    if actions == [] then 0
    else RaisedCount(persist, actions[..|actions| - 1]) + (if RaisesOn(persist, actions[|actions| - 1]) then 1 else 0)
  }

  /** Every number given out belongs to a published event or to a publish that raised. */
  lemma {:induction false} NumbersAddUp(limits: Limits, persist: bool, actions: seq<Action>)
    ensures var end := Acts(Fresh(limits, persist), actions);
      end.persist == persist && end.next - 1 == |end.history| + RaisedCount(persist, actions)
  {
    hide Retained; hide DeliverAll;
    if actions != [] {
      NumbersAddUp(limits, persist, actions[..|actions| - 1]);
    }
  }

  /** So without a raising publish the numbers are consecutive. */
  lemma NumbersAreConsecutive(limits: Limits, persist: bool, actions: seq<Action>)
    requires limits.Ok() && RaisedCount(persist, actions) == 0
    ensures var history := Acts(Fresh(limits, persist), actions).history;
      forall i :: 0 <= i < |history| ==> history[i].num == i + 1
  {
    hide Acts; hide RaisedCount;
    EveryRunIsOk(limits, persist, actions);
    NumbersAddUp(limits, persist, actions);
    var b := Acts(Fresh(limits, persist), actions);
    forall i | 0 <= i < |b.history| ensures b.history[i].num == i + 1 {
      AtLeast(b.history, i);
      AtMost(b.history, b.next, |b.history| - 1 - i);
    }
  }

  lemma {:induction false} AtLeast(history: seq<Record>, i: nat)
    requires Numbered(history) && i < |history|
    ensures history[i].num >= i + 1
  {
    if i > 0 {
      AtLeast(history, i - 1);
    }
  }

  lemma {:induction false} AtMost(history: seq<Record>, next: nat, k: nat)
    requires NumberedBelow(history, next) && k < |history|
    ensures history[|history| - 1 - k].num <= next - 1 - k
  {
    if k > 0 {
      AtMost(history, next, k - 1);
    }
  }

  // ---------------------------------------------------------------- shared event objects

  /** The queue holds the published object itself: its reader sees the object's current number. */
  predicate Faithful(b: Bus) {
    forall i, k :: 0 <= i < |b.subs| && 0 <= k < |b.subs[i].queue| ==>
      var x := b.subs[i].queue[k]; x.obj in b.seen && b.seen[x.obj] == x.record.num
  }

  predicate Queued(b: Bus, obj: nat) {
    exists i, k :: 0 <= i < |b.subs| && 0 <= k < |b.subs[i].queue| && b.subs[i].queue[k].obj == obj
  }

  /**
   A publish, even one that raises in the log, leaves every queued event with its own
   number exactly when the published object is not itself waiting in a queue.
   */
  lemma PublishKeepsQueuesFaithful(b: Bus, obj: nat, e: Event)
    requires BusOk(b) && Faithful(b) && e.wireSize <= MAX_PAYLOAD_BYTES
    ensures Faithful(Published(b, obj, e)) <==> !Queued(b, obj)
  {
    hide Wants; hide Retained; hide Wanted; hide Since; hide Below;
    var t := Published(b, obj, e);
    forall i | 0 <= i < |b.subs|
      ensures b.subs[i].queue <= t.subs[i].queue
      ensures forall k :: |b.subs[i].queue| <= k < |t.subs[i].queue| ==>
        t.subs[i].queue[k] == Entry(obj, Record(e, b.next))
    {}
    if Queued(b, obj) {
      var i, k :| 0 <= i < |b.subs| && 0 <= k < |b.subs[i].queue| && b.subs[i].queue[k].obj == obj;
      QueuedNumbers(b.subs[i], b.history, b.next, k);
      assert t.subs[i].queue[k] == b.subs[i].queue[k];
    } else {
      forall i, k | 0 <= i < |t.subs| && 0 <= k < |t.subs[i].queue|
        ensures var x := t.subs[i].queue[k]; x.obj in t.seen && t.seen[x.obj] == x.record.num
      {
        if k < |b.subs[i].queue| {
          assert t.subs[i].queue[k] == b.subs[i].queue[k];
        }
      }
    }
  }

  lemma QueuedNumbers(s: Sub, history: seq<Record>, next: nat, k: nat)
    requires SubOk(s, history, next) && NumberedBelow(history, next) && k < |s.queue|
    ensures s.queue[k].record.num < next
  {
    hide Wants; hide Wanted; hide Since; hide Below;
    assert Records(s.queue)[k] == s.got[|s.got| - |s.queue| + k];
  }

  /** A small event. */
  function Ping(agentId: string): Event { Event("event/ping", "", agentId, "{}", 2, true, None) }

  lemma ActsNext(b: Bus, actions: seq<Action>, a: Action)
    ensures Acts(b, actions + [a]) == Act(Acts(b, actions), a)
  {
    assert (actions + [a])[..|actions|] == actions;
    hide Act;
  }

  /** A publish into a bus with one catch-all subscription that has room. */
  lemma PublishReaches(b: Bus, e: Event)
    requires |b.subs| == 1 && b.subs[0].pattern == "event/*" && |b.subs[0].queue| < QUEUE_CAPACITY
    requires e.wireSize <= MAX_PAYLOAD_BYTES && e.copyable
    ensures var t := Published(b, 0, e);
      && |t.subs| == 1 && t.subs[0].pattern == "event/*"
      && t.subs[0].queue == b.subs[0].queue + [Entry(0, Record(e, b.next))]
      && t.next == b.next + 1 && t.seen == b.seen[0 := b.next]
  {
    hide Split; hide Retained;
  }

  /** A bus with a catch-all subscription and nothing published. */
  function Watched(limits: Limits): Bus {
    Fresh(limits, true).(subs := [Subscribe("event/*", 0)])
  }

  lemma PublishedTwice(limits: Limits, e: Event) returns (actions: seq<Action>)
    ensures Acts(Fresh(limits, true), actions) == Published(Published(Watched(limits), 0, e), 0, e)
  {
    var sub, pub := NewSub("event/*"), Publish(0, e);
    assert Acts(Fresh(limits, true), []) == Fresh(limits, true);
    assert Act(Fresh(limits, true), sub) == Watched(limits) by {
      assert [] + [Subscribe("event/*", 0)] == [Subscribe("event/*", 0)];
    }
    hide Acts; hide Published; hide Watched;
    ActsNext(Fresh(limits, true), [], sub);
    ActsNext(Fresh(limits, true), [] + [sub], pub);
    ActsNext(Fresh(limits, true), [] + [sub] + [pub], pub);
    actions := [] + [sub] + [pub] + [pub];
  }

  /** After the second publish of one object the first entry shows the wrong number. */
  lemma TwiceIsUnfaithful(b: Bus, e: Event)
    requires |b.subs| == 1 && |b.subs[0].queue| == 2
    requires b.subs[0].queue[0] == Entry(0, Record(e, 1)) && b.seen == map[0 := 2]
    ensures !Faithful(b)
  {
    assert b.subs[0].queue[0].obj == 0;
  }

  /** One object published twice while a subscriber has not read it: the first entry shows the second number. */
  lemma RepublishMisnumbers(limits: Limits, agentId: string) returns (actions: seq<Action>, b: Bus)
    requires limits.Ok()
    ensures b == Acts(Fresh(limits, true), actions) && BusOk(b) && !Faithful(b)
    ensures |b.subs| == 1 && |b.subs[0].queue| == 2
    ensures b.subs[0].queue[0] == Entry(0, Record(Ping(agentId), 1)) && b.seen == map[0 := 2]
  {
    hide Acts; hide BusOk; hide Published; hide Faithful;
    var e := Ping(agentId);
    var b0 := Watched(limits);
    PublishReaches(b0, e);
    var b1 := Published(b0, 0, e);
    PublishReaches(b1, e);
    b := Published(b1, 0, e);
    assert b0.subs[0].queue == [] && b1.subs[0].queue == [Entry(0, Record(e, 1))];
    TwiceIsUnfaithful(b, e);
    actions := PublishedTwice(limits, e);
    EveryRunIsOk(limits, true, actions);
  }

  // ---------------------------------------------------------------- a number without an event

  /** An event with a payload that can be neither serialised nor copied. */
  function Stubborn(agentId: string): Event { Event("event/ping", "", agentId, "{lock}", 0, false, None) }

  /**
   A publish that raises and one that does not: nothing has been dropped from the log, and
   a replay from the start is refused.
   */
  lemma RaisedPublishRefusesReplay(limits: Limits, agentId: string)
    requires limits.Ok()
    ensures var b := Acts(Fresh(limits, true), [Publish(0, Stubborn(agentId)), Publish(1, Ping(agentId))]);
      && b.entries == b.history == [Record(Ping(agentId), 2)]
      && Replay(true, b.entries, 0) == None
  {
    var p, q := Publish(0, Stubborn(agentId)), Publish(1, Ping(agentId));
    var r := Record(Ping(agentId), 2);
    assert Acts(Fresh(limits, true), []) == Fresh(limits, true);
    hide Acts; hide DeliverAll;
    ActsNext(Fresh(limits, true), [], p);
    ActsNext(Fresh(limits, true), [] + [p], q);
    assert [] + [p] + [q] == [p, q] && [] + [r] == [r];
    assert Retained(limits, [r]) == [r];
  }

  // ---------------------------------------------------------------- the object

  class EventBus {
    const log: AppendOnlyLog
    var nextNum: nat
    var subs: seq<Sub>
    ghost var seen: map<nat, nat>

    ghost function View(): Bus
      reads this, log
    {
      Bus(log.limits, log.persist, log.entries, subs, nextNum, log.history, seen)
    }

    ghost predicate Valid()
      reads this, log
    {
      BusOk(View()) && log.Valid()
    }

    constructor (log: AppendOnlyLog)
      requires log.Valid() && log.history == []
      ensures Valid() && View() == Fresh(log.limits, log.persist) && this.log == log
    {
      this.log := log;
      nextNum, subs, seen := 1, [], map[];
    }

    method SubscribeTo(pattern: string)
      requires Valid()
      modifies this
      ensures Valid() && View() == Act(old(View()), NewSub(pattern))
    {
      ActKeepsBusOk(View(), NewSub(pattern));
      subs := subs + [Subscribe(pattern, nextNum - 1)];
    }

    /** Leaving the list takes the subscription's queue along; the others keep theirs. */
    method Unsubscribe(i: nat)
      requires Valid()
      modifies this
      ensures Valid() && View() == Act(old(View()), DropSub(i))
    {
      ActKeepsBusOk(View(), DropSub(i));
      hide BusOk;
      if i < |subs| {
        subs := subs[..i] + subs[i + 1..];
      }
    }

    /**
     seq, then log, then notify; an oversized payload is refused before it takes a number,
     one that cannot be copied raises after that.
     */
    method PublishEvent(obj: nat, event: Event) returns (accepted: bool, deadLetter: bool)
      requires Valid()
      modifies this, log
      ensures Valid() && View() == Act(old(View()), Publish(obj, event))
      ensures accepted <==> event.wireSize <= MAX_PAYLOAD_BYTES && (log.persist ==> event.copyable)
      ensures deadLetter <==> accepted && DeadLetter(event, Patterns(subs))
    {
      ActKeepsBusOk(View(), Publish(obj, event));
      hide SubOk; hide Retained; hide NumberedBelow; hide DeliverAll; hide BusOk; hide DeadLetter; hide Patterns;
      if event.wireSize > MAX_PAYLOAD_BYTES {
        return false, false;
      }
      var r := Record(event, nextNum);
      nextNum := nextNum + 1;
      seen := seen[obj := r.num];
      var raised := log.Append(r);
      if raised {
        return false, false;
      }
      DeliverTo(Entry(obj, r));
      accepted := true;
      deadLetter := NobodyReceives(event);
    }

    /** A routed event that no subscription is meant for is logged as a dead letter. */
    method NobodyReceives(event: Event) returns (deadLetter: bool)
      ensures deadLetter <==> DeadLetter(event, Patterns(subs))
    {
      deadLetter := false;
      if Routed(event) {
        var received := HasTargetSubscriber(event.sendTo.value);
        deadLetter := !received;
      }
      hide Receives;
    }

    method HasTargetSubscriber(target: string) returns (received: bool)
      ensures received <==> exists i :: 0 <= i < |subs| && Receives(Patterns(subs)[i], target)
    {
      for i := 0 to |subs|
        invariant forall k :: 0 <= k < i ==> !Receives(Patterns(subs)[k], target)
      {
        if Receives(subs[i].pattern, target) {
          assert Receives(Patterns(subs)[i], target);
          return true;
        }
        assert Patterns(subs)[i] == subs[i].pattern;
      }
      return false;
    }

    /** _deliver: one pass over the subscriptions. */
    method DeliverTo(x: Entry)
      modifies `subs
      ensures subs == DeliverAll(old(subs), x)
    {
      for i := 0 to |subs|
        invariant |subs| == |old(subs)|
        invariant forall k :: 0 <= k < i ==> subs[k] == Deliver(old(subs)[k], x)
        invariant forall k :: i <= k < |subs| ==> subs[k] == old(subs)[k]
      {
        var sub := subs[i];
        if Match(sub.pattern, Target(x.record.event), x.record.event.name) {
          if |sub.queue| < QUEUE_CAPACITY {
            sub := sub.(queue := sub.queue + [x], got := sub.got + [x.record]);
          } else if !sub.dropped {
            sub := sub.(dropped := true, dropAt := x.record.num, kept := |sub.got|);
          }
        }
        subs := subs[i := sub];
      }
    }
  }

  function Patterns(subs: seq<Sub>): seq<string> {
    seq(|subs|, i requires 0 <= i < |subs| => subs[i].pattern)
  }
}
