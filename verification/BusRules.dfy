/**
 Who gets an event of module EventBus and what a publish leaves behind, told in terms
 of the texts of patterns and of the fields of the bus.
 */
module BusRules {
  import opened Wrappers
  import opened Text
  import opened EventLog
  import B = EventBus

  // ---------------------------------------------------------------- who is meant

  /** The last segment of a name is what follows its last slash. */
  lemma {:induction false} LastExactly(name: string, tail: string)
    ensures Last(name) == tail <==>
      '/' !in tail && (name == tail || exists head: string :: name == head + "/" + tail)
  {
    var parts := Split(name);
    JoinSplit(name);
    if '/' !in tail && name == tail {
      SplitWithout(tail);
    }
    if '/' !in tail && exists head: string :: name == head + "/" + tail {
      var head: string :| name == head + "/" + tail;
      SplitAt(head, tail);
      SplitWithout(tail);
    }
    if Last(name) == tail && |parts| > 1 {
      JoinLast(parts);
    }
  }

  lemma {:induction false} JoinLast(parts: seq<string>)
    requires |parts| > 1
    ensures Join(parts) == Join(parts[..|parts| - 1]) + "/" + parts[|parts| - 1]
  {
    if |parts| == 2 {
      assert parts[1..] == [parts[1]] && parts[..1] == [parts[0]];
    } else {
      JoinLast(parts[1..]);
      assert parts[1..][..|parts[1..]| - 1] == parts[..|parts| - 1][1..];
    }
  }

  /** The agent an event is for: the one it is sent to, unless that is nobody or everybody, else its own. */
  function MeantFor(e: Event): string {
    if e.sendTo.Some? && e.sendTo.value != "*" then e.sendTo.value else e.agentId
  }

  /** Served are exactly the subscriptions to everything, to all of that agent, or to its events of this name. */
  lemma ServedExactly(pattern: string, e: Event)
    ensures B.Wants(pattern, e) <==>
      || pattern == "event/*"
      || ('/' !in MeantFor(e) &&
          (pattern == "agent/" + MeantFor(e) + "/*" || pattern == "agent/" + MeantFor(e) + "/" + Last(e.name)))
  {
    B.MatchExactly(pattern, MeantFor(e), e.name);
  }

  /** One agent's subscription: its wildcard, or one name of it. */
  ghost predicate Watches(pattern: string, agent: string) {
    || pattern == "agent/" + agent + "/*"
    || ('/' !in agent && exists tail: string :: '/' !in tail && pattern == "agent/" + agent + "/" + tail)
  }

  lemma SlashFree(agent: string, tail: string)
    requires |Split("agent/" + agent + "/" + tail)| == 3
    ensures '/' !in agent && '/' !in tail
  {
    assert "agent/" + agent + "/" + tail == "agent" + "/" + (agent + "/" + tail);
    hide Split;
    SplitAt("agent", agent + "/" + tail);
    SplitAt(agent, tail);
    assert |Split(agent)| == 1 && |Split(tail)| == 1;
    JoinSplit(agent);
    JoinSplit(tail);
  }

  /** A receiver for an agent is exactly a subscription to it; somebody who watches everything is none. */
  lemma ReceivesExactly(pattern: string, agent: string)
    ensures B.Receives(pattern, agent) <==> Watches(pattern, agent)
    ensures B.Receives(pattern, agent) ==> pattern != "event/*"
  {
    var prefix := "agent/" + agent + "/";
    if StartsWith(pattern, prefix) && |Split(pattern)| == 3 {
      var tail := pattern[|prefix|..];
      assert pattern == prefix + tail == "agent/" + agent + "/" + tail;
      SlashFree(agent, tail);
    }
    if '/' !in agent && exists tail: string :: '/' !in tail && pattern == "agent/" + agent + "/" + tail {
      var tail: string :| '/' !in tail && pattern == "agent/" + agent + "/" + tail;
      B.SplitAgentPattern(agent, tail);
      assert pattern[..|prefix|] == prefix;
    }
    hide Split;
    assert pattern == "agent/" + agent + "/*" ==> pattern[0] == 'a';
    assert StartsWith(pattern, prefix) ==> pattern[0] == prefix[0] == 'a';
  }

  /** An event sent to one agent is a dead letter exactly when nobody subscribes to that agent. */
  lemma DeadLetterExactly(e: Event, patterns: seq<string>)
    ensures B.DeadLetter(e, patterns) <==>
      && e.sendTo.Some? && e.sendTo.value != "*"
      && forall i :: 0 <= i < |patterns| ==> !Watches(patterns[i], e.sendTo.value)
  {
    if e.sendTo.Some? {
      forall i | 0 <= i < |patterns|
        ensures B.Receives(patterns[i], e.sendTo.value) <==> Watches(patterns[i], e.sendTo.value)
      {
        ReceivesExactly(patterns[i], e.sendTo.value);
      }
    }
    hide B.Receives; hide Watches;
  }

  // ---------------------------------------------------------------- what a publish does

  /** A wanted event goes into a queue with fewer than 1024 entries; a full one is marked, and keeps what it has. */
  lemma DeliveredExactly(s: B.Sub, x: B.Entry)
    ensures var t := B.Deliver(s, x); var wanted := B.Wants(s.pattern, x.record.event);
      && t.pattern == s.pattern && t.since == s.since
      && t.queue == (if wanted && |s.queue| < 1024 then s.queue + [x] else s.queue)
      && t.got == (if wanted && |s.queue| < 1024 then s.got + [x.record] else s.got)
      && (t.dropped <==> s.dropped || (wanted && |s.queue| >= 1024))
      && (t.dropped && !s.dropped ==> t.dropAt == x.record.num && t.kept == |s.got|)
  {
    hide B.Wants;
  }

  /**
   An oversized payload changes nothing; one that cannot be copied for the log takes its
   number and no more; any other event is in the history, and with every subscription.
   */
  lemma PublishExactly(b: B.Bus, obj: nat, e: Event)
    ensures var t := B.Act(b, B.Publish(obj, e)); var r := Record(e, b.next);
      if e.wireSize > 65536 then t == b
      else
        && t.next == b.next + 1 && t.seen == b.seen[obj := b.next]
        && (b.persist && !e.copyable ==> t.entries == b.entries && t.subs == b.subs && t.history == b.history)
        && (!b.persist || e.copyable ==>
              && t.history == b.history + [r] && |t.subs| == |b.subs|
              && forall i :: 0 <= i < |b.subs| ==> t.subs[i] == B.Deliver(b.subs[i], B.Entry(obj, r)))
  {
    hide B.Deliver; hide Retained;
  }

  /** Subscribing, unsubscribing and reading touch the one subscription they are about. */
  lemma SubscriptionsExactly(b: B.Bus, pattern: string, i: nat)
    requires b.next >= 1 && i < |b.subs|
    ensures B.Act(b, B.NewSub(pattern)) == b.(subs := b.subs + [B.Sub(pattern, [], false, b.next - 1, [], 0, 0)])
    ensures B.Act(b, B.DropSub(i)) == b.(subs := b.subs[..i] + b.subs[i + 1..])
    ensures b.subs[i].queue != [] ==>
      B.Act(b, B.Take(i)) == b.(subs := b.subs[i := b.subs[i].(queue := b.subs[i].queue[1..])])
  {}
}
