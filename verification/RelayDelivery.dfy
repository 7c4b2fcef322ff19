/** How many copies of an event a steadily registered connection is written, over whole runs. */
module RelayDelivery {
  import opened Basics
  import opened Relay
  import opened RelayProofs
  import R = Registry

  /** Connection c holds slot k on replica r. */
  predicate Occupies(s: State, r: nat, k: R.Key, c: R.ConnId) {
    r in s.replicas && k in s.replicas[r].conns && s.replicas[r].conns[k] == c
  }

  /** c holds the slot in every state of the run, and the replica does not crash. */
  ghost predicate Steady(s: State, run: seq<Action>, r: nat, k: R.Key, c: R.ConnId)
    requires Valid(s, run)
    decreases run
  {
    Occupies(s, r, k, c) && (run != [] ==> run[0] != Crash(r) && Steady(Step(s, run[0]), run[1..], r, k, c))
  }

  function ForAgent(agent: string): Pub -> bool {
    (p: Pub) => p.env.agent == agent
  }

  /** What was written to c as the holder of slot k, in order. */
  ghost function SentTo(writes: seq<Write>, k: R.Key, c: R.ConnId): seq<Pub> {
    if writes == [] then []
    else
      var last := writes[|writes| - 1];
      SentTo(writes[..|writes| - 1], k, c)
      + (if last.tenant == k.tenant && last.conn == c && last.pub.env.agent == k.agent then [last.pub] else [])
  }

  // ----- what a state shows of one slot -----

  /** The tenant's channel, the replica's subscription to it, and what the connection was written. */
  datatype View = View(channel: seq<Pub>, sub: Option<Sub>, sent: seq<Pub>)

  ghost function ViewOf(s: State, r: nat, k: R.Key, c: R.ConnId): View
    requires r in s.replicas
  {
    var p := s.replicas[r];
    View(Channel(s, k.tenant), if k.tenant in p.subs then Some(p.subs[k.tenant]) else None, SentTo(p.writes, k, c))
  }

  ghost predicate ViewOk(v: View) {
    v.sub.Some? ==> SubOk(v.channel, v.sub.value)
  }

  /** The part of the channel that the replica's receive loop has popped. */
  function Seen(v: View): seq<Pub> {
    if v.sub.Some? && v.sub.value.since + v.sub.value.seen <= |v.channel| then
      v.channel[v.sub.value.since..v.sub.value.since + v.sub.value.seen]
    else []
  }

  /**
   From v to w the popped part of the channel grew by some messages, and exactly those among them
   for the agent were written, in order. A subscription, once made, keeps its starting point.
   */
  ghost predicate Progress(v: View, w: View, agent: string) {
    && ViewOk(v) && ViewOk(w)
    && v.channel <= w.channel
    && (v.sub.Some? ==> w.sub.Some? && w.sub.value.since == v.sub.value.since)
    && Seen(v) <= Seen(w)
    && w.sent == v.sent + Filter(Seen(w)[|Seen(v)|..], ForAgent(agent))
  }

  lemma {:induction false} ViewIsOk(s: State, r: nat, k: R.Key, c: R.ConnId)
    requires Inv(s) && r in s.replicas
    ensures ViewOk(ViewOf(s, r, k, c))
  {
    assert ReplicaOk(s.channels, s.replicas[r]);
  }

  /** Nothing popped, nothing written. */
  lemma {:induction false} NothingPopped(v: View, w: View, agent: string)
    requires ViewOk(v) && ViewOk(w) && v.channel <= w.channel && v.sent == w.sent && Seen(v) == Seen(w)
    requires v.sub.Some? ==> w.sub.Some? && w.sub.value.since == v.sub.value.since
    ensures Progress(v, w, agent)
  {
    assert Seen(w)[|Seen(v)|..] == [];
  }

  /** The view after popping its tenant's next message. */
  ghost function PoppedView(v: View, agent: string): View
    requires v.sub.Some? && v.sub.value.queue != []
  {
    var sub := v.sub.value;
    View(v.channel, Some(Sub(sub.since, sub.seen + 1, sub.queue[1..])),
         v.sent + if sub.queue[0].env.agent == agent then [sub.queue[0]] else [])
  }

  lemma {:induction false} OnePopped(v: View, agent: string)
    requires ViewOk(v) && v.sub.Some? && v.sub.value.queue != []
    ensures Progress(v, PoppedView(v, agent), agent)
  {
    var w, pub := PoppedView(v, agent), v.sub.value.queue[0];
    assert Seen(w) == Seen(v) + [pub];
    assert Seen(w)[|Seen(v)|..] == [pub];
    assert [pub][..0] == [];
    assert Filter([pub], ForAgent(agent)) == if pub.env.agent == agent then [pub] else [];
  }

  lemma {:induction false} FilterBetween(a: seq<Pub>, b: seq<Pub>, d: seq<Pub>, p: Pub -> bool)
    requires a <= b <= d
    ensures Filter(d[|a|..], p) == Filter(b[|a|..], p) + Filter(d[|b|..], p)
  {
    assert d[|a|..] == b[|a|..] + d[|b|..];
    FilterAppend(b[|a|..], d[|b|..], p);
  }

  lemma {:induction false} ProgressTransitive(u: View, v: View, w: View, agent: string)
    requires Progress(u, v, agent) && Progress(v, w, agent)
    ensures Progress(u, w, agent)
  {
    var a, b, d := Seen(u), Seen(v), Seen(w);
    FilterBetween(a, b, d, ForAgent(agent));
    assert a <= d;
    Regrouped(u.sent, Filter(b[|a|..], ForAgent(agent)), Filter(d[|b|..], ForAgent(agent)));
  }

  lemma {:induction false} Regrouped(x: seq<Pub>, y: seq<Pub>, z: seq<Pub>)
    ensures (x + y) + z == x + (y + z)
  {
  }

  // ----- one step, seen from one slot -----

  lemma {:induction false} SentToOneMore(writes: seq<Write>, w: Write, k: R.Key, c: R.ConnId)
    ensures SentTo(writes + [w], k, c) ==
      SentTo(writes, k, c) + if w.tenant == k.tenant && w.conn == c && w.pub.env.agent == k.agent then [w.pub] else []
  {
    assert (writes + [w])[..|writes + [w]| - 1] == writes;
  }

  lemma {:induction false} PopView(s: State, r: nat, tenant: string, k: R.Key, c: R.ConnId)
    requires Enabled(s, Pop(r, tenant)) && Occupies(s, r, k, c)
    ensures var v := ViewOf(s, r, k, c);
      ViewOf(Step(s, Pop(r, tenant)), r, k, c) == if tenant == k.tenant then PoppedView(v, k.agent) else v
  {
    var p, sub := s.replicas[r], s.replicas[r].subs[tenant];
    var slot := R.Key(tenant, sub.queue[0].env.agent);
    if slot in p.conns {
      SentToOneMore(p.writes, Write(tenant, p.conns[slot], sub.queue[0]), k, c);
    }
  }

  /** The view after its tenant's channel got one more message, which waits at the end of the queue. */
  function ReceivedView(v: View, pub: Pub): View {
    v.(channel := v.channel + [pub],
       sub := if v.sub.Some? then Some(v.sub.value.(queue := v.sub.value.queue + [pub])) else None)
  }

  lemma {:induction false} PublishView(s: State, h: nat, sent: Sent, r: nat, k: R.Key, c: R.ConnId)
    requires Enabled(s, Publish(h, sent)) && r in s.replicas
    ensures r in Published(s, h, sent).replicas
    ensures ViewOf(Published(s, h, sent), r, k, c) ==
      if sent != Lost && TenantOf(s, h) == k.tenant then ReceivedView(ViewOf(s, r, k, c), PubOf(s, h))
      else ViewOf(s, r, k, c)
  {
  }

  lemma {:induction false} ReceivedUnseen(v: View, pub: Pub)
    requires ViewOk(v)
    ensures Seen(ReceivedView(v, pub)) == Seen(v)
  {
  }

  lemma {:induction false} SubscribeView(s: State, h: nat, r: nat, k: R.Key, c: R.ConnId)
    requires Inv(s) && Enabled(s, EnsureSubscribed(h)) && r in s.replicas
    ensures var v, w := ViewOf(s, r, k, c), ViewOf(Step(s, EnsureSubscribed(h)), r, k, c);
      w == v || (v.sub.None? && w == v.(sub := Some(Sub(|v.channel|, 0, []))))
  {
    assert ReplicaOk(s.channels, s.replicas[r]);
  }

  lemma {:induction false} StepProgress(s: State, a: Action, r: nat, k: R.Key, c: R.ConnId)
    requires Inv(s) && Enabled(s, a) && a != Crash(r)
    requires Occupies(s, r, k, c) && r in Step(s, a).replicas
    ensures Progress(ViewOf(s, r, k, c), ViewOf(Step(s, a), r, k, c), k.agent)
  {
    var v, w := ViewOf(s, r, k, c), ViewOf(Step(s, a), r, k, c);
    ViewIsOk(s, r, k, c);
    StepKeeps(s, a);
    ViewIsOk(Step(s, a), r, k, c);
    if a.Pop? && a.r == r && a.tenant == k.tenant {
      PopView(s, r, a.tenant, k, c);
      OnePopped(v, k.agent);
    } else {
      UnpoppedView(s, a, r, k, c);
      NothingPopped(v, w, k.agent);
    }
  }

  /** Joins, messages, deliveries, connections and other replicas' crashes and pops leave the view alone. */
  lemma {:induction false} OtherStepView(s: State, a: Action, r: nat, k: R.Key, c: R.ConnId)
    requires Enabled(s, a) && r in s.replicas && a != Crash(r) && !a.Publish? && !a.EnsureSubscribed?
    requires a.Pop? ==> a.r != r
    ensures r in Step(s, a).replicas && ViewOf(Step(s, a), r, k, c) == ViewOf(s, r, k, c)
  {
    var t := Step(s, a);
    assert t.channels == s.channels;
    assert t.replicas[r].subs == s.replicas[r].subs && t.replicas[r].writes == s.replicas[r].writes;
  }

  lemma {:induction false} UnpoppedView(s: State, a: Action, r: nat, k: R.Key, c: R.ConnId)
    requires Inv(s) && Enabled(s, a) && a != Crash(r) && a != Pop(r, k.tenant)
    requires Occupies(s, r, k, c) && r in Step(s, a).replicas
    ensures var v, w := ViewOf(s, r, k, c), ViewOf(Step(s, a), r, k, c);
      && v.channel <= w.channel && v.sent == w.sent && Seen(v) == Seen(w)
      && (v.sub.Some? ==> w.sub.Some? && w.sub.value.since == v.sub.value.since)
  {
    if a.Publish? {
      ViewIsOk(s, r, k, c);
      PublishView(s, a.h, a.sent, r, k, c);
      ReceivedUnseen(ViewOf(s, r, k, c), PubOf(s, a.h));
    } else if a.EnsureSubscribed? {
      SubscribeView(s, a.h, r, k, c);
    } else if a.Pop? && a.r == r {
      PopView(s, r, a.tenant, k, c);
    } else {
      OtherStepView(s, a, r, k, c);
    }
  }

  /** Over any steady run, the connection is written exactly the popped messages for its agent. */
  lemma {:induction false} SteadyProgress(s: State, run: seq<Action>, r: nat, k: R.Key, c: R.ConnId)
    requires Inv(s) && Valid(s, run) && Steady(s, run, r, k, c)
    ensures Occupies(Run(s, run), r, k, c)
    ensures Progress(ViewOf(s, r, k, c), ViewOf(Run(s, run), r, k, c), k.agent)
    decreases run
  {
    var v := ViewOf(s, r, k, c);
    if run == [] {
      ViewIsOk(s, r, k, c);
      NothingPopped(v, v, k.agent);
    } else {
      var t := Step(s, run[0]);
      StepKeeps(s, run[0]);
      StepProgress(s, run[0], r, k, c);
      SteadyProgress(t, run[1..], r, k, c);
      ProgressTransitive(v, ViewOf(t, r, k, c), ViewOf(Run(s, run), r, k, c), k.agent);
    }
  }

  // ----- copies of one event -----

  /** Copies of event e written between two views. */
  ghost function Copies(v: View, w: View, e: nat): int {
    Count(w.sent, OfEvent(e)) - Count(v.sent, OfEvent(e))
  }

  /** Publishes of event e popped between two views. */
  ghost function PoppedCopies(v: View, w: View, e: nat): nat
    requires Seen(v) <= Seen(w)
  {
    Count(Seen(w)[|Seen(v)|..], OfEvent(e))
  }

  lemma {:induction false} CountOwnAgent(pubs: seq<Pub>, agent: string, e: nat)
    requires forall i :: 0 <= i < |pubs| && pubs[i].event == e ==> pubs[i].env.agent == agent
    ensures Count(Filter(pubs, ForAgent(agent)), OfEvent(e)) == Count(pubs, OfEvent(e))
  {
    if pubs != [] {
      var front, last := pubs[..|pubs| - 1], pubs[|pubs| - 1];
      CountOwnAgent(front, agent, e);
      if last.env.agent == agent {
        CountOne(Filter(front, ForAgent(agent)), last, e);
      } else {
        assert Filter(pubs, ForAgent(agent)) == Filter(front, ForAgent(agent));
      }
    }
  }

  lemma {:induction false} CountPart(channel: seq<Pub>, from: nat, to: nat, e: nat)
    requires from <= to <= |channel|
    ensures Count(channel[from..to], OfEvent(e)) <= Count(channel, OfEvent(e))
  {
    assert channel == channel[..from] + channel[from..to] + channel[to..];
    CountAppend(channel[..from] + channel[from..to], channel[to..], OfEvent(e));
    CountAppend(channel[..from], channel[from..to], OfEvent(e));
  }

  /** What was popped between two views is part of the channel. */
  lemma {:induction false} PoppedIsPart(v: View, w: View, agent: string) returns (from: nat, to: nat)
    requires Progress(v, w, agent)
    ensures from <= to <= |w.channel| && Seen(w)[|Seen(v)|..] == w.channel[from..to]
  {
    if Seen(w) == [] {
      from, to := 0, 0;
    } else {
      from, to := w.sub.value.since + |Seen(v)|, w.sub.value.since + |Seen(w)|;
    }
  }

  /** If all publishes of e in the channel are for the agent, the copies written are those popped. */
  lemma {:induction false} CopiesArePopped(v: View, w: View, agent: string, e: nat)
    requires Progress(v, w, agent)
    requires forall i :: 0 <= i < |w.channel| && w.channel[i].event == e ==> w.channel[i].env.agent == agent
    ensures Copies(v, w, e) == PoppedCopies(v, w, e) <= Count(w.channel, OfEvent(e))
  {
    var from, to := PoppedIsPart(v, w, agent);
    CountPart(w.channel, from, to, e);
    CountOwnAgent(w.channel[from..to], agent, e);
    CountAppend(v.sent, Filter(w.channel[from..to], ForAgent(agent)), OfEvent(e));
  }

  /** A message appended to the channel of a subscribed replica is popped once its queue is drained. */
  lemma {:induction false} AppendedIsPopped(v: View, u: View, w: View, agent: string, pub: Pub)
    requires Progress(v, u, agent) && Progress(u, w, agent)
    requires u.sub.Some? && u.channel + [pub] <= w.channel && w.sub.value.queue == []
    requires Seen(v) <= Seen(w)
    ensures PoppedCopies(v, w, pub.event) >= 1
  {
    var sub, a, m, b := w.sub.value, Seen(v), Seen(u), Seen(w);
    var n := |u.channel|;
    assert sub.since + sub.seen == |w.channel|;
    assert w.channel[n] == (u.channel + [pub])[n];
    assert |a| <= |m| && sub.since + |m| <= n;
    assert b[n - sub.since] == pub;
    assert b[|a|..][n - sub.since - |a|] == pub;
    CountMember(b[|a|..], n - sub.since - |a|, OfEvent(pub.event));
  }

  lemma {:induction false} StreamGrows(s: State, run: seq<Action>)
    requires Valid(s, run)
    ensures s.stream <= Run(s, run).stream
    decreases run
  {
    if run != [] {
      StreamGrows(Step(s, run[0]), run[1..]);
    }
  }

  /** No connection is written an event more often than the event was delivered to all replicas together. */
  lemma {:induction false} CopiesAtMostDeliveries(s: State, run: seq<Action>, r: nat, k: R.Key, c: R.ConnId, e: nat)
    requires Reachable(s) && Valid(s, run) && Steady(s, run, r, k, c)
    requires var t := Run(s, run);
      e < |t.stream| && t.stream[e].Some?
      && t.stream[e].value.tenant == k.tenant && t.stream[e].value.env.agent == k.agent
    ensures Occupies(s, r, k, c) && Occupies(Run(s, run), r, k, c) && e < |Run(s, run).deliveries|
    ensures var v, w := ViewOf(s, r, k, c), ViewOf(Run(s, run), r, k, c);
      && Seen(v) <= Seen(w)
      && Copies(v, w, e) == PoppedCopies(v, w, e) <= Run(s, run).deliveries[e]
  {
    ReachableInv(s);
    SteadyProgress(s, run, r, k, c);
    RunKeeps(s, run);
    var t := Run(s, run);
    var v, w := ViewOf(s, r, k, c), ViewOf(t, r, k, c);
    assert CountOk(t.stream[e], e, t.channels, t.handlings, t.deliveries[e]);
    CopiesArePopped(v, w, k.agent, e);
  }

  lemma {:induction false} RunJoin(s: State, first: seq<Action>, second: seq<Action>)
    requires Valid(s, first) && Valid(Run(s, first), second)
    ensures Valid(s, first + second) && Run(s, first + second) == Run(Run(s, first), second)
    decreases first
  {
    if first == [] {
      assert first + second == second;
    } else {
      assert (first + second)[1..] == first[1..] + second;
      RunJoin(Step(s, first[0]), first[1..], second);
    }
  }

  lemma {:induction false} SteadyJoin(s: State, first: seq<Action>, second: seq<Action>, r: nat, k: R.Key, c: R.ConnId)
    requires Valid(s, first) && Valid(Run(s, first), second)
    requires Steady(s, first, r, k, c) && Steady(Run(s, first), second, r, k, c)
    ensures Valid(s, first + second) && Steady(s, first + second, r, k, c)
    decreases first
  {
    RunJoin(s, first, second);
    if first == [] {
      assert first + second == second;
    } else {
      assert (first + second)[1..] == first[1..] + second;
      SteadyJoin(Step(s, first[0]), first[1..], second, r, k, c);
    }
  }

  /**
   The owner's guarantee. Connection c holds slot k on replica r throughout a run in which r does
   not crash; after its part before, r publishes event e for that slot and the publish takes effect;
   at the end r has drained its queue for the tenant. Then c was written e at least once, exactly as
   often as publishes of e were popped meanwhile, and never more often than e was delivered.
   */
  lemma {:induction false} OwnerGetsItsCopies(s: State, before: seq<Action>, h: nat, sent: Sent, after: seq<Action>,
                                              r: nat, k: R.Key, c: R.ConnId)
    requires Reachable(s) && Valid(s, before) && Steady(s, before, r, k, c)
    requires Enabled(Run(s, before), Publish(h, sent)) && sent != Lost
    requires Valid(Run(s, before), [Publish(h, sent)] + after)
    requires Steady(Run(s, before), [Publish(h, sent)] + after, r, k, c)
    requires var u := Run(s, before);
      u.handlings[h].rep == r && TenantOf(u, h) == k.tenant && PubOf(u, h).env.agent == k.agent
    requires var t := Run(Run(s, before), [Publish(h, sent)] + after);
      r in t.replicas && k.tenant in t.replicas[r].subs ==> t.replicas[r].subs[k.tenant].queue == []
    ensures var t, e := Run(Run(s, before), [Publish(h, sent)] + after), Run(s, before).handlings[h].event;
      && Occupies(s, r, k, c) && Occupies(t, r, k, c) && e < |t.deliveries|
      && var v, w := ViewOf(s, r, k, c), ViewOf(t, r, k, c);
      && Seen(v) <= Seen(w)
      && 1 <= Copies(v, w, e) == PoppedCopies(v, w, e) <= t.deliveries[e]
  {
    ReachableInv(s);
    RunKeeps(s, before);
    var u, rest := Run(s, before), [Publish(h, sent)] + after;
    var t, e := Run(u, rest), u.handlings[h].event;
    SteadyProgress(s, before, r, k, c);
    SteadyProgress(u, rest, r, k, c);
    RunJoin(s, before, rest);
    SteadyJoin(s, before, rest, r, k, c);
    StreamGrows(u, rest);
    CopiesAtMostDeliveries(s, before + rest, r, k, c, e);
    PublishedIsKept(u, h, sent, after, r, k, c);
    AppendedIsPopped(ViewOf(s, r, k, c), ViewOf(u, r, k, c), ViewOf(t, r, k, c), k.agent, PubOf(u, h));
  }

  /** The publishing replica is subscribed, and its publish stays in the channel. */
  lemma {:induction false} PublishedIsKept(u: State, h: nat, sent: Sent, after: seq<Action>, r: nat, k: R.Key,
                                           c: R.ConnId)
    requires Inv(u) && Enabled(u, Publish(h, sent)) && sent != Lost
    requires Valid(u, [Publish(h, sent)] + after) && Steady(u, [Publish(h, sent)] + after, r, k, c)
    requires u.handlings[h].rep == r && TenantOf(u, h) == k.tenant
    ensures Occupies(u, r, k, c) && Occupies(Run(u, [Publish(h, sent)] + after), r, k, c)
    ensures ViewOf(u, r, k, c).sub.Some?
    ensures ViewOf(u, r, k, c).channel + [PubOf(u, h)] <= ViewOf(Run(u, [Publish(h, sent)] + after), r, k, c).channel
  {
    var rest, x := [Publish(h, sent)] + after, Step(u, Publish(h, sent));
    assert rest[1..] == after;
    assert HandlingOk(u.stream, u.replicas, u.handlings[h]);
    StepKeeps(u, Publish(h, sent));
    SteadyProgress(x, after, r, k, c);
  }

  // ----- copies are publishes -----

  /** Publishes of event e that take effect in the run, by any replica. */
  ghost function Publishes(s: State, run: seq<Action>, e: nat): nat
    requires Valid(s, run)
    decreases run
  {
    if run == [] then 0
    else
      (if run[0].Publish? && run[0].sent != Lost && s.handlings[run[0].h].event == e then 1 else 0)
      + Publishes(Step(s, run[0]), run[1..], e)
  }

  /** The channel gains exactly the run's publishes of the event. */
  lemma {:induction false} ChannelCountsPublishes(s: State, run: seq<Action>, e: nat)
    requires Valid(s, run) && e < |Run(s, run).stream| && Run(s, run).stream[e].Some?
    ensures var tenant := Run(s, run).stream[e].value.tenant;
      Count(Channel(Run(s, run), tenant), OfEvent(e)) == Count(Channel(s, tenant), OfEvent(e)) + Publishes(s, run, e)
    decreases run
  {
    if run != [] {
      var a, tenant := run[0], Run(s, run).stream[e].value.tenant;
      ChannelCountsPublishes(Step(s, a), run[1..], e);
      if a.Publish? && a.sent != Lost {
        StreamGrows(s, run);
        CountOne(Channel(s, TenantOf(s, a.h)), PubOf(s, a.h), e);
      } else {
        assert Channel(Step(s, a), tenant) == Channel(s, tenant);
      }
    }
  }

  /** Publishes of event e that take effect in the run while r is subscribed to the tenant. */
  ghost function Heard(s: State, run: seq<Action>, r: nat, tenant: string, e: nat): nat
    requires Valid(s, run)
    decreases run
  {
    if run == [] then 0
    else
      (if HearsNow(s, run[0], r, tenant, e) then 1 else 0) + Heard(Step(s, run[0]), run[1..], r, tenant, e)
  }

  predicate HearsNow(s: State, a: Action, r: nat, tenant: string, e: nat)
    requires Enabled(s, a)
  {
    && a.Publish? && a.sent != Lost && s.handlings[a.h].event == e
    && r in s.replicas && tenant in s.replicas[r].subs
  }

  /** Publishes of event e since the subscription was made, and those of them still queued. */
  ghost function Reached(v: View, e: nat): nat {
    if v.sub.Some? && v.sub.value.since <= |v.channel| then Count(v.channel[v.sub.value.since..], OfEvent(e)) else 0
  }

  ghost function Waiting(v: View, e: nat): nat {
    if v.sub.Some? then Count(v.sub.value.queue, OfEvent(e)) else 0
  }

  lemma {:induction false} ReachedIsSeenOrWaiting(v: View, e: nat)
    requires ViewOk(v)
    ensures Reached(v, e) == Count(Seen(v), OfEvent(e)) + Waiting(v, e)
  {
    if v.sub.Some? {
      var sub := v.sub.value;
      assert v.channel[sub.since..] == Seen(v) + sub.queue;
      CountAppend(Seen(v), sub.queue, OfEvent(e));
    }
  }

  lemma {:induction false} PublishReaches(v: View, pub: Pub, e: nat)
    requires ViewOk(v)
    ensures Reached(ReceivedView(v, pub), e) == Reached(v, e) + if v.sub.Some? && pub.event == e then 1 else 0
  {
    if v.sub.Some? {
      var since := v.sub.value.since;
      assert (v.channel + [pub])[since..] == v.channel[since..] + [pub];
      CountOne(v.channel[since..], pub, e);
    }
  }

  lemma {:induction false} StepReaches(s: State, a: Action, r: nat, k: R.Key, c: R.ConnId, e: nat)
    requires Inv(s) && Enabled(s, a) && a != Crash(r) && Occupies(s, r, k, c) && r in Step(s, a).replicas
    requires a.Publish? && s.handlings[a.h].event == e ==> TenantOf(s, a.h) == k.tenant
    ensures Reached(ViewOf(Step(s, a), r, k, c), e) ==
      Reached(ViewOf(s, r, k, c), e) + if HearsNow(s, a, r, k.tenant, e) then 1 else 0
  {
    if a.Publish? {
      ViewIsOk(s, r, k, c);
      PublishView(s, a.h, a.sent, r, k, c);
      PublishReaches(ViewOf(s, r, k, c), PubOf(s, a.h), e);
    } else if a.EnsureSubscribed? {
      SubscribeView(s, a.h, r, k, c);
    } else if a.Pop? && a.r == r {
      PopView(s, r, a.tenant, k, c);
    } else {
      OtherStepView(s, a, r, k, c);
    }
  }

  lemma {:induction false} RunReaches(s: State, run: seq<Action>, r: nat, k: R.Key, c: R.ConnId, e: nat)
    requires Inv(s) && Valid(s, run) && Steady(s, run, r, k, c)
    requires var t := Run(s, run); e < |t.stream| && t.stream[e].Some? && t.stream[e].value.tenant == k.tenant
    ensures r in s.replicas && r in Run(s, run).replicas
    ensures Reached(ViewOf(Run(s, run), r, k, c), e) == Reached(ViewOf(s, r, k, c), e) + Heard(s, run, r, k.tenant, e)
    decreases run
  {
    if run != [] {
      StreamGrows(s, run);
      StepKeeps(s, run[0]);
      StepReaches(s, run[0], r, k, c, e);
      RunReaches(Step(s, run[0]), run[1..], r, k, c, e);
    }
  }

  /** A replica subscribed at the start of a steady run hears every publish of it. */
  lemma {:induction false} SubscribedHearsAll(s: State, run: seq<Action>, r: nat, k: R.Key, c: R.ConnId, e: nat)
    requires Inv(s) && Valid(s, run) && Steady(s, run, r, k, c) && k.tenant in s.replicas[r].subs
    ensures Heard(s, run, r, k.tenant, e) == Publishes(s, run, e)
    decreases run
  {
    if run != [] {
      StepKeeps(s, run[0]);
      StepProgress(s, run[0], r, k, c);
      SubscribedHearsAll(Step(s, run[0]), run[1..], r, k, c, e);
    }
  }

  lemma {:induction false} PoppedBalance(v: View, w: View, e: nat)
    requires ViewOk(v) && ViewOk(w) && Seen(v) <= Seen(w)
    ensures PoppedCopies(v, w, e) + Waiting(w, e) + Reached(v, e) == Waiting(v, e) + Reached(w, e)
  {
    ReachedIsSeenOrWaiting(v, e);
    ReachedIsSeenOrWaiting(w, e);
    assert Seen(w) == Seen(v) + Seen(w)[|Seen(v)|..];
    CountAppend(Seen(v), Seen(w)[|Seen(v)|..], OfEvent(e));
  }

  /**
   The exact copy count, over every run in which c keeps slot k: what c is written of an event for k,
   with what still waits in its replica's queue, is what waited before and what all replicas together
   published since that replica subscribed. Once per publish, not once per event.
   */
  lemma {:induction false} CopiesEqualPublishes(s: State, run: seq<Action>, r: nat, k: R.Key, c: R.ConnId, e: nat)
    requires Reachable(s) && Valid(s, run) && Steady(s, run, r, k, c)
    requires var t := Run(s, run);
      e < |t.stream| && t.stream[e].Some?
      && t.stream[e].value.tenant == k.tenant && t.stream[e].value.env.agent == k.agent
    ensures Occupies(s, r, k, c) && Occupies(Run(s, run), r, k, c)
    ensures var v, w := ViewOf(s, r, k, c), ViewOf(Run(s, run), r, k, c);
      Copies(v, w, e) + Waiting(w, e) == Waiting(v, e) + Heard(s, run, r, k.tenant, e)
    ensures k.tenant in s.replicas[r].subs ==> Heard(s, run, r, k.tenant, e) == Publishes(s, run, e)
  {
    CopiesAtMostDeliveries(s, run, r, k, c, e);
    ReachableInv(s);
    RunReaches(s, run, r, k, c, e);
    RunKeeps(s, run);
    ViewIsOk(s, r, k, c);
    ViewIsOk(Run(s, run), r, k, c);
    PoppedBalance(ViewOf(s, r, k, c), ViewOf(Run(s, run), r, k, c), e);
    if k.tenant in s.replicas[r].subs {
      SubscribedHearsAll(s, run, r, k, c, e);
    }
  }

  lemma {:induction false} ThreeSteps(s: State, a: Action, b: Action, c: Action)
    requires Enabled(s, a) && Enabled(Step(s, a), b) && Enabled(Step(Step(s, a), b), c)
    ensures Valid(s, [a, b, c]) && Run(s, [a, b, c]) == Step(Step(Step(s, a), b), c)
  {
    var t := Step(s, a);
    var u := Step(t, b);
    var v := Step(u, c);
    assert Valid(v, []) && Run(v, []) == v;
    assert [c][1..] == [] && [b, c][1..] == [c] && [a, b, c][1..] == [b, c];
    assert Valid(u, [c]) && Run(u, [c]) == v;
    assert Valid(t, [b, c]) && Run(t, [b, c]) == v;
  }

  /** The channels, counts and handlings once a delivery has been handled and published. */
  ghost predicate DeliveryDone(s: State, t: State, r: nat, event: nat)
    requires event < |s.stream| == |s.deliveries| && s.stream[event].Some?
  {
    var f := s.stream[event].value;
    && Channel(t, f.tenant) == Channel(s, f.tenant) + [Pub(event, f.env)]
    && (forall other :: other != f.tenant ==> Channel(t, other) == Channel(s, other))
    && t.deliveries == s.deliveries[event := s.deliveries[event] + 1]
    && t.handlings == s.handlings
    && r in t.replicas && f.tenant in t.replicas[r].subs
  }

  lemma {:induction false} SubscribeReadies(t: State, h: nat)
    requires Inv(t) && Enabled(t, EnsureSubscribed(h))
    ensures var u, g := Step(t, EnsureSubscribed(h)), t.handlings[h];
      && Enabled(u, Publish(h, Delivered))
      && u.stream == t.stream && u.channels == t.channels && u.deliveries == t.deliveries
      && u.handlings == t.handlings[h := g.(subscribed := true)]
      && g.rep in u.replicas && TenantOf(t, h) in u.replicas[g.rep].subs
  {
    var g := t.handlings[h];
    assert ReplicaOk(t.channels, t.replicas[g.rep]);
    SubscribedOk(t.channels, t.replicas[g.rep], TenantOf(t, h));
  }

  lemma {:induction false} DeliverStarts(s: State, r: nat, event: nat)
    requires Enabled(s, Deliver(r, event)) && s.stream[event].Some?
    ensures var t := Step(s, Deliver(r, event));
      && Enabled(t, EnsureSubscribed(s.next)) && TenantOf(t, s.next) == s.stream[event].value.tenant
      && t.stream == s.stream && t.channels == s.channels
      && t.deliveries == s.deliveries[event := s.deliveries[event] + 1]
      && t.handlings == s.handlings[s.next := Handling(r, event, false)]
  {
  }

  lemma {:induction false} RemovedAgain(hs: map<nat, Handling>, h: nat, g: Handling, g': Handling)
    requires h !in hs
    ensures hs[h := g][h := g'] - {h} == hs
  {
  }

  lemma {:induction false} PublishEnds(s: State, u: State, r: nat, event: nat)
    requires Enabled(s, Deliver(r, event)) && s.stream[event].Some? && Enabled(u, Publish(s.next, Delivered))
    requires u.stream == s.stream && u.channels == s.channels
    requires u.deliveries == s.deliveries[event := s.deliveries[event] + 1]
    requires u.handlings[s.next] == Handling(r, event, true) && u.handlings - {s.next} == s.handlings
    requires r in u.replicas && s.stream[event].value.tenant in u.replicas[r].subs
    ensures DeliveryDone(s, Step(u, Publish(s.next, Delivered)), r, event)
  {
  }

  /**
   A delivery that is let run publishes: it counts once, and of a forwarded message its own handling
   subscribes the replica, appends the message to its tenant's channel, and ends.
   */
  lemma {:induction false} DeliveryPublishes(s: State, r: nat, event: nat)
    requires Reachable(s) && Enabled(s, Deliver(r, event)) && s.stream[event].Some?
    ensures var run := [Deliver(r, event), EnsureSubscribed(s.next), Publish(s.next, Delivered)];
      Valid(s, run) && DeliveryDone(s, Run(s, run), r, event)
  {
    ReachableInv(s);
    var a, b, c := Deliver(r, event), EnsureSubscribed(s.next), Publish(s.next, Delivered);
    DeliverStarts(s, r, event);
    StepKeeps(s, a);
    var t := Step(s, a);
    SubscribeReadies(t, s.next);
    RemovedAgain(s.handlings, s.next, Handling(r, event, false), Handling(r, event, true));
    PublishEnds(s, Step(t, b), r, event);
    ThreeSteps(s, a, b, c);
  }
}
