/** What the relay delivers, over every interleaving of any number of replicas. */
module RelayProofs {
  import opened Basics
  import opened Events
  import opened Relay
  import R = Registry

  // ----- the invariant holds in every step -----

  lemma {:induction false} CountNone(channel: seq<Pub>, e: nat)
    requires forall i :: 0 <= i < |channel| ==> channel[i].event != e
    ensures Count(channel, OfEvent(e)) == 0
  {
    if channel != [] {
      CountNone(channel[..|channel| - 1], e);
    }
  }

  lemma {:induction false} CountOne(channel: seq<Pub>, pub: Pub, e: nat)
    ensures Count(channel + [pub], OfEvent(e)) == Count(channel, OfEvent(e)) + (if pub.event == e then 1 else 0)
  {
    assert (channel + [pub])[..|channel + [pub]| - 1] == channel;
  }

  lemma {:induction false} EmitKeeps(s: State, m: Msg)
    requires Inv(s)
    ensures Inv(Step(s, Emit(m)))
  {
    var t := Step(s, Emit(m));
    forall h | h in t.handlings
      ensures h < t.next && HandlingOk(t.stream, t.replicas, t.handlings[h]) && t.handlings[h].event < |s.stream|
    {
      assert HandlingOk(s.stream, s.replicas, s.handlings[h]);
    }
    forall e | 0 <= e < |t.stream| ensures CountOk(t.stream[e], e, t.channels, t.handlings, t.deliveries[e]) {
      if e < |s.stream| {
        assert CountOk(s.stream[e], e, s.channels, s.handlings, s.deliveries[e]);
      } else if t.stream[e].Some? {
        assert HandlingsOf(t.handlings, e) == {};
        CountNone(Channel(t, t.stream[e].value.tenant), e);
      }
    }
  }

  lemma {:induction false} HandlingsAdded(hs: map<nat, Handling>, h: nat, g: Handling, e: nat)
    requires h !in hs
    ensures |HandlingsOf(hs[h := g], e)| == |HandlingsOf(hs, e)| + (if g.event == e then 1 else 0)
  {
    assert HandlingsOf(hs[h := g], e) == if g.event == e then HandlingsOf(hs, e) + {h} else HandlingsOf(hs, e);
  }

  lemma {:induction false} HandlingsRemoved(hs: map<nat, Handling>, h: nat, e: nat)
    requires h in hs
    ensures |HandlingsOf(hs, e)| == |HandlingsOf(hs - {h}, e)| + (if hs[h].event == e then 1 else 0)
  {
    assert HandlingsOf(hs, e) == if hs[h].event == e then HandlingsOf(hs - {h}, e) + {h} else HandlingsOf(hs - {h}, e);
  }

  lemma {:induction false} DeliverKeeps(s: State, r: nat, event: nat)
    requires Inv(s) && Enabled(s, Deliver(r, event))
    ensures Inv(Step(s, Deliver(r, event)))
  {
    var t := Step(s, Deliver(r, event));
    forall h | h in t.handlings ensures h < t.next && HandlingOk(t.stream, t.replicas, t.handlings[h]) {
      if h in s.handlings {
        assert HandlingOk(s.stream, s.replicas, s.handlings[h]);
      }
    }
    forall e | 0 <= e < |t.stream| ensures CountOk(t.stream[e], e, t.channels, t.handlings, t.deliveries[e]) {
      assert CountOk(s.stream[e], e, s.channels, s.handlings, s.deliveries[e]);
      if s.stream[event].Some? {
        HandlingsAdded(s.handlings, s.next, Handling(r, event, false), e);
      }
    }
  }

  lemma {:induction false} SubscribedOk(channels: map<string, seq<Pub>>, p: Replica, tenant: string)
    requires ReplicaOk(channels, p)
    ensures var length := |ChannelOf(channels, tenant)|;
      ReplicaOk(channels, Subscribed(p, tenant, length)) && tenant in Subscribed(p, tenant, length).subs
    ensures forall t :: t in p.subs ==> t in Subscribed(p, tenant, |ChannelOf(channels, tenant)|).subs
  {
  }

  /** A handling stays as it should be while its replica loses no subscription. */
  lemma {:induction false} HandlingOkFrame(stream: seq<Option<Forward>>, replicas: map<nat, Replica>,
                                           replicas': map<nat, Replica>, g: Handling)
    requires HandlingOk(stream, replicas, g)
    requires g.rep in replicas' && replicas[g.rep].subs.Keys <= replicas'[g.rep].subs.Keys
    ensures HandlingOk(stream, replicas', g)
  {
  }

  /** One replica gains a subscription; the handling that asked for it is marked. */
  lemma {:induction false} SubscriptionGained(stream: seq<Option<Forward>>, replicas: map<nat, Replica>, g0: Handling,
                                              q: Replica, g: Handling)
    requires HandlingOk(stream, replicas, g0) && HandlingOk(stream, replicas, g)
    requires replicas[g0.rep].subs.Keys <= q.subs.Keys && stream[g0.event].value.tenant in q.subs
    ensures HandlingOk(stream, replicas[g0.rep := q], g)
    ensures HandlingOk(stream, replicas[g0.rep := q], g0.(subscribed := true))
  {
  }

  lemma {:induction false} EnsureSubscribedHandlings(s: State, h0: nat, q: Replica)
    requires Inv(s) && Enabled(s, EnsureSubscribed(h0))
    requires s.replicas[s.handlings[h0].rep].subs.Keys <= q.subs.Keys && TenantOf(s, h0) in q.subs
    ensures var g0 := s.handlings[h0];
      var handlings := s.handlings[h0 := g0.(subscribed := true)];
      forall h :: h in handlings ==> h < s.next && HandlingOk(s.stream, s.replicas[g0.rep := q], handlings[h])
  {
    var g0 := s.handlings[h0];
    var handlings := s.handlings[h0 := g0.(subscribed := true)];
    assert HandlingOk(s.stream, s.replicas, g0);
    forall h | h in handlings ensures h < s.next && HandlingOk(s.stream, s.replicas[g0.rep := q], handlings[h]) {
      assert HandlingOk(s.stream, s.replicas, s.handlings[h]);
      SubscriptionGained(s.stream, s.replicas, g0, q, s.handlings[h]);
    }
  }

  lemma {:induction false} MarkedHandlings(handlings: map<nat, Handling>, h0: nat, e: nat)
    requires h0 in handlings
    ensures HandlingsOf(handlings[h0 := handlings[h0].(subscribed := true)], e) == HandlingsOf(handlings, e)
  {
  }

  lemma {:induction false} EnsureSubscribedCounts(s: State, h0: nat)
    requires Inv(s) && h0 in s.handlings
    ensures var handlings := s.handlings[h0 := s.handlings[h0].(subscribed := true)];
      forall e :: 0 <= e < |s.stream| ==> CountOk(s.stream[e], e, s.channels, handlings, s.deliveries[e])
  {
    var handlings := s.handlings[h0 := s.handlings[h0].(subscribed := true)];
    forall e | 0 <= e < |s.stream| ensures CountOk(s.stream[e], e, s.channels, handlings, s.deliveries[e]) {
      assert CountOk(s.stream[e], e, s.channels, s.handlings, s.deliveries[e]);
      MarkedHandlings(s.handlings, h0, e);
    }
  }

  lemma {:induction false} MarkKeeps(s: State, h0: nat, q: Replica)
    requires Inv(s) && Enabled(s, EnsureSubscribed(h0)) && ReplicaOk(s.channels, q)
    requires s.replicas[s.handlings[h0].rep].subs.Keys <= q.subs.Keys && TenantOf(s, h0) in q.subs
    ensures var g := s.handlings[h0];
      Inv(s.(handlings := s.handlings[h0 := g.(subscribed := true)], replicas := s.replicas[g.rep := q]))
  {
    EnsureSubscribedHandlings(s, h0, q);
    EnsureSubscribedCounts(s, h0);
  }

  lemma {:induction false} EnsureSubscribedKeeps(s: State, h0: nat)
    requires Inv(s) && Enabled(s, EnsureSubscribed(h0))
    ensures Inv(Step(s, EnsureSubscribed(h0)))
  {
    var g, tenant := s.handlings[h0], TenantOf(s, h0);
    assert ReplicaOk(s.channels, s.replicas[g.rep]);
    SubscribedOk(s.channels, s.replicas[g.rep], tenant);
    MarkKeeps(s, h0, Subscribed(s.replicas[g.rep], tenant, |Channel(s, tenant)|));
  }

  lemma {:induction false} AppendedSubOk(channel: seq<Pub>, sub: Sub, pub: Pub)
    requires SubOk(channel, sub)
    ensures SubOk(channel + [pub], sub.(queue := sub.queue + [pub]))
  {
    assert (channel + [pub])[sub.since + sub.seen..] == channel[sub.since + sub.seen..] + [pub];
  }

  lemma {:induction false} ReceivedOk(channels: map<string, seq<Pub>>, p: Replica, tenant: string, pub: Pub)
    requires ReplicaOk(channels, p)
    ensures ReplicaOk(channels[tenant := ChannelOf(channels, tenant) + [pub]], Received(p, tenant, pub))
  {
    var more, q := channels[tenant := ChannelOf(channels, tenant) + [pub]], Received(p, tenant, pub);
    forall t | t in q.subs ensures SubOk(ChannelOf(more, t), q.subs[t]) {
      assert SubOk(ChannelOf(channels, t), p.subs[t]);
      if t == tenant {
        AppendedSubOk(ChannelOf(channels, t), p.subs[t], pub);
      }
    }
  }

  /** A handling gives up its place in the count for at most one publish. */
  lemma {:induction false} PublishCounted(f: Option<Forward>, e: nat, channels: map<string, seq<Pub>>,
                                          handlings: map<nat, Handling>,
                                          deliveries: nat, h0: nat, tenant: string, pub: Pub)
    requires CountOk(f, e, channels, handlings, deliveries) && h0 in handlings && pub.event == handlings[h0].event
    ensures CountOk(f, e, channels, handlings - {h0}, deliveries)
    ensures CountOk(f, e, channels[tenant := ChannelOf(channels, tenant) + [pub]], handlings - {h0}, deliveries)
  {
    HandlingsRemoved(handlings, h0, e);
    CountOne(ChannelOf(channels, tenant), pub, e);
  }

  lemma {:induction false} PublishKeepsCounts(s: State, h0: nat, sent: Sent, e: nat)
    requires Inv(s) && Enabled(s, Publish(h0, sent)) && e < |s.stream|
    ensures var t := Published(s, h0, sent); CountOk(t.stream[e], e, t.channels, t.handlings, t.deliveries[e])
  {
    assert CountOk(s.stream[e], e, s.channels, s.handlings, s.deliveries[e]);
    PublishCounted(s.stream[e], e, s.channels, s.handlings, s.deliveries[e], h0, TenantOf(s, h0), PubOf(s, h0));
  }

  lemma {:induction false} PublishKeepsReplica(s: State, h0: nat, sent: Sent, r: nat)
    requires Inv(s) && Enabled(s, Publish(h0, sent)) && r in s.replicas
    ensures var t := Published(s, h0, sent);
      r in t.replicas && ReplicaOk(t.channels, t.replicas[r]) && t.replicas[r].subs.Keys == s.replicas[r].subs.Keys
  {
    assert ReplicaOk(s.channels, s.replicas[r]);
    ReceivedOk(s.channels, s.replicas[r], TenantOf(s, h0), PubOf(s, h0));
  }

  lemma {:induction false} PublishKeepsReplicas(s: State, h0: nat, sent: Sent)
    requires Inv(s) && Enabled(s, Publish(h0, sent))
    ensures var t := Published(s, h0, sent);
      && t.replicas.Keys == s.replicas.Keys
      && forall r :: r in t.replicas ==>
            ReplicaOk(t.channels, t.replicas[r]) && t.replicas[r].subs.Keys == s.replicas[r].subs.Keys
  {
    var t := Published(s, h0, sent);
    assert t.replicas.Keys == s.replicas.Keys;
    forall r | r in s.replicas
      ensures ReplicaOk(t.channels, t.replicas[r]) && t.replicas[r].subs.Keys == s.replicas[r].subs.Keys
    {
      PublishKeepsReplica(s, h0, sent, r);
    }
  }

  lemma {:induction false} PubsGrown(stream: seq<Option<Forward>>, channels: map<string, seq<Pub>>, tenant: string,
                                     pub: Pub)
    requires PubsOk(stream, channels)
    requires pub.event < |stream| && stream[pub.event] == Some(Forward(tenant, pub.env))
    ensures PubsOk(stream, channels[tenant := ChannelOf(channels, tenant) + [pub]])
  {
  }

  lemma {:induction false} PublishKeepsPubs(s: State, h0: nat, sent: Sent)
    requires Inv(s) && Enabled(s, Publish(h0, sent))
    ensures var t := Published(s, h0, sent); PubsOk(t.stream, t.channels)
  {
    PubsGrown(s.stream, s.channels, TenantOf(s, h0), PubOf(s, h0));
  }

  lemma {:induction false} PublishKeeps(s: State, h0: nat, sent: Sent)
    requires Inv(s) && Enabled(s, Publish(h0, sent))
    ensures Inv(Published(s, h0, sent))
  {
    var t := Published(s, h0, sent);
    PublishKeepsReplicas(s, h0, sent);
    PublishKeepsPubs(s, h0, sent);
    forall h | h in t.handlings ensures h < t.next && HandlingOk(t.stream, t.replicas, t.handlings[h]) {
      HandlingOkFrame(s.stream, s.replicas, t.replicas, s.handlings[h]);
    }
    forall e | 0 <= e < |t.stream| ensures CountOk(t.stream[e], e, t.channels, t.handlings, t.deliveries[e]) {
      PublishKeepsCounts(s, h0, sent, e);
    }
  }

  lemma {:induction false} PoppedSubOk(channel: seq<Pub>, sub: Sub)
    requires SubOk(channel, sub) && sub.queue != []
    ensures SubOk(channel, Sub(sub.since, sub.seen + 1, sub.queue[1..]))
  {
    assert channel[sub.since + sub.seen..][1..] == channel[sub.since + sub.seen + 1..];
  }

  lemma {:induction false} PoppedOk(channels: map<string, seq<Pub>>, p: Replica, tenant: string)
    requires ReplicaOk(channels, p) && tenant in p.subs && p.subs[tenant].queue != []
    ensures ReplicaOk(channels, Popped(p, tenant))
  {
    var q := Popped(p, tenant);
    forall t | t in q.subs ensures SubOk(ChannelOf(channels, t), q.subs[t]) {
      assert SubOk(ChannelOf(channels, t), p.subs[t]);
      if t == tenant {
        PoppedSubOk(ChannelOf(channels, t), p.subs[t]);
      }
    }
  }

  /** Steps that change one replica's queues, connections or existence, and drop handlings at most. */
  lemma {:induction false} ReplicaStepKeeps(s: State, r: nat, p: Replica, handlings: map<nat, Handling>)
    requires Inv(s) && ReplicaOk(s.channels, p)
    requires forall h :: h in handlings ==> h in s.handlings && handlings[h] == s.handlings[h]
    requires forall h :: h in handlings && handlings[h].rep == r ==>
      r in s.replicas && p.subs.Keys == s.replicas[r].subs.Keys
    ensures Inv(s.(replicas := s.replicas[r := p], handlings := handlings))
  {
    var t := s.(replicas := s.replicas[r := p], handlings := handlings);
    forall h | h in t.handlings ensures h < t.next && HandlingOk(t.stream, t.replicas, t.handlings[h]) {
      assert HandlingOk(s.stream, s.replicas, s.handlings[h]);
    }
    forall e | 0 <= e < |t.stream| ensures CountOk(t.stream[e], e, t.channels, t.handlings, t.deliveries[e]) {
      assert CountOk(s.stream[e], e, s.channels, s.handlings, s.deliveries[e]);
      CardinalityMonotone(HandlingsOf(t.handlings, e), HandlingsOf(s.handlings, e));
    }
  }

  lemma {:induction false} StepKeeps(s: State, a: Action)
    requires Inv(s) && Enabled(s, a)
    ensures Inv(Step(s, a))
  {
    match a {
      case Join(r) =>
        forall h | h in s.handlings ensures s.handlings[h].rep != r {
          assert HandlingOk(s.stream, s.replicas, s.handlings[h]);
        }
        ReplicaStepKeeps(s, r, FRESH, s.handlings);
      case Emit(m) => EmitKeeps(s, m);
      case Deliver(r, event) => DeliverKeeps(s, r, event);
      case EnsureSubscribed(h) => EnsureSubscribedKeeps(s, h);
      case Publish(h, sent) => PublishKeeps(s, h, sent);
      case Pop(r, tenant) =>
        assert ReplicaOk(s.channels, s.replicas[r]);
        PoppedOk(s.channels, s.replicas[r], tenant);
        ReplicaStepKeeps(s, r, Popped(s.replicas[r], tenant), s.handlings);
      case Connection(r, e) =>
        assert ReplicaOk(s.channels, s.replicas[r]);
        ReplicaStepKeeps(s, r, s.replicas[r].(conns := R.Apply(s.replicas[r].conns, e)), s.handlings);
      case Crash(r) =>
        ReplicaStepKeeps(s, r, FRESH, Step(s, a).handlings);
    }
  }

  lemma {:induction false} RunKeeps(s: State, run: seq<Action>)
    requires Inv(s) && Valid(s, run)
    ensures Inv(Run(s, run))
    decreases run
  {
    if run != [] {
      StepKeeps(s, run[0]);
      RunKeeps(Step(s, run[0]), run[1..]);
    }
  }

  ghost predicate Reachable(s: State) {
    exists run :: Valid(INIT, run) && Run(INIT, run) == s
  }

  lemma {:induction false} ReachableInv(s: State)
    requires Reachable(s)
    ensures Inv(s)
  {
    var run :| Valid(INIT, run) && Run(INIT, run) == s;
    RunKeeps(INIT, run);
  }

  // ----- one publish, one pop -----

  /**
   A publish that takes effect enters the queue of every replica subscribed to the tenant, at
   the end; the publishing replica is one of them, so the owner always gets its own copy.
   */
  lemma {:induction false} PublisherReceivesOwnCopy(s: State, h: nat, sent: Sent)
    requires Reachable(s) && Enabled(s, Publish(h, sent)) && sent != Lost
    ensures var t, tenant, own := Step(s, Publish(h, sent)), TenantOf(s, h), s.handlings[h].rep;
      && tenant in s.replicas[own].subs
      && Channel(t, tenant) == Channel(s, tenant) + [PubOf(s, h)]
      && forall q :: q in s.replicas && tenant in s.replicas[q].subs ==>
           q in t.replicas && tenant in t.replicas[q].subs
           && t.replicas[q].subs[tenant].queue == s.replicas[q].subs[tenant].queue + [PubOf(s, h)]
  {
    ReachableInv(s);
    assert HandlingOk(s.stream, s.replicas, s.handlings[h]);
  }

  /** Exactly once and in order: what a subscription has popped and holds is what its channel got since. */
  lemma {:induction false} QueueIsUnseenChannel(s: State, r: nat, tenant: string)
    requires Reachable(s) && r in s.replicas
    ensures tenant in s.replicas[r].seenTenants <==> tenant in s.replicas[r].subs
    ensures tenant in s.replicas[r].subs ==>
      var sub := s.replicas[r].subs[tenant];
      && sub.since + sub.seen + |sub.queue| == |Channel(s, tenant)|
      && sub.queue == Channel(s, tenant)[sub.since + sub.seen..]
  {
    ReachableInv(s);
    assert ReplicaOk(s.channels, s.replicas[r]);
  }

  /**
   A pop writes its message to the connection that then holds the slot on that replica, or to none;
   no other step writes.
   */
  lemma {:induction false} WritesGoToTheOccupant(s: State, a: Action, r: nat)
    requires Enabled(s, a) && r in s.replicas && a != Crash(r)
    ensures r in Step(s, a).replicas
    ensures !(a.Pop? && a.r == r) ==> Step(s, a).replicas[r].writes == s.replicas[r].writes
    ensures a.Pop? && a.r == r ==>
      var pub := s.replicas[r].subs[a.tenant].queue[0];
      var k := R.Key(a.tenant, pub.env.agent);
      Step(s, a).replicas[r].writes ==
        if k in s.replicas[r].conns then s.replicas[r].writes + [Write(a.tenant, s.replicas[r].conns[k], pub)]
        else s.replicas[r].writes
  {
    match a {
      case Publish(h, sent) => assert Published(s, h, sent).replicas.Keys == s.replicas.Keys;
      case _ =>
    }
  }

  /** The stream's next message is taken as what it announces; without a tenant token missing, as nothing else. */
  lemma {:induction false} EmitTakesAnnounced(s: State, m: Msg)
    ensures Step(s, Emit(m)).deliveries == s.deliveries + [0]
    ensures |Step(s, Emit(m)).stream| == |s.stream| + 1 && s.stream <= Step(s, Emit(m)).stream
    ensures forall e, tenant, agent :: Announces(m, e, tenant, agent) ==>
      Step(s, Emit(m)).stream[|s.stream|] == Some(Forward(tenant, Envelope(e, agent, m.data.fields)))
    ensures !TenantMissing(m) ==>
      (Step(s, Emit(m)).stream[|s.stream|] == None <==> forall e, tenant, agent :: !Announces(m, e, tenant, agent))
  {
    forall e, tenant, agent
      ensures Announces(m, e, tenant, agent) ==>
        Forwarded(m) == Some(Forward(tenant, Envelope(e, agent, m.data.fields)))
    {
      if Announces(m, e, tenant, agent) {
        AnnouncedIsForwarded(m, e, tenant, agent);
      }
    }
    if !TenantMissing(m) {
      DroppedIffUnannounced(m);
    }
  }

  /** A crash takes the replica's own subscriptions, connections and handlings and touches no other replica. */
  lemma {:induction false} CrashIsLocal(s: State, r: nat)
    requires Enabled(s, Crash(r))
    ensures var t := Step(s, Crash(r));
      && t.stream == s.stream && t.channels == s.channels && t.deliveries == s.deliveries
      && t.replicas.Keys == s.replicas.Keys
      && (forall q :: q in s.replicas && q != r ==> t.replicas[q] == s.replicas[q])
      && t.replicas[r].subs == map[] && t.replicas[r].seenTenants == {} && t.replicas[r].conns == map[]
      && (forall h :: h in t.handlings <==> h in s.handlings && s.handlings[h].rep != r)
      && (forall h :: h in t.handlings ==> t.handlings[h] == s.handlings[h])
  {
  }
}
