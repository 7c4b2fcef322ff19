/** One event, two replicas, two copies: a run of the relay in full, for any forwarded message. */
module RelayDuplicates {
  import opened Basics
  import opened Events
  import opened Relay
  import opened RelayDelivery
  import R = Registry
  import S = Subjects

  lemma {:induction false} DeletedClassified(subject: string)
    requires subject == S.Join(["tenant", "t1", "agent", "deleted"])
    ensures S.Classify(subject) == Some((S.AgentDeleted, "t1"))
  {
    var parts := ["tenant", "t1", "agent", "deleted"];
    S.SplitJoin(parts);
    S.TailWords(subject);
    assert parts[3..] == ["deleted"];
  }

  /** A message that is forwarded. */
  lemma {:induction false} DeletedIsForwarded(subject: string, agent: string, m: Msg)
    requires subject == S.Join(["tenant", "t1", "agent", "deleted"]) && agent != ""
    requires m == Msg(subject, Struct(map["agentId" := Str(agent)]))
    ensures Forwarded(m) == Some(Forward("t1", Envelope(S.AgentDeleted, agent, m.data.fields)))
  {
    DeletedClassified(subject);
  }

  function SlotOf(f: Forward): R.Key {
    R.Key(f.tenant, f.env.agent)
  }

  /**
   Both replicas are up, connection 7 on replica 0 holds the event's slot, and each replica handles
   the event once: it subscribes and publishes. Replica 0 then takes both messages from its subscription.
   */
  function Twice(m: Msg, f: Forward): seq<Action> {
    [Join(0), Join(1), Connection(0, R.Registered(SlotOf(f), 7)), Emit(m), Deliver(0, 0), Deliver(1, 0),
     EnsureSubscribed(0), EnsureSubscribed(1), Publish(0, Delivered), Publish(1, Delivered),
     Pop(0, f.tenant), Pop(0, f.tenant)]
  }

  // ----- the states of the run -----

  /** Two replicas at one moment: their subscriptions, and what connection 7 was written. */
  function Pair(f: Forward, subs0: map<string, Sub>, subs1: map<string, Sub>, copies: nat): map<nat, Replica> {
    map[0 := Replica(subs0.Keys, subs0, map[SlotOf(f) := 7], Written(f, copies)),
        1 := Replica(subs1.Keys, subs1, map[], [])]
  }

  function Written(f: Forward, n: nat): seq<Write> {
    seq(n, _ => Write(f.tenant, 7, Pub(0, f.env)))
  }

  function Queued(f: Forward, seen: nat, waiting: nat): map<string, Sub> {
    map[f.tenant := Sub(0, seen, Pubs(f, waiting))]
  }

  function Pubs(f: Forward, n: nat): seq<Pub> {
    seq(n, _ => Pub(0, f.env))
  }

  function Handled(f: Forward, handlings: map<nat, Handling>, published: nat, replicas: map<nat, Replica>): State {
    State([Some(f)], [2], handlings, 2, if published == 0 then map[] else map[f.tenant := Pubs(f, published)], replicas)
  }

  function States(f: Forward): seq<State> {
    var waiting0, waiting1 := Handling(0, 0, false), Handling(1, 0, false);
    var ready0, ready1 := Handling(0, 0, true), Handling(1, 0, true);
    var up := Pair(f, map[], map[], 0);
    [INIT,
     INIT.(replicas := map[0 := FRESH]),
     INIT.(replicas := map[0 := FRESH, 1 := FRESH]),
     INIT.(replicas := up),
     State([Some(f)], [0], map[], 0, map[], up),
     State([Some(f)], [1], map[0 := waiting0], 1, map[], up),
     Handled(f, map[0 := waiting0, 1 := waiting1], 0, up),
     Handled(f, map[0 := ready0, 1 := waiting1], 0, Pair(f, Queued(f, 0, 0), map[], 0)),
     Handled(f, map[0 := ready0, 1 := ready1], 0, Pair(f, Queued(f, 0, 0), Queued(f, 0, 0), 0)),
     Handled(f, map[1 := ready1], 1, Pair(f, Queued(f, 0, 1), Queued(f, 0, 1), 0)),
     Handled(f, map[], 2, Pair(f, Queued(f, 0, 2), Queued(f, 0, 2), 0)),
     Handled(f, map[], 2, Pair(f, Queued(f, 1, 1), Queued(f, 0, 2), 1)),
     Handled(f, map[], 2, Pair(f, Queued(f, 2, 0), Queued(f, 0, 2), 2))]
  }

  ghost predicate Leads(m: Msg, f: Forward, i: nat)
    requires i < 12
  {
    Enabled(States(f)[i], Twice(m, f)[i]) && Step(States(f)[i], Twice(m, f)[i]) == States(f)[i + 1]
  }

  lemma {:induction false} PairUnsubscribed(f: Forward)
    ensures Pair(f, map[], map[], 0) == map[0 := FRESH.(conns := map[SlotOf(f) := 7]), 1 := FRESH]
  {
    var none: map<string, Sub> := map[];
    assert none.Keys == {} && Written(f, 0) == [];
  }

  lemma {:induction false} JoinTwice(m: Msg, f: Forward)
    ensures Leads(m, f, 0) && Leads(m, f, 1)
  {
  }

  lemma {:induction false} OwnerConnects(f: Forward)
    ensures var s := INIT.(replicas := map[0 := FRESH, 1 := FRESH]);
      Step(s, Connection(0, R.Registered(SlotOf(f), 7))) == INIT.(replicas := Pair(f, map[], map[], 0))
  {
    PairUnsubscribed(f);
    var two: map<nat, Replica> := map[0 := FRESH, 1 := FRESH];
    assert two[0 := FRESH.(conns := R.Apply(map[], R.Registered(SlotOf(f), 7)))] == Pair(f, map[], map[], 0);
  }

  lemma {:induction false} ConnectOnce(m: Msg, f: Forward)
    ensures Leads(m, f, 2)
  {
    OwnerConnects(f);
  }

  lemma {:induction false} EmitOnce(m: Msg, f: Forward)
    requires Forwarded(m) == Some(f)
    ensures Leads(m, f, 3)
  {
  }

  lemma {:induction false} DeliverTwice(m: Msg, f: Forward)
    ensures Leads(m, f, 4) && Leads(m, f, 5)
  {
  }

  lemma {:induction false} SubscribedReplica(p: Replica, f: Forward)
    requires p.seenTenants == {} && p.subs == map[]
    ensures Subscribed(p, f.tenant, 0) == p.(seenTenants := Queued(f, 0, 0).Keys, subs := Queued(f, 0, 0))
  {
    assert Pubs(f, 0) == [];
  }

  lemma {:induction false} OwnerSubscribes(f: Forward, handlings: map<nat, Handling>)
    requires 0 in handlings && handlings[0] == Handling(0, 0, false)
    ensures var s := Handled(f, handlings, 0, Pair(f, map[], map[], 0));
      && Enabled(s, EnsureSubscribed(0))
      && Step(s, EnsureSubscribed(0)) ==
           Handled(f, handlings[0 := Handling(0, 0, true)], 0, Pair(f, Queued(f, 0, 0), map[], 0))
  {
    var s := Handled(f, handlings, 0, Pair(f, map[], map[], 0));
    var none: map<string, Sub> := map[];
    assert none.Keys == {};
    SubscribedReplica(s.replicas[0], f);
    assert Step(s, EnsureSubscribed(0)).replicas == Pair(f, Queued(f, 0, 0), none, 0);
  }

  lemma {:induction false} SubscribeOwner(m: Msg, f: Forward)
    ensures Leads(m, f, 6)
  {
    var hs := map[0 := Handling(0, 0, false), 1 := Handling(1, 0, false)];
    OwnerSubscribes(f, hs);
    assert hs[0 := Handling(0, 0, true)] == map[0 := Handling(0, 0, true), 1 := Handling(1, 0, false)];
  }

  lemma {:induction false} SubscribeOther(m: Msg, f: Forward)
    ensures Leads(m, f, 7)
  {
    var s, t := States(f)[7], States(f)[8];
    var none: map<string, Sub> := map[];
    assert none.Keys == {};
    SubscribedReplica(s.replicas[1], f);
    assert Step(s, Twice(m, f)[7]).replicas == t.replicas;
  }

  lemma {:induction false} ReceivedReplica(p: Replica, f: Forward, n: nat)
    requires p.subs == Queued(f, 0, n) && p.seenTenants == p.subs.Keys
    ensures Received(p, f.tenant, Pub(0, f.env)) ==
      p.(subs := Queued(f, 0, n + 1), seenTenants := Queued(f, 0, n + 1).Keys)
  {
    assert Pubs(f, n) + [Pub(0, f.env)] == Pubs(f, n + 1);
  }

  /** Both replicas receive a publish; the publishing handling ends. */
  lemma {:induction false} PublishOnce(f: Forward, h: nat, handlings: map<nat, Handling>, n: nat)
    requires h in handlings && handlings[h] == Handling(h, 0, true) && h < 2
    ensures var s := Handled(f, handlings, n, Pair(f, Queued(f, 0, n), Queued(f, 0, n), 0));
      && Enabled(s, Publish(h, Delivered))
      && Step(s, Publish(h, Delivered)) ==
           Handled(f, handlings - {h}, n + 1, Pair(f, Queued(f, 0, n + 1), Queued(f, 0, n + 1), 0))
  {
    var s := Handled(f, handlings, n, Pair(f, Queued(f, 0, n), Queued(f, 0, n), 0));
    var t := Step(s, Publish(h, Delivered));
    ReceivedReplica(s.replicas[0], f, n);
    ReceivedReplica(s.replicas[1], f, n);
    assert Channel(s, f.tenant) == Pubs(f, n);
    assert Pubs(f, n) + [Pub(0, f.env)] == Pubs(f, n + 1);
    assert t.channels == map[f.tenant := Pubs(f, n + 1)];
    assert t.replicas == Pair(f, Queued(f, 0, n + 1), Queued(f, 0, n + 1), 0);
  }

  lemma {:induction false} OwnerPublishes(m: Msg, f: Forward)
    ensures Leads(m, f, 8)
  {
    var ready0, ready1 := Handling(0, 0, true), Handling(1, 0, true);
    PublishOnce(f, 0, map[0 := ready0, 1 := ready1], 0);
    assert map[0 := ready0, 1 := ready1] - {0} == map[1 := ready1];
  }

  lemma {:induction false} OtherPublishes(m: Msg, f: Forward)
    ensures Leads(m, f, 9)
  {
    var ready1 := Handling(1, 0, true);
    PublishOnce(f, 1, map[1 := ready1], 1);
    assert map[1 := ready1] - {1} == map[];
  }

  lemma {:induction false} PopOnce(f: Forward, seen: nat, n: nat, subs1: map<string, Sub>)
    ensures var s := Handled(f, map[], 2, Pair(f, Queued(f, seen, n + 1), subs1, seen));
      && Enabled(s, Pop(0, f.tenant))
      && Step(s, Pop(0, f.tenant)) == Handled(f, map[], 2, Pair(f, Queued(f, seen + 1, n), subs1, seen + 1))
  {
    var s := Handled(f, map[], 2, Pair(f, Queued(f, seen, n + 1), subs1, seen));
    var p := s.replicas[0];
    assert Pubs(f, n + 1)[1..] == Pubs(f, n);
    assert Written(f, seen) + [Write(f.tenant, 7, Pub(0, f.env))] == Written(f, seen + 1);
    assert Popped(p, f.tenant).subs == Queued(f, seen + 1, n);
    assert Queued(f, seen + 1, n).Keys == Queued(f, seen, n + 1).Keys;
    assert Step(s, Pop(0, f.tenant)).replicas == Pair(f, Queued(f, seen + 1, n), subs1, seen + 1);
  }

  lemma {:induction false} PopFirst(m: Msg, f: Forward)
    ensures Leads(m, f, 10)
  {
    PopOnce(f, 0, 1, Queued(f, 0, 2));
  }

  lemma {:induction false} PopSecond(m: Msg, f: Forward)
    ensures Leads(m, f, 11)
  {
    PopOnce(f, 1, 0, Queued(f, 0, 2));
  }

  lemma {:induction false} AllLead(m: Msg, f: Forward, i: nat)
    requires Forwarded(m) == Some(f) && i < 12
    ensures Leads(m, f, i)
  {
    match i {
      case 0 => JoinTwice(m, f);
      case 1 => JoinTwice(m, f);
      case 2 => ConnectOnce(m, f);
      case 3 => EmitOnce(m, f);
      case 4 => DeliverTwice(m, f);
      case 5 => DeliverTwice(m, f);
      case 6 => SubscribeOwner(m, f);
      case 7 => SubscribeOther(m, f);
      case 8 => OwnerPublishes(m, f);
      case 9 => OtherPublishes(m, f);
      case 10 => PopFirst(m, f);
      case _ => PopSecond(m, f);
    }
  }

  /**
   For any forwarded message: each of two replicas handles it once, and the one connection that
   holds its slot is written it twice. One replica writes, but not once.
   */
  lemma {:induction false} TwoReplicasTwoCopies(m: Msg, f: Forward)
    requires Forwarded(m) == Some(f)
    ensures Valid(INIT, Twice(m, f))
    ensures var t := Run(INIT, Twice(m, f));
      && t.stream == [Some(f)] && t.deliveries == [2] && t.replicas.Keys == {0, 1}
      && t.replicas[0].writes == [Write(f.tenant, 7, Pub(0, f.env)), Write(f.tenant, 7, Pub(0, f.env))]
      && t.replicas[1].writes == []
  {
    forall i | 0 <= i < 12 ensures Leads(m, f, i) {
      AllLead(m, f, i);
    }
    RunStates(m, f);
    assert Written(f, 2) == [Write(f.tenant, 7, Pub(0, f.env)), Write(f.tenant, 7, Pub(0, f.env))];
  }

  /** A list of states, each leading to the next, is a run. */
  lemma {:induction false} RunOfStates(run: seq<Action>, states: seq<State>, i: nat)
    requires |states| == |run| + 1 && i <= |run|
    requires forall j :: 0 <= j < |run| ==> Enabled(states[j], run[j]) && Step(states[j], run[j]) == states[j + 1]
    ensures Valid(states[i], run[i..]) && Run(states[i], run[i..]) == states[|run|]
    decreases |run| - i
  {
    if i < |run| {
      RunOfStates(run, states, i + 1);
      assert run[i..][1..] == run[i + 1..];
    }
  }

  lemma {:induction false} RunStates(m: Msg, f: Forward)
    requires forall i :: 0 <= i < 12 ==> Leads(m, f, i)
    ensures Valid(INIT, Twice(m, f)) && Run(INIT, Twice(m, f)) == States(f)[12]
  {
    var run, states := Twice(m, f), States(f);
    forall i | 0 <= i < 12 ensures Enabled(states[i], run[i]) && Step(states[i], run[i]) == states[i + 1] {
      assert Leads(m, f, i);
    }
    RunOfStates(run, states, 0);
    assert run[0..] == run;
  }
}
