/**
 Durable at-least-once ingestion, as pkg/eventbus's consume loop and the two services'
 handlers make it: a message is redelivered until acked, it is acked only after its handler
 returned nil, and a handler stores at most one record per delivery. Handlers can crash at
 any point, and one message can be in several handlers at once. decode gives the record the
 table can store for a message; a message without one always ends in an error.
 */
module Ingest {
  import opened Basics
  import opened JobTable

  /** A handler before its insert, after returning nil, or after returning an error. */
  datatype Stage = Received | ReturnedNil | ReturnedError

  datatype Handling = Handling(msg: nat, stage: Stage)

  datatype Entry<R> = Entry(msg: nat, rec: R)

  datatype State<M, R> = State(log: seq<M>, deliveries: seq<nat>, acked: set<nat>,
                               handlings: map<nat, Handling>, next: nat, stored: map<nat, Entry<R>>)

  datatype Action<M> =
    | Publish(m: M)
    | Deliver(msg: nat)
    | Handle(h: nat, key: nat, exec: Exec)
    | Finish(h: nat)
    | Crash(hs: set<nat>)

  ghost predicate Enabled<M, R>(s: State<M, R>, a: Action<M>) {
    match a
    case Publish(_) => true
    case Deliver(msg) => msg < |s.log| == |s.deliveries| && msg !in s.acked
    case Handle(h, key, _) =>
      h in s.handlings && s.handlings[h].stage == Received && s.handlings[h].msg < |s.log| && key !in s.stored
    case Finish(h) => h in s.handlings && s.handlings[h].stage != Received
    case Crash(_) => true
  }

  ghost function Step<M, R>(decode: M -> Option<R>, s: State<M, R>, a: Action<M>): State<M, R>
    requires Enabled(s, a)
  {
    match a
    case Publish(m) => s.(log := s.log + [m], deliveries := s.deliveries + [0])
    case Deliver(msg) =>
      s.(deliveries := s.deliveries[msg := s.deliveries[msg] + 1],
         handlings := s.handlings[s.next := Handling(msg, Received)], next := s.next + 1)
    case Handle(h, key, exec) =>
      var m := s.handlings[h].msg;
      var rec := decode(s.log[m]);
      var stored := if rec.Some? && exec != Refused then s.stored[key := Entry(m, rec.value)] else s.stored;
      var stage := if rec.Some? && exec == Applied then ReturnedNil else ReturnedError;
      s.(stored := stored, handlings := s.handlings[h := Handling(m, stage)])
    case Finish(h) =>
      s.(acked := if s.handlings[h].stage == ReturnedNil then s.acked + {s.handlings[h].msg} else s.acked,
         handlings := s.handlings - {h})
    case Crash(hs) => s.(handlings := s.handlings - hs)
  }

  ghost function Init<M, R>(): State<M, R> {
    State([], [], {}, map[], 0, map[])
  }

  // ----- the invariant -----

  ghost function KeysOf<R>(stored: map<nat, Entry<R>>, msg: nat): set<nat> {
    set key | key in stored && stored[key].msg == msg
  }

  ghost function BeforeInsert(handlings: map<nat, Handling>, msg: nat): set<nat> {
    set h | h in handlings && handlings[h].msg == msg && handlings[h].stage == Received
  }

  ghost predicate Recorded<M, R(!new)>(decode: M -> Option<R>, log: seq<M>, stored: map<nat, Entry<R>>) {
    forall key :: key in stored ==> stored[key].msg < |log| && decode(log[stored[key].msg]) == Some(stored[key].rec)
  }

  ghost predicate Inv<M, R(!new)>(decode: M -> Option<R>, s: State<M, R>) {
    && |s.deliveries| == |s.log|
    && Recorded(decode, s.log, s.stored)
    && (forall h :: h in s.handlings ==> h < s.next && s.handlings[h].msg < |s.log|)
    && (forall h :: h in s.handlings && s.handlings[h].stage == ReturnedNil ==>
          KeysOf(s.stored, s.handlings[h].msg) != {})
    && (forall m :: m in s.acked ==> m < |s.log| && KeysOf(s.stored, m) != {})
    && (forall m :: 0 <= m < |s.log| ==> |KeysOf(s.stored, m)| + |BeforeInsert(s.handlings, m)| <= s.deliveries[m])
  }

  lemma {:induction false} BeforeInsertDelivered(hs: map<nat, Handling>, h: nat, msg: nat, m: nat)
    requires h !in hs
    ensures |BeforeInsert(hs[h := Handling(msg, Received)], m)| == |BeforeInsert(hs, m)| + (if m == msg then 1 else 0)
  {
    var now := BeforeInsert(hs[h := Handling(msg, Received)], m);
    assert now == if m == msg then BeforeInsert(hs, m) + {h} else BeforeInsert(hs, m);
  }

  lemma {:induction false} BeforeInsertReturned(hs: map<nat, Handling>, h: nat, stage: Stage, m: nat)
    requires h in hs && hs[h].stage == Received && stage != Received
    ensures |BeforeInsert(hs, m)| ==
      |BeforeInsert(hs[h := Handling(hs[h].msg, stage)], m)| + (if m == hs[h].msg then 1 else 0)
  {
    var after := BeforeInsert(hs[h := Handling(hs[h].msg, stage)], m);
    assert BeforeInsert(hs, m) == if m == hs[h].msg then after + {h} else after;
  }

  lemma {:induction false} KeysOfStored<R>(stored: map<nat, Entry<R>>, key: nat, e: Entry<R>, m: nat)
    requires key !in stored
    ensures KeysOf(stored, m) <= KeysOf(stored[key := e], m)
    ensures m == e.msg ==> key in KeysOf(stored[key := e], m)
    ensures |KeysOf(stored[key := e], m)| == |KeysOf(stored, m)| + (if m == e.msg then 1 else 0)
  {
    assert KeysOf(stored[key := e], m) == if m == e.msg then KeysOf(stored, m) + {key} else KeysOf(stored, m);
  }

  lemma {:induction false} DeliverKeeps<M, R(!new)>(decode: M -> Option<R>, s: State<M, R>, msg: nat)
    requires Inv(decode, s) && Enabled(s, Deliver(msg))
    ensures Inv(decode, Step(decode, s, Deliver(msg)))
  {
    var t := Step(decode, s, Deliver(msg));
    forall m | 0 <= m < |t.log| ensures |KeysOf(t.stored, m)| + |BeforeInsert(t.handlings, m)| <= t.deliveries[m] {
      BeforeInsertDelivered(s.handlings, s.next, msg, m);
    }
  }

  lemma {:induction false} HandleKeeps<M, R(!new)>(decode: M -> Option<R>, s: State<M, R>, h: nat, key: nat, exec: Exec)
    requires Inv(decode, s) && Enabled(s, Handle(h, key, exec))
    ensures Inv(decode, Step(decode, s, Handle(h, key, exec)))
  {
    var t := Step(decode, s, Handle(h, key, exec));
    forall m | 0 <= m < |t.log|
      ensures KeysOf(s.stored, m) <= KeysOf(t.stored, m)
      ensures m == s.handlings[h].msg && t.handlings[h].stage == ReturnedNil ==> KeysOf(t.stored, m) != {}
      ensures |KeysOf(t.stored, m)| + |BeforeInsert(t.handlings, m)| <= t.deliveries[m]
    {
      BeforeInsertReturned(s.handlings, h, t.handlings[h].stage, m);
      if t.stored != s.stored {
        KeysOfStored(s.stored, key, t.stored[key], m);
      }
    }
  }

  lemma {:induction false} StepKeeps<M, R(!new)>(decode: M -> Option<R>, s: State<M, R>, a: Action<M>)
    requires Inv(decode, s) && Enabled(s, a)
    ensures Inv(decode, Step(decode, s, a))
  {
    var t := Step(decode, s, a);
    match a {
      case Publish(m) =>
        var n := |s.log|;
        assert KeysOf(s.stored, n) == {} && BeforeInsert(s.handlings, n) == {};
      case Deliver(msg) => DeliverKeeps(decode, s, msg);
      case Handle(h, key, exec) => HandleKeeps(decode, s, h, key, exec);
      case _ =>
        forall m | 0 <= m < |t.log| ensures |KeysOf(t.stored, m)| + |BeforeInsert(t.handlings, m)| <= t.deliveries[m] {
          CardinalityMonotone(BeforeInsert(t.handlings, m), BeforeInsert(s.handlings, m));
        }
    }
  }

  ghost predicate Valid<M, R>(decode: M -> Option<R>, s: State<M, R>, run: seq<Action<M>>)
    decreases |run|
  {
    run == [] || (Enabled(s, run[0]) && Valid(decode, Step(decode, s, run[0]), run[1..]))
  }

  ghost function Run<M, R>(decode: M -> Option<R>, s: State<M, R>, run: seq<Action<M>>): State<M, R>
    requires Valid(decode, s, run)
    decreases |run|
  {
    if run == [] then s else Run(decode, Step(decode, s, run[0]), run[1..])
  }

  lemma {:induction false} RunKeeps<M, R(!new)>(decode: M -> Option<R>, s: State<M, R>, run: seq<Action<M>>)
    requires Inv(decode, s) && Valid(decode, s, run)
    ensures Inv(decode, Run(decode, s, run))
    decreases |run|
  {
    if run != [] {
      StepKeeps(decode, s, run[0]);
      RunKeeps(decode, Step(decode, s, run[0]), run[1..]);
    }
  }

  /**
   No acked message is lost: after every run it has a stored record, every stored record is
   what its message decodes to, and a message has no more records than deliveries.
   */
  lemma {:induction false} AckedIsStored<M, R(!new)>(decode: M -> Option<R>, run: seq<Action<M>>, msg: nat)
    requires Valid(decode, Init<M, R>(), run)
    requires msg < |Run(decode, Init<M, R>(), run).log|
    ensures var s := Run(decode, Init<M, R>(), run);
      && (msg in s.acked ==> exists key :: key in s.stored && s.stored[key].msg == msg)
      && (forall key :: key in KeysOf(s.stored, msg) ==> decode(s.log[msg]) == Some(s.stored[key].rec))
      && |s.deliveries| == |s.log| && |KeysOf(s.stored, msg)| <= s.deliveries[msg]
  {
    RunKeeps(decode, Init<M, R>(), run);
    var s := Run(decode, Init<M, R>(), run);
    if msg in s.acked {
      var key :| key in KeysOf(s.stored, msg);
    }
  }

  /** A message whose handler can never succeed is never acked: it is redelivered for good. */
  lemma {:induction false} UndecodableIsNeverAcked<M, R(!new)>(decode: M -> Option<R>, run: seq<Action<M>>, msg: nat)
    requires Valid(decode, Init<M, R>(), run)
    requires msg < |Run(decode, Init<M, R>(), run).log|
    requires decode(Run(decode, Init<M, R>(), run).log[msg]) == None
    ensures msg !in Run(decode, Init<M, R>(), run).acked
  {
    AckedIsStored(decode, run, msg);
  }

  lemma {:induction false} LogGrows<M, R(!new)>(decode: M -> Option<R>, s: State<M, R>, run: seq<Action<M>>)
    requires Valid(decode, s, run)
    ensures s.log <= Run(decode, s, run).log
    decreases |run|
  {
    if run != [] {
      LogGrows(decode, Step(decode, s, run[0]), run[1..]);
    }
  }

  lemma {:induction false} FreshKey(keys: set<nat>) returns (n: nat)
    ensures forall k :: k in keys ==> k < n
  {
    n := 0;
    if keys != {} {
      var k :| k in keys;
      var m := FreshKey(keys - {k});
      n := if k < m then m else k + 1;
      assert forall x :: x in keys ==> x == k || x in keys - {k};
    }
  }

  /** One delivery whose insert succeeds, and the ack. */
  lemma {:induction false} DecodableCanBeAcked<M, R(!new)>(decode: M -> Option<R>, s: State<M, R>,
                                                    msg: nat) returns (run: seq<Action<M>>)
    requires Inv(decode, s) && msg < |s.log| && msg !in s.acked && decode(s.log[msg]).Some?
    ensures Valid(decode, s, run) && msg in Run(decode, s, run).acked
  {
    var key := FreshKey(s.stored.Keys);
    var deliver, handle, finish := Deliver(msg), Handle(s.next, key, Applied), Finish(s.next);
    run := [deliver, handle, finish];
    var t := Step(decode, s, deliver);
    assert Enabled(t, handle);
    var u := Step(decode, t, handle);
    var v := Step(decode, u, finish);
    assert run[1..] == [handle, finish] && [handle, finish][1..] == [finish] && [finish][1..] == [];
    assert Valid(decode, v, []) && Run(decode, v, []) == v;
    assert Valid(decode, u, [finish]) && Run(decode, u, [finish]) == v;
    assert Valid(decode, t, [handle, finish]) && Run(decode, t, [handle, finish]) == v;
  }

  /** In a reachable state, an unacked message stays unacked in every continuation exactly when it does not decode. */
  lemma {:induction false} NeverAckedIffUndecodable<M, R(!new)>(decode: M -> Option<R>, past: seq<Action<M>>, msg: nat)
    requires Valid(decode, Init<M, R>(), past)
    requires var s := Run(decode, Init<M, R>(), past); msg < |s.log| && msg !in s.acked
    ensures var s := Run(decode, Init<M, R>(), past);
      (forall run :: Valid(decode, s, run) ==> msg !in Run(decode, s, run).acked) <==> decode(s.log[msg]) == None
  {
    RunKeeps(decode, Init<M, R>(), past);
    var s := Run(decode, Init<M, R>(), past);
    if decode(s.log[msg]) == None {
      forall run | Valid(decode, s, run) ensures msg !in Run(decode, s, run).acked {
        RunKeeps(decode, s, run);
        LogGrows(decode, s, run);
        assert Run(decode, s, run).log[msg] == s.log[msg];
      }
    } else {
      var run := DecodableCanBeAcked(decode, s, msg);
    }
  }
}
