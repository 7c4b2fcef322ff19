/** Connection life cycles on one replica's WebSocket server, and its shutdown. */
module WsServer {
  import opened Basics
  import opened Registry

  /** Where a connection's ServeHTTP call is; the two disconnect steps are deferred in order. */
  datatype Stage = Accepted | InRegistry | Reading | Unregistered | Gone

  /** conns is the registry's table, tracked the server's own set, history every registry call. */
  datatype State = State(keys: map<ConnId, Key>, stages: map<ConnId, Stage>, history: seq<Event>,
                         conns: map<Key, ConnId>, tracked: set<ConnId>)

  datatype Action =
    | Accept(c: ConnId, k: Key)
    | Register(c: ConnId)
    | Track(c: ConnId)
    | Unregister(c: ConnId)
    | Untrack(c: ConnId)

  predicate At(s: State, c: ConnId, stage: Stage) {
    c in s.stages && s.stages[c] == stage
  }

  predicate Enabled(s: State, a: Action) {
    match a
    case Accept(c, _) => c !in s.stages
    case Register(c) => At(s, c, Accepted) && c in s.keys
    case Track(c) => At(s, c, InRegistry)
    case Unregister(c) => At(s, c, Reading) && c in s.keys
    case Untrack(c) => At(s, c, Unregistered)
  }

  function Step(s: State, a: Action): State
    requires Enabled(s, a)
  {
    match a
    case Accept(c, k) => s.(keys := s.keys[c := k], stages := s.stages[c := Accepted])
    case Register(c) =>
      var k := s.keys[c];
      if k.tenant == "" || k.agent == "" then s.(stages := s.stages[c := Gone])
      else s.(stages := s.stages[c := InRegistry], history := s.history + [Registered(k, c)],
             conns := Apply(s.conns, Registered(k, c)))
    case Track(c) => s.(stages := s.stages[c := Reading], tracked := s.tracked + {c})
    case Unregister(c) =>
      var e := Cleanup(s.keys[c], c);
      s.(stages := s.stages[c := Unregistered], history := s.history + [e], conns := Apply(s.conns, e))
    case Untrack(c) => s.(stages := s.stages[c := Gone], tracked := s.tracked - {c})
  }

  ghost predicate Valid(s: State, run: seq<Action>)
    decreases run
  {
    run == [] || (Enabled(s, run[0]) && Valid(Step(s, run[0]), run[1..]))
  }

  ghost function Run(s: State, run: seq<Action>): State
    requires Valid(s, run)
    decreases run
  {
    if run == [] then s else Run(Step(s, run[0]), run[1..])
  }

  const INIT: State := State(map[], map[], [], map[], {})

  ghost function LastRegistered(history: seq<Event>, k: Key): Option<ConnId> {
    if history == [] then None
    else
      var e := history[|history| - 1];
      if e.Registered? && e.k == k then Some(e.c) else LastRegistered(history[..|history| - 1], k)
  }

  /** The connection has registered and its own disconnect has not run. */
  predicate Live(s: State, c: ConnId) {
    At(s, c, InRegistry) || At(s, c, Reading)
  }

  ghost predicate SlotInv(s: State, k: Key) {
    && (k in s.conns ==> s.conns[k] in s.keys && s.keys[s.conns[k]] == k)
    && match LastRegistered(s.history, k)
       case None => k !in s.conns
       case Some(c) =>
         && c in s.keys && s.keys[c] == k
         && if Live(s, c) then k in s.conns && s.conns[k] == c else k !in s.conns
  }

  ghost predicate TrackedInv(s: State) {
    forall c :: c in s.tracked <==> At(s, c, Reading) || At(s, c, Unregistered)
  }

  ghost predicate Inv(s: State) {
    && s.keys.Keys == s.stages.Keys
    && s.conns == After(s.history)
    && TrackedInv(s)
    && (forall k :: SlotInv(s, k))
  }

  lemma {:induction false} LastRegisteredAppend(history: seq<Event>, e: Event, k: Key)
    ensures LastRegistered(history + [e], k) ==
      if e.Registered? && e.k == k then Some(e.c) else LastRegistered(history, k)
    ensures After(history + [e]) == Apply(After(history), e)
  {
    assert (history + [e])[..|history + [e]| - 1] == history;
  }

  lemma {:induction false} RegisterKeepsSlot(s: State, c: ConnId, k: Key)
    requires SlotInv(s, k) && s.keys.Keys == s.stages.Keys && Enabled(s, Register(c))
    ensures SlotInv(Step(s, Register(c)), k)
  {
    LastRegisteredAppend(s.history, Registered(s.keys[c], c), k);
  }

  lemma {:induction false} UnregisterKeepsSlot(s: State, c: ConnId, k: Key)
    requires SlotInv(s, k) && s.keys.Keys == s.stages.Keys && Enabled(s, Unregister(c))
    ensures SlotInv(Step(s, Unregister(c)), k)
  {
    LastRegisteredAppend(s.history, Cleanup(s.keys[c], c), k);
  }

  lemma {:induction false} SlotKeeps(s: State, a: Action, k: Key)
    requires Inv(s) && Enabled(s, a)
    ensures SlotInv(Step(s, a), k)
  {
    assert SlotInv(s, k);
    match a {
      case Register(c) => RegisterKeepsSlot(s, c, k);
      case Unregister(c) => UnregisterKeepsSlot(s, c, k);
      case _ =>
    }
  }

  lemma {:induction false} TrackedKeeps(s: State, a: Action)
    requires TrackedInv(s) && s.keys.Keys == s.stages.Keys && Enabled(s, a)
    ensures TrackedInv(Step(s, a)) && Step(s, a).keys.Keys == Step(s, a).stages.Keys
  {
  }

  /** No step moves another connection, and none changes another's tracking. */
  lemma {:induction false} StepIsOwn(s: State, a: Action, c: ConnId)
    requires Enabled(s, a) && c != a.c
    ensures c in s.stages <==> c in Step(s, a).stages
    ensures c in s.stages ==> Step(s, a).stages[c] == s.stages[c]
    ensures c in s.keys <==> c in Step(s, a).keys
    ensures c in s.keys ==> Step(s, a).keys[c] == s.keys[c]
    ensures c in s.tracked <==> c in Step(s, a).tracked
  {
  }

  lemma {:induction false} TableKeeps(s: State, a: Action)
    requires s.conns == After(s.history) && Enabled(s, a)
    ensures Step(s, a).conns == After(Step(s, a).history)
  {
    match a {
      case Register(c) => LastRegisteredAppend(s.history, Registered(s.keys[c], c), s.keys[c]);
      case Unregister(c) => LastRegisteredAppend(s.history, Cleanup(s.keys[c], c), s.keys[c]);
      case _ =>
    }
  }

  lemma {:induction false} StepKeeps(s: State, a: Action)
    requires Inv(s) && Enabled(s, a)
    ensures Inv(Step(s, a))
  {
    TableKeeps(s, a);
    TrackedKeeps(s, a);
    forall k ensures SlotInv(Step(s, a), k) {
      SlotKeeps(s, a, k);
    }
  }

  lemma {:induction false} RunKeeps(s: State, run: seq<Action>)
    requires Inv(s) && Valid(s, run)
    ensures Inv(Run(s, run))
    decreases run
  {
    if run != [] {
      StepKeeps(s, run[0]);
      RunKeeps(Step(s, run[0]), run[1..]);
    }
  }

  /**
   Over all interleavings of connects and disconnects, a slot holds the last connection that
   registered for it, if that connection's own disconnect has not run, and otherwise none.
   */
  lemma {:induction false} SlotHoldsLastLive(run: seq<Action>, k: Key)
    requires Valid(INIT, run)
    ensures var s := Run(INIT, run);
      && s.conns == After(s.history)
      && match LastRegistered(s.history, k)
         case None => k !in s.conns
         case Some(c) => if Live(s, c) then k in s.conns && s.conns[k] == c else k !in s.conns
  {
    RunKeeps(INIT, run);
    assert SlotInv(Run(INIT, run), k);
  }

  /** An occupant is tracked exactly from its own track step on. */
  lemma {:induction false} TrackingCoversRegistry(run: seq<Action>, k: Key)
    requires Valid(INIT, run) && k in Run(INIT, run).conns
    ensures var s := Run(INIT, run);
      s.conns[k] in s.tracked <==> !At(s, s.conns[k], InRegistry)
  {
    RunKeeps(INIT, run);
    assert SlotInv(Run(INIT, run), k);
  }

  /** The upgrade has succeeded and the read loop has not ended. */
  predicate Open(s: State, c: ConnId) {
    At(s, c, Accepted) || At(s, c, InRegistry) || At(s, c, Reading)
  }

  /** In every reachable state Shutdown's snapshot holds an open connection exactly from its track step on. */
  lemma {:induction false} ShutdownReaches(run: seq<Action>, c: ConnId)
    requires Valid(INIT, run) && Open(Run(INIT, run), c)
    ensures var s := Run(INIT, run);
      c in s.tracked <==> !At(s, c, Accepted) && !At(s, c, InRegistry)
  {
    RunKeeps(INIT, run);
  }

  /** Shutdown reaches every open connection iff none is between its upgrade and its track step. */
  lemma {:induction false} ShutdownReachesAll(run: seq<Action>)
    requires Valid(INIT, run)
    ensures var s := Run(INIT, run);
      (forall c :: Open(s, c) ==> c in s.tracked) <==> (forall c :: !At(s, c, Accepted) && !At(s, c, InRegistry))
  {
    var s := Run(INIT, run);
    forall c | Open(s, c) ensures c in s.tracked <==> !At(s, c, Accepted) && !At(s, c, InRegistry) {
      ShutdownReaches(run, c);
    }
    assert forall c :: At(s, c, Accepted) || At(s, c, InRegistry) ==> Open(s, c);
  }

  /** Missed before it registers: an upgraded connection that no slot holds yet. */
  lemma {:induction false} MissedBeforeRegister(k: Key)
    ensures var run := [Accept(0, k)];
      Valid(INIT, run) && Open(Run(INIT, run), 0) && 0 !in Run(INIT, run).tracked && Run(INIT, run).conns == map[]
  {
    var run := [Accept(0, k)];
    assert run[1..] == [];
    assert Run(INIT, run) == Run(Step(INIT, run[0]), []);
  }

  lemma {:induction false} RunMore(s: State, run: seq<Action>, a: Action)
    requires Valid(s, run) && Enabled(Run(s, run), a)
    ensures Valid(s, run + [a]) && Run(s, run + [a]) == Step(Run(s, run), a)
    decreases run
  {
    if run == [] {
      assert [a][1..] == [];
      assert run + [a] == [a];
    } else {
      assert (run + [a])[1..] == run[1..] + [a];
      RunMore(Step(s, run[0]), run[1..], a);
    }
  }

  /** Missed between its register and track steps: the slot's own holder. */
  lemma {:induction false} ShutdownGap(k: Key)
    requires k.tenant != "" && k.agent != ""
    ensures var run := [Accept(0, k), Register(0)];
      && Valid(INIT, run)
      && var s := Run(INIT, run);
         Open(s, 0) && k in s.conns && s.conns[k] == 0 && 0 !in s.tracked
  {
    RunMore(INIT, [], Accept(0, k));
    assert [] + [Accept(0, k)] == [Accept(0, k)];
    RunMore(INIT, [Accept(0, k)], Register(0));
    assert [Accept(0, k)] + [Register(0)] == [Accept(0, k), Register(0)];
  }

  /** Missed after it was superseded: its slot's new holder is tracked, it is open and is not. */
  lemma {:induction false} MissedWhenSuperseded(k: Key)
    requires k.tenant != "" && k.agent != ""
    ensures var run := [Accept(0, k), Register(0), Accept(1, k), Register(1), Track(1)];
      && Valid(INIT, run)
      && var s := Run(INIT, run);
         Open(s, 0) && 0 !in s.tracked && At(s, 0, InRegistry) && k in s.conns && s.conns[k] == 1 && 1 in s.tracked
  {
    var a0, a1, a2, a3, a4 := Accept(0, k), Register(0), Accept(1, k), Register(1), Track(1);
    var s1 := Step(INIT, a0);
    var s2 := Step(s1, a1);
    var s3 := Step(s2, a2);
    var s4 := Step(s3, a3);
    RunMore(INIT, [], a0);
    assert [] + [a0] == [a0];
    RunMore(INIT, [a0], a1);
    assert [a0] + [a1] == [a0, a1];
    RunMore(INIT, [a0, a1], a2);
    assert [a0, a1] + [a2] == [a0, a1, a2];
    RunMore(INIT, [a0, a1, a2], a3);
    assert [a0, a1, a2] + [a3] == [a0, a1, a2, a3];
    RunMore(INIT, [a0, a1, a2, a3], a4);
    assert [a0, a1, a2, a3] + [a4] == [a0, a1, a2, a3, a4];
  }

  /** Two steps of the server: registered and tracked, or closed again with an empty id. */
  lemma {:induction false} ConnectSteps(s: State, c: ConnId)
    requires Enabled(s, Register(c))
    ensures var k, t := s.keys[c], Step(s, Register(c));
      if k.tenant == "" || k.agent == "" then t.history == s.history && t.tracked == s.tracked
      else
        && Enabled(t, Track(c))
        && Step(t, Track(c)).history == s.history + [Registered(k, c)]
        && Step(t, Track(c)).tracked == s.tracked + {c}
  {
  }

  /** The two deferred steps: its own registration and its tracking go. */
  lemma {:induction false} DisconnectSteps(s: State, c: ConnId)
    requires Enabled(s, Unregister(c))
    ensures var t := Step(s, Unregister(c));
      && Enabled(t, Untrack(c))
      && Step(t, Untrack(c)).history == s.history + [Cleanup(s.keys[c], c)]
      && Step(t, Untrack(c)).tracked == s.tracked - {c}
  {
  }

  class Server {
    const registry: Registry
    var conn: set<ConnId>

    constructor (registry: Registry)
      ensures this.registry == registry && conn == {}
    {
      this.registry := registry;
      conn := {};
    }

    method TrackConn(c: ConnId, add: bool)
      modifies this
      ensures conn == if add then old(conn) + {c} else old(conn) - {c}
    {
      if add {
        conn := conn + {c};
      } else {
        conn := conn - {c};
      }
    }

    /** ServeHTTP up to the read loop, for an authenticated and upgraded connection. */
    method Connect(c: ConnId, tenant: string, agent: string) returns (err: bool)
      requires registry.Valid()
      modifies this, registry
      ensures registry.Valid()
      ensures err <==> tenant == "" || agent == ""
      ensures conn == if err then old(conn) else old(conn) + {c}
      ensures registry.history ==
        if err then old(registry.history) else old(registry.history) + [Registered(Key(tenant, agent), c)]
    {
      err := registry.Register(tenant, agent, Some(c));
      if !err {
        TrackConn(c, true);
      }
    }

    /** The deferred cleanup. */
    method Disconnect(c: ConnId, tenant: string, agent: string)
      requires registry.Valid()
      modifies this, registry
      ensures registry.Valid()
      ensures conn == old(conn) - {c}
      ensures registry.history == old(registry.history) + [Cleanup(Key(tenant, agent), c)]
    {
      registry.UnregisterIfCurrent(tenant, agent, c);
      TrackConn(c, false);
    }

    /** Closes each tracked connection once; returns the close calls in order. */
    method Shutdown() returns (closed: seq<ConnId>)
      ensures forall c :: c in closed <==> c in conn
      ensures forall i, j :: 0 <= i < j < |closed| ==> closed[i] != closed[j]
    {
      var conns: seq<ConnId> := [];
      var left := conn;
      while left != {}
        invariant left <= conn
        invariant forall c :: c in conns <==> c in conn - left
        invariant forall i, j :: 0 <= i < j < |conns| ==> conns[i] != conns[j]
        decreases left
      {
        var c :| c in left;
        assert c !in conns;
        var grown := conns + [c];
        forall x ensures x in grown <==> x in conns || x == c {
          assert x in conns ==> x in grown;
          assert grown[|conns|] == c;
        }
        conns := grown;
        left := left - {c};
      }
      closed := [];
      for i := 0 to |conns|
        invariant closed == conns[..i]
      {
        closed := closed + [conns[i]];
      }
      assert closed == conns;
    }
  }
}
