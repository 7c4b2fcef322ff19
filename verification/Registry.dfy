/** The per-replica connection table of agent-presence. */
module Registry {
  import opened Basics

  /** A connection's identity; registry.go compares connections by identity only. */
  type ConnId = nat

  datatype Key = Key(tenant: string, agent: string)

  /** The calls that change the table, as they took effect. */
  datatype Event = Registered(k: Key, c: ConnId) | Removed(k: Key) | Cleanup(k: Key, c: ConnId)

  function Apply(conns: map<Key, ConnId>, e: Event): map<Key, ConnId> {
    match e
    case Registered(k, c) => conns[k := c]
    case Removed(k) => conns - {k}
    case Cleanup(k, c) => if k in conns && conns[k] == c then conns - {k} else conns
  }

  ghost function After(history: seq<Event>): map<Key, ConnId> {
    if history == [] then map[] else Apply(After(history[..|history| - 1]), history[|history| - 1])
  }

  /** c registered for k at i, and nothing later replaced it or took it out. */
  ghost predicate StandsSince(history: seq<Event>, i: nat, k: Key, c: ConnId) {
    && i < |history| && history[i] == Registered(k, c)
    && forall j :: i < j < |history| ==>
        !(history[j].Registered? && history[j].k == k) && history[j] != Removed(k) && history[j] != Cleanup(k, c)
  }

  /**
   The table against its history: k is held by c exactly when c's registration is the last for
   k, no plain Unregister followed, and no cleanup of c itself followed. Cleanups of other
   connections, before or after, make no difference.
   */
  lemma {:induction false} LookupMeaning(history: seq<Event>, k: Key, c: ConnId)
    ensures k in After(history) && After(history)[k] == c <==> exists i: nat :: StandsSince(history, i, k, c)
  {
    if history != [] {
      var n := |history| - 1;
      var front, e := history[..n], history[n];
      LookupMeaning(front, k, c);
      if k in After(history) && After(history)[k] == c {
        if e == Registered(k, c) {
          assert StandsSince(history, n, k, c);
        } else {
          var i: nat :| StandsSince(front, i, k, c);
          assert StandsSince(history, i, k, c);
        }
      }
      if i: nat :| StandsSince(history, i, k, c) {
        if i < n {
          assert front[i] == history[i];
          assert StandsSince(front, i, k, c);
        }
      }
    }
  }

  /** A superseded connection's cleanup changes nothing, and no call changes another slot. */
  lemma {:induction false} CleanupNeverEvictsSuccessor(history: seq<Event>, e: Event, k: Key)
    ensures e.Cleanup? && e.k in After(history) && After(history)[e.k] != e.c ==> After(history + [e]) == After(history)
    ensures k != e.k ==> (k in After(history + [e]) <==> k in After(history))
    ensures k != e.k && k in After(history) ==> After(history + [e])[k] == After(history)[k]
  {
    assert (history + [e])[..|history + [e]| - 1] == history;
  }

  class Registry {
    var conns: map<Key, ConnId>
    ghost var history: seq<Event>

    ghost predicate Valid()
      reads this
    {
      conns == After(history)
    }

    constructor ()
      ensures Valid() && history == []
    {
      conns := map[];
      history := [];
    }

    ghost method Record(e: Event)
      requires conns == Apply(After(history), e)
      modifies this`history
      ensures Valid() && history == old(history) + [e]
    {
      var next := history + [e];
      assert next[..|next| - 1] == history;
      history := next;
    }

    /** Replaces any connection in the slot; an empty id or a nil connection is refused. */
    method Register(tenant: string, agent: string, conn: Option<ConnId>) returns (err: bool)
      requires Valid()
      modifies this
      ensures Valid()
      ensures err <==> tenant == "" || agent == "" || conn == None
      ensures history == if err then old(history) else old(history) + [Registered(Key(tenant, agent), conn.value)]
    {
      if tenant == "" || agent == "" {
        return true;
      }
      if conn == None {
        return true;
      }
      conns := conns[Key(tenant, agent) := conn.value];
      Record(Registered(Key(tenant, agent), conn.value));
      err := false;
    }

    method Unregister(tenant: string, agent: string)
      requires Valid()
      modifies this
      ensures Valid() && history == old(history) + [Removed(Key(tenant, agent))]
    {
      conns := conns - {Key(tenant, agent)};
      Record(Removed(Key(tenant, agent)));
    }

    method UnregisterIfCurrent(tenant: string, agent: string, conn: ConnId)
      requires Valid()
      modifies this
      ensures Valid() && history == old(history) + [Cleanup(Key(tenant, agent), conn)]
    {
      var k := Key(tenant, agent);
      if k in conns && conns[k] == conn {
        conns := conns - {k};
      }
      Record(Cleanup(k, conn));
    }

    method Lookup(tenant: string, agent: string) returns (conn: Option<ConnId>)
      requires Valid()
      ensures conn == if Key(tenant, agent) in conns then Some(conns[Key(tenant, agent)]) else None
      ensures forall c: ConnId :: conn == Some(c) <==> exists i: nat :: StandsSince(history, i, Key(tenant, agent), c)
    {
      var k := Key(tenant, agent);
      conn := if k in conns then Some(conns[k]) else None;
      forall c: ConnId ensures conn == Some(c) <==> exists i: nat :: StandsSince(history, i, k, c) {
        LookupMeaning(history, k, c);
      }
    }

    method Len() returns (n: nat)
      requires Valid()
      ensures n == |After(history)|
    {
      n := |conns|;
    }
  }
}
