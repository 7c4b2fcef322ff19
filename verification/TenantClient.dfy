/** TenantScopedTaskRouterClient: one lazily made token source per tenant, and their closing. */
module TenantClient {
  import opened Basics
  import opened Tokens

  /** One EnqueueTask call: its tenant, the connection a dial would open (or None if it fails), and the Token call. */
  datatype Request = Request(tenant: string, dial: Option<nat>, call: Call)

  /** caches and conns per tenant seen; closers in the order the connections were opened. */
  datatype Client = Client(caches: map<string, Cache>, conns: map<string, nat>, closers: seq<nat>)

  const INIT: Client := Client(map[], map[], [])

  /** tokenSourceFor: an existing source is returned as it is. */
  function WithSource(c: Client, tenant: string, dial: Option<nat>): Client {
    if tenant in c.caches || dial == None then c
    else Client(c.caches[tenant := EMPTY], c.conns[tenant := dial.value], c.closers + [dial.value])
  }

  function Enqueued(c: Client, r: Request): Client {
    var d := WithSource(c, r.tenant, r.dial);
    if r.tenant !in d.caches then d
    else d.(caches := d.caches[r.tenant := Next(d.caches[r.tenant], DEFAULT_MARGIN, r.call)])
  }

  /** The token the request carries to Task Router. */
  function Used(c: Client, r: Request): Option<string> {
    var d := WithSource(c, r.tenant, r.dial);
    if r.tenant !in d.caches then None else Answer(d.caches[r.tenant], DEFAULT_MARGIN, r.call)
  }

  ghost function Run(rs: seq<Request>): Client {
    if rs == [] then INIT else Enqueued(Run(rs[..|rs| - 1]), rs[|rs| - 1])
  }

  /** The Token calls made for one tenant: its requests from the first successful dial on. */
  ghost function CallsFor(rs: seq<Request>, tenant: string): seq<Call> {
    if rs == [] then []
    else
      var front, last := rs[..|rs| - 1], rs[|rs| - 1];
      CallsFor(front, tenant)
      + (if last.tenant == tenant && (last.dial.Some? || tenant in Run(front).caches) then [last.call] else [])
  }

  /** Each dial opens a connection of its own. */
  ghost predicate FreshDials(rs: seq<Request>) {
    forall i, j :: 0 <= i < j < |rs| && rs[i].dial.Some? ==> rs[i].dial != rs[j].dial
  }

  /** Some request has opened a source for the tenant. */
  ghost predicate Dialed(rs: seq<Request>, tenant: string) {
    exists i :: 0 <= i < |rs| && rs[i].tenant == tenant && rs[i].dial.Some?
  }

  lemma {:induction false} DialedFront(rs: seq<Request>, tenant: string)
    requires rs != []
    ensures Dialed(rs, tenant) <==>
      Dialed(rs[..|rs| - 1], tenant) || (rs[|rs| - 1].tenant == tenant && rs[|rs| - 1].dial.Some?)
  {
    var front := rs[..|rs| - 1];
    if Dialed(front, tenant) {
      var i :| 0 <= i < |front| && front[i].tenant == tenant && front[i].dial.Some?;
      assert rs[i] == front[i];
    }
    if Dialed(rs, tenant) {
      var i :| 0 <= i < |rs| && rs[i].tenant == tenant && rs[i].dial.Some?;
      assert i < |front| ==> front[i] == rs[i];
    }
  }

  lemma {:induction false} RequestTouchesOwnTenant(c: Client, r: Request, tenant: string)
    ensures tenant != r.tenant ==> (tenant in Enqueued(c, r).caches <==> tenant in c.caches)
    ensures tenant != r.tenant && tenant in c.caches ==> Enqueued(c, r).caches[tenant] == c.caches[tenant]
    ensures r.tenant in Enqueued(c, r).caches <==> r.tenant in c.caches || r.dial.Some?
    ensures r.tenant in Enqueued(c, r).caches ==>
      Enqueued(c, r).caches[r.tenant] ==
        Next(if r.tenant in c.caches then c.caches[r.tenant] else EMPTY, DEFAULT_MARGIN, r.call)
  {
  }

  /**
   Tenants do not disturb each other: after any mix of requests, a tenant's cache is that of a
   token source used for its own requests alone.
   */
  lemma {:induction false} TenantsAreIsolated(rs: seq<Request>, tenant: string)
    ensures tenant in Run(rs).caches <==> Dialed(rs, tenant)
    ensures tenant in Run(rs).caches ==> Run(rs).caches[tenant] == After(DEFAULT_MARGIN, CallsFor(rs, tenant))
    ensures tenant !in Run(rs).caches ==> CallsFor(rs, tenant) == []
  {
    if rs == [] {
      assert !Dialed(rs, tenant);
    } else {
      var front, last := rs[..|rs| - 1], rs[|rs| - 1];
      TenantsAreIsolated(front, tenant);
      DialedFront(rs, tenant);
      RequestTouchesOwnTenant(Run(front), last, tenant);
      var calls := CallsFor(front, tenant);
      if last.tenant == tenant && tenant in Run(rs).caches {
        AfterAppend(calls, last.call);
      } else {
        assert CallsFor(rs, tenant) == calls + [] == calls;
      }
    }
  }

  lemma {:induction false} AfterAppend(calls: seq<Call>, call: Call)
    ensures After(DEFAULT_MARGIN, calls + [call]) == Next(After(DEFAULT_MARGIN, calls), DEFAULT_MARGIN, call)
  {
    assert (calls + [call])[..|calls + [call]| - 1] == calls;
  }

  lemma {:induction false} CallsAreOwn(rs: seq<Request>, tenant: string, k: nat)
    requires k < |CallsFor(rs, tenant)|
    ensures exists i :: 0 <= i < |rs| && rs[i].tenant == tenant && rs[i].call == CallsFor(rs, tenant)[k]
  {
    var front := rs[..|rs| - 1];
    if k < |CallsFor(front, tenant)| {
      CallsAreOwn(front, tenant, k);
      var i :| 0 <= i < |front| && front[i].tenant == tenant && front[i].call == CallsFor(front, tenant)[k];
      assert rs[i] == front[i];
    } else {
      assert rs[|rs| - 1].call == CallsFor(rs, tenant)[k];
    }
  }

  /** Every token used for a tenant was issued for it: just now, or earlier and still beyond the margin. */
  lemma {:induction false} TokensStayWithTheirTenant(rs: seq<Request>, r: Request)
    requires Used(Run(rs), r).Some?
    ensures var t := Used(Run(rs), r).value;
      || (r.call.issue.Issued? && r.call.issue.token == t)
      || exists i :: 0 <= i < |rs| && rs[i].tenant == r.tenant && rs[i].call.issue.Issued?
           && rs[i].call.issue.token == t && r.call.now + 30 * SECOND < rs[i].call.issue.expiresAt
  {
    TenantsAreIsolated(rs, r.tenant);
    var calls := CallsFor(rs, r.tenant);
    AnswersAreCurrent(DEFAULT_MARGIN, calls, r.call);
    var t := Used(Run(rs), r).value;
    if !(r.call.issue.Issued? && r.call.issue.token == t) {
      var k :| 0 <= k < |calls| && calls[k].issue.Issued? && calls[k].issue.token == t
        && r.call.now + DEFAULT_MARGIN < calls[k].issue.expiresAt;
      CallsAreOwn(rs, r.tenant, k);
    }
  }

  /** The token used, against the client before and after the request. */
  ghost predicate UsedRight(c: Client, r: Request, d: Client, used: Option<string>) {
    && (used == None <==>
          || (r.tenant !in c.caches && r.dial == None)
          || (r.call.issue.IssueFailed?
              && !(r.tenant in c.caches && c.caches[r.tenant].token != ""
                   && r.call.now + 30 * SECOND < c.caches[r.tenant].expiresAt)))
    && (used.Some? ==> r.tenant in d.caches && used.value == d.caches[r.tenant].token)
  }

  lemma {:induction false} UsedIsRight(c: Client, r: Request)
    ensures UsedRight(c, r, Enqueued(c, r), Used(c, r))
  {
  }

  /**
   When a token is used and which: none exactly if the tenant never got a source, or its cached token
   would not do and the issue failed; otherwise the one its cache holds after the request.
   */
  lemma {:induction false} TokenUsedExactly(rs: seq<Request>, r: Request)
    ensures Used(Run(rs), r) == None <==>
      || (r.dial == None && forall i :: 0 <= i < |rs| && rs[i].tenant == r.tenant ==> rs[i].dial == None)
      || (r.call.issue.IssueFailed?
          && !(r.tenant in Run(rs).caches && Run(rs).caches[r.tenant].token != ""
               && r.call.now + 30 * SECOND < Run(rs).caches[r.tenant].expiresAt))
    ensures Used(Run(rs), r).Some? ==>
      r.tenant in Run(rs + [r]).caches && Used(Run(rs), r).value == Run(rs + [r]).caches[r.tenant].token
  {
    TenantsAreIsolated(rs, r.tenant);
    UsedIsRight(Run(rs), r);
    assert (rs + [r])[..|rs + [r]| - 1] == rs;
    assert Dialed(rs, r.tenant) <==>
      !(forall i :: 0 <= i < |rs| && rs[i].tenant == r.tenant ==> rs[i].dial == None);
  }

  ghost predicate ClosersMatch(c: Client) {
    && c.conns.Keys == c.caches.Keys
    && (forall i, j :: 0 <= i < j < |c.closers| ==> c.closers[i] != c.closers[j])
    && (forall t :: t in c.conns ==> c.conns[t] in c.closers)
    && (forall t, u :: t in c.conns && u in c.conns && c.conns[t] == c.conns[u] ==> t == u)
    && (forall n :: n in c.closers ==> exists t :: t in c.conns && c.conns[t] == n)
  }

  lemma {:induction false} ClosersWereDialed(rs: seq<Request>, n: nat)
    requires n in Run(rs).closers
    ensures exists i :: 0 <= i < |rs| && rs[i].dial == Some(n)
  {
    var front := rs[..|rs| - 1];
    if n in Run(front).closers {
      ClosersWereDialed(front, n);
      var i :| 0 <= i < |front| && front[i].dial == Some(n);
      assert rs[i] == front[i];
    } else {
      assert rs[|rs| - 1].dial == Some(n);
    }
  }

  /**
   Sources and closers stay one to one: no connection twice, none without a tenant, none
   missing, and no two tenants on one connection.
   */
  lemma {:induction false} ClosersMatchSources(rs: seq<Request>)
    requires FreshDials(rs)
    ensures ClosersMatch(Run(rs))
  {
    if rs != [] {
      var front, last := rs[..|rs| - 1], rs[|rs| - 1];
      ClosersMatchSources(front);
      var c := Run(front);
      if last.tenant !in c.caches && last.dial.Some? {
        if last.dial.value in c.closers {
          ClosersWereDialed(front, last.dial.value);
          assert false;
        }
        SourceAddedMatches(c, last.tenant, last.dial.value);
      }
      RequestKeepsConnections(c, last);
    }
  }

  /** A request never replaces a source: connections and closers only grow. */
  lemma {:induction false} RequestKeepsConnections(c: Client, r: Request)
    ensures var d, e := WithSource(c, r.tenant, r.dial), Enqueued(c, r);
      e.conns == d.conns && e.closers == d.closers && e.caches.Keys == d.caches.Keys
    ensures c.closers <= Enqueued(c, r).closers
    ensures c.conns.Keys == c.caches.Keys ==>
      forall t :: t in c.conns ==> t in Enqueued(c, r).conns && Enqueued(c, r).conns[t] == c.conns[t]
  {
  }

  lemma {:induction false} SourceAddedMatches(c: Client, tenant: string, conn: nat)
    requires ClosersMatch(c) && tenant !in c.caches && conn !in c.closers
    ensures ClosersMatch(WithSource(c, tenant, Some(conn)))
  {
    var d := WithSource(c, tenant, Some(conn));
    forall i, j | 0 <= i < j < |d.closers| ensures d.closers[i] != d.closers[j] {
      assert d.closers[i] in c.closers;
    }
    forall n | n in d.closers ensures exists t :: t in d.conns && d.conns[t] == n {
      OpenerOf(c, tenant, conn, n);
    }
  }

  lemma {:induction false} OpenerOf(c: Client, tenant: string, conn: nat, n: nat)
    requires ClosersMatch(c) && tenant !in c.caches && n in c.closers + [conn]
    ensures var d := WithSource(c, tenant, Some(conn)); exists t :: t in d.conns && d.conns[t] == n
  {
    var d := WithSource(c, tenant, Some(conn));
    if n == conn {
      assert d.conns[tenant] == n;
    } else {
      var t :| t in c.conns && c.conns[t] == n;
      assert d.conns[t] == n;
    }
  }

  /** Per tenant, the issue bound of a single token source holds in any mix with other tenants. */
  lemma {:induction false} TenantIssueBound(rs: seq<Request>, tenant: string, life: int)
    requires CallsFor(rs, tenant) != [] && DEFAULT_MARGIN < life
    requires NonDecreasing(CallsFor(rs, tenant)) && Lives(CallsFor(rs, tenant), life)
    ensures var calls := CallsFor(rs, tenant);
      && tenant in Run(rs).caches && Run(rs).caches[tenant] == After(DEFAULT_MARGIN, calls)
      && (Issues(DEFAULT_MARGIN, calls) - 1) * (life - DEFAULT_MARGIN) <= calls[|calls| - 1].now - calls[0].now
  {
    TenantsAreIsolated(rs, tenant);
    IssueBound(DEFAULT_MARGIN, CallsFor(rs, tenant), life);
  }

  /** The first error among the closers, in order. */
  ghost function FirstFailure(closers: seq<nat>, fails: nat -> bool): Option<nat> {
    if closers == [] then None
    else if fails(closers[0]) then Some(closers[0])
    else FirstFailure(closers[1..], fails)
  }

  lemma {:induction false} FirstFailureAppend(closers: seq<nat>, n: nat, fails: nat -> bool)
    ensures FirstFailure(closers + [n], fails) ==
      if FirstFailure(closers, fails) == None && fails(n) then Some(n) else FirstFailure(closers, fails)
  {
    if closers == [] {
      assert closers + [n] == [n];
    } else {
      assert (closers + [n])[1..] == closers[1..] + [n];
      FirstFailureAppend(closers[1..], n, fails);
    }
  }

  /** It is the first failing closer; none only if none fails. */
  lemma {:induction false} FirstFailureMeaning(closers: seq<nat>, fails: nat -> bool)
    ensures FirstFailure(closers, fails) == None <==> forall n :: n in closers ==> !fails(n)
    ensures FirstFailure(closers, fails).Some? ==>
      exists i :: 0 <= i < |closers| && closers[i] == FirstFailure(closers, fails).value
        && fails(closers[i]) && forall j :: 0 <= j < i ==> !fails(closers[j])
  {
    if closers != [] {
      FirstFailureMeaning(closers[1..], fails);
      if fails(closers[0]) {
        assert closers[0] == FirstFailure(closers, fails).value;
      } else {
        assert forall n :: n in closers <==> n == closers[0] || n in closers[1..];
        if FirstFailure(closers, fails).Some? {
          var i :| 0 <= i < |closers[1..]| && closers[1..][i] == FirstFailure(closers, fails).value
            && fails(closers[1..][i]) && forall j :: 0 <= j < i ==> !fails(closers[1..][j]);
          assert closers[i + 1] == closers[1..][i];
          forall j | 0 <= j < i + 1 ensures !fails(closers[j]) {
            assert j > 0 ==> closers[j] == closers[1..][j - 1];
          }
        }
      }
    }
  }

  /** What Close does outside the client: how often each connection was released. */
  class Network {
    var released: multiset<nat>

    constructor ()
      ensures released == multiset{}
    {
      released := multiset{};
    }
  }

  class TenantScopedTaskRouterClient {
    var sources: map<string, TokenSource>
    var closers: seq<nat>
    ghost var conns: map<string, nat>

    ghost predicate Valid()
      reads this, sources.Values
    {
      && conns.Keys == sources.Keys
      && (forall t :: t in sources ==> sources[t].refreshBefore == DEFAULT_MARGIN)
      && (forall t, u :: t in sources && u in sources && t != u ==> sources[t] != sources[u])
    }

    ghost function View(): Client
      reads this, sources.Values
    {
      Client(map t | t in sources :: sources[t].View(), conns, closers)
    }

    constructor ()
      ensures Valid() && View() == INIT
    {
      sources, closers, conns := map[], [], map[];
    }

    method TokenSourceFor(tenant: string, dial: Option<nat>) returns (src: TokenSource?)
      requires Valid()
      modifies this
      ensures Valid() && View() == WithSource(old(View()), tenant, dial)
      ensures forall t :: t in old(sources) ==> t in sources && sources[t] == old(sources[t])
      ensures forall t :: t in sources && t !in old(sources) ==> fresh(sources[t])
      ensures if tenant in sources then src == sources[tenant] else src == null
    {
      if tenant in sources {
        return sources[tenant];
      }
      if dial == None {
        return null;
      }
      ghost var before := View();
      var made := new TokenSource(0);
      sources := sources[tenant := made];
      conns := conns[tenant := dial.value];
      closers := closers + [dial.value];
      assert View().caches == before.caches[tenant := EMPTY];
      src := made;
    }

    /** The token the request is sent with; None where no source or no token could be had. */
    method EnqueueTask(r: Request) returns (used: Option<string>)
      requires Valid()
      modifies this, sources.Values
      ensures Valid() && View() == Enqueued(old(View()), r)
      ensures used == Used(old(View()), r)
    {
      var src := TokenSourceFor(r.tenant, r.dial);
      if src == null {
        return None;
      }
      ghost var mid := View();
      label before:
      var asked: bool;
      used, asked := src.Token(r.call);
      assert forall t :: t in sources && t != r.tenant ==> sources[t].View() == old@before(sources[t].View());
      assert View().caches == mid.caches[r.tenant := src.View()];
    }

    /** Every connection is released once, whichever of them fail; the first error is returned. */
    method Close(network: Network, fails: nat -> bool) returns (firstErr: Option<nat>)
      modifies network
      ensures network.released == old(network.released) + multiset(closers)
      ensures firstErr == FirstFailure(closers, fails)
    {
      firstErr := None;
      assert closers[..0] == [];
      for i := 0 to |closers|
        invariant network.released == old(network.released) + multiset(closers[..i])
        invariant firstErr == FirstFailure(closers[..i], fails)
      {
        assert closers[..i + 1] == closers[..i] + [closers[i]];
        FirstFailureAppend(closers[..i], closers[i], fails);
        network.released := network.released + multiset{closers[i]};
        if fails(closers[i]) && firstErr == None {
          firstErr := Some(closers[i]);
        }
      }
      assert closers[..|closers|] == closers;
    }
  }

  /** One Close releases each source's connection exactly once, and nothing else. */
  lemma {:induction false} CloseReleasesEachOnce(rs: seq<Request>, n: nat)
    requires FreshDials(rs)
    ensures multiset(Run(rs).closers)[n] == if n in Run(rs).conns.Values then 1 else 0
  {
    ClosersMatchSources(rs);
    var closers := Run(rs).closers;
    DistinctMultiplicity(closers, n);
    if n in closers {
      var t :| t in Run(rs).conns && Run(rs).conns[t] == n;
    }
  }

  lemma {:induction false} DistinctMultiplicity(s: seq<nat>, n: nat)
    requires forall i, j :: 0 <= i < j < |s| ==> s[i] != s[j]
    ensures multiset(s)[n] == if n in s then 1 else 0
  {
    if s != [] {
      DistinctMultiplicity(s[..|s| - 1], n);
      assert s == s[..|s| - 1] + [s[|s| - 1]];
    }
  }
}
