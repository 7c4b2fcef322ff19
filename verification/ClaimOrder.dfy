/**
 Claims whose transactions overlap, each skipping what the earlier ones locked, take
 together what one claim with the combined limit takes.
 */
module ClaimOrder {
  import opened Basics
  import opened JobTable

  /** One of several overlapping claims: its transaction's now() and its LIMIT. */
  datatype Claim = Claim(now: Time, limit: nat)

  function Union(takes: seq<set<nat>>): set<nat> {
    if takes == [] then {} else Union(takes[..|takes| - 1]) + takes[|takes| - 1]
  }

  /** The latest now() of a non-empty list of claims. */
  function Latest(claims: seq<Claim>): Time
    requires claims != []
  {
    if |claims| == 1 then claims[0].now
    else Max(Latest(claims[..|claims| - 1]), claims[|claims| - 1].now)
  }

  function TotalLimit(claims: seq<Claim>): nat {
    if claims == [] then 0 else TotalLimit(claims[..|claims| - 1]) + claims[|claims| - 1].limit
  }

  function TotalTaken(takes: seq<set<nat>>): nat {
    if takes == [] then 0 else TotalTaken(takes[..|takes| - 1]) + |takes[|takes| - 1]|
  }

  /** Each claim's take is what it selects while the rows of the takes before it are locked and uncommitted. */
  ghost predicate Overlapping(rows: map<nat, Row>, locked: set<nat>, claims: seq<Claim>, takes: seq<set<nat>>) {
    && |claims| == |takes|
    && (claims != [] ==>
          var n := |claims| - 1;
          && Overlapping(rows, locked, claims[..n], takes[..n])
          && Selection(rows, Eligible(rows, locked + Union(takes[..n]), claims[n].now), claims[n].limit, takes[n]))
  }

  /** The next claim on top of an accumulated choice u of the rows due by m. */
  lemma {:induction false} NextClaim(rows: map<nat, Row>, locked: set<nat>, m: Time, u: set<nat>, c: Claim, t: set<nat>)
    requires Selection(rows, Eligible(rows, locked, m), |u|, u)
    requires Selection(rows, Eligible(rows, locked + u, c.now), c.limit, t)
    ensures u !! t
    ensures Selection(rows, Eligible(rows, locked, Max(m, c.now)), |u + t|, u + t)
  {
    var due := Eligible(rows, locked, Max(m, c.now));
    assert u + t <= due;
    CardinalityMonotone(u + t, due);
    forall i, j | i in u + t && j in due - (u + t)
      ensures rows[i].runAfter <= rows[j].runAfter
    {
      if i in u {
        assert j in Eligible(rows, locked, m) - u || rows[j].runAfter > m;
      } else {
        assert j in Eligible(rows, locked + u, c.now) - t || rows[j].runAfter > c.now;
      }
    }
  }

  /**
   Any number of overlapping claims, with any limits and any transaction times: what they
   take is pairwise disjoint (no row is counted twice), and together it is exactly a choice
   one claim could make of the same number of rows at the latest of those times.
   */
  lemma {:induction false} OverlappingClaimsAreOneClaim(rows: map<nat, Row>, locked: set<nat>, claims: seq<Claim>,
                                                        takes: seq<set<nat>>)
    requires Overlapping(rows, locked, claims, takes) && claims != []
    ensures |Union(takes)| == TotalTaken(takes)
    ensures Selection(rows, Eligible(rows, locked, Latest(claims)), TotalTaken(takes), Union(takes))
  {
    var n := |claims| - 1;
    if n == 0 {
      assert takes[..0] == [] && locked + Union(takes[..0]) == locked;
      assert Union(takes) == takes[0] && TotalTaken(takes) == |takes[0]|;
    } else {
      OverlappingClaimsAreOneClaim(rows, locked, claims[..n], takes[..n]);
      NextClaim(rows, locked, Latest(claims[..n]), Union(takes[..n]), claims[n], takes[n]);
      SumOfDisjoint(Union(takes[..n]), takes[n]);
    }
  }

  lemma {:induction false} EligibleBeyond(rows: map<nat, Row>, locked: set<nat>, u: set<nat>, now: Time)
    ensures Eligible(rows, locked + u, now) == Eligible(rows, locked, now) - u
  {
  }

  /** A choice from what a first choice left extends it. */
  lemma {:induction false} SelectionOnTop(rows: map<nat, Row>, due: set<nat>, n: nat, u: set<nat>, limit: nat,
                                          t: set<nat>)
    requires due <= rows.Keys && Selection(rows, due, n, u) && Selection(rows, due - u, limit, t)
    ensures Selection(rows, due, n + limit, u + t)
  {
    assert due == u + (due - u);
    SumOfDisjoint(u, due - u);
    SumOfDisjoint(u, t);
  }

  /** With one shared now(), the union is what a single claim with the summed limit takes. */
  lemma {:induction false} SameInstantClaimsAddUp(rows: map<nat, Row>, locked: set<nat>, claims: seq<Claim>,
                                                  takes: seq<set<nat>>, now: Time)
    requires Overlapping(rows, locked, claims, takes)
    requires forall c :: c in claims ==> c.now == now
    ensures Selection(rows, Eligible(rows, locked, now), TotalLimit(claims), Union(takes))
  {
    if claims != [] {
      var n := |claims| - 1;
      SameInstantClaimsAddUp(rows, locked, claims[..n], takes[..n], now);
      assert claims[n] in claims;
      EligibleBeyond(rows, locked, Union(takes[..n]), now);
      SelectionOnTop(rows, Eligible(rows, locked, now), TotalLimit(claims[..n]), Union(takes[..n]), claims[n].limit,
                     takes[n]);
    }
  }

  lemma {:induction false} DistinctParts(a: seq<Job>, b: seq<Job>)
    requires DistinctIds(a + b)
    ensures DistinctIds(a) && DistinctIds(b) && Ids(a) !! Ids(b)
  {
    var c := a + b;
    assert forall i :: 0 <= i < |a| ==> c[i] == a[i];
    assert forall k :: 0 <= k < |b| ==> c[|a| + k] == b[k];
    forall i, k | 0 <= i < k < |b| ensures b[i].id != b[k].id {
      assert c[|a| + i].id != c[|a| + k].id;
    }
    forall x, y | x in a && y in b ensures x.id != y.id {
      var i :| 0 <= i < |a| && a[i] == x;
      var k :| 0 <= k < |b| && b[k] == y;
      assert c[i].id != c[|a| + k].id;
    }
  }

  lemma {:induction false} InstallAppend(rows: map<nat, Row>, a: seq<Job>, b: seq<Job>)
    ensures Install(rows, a + b) == Install(Install(rows, a), b)
    decreases a
  {
    if a == [] {
      assert a + b == b;
    } else {
      assert (a + b)[1..] == a[1..] + b;
      InstallAppend(rows[a[0].id := a[0].row], a[1..], b);
    }
  }

  lemma {:induction false} InstalledTwice(rows: map<nat, Row>, a: seq<Job>, b: seq<Job>, id: nat)
    requires DistinctIds(a) && DistinctIds(b) && Ids(a) !! Ids(b)
    ensures var t := Install(Install(rows, a), b);
      && (id in t <==> id in rows || id in Ids(a) || id in Ids(b))
      && (forall j :: j in a && j.id == id ==> t[id] == j.row)
      && (forall j :: j in b && j.id == id ==> t[id] == j.row)
      && (id in rows && id !in Ids(a) && id !in Ids(b) ==> t[id] == rows[id])
  {
    InstallMeaning(rows, a);
    InstallMeaning(Install(rows, a), b);
    assert forall j :: j in a ==> j.id in Ids(a);
  }

  /** Committing two disjoint batches in either order is committing them as one. */
  lemma {:induction false} CommitsCommute(rows: map<nat, Row>, a: seq<Job>, b: seq<Job>)
    requires DistinctIds(a + b)
    ensures Install(Install(rows, a), b) == Install(rows, a + b) == Install(Install(rows, b), a)
  {
    DistinctParts(a, b);
    InstallAppend(rows, a, b);
    var r1, r2 := Install(Install(rows, a), b), Install(Install(rows, b), a);
    forall id: nat ensures (id in r1 <==> id in r2) && (id in r1 ==> r1[id] == r2[id]) {
      InstalledTwice(rows, a, b, id);
      InstalledTwice(rows, b, a, id);
    }
  }
}
