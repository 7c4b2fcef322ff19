/**
 The migration runner that background-worker-pool and historical-reporting share in shape:
 one run by itself, resumed runs, and any number of runners at once.
 */
module Migrate {
  import opened Basics

  // ----- which files, in which order -----

  datatype DirEntry = DirEntry(name: string, isDir: bool)

  predicate Leq(a: string, b: string) {
    a == "" || (b != "" && (a[0] < b[0] || (a[0] == b[0] && Leq(a[1..], b[1..]))))
  }

  lemma {:induction false} LeqOrder(a: string, b: string, c: string)
    ensures Leq(a, b) || Leq(b, a)
    ensures Leq(a, b) && Leq(b, a) ==> a == b
    ensures Leq(a, b) && Leq(b, c) ==> Leq(a, c)
  {
    if a != "" && b != "" {
      LeqOrder(a[1..], b[1..], if c == "" then "" else c[1..]);
      if a[0] == b[0] && a[1..] == b[1..] {
        assert a == [a[0]] + a[1..];
        assert b == [b[0]] + b[1..];
      }
    }
  }

  ghost predicate Sorted(s: seq<string>) {
    forall i, j :: 0 <= i < j < |s| ==> Leq(s[i], s[j])
  }

  ghost predicate Distinct(s: seq<string>) {
    forall i, j :: 0 <= i < j < |s| ==> s[i] != s[j]
  }

  predicate IsMigration(e: DirEntry) {
    !e.isDir && |e.name| >= 4 && e.name[|e.name| - 4..] == ".sql"
  }

  /** The .sql files of a directory whose entries have distinct names, sorted: none lost, none added. */
  method MigrationNames(entries: seq<DirEntry>) returns (names: seq<string>)
    requires forall i, j :: 0 <= i < j < |entries| ==> entries[i].name != entries[j].name
    ensures Sorted(names) && Distinct(names)
    ensures forall n :: n in names <==>
      |n| >= 4 && n[|n| - 4..] == ".sql" && exists e :: e in entries && !e.isDir && e.name == n
  {
    names := [];
    for i := 0 to |entries|
      invariant Sorted(names) && Distinct(names)
      invariant forall n :: n in names <==> exists e :: e in entries[..i] && IsMigration(e) && e.name == n
    {
      assert forall e :: e in entries[..i + 1] <==> e in entries[..i] || e == entries[i];
      if IsMigration(entries[i]) {
        names := Insert(names, entries[i].name);
      }
    }
    assert entries[..|entries|] == entries;
    forall n ensures n in names <==>
      |n| >= 4 && n[|n| - 4..] == ".sql" && exists e :: e in entries && !e.isDir && e.name == n
    {
      if e :| e in entries && !e.isDir && e.name == n {
        assert IsMigration(e) <==> |n| >= 4 && n[|n| - 4..] == ".sql";
      }
    }
  }

  method Insert(names: seq<string>, name: string) returns (r: seq<string>)
    requires Sorted(names) && Distinct(names) && name !in names
    ensures Sorted(r) && Distinct(r)
    ensures forall n :: n in r <==> n == name || n in names
  {
    var k := 0;
    while k < |names| && Leq(names[k], name)
      invariant 0 <= k <= |names|
      invariant forall i :: 0 <= i < k ==> Leq(names[i], name)
    {
      k := k + 1;
    }
    r := names[..k] + [name] + names[k..];
    forall i, j | 0 <= i < j < |r| ensures Leq(r[i], r[j]) && r[i] != r[j] {
      if k < |names| {
        LeqOrder(name, names[k], names[k]);
        if j > k {
          LeqOrder(name, names[k], names[j - 1]);
        }
      }
    }
    assert forall n :: n in r <==> n in names[..k] || n == name || n in names[k..];
    assert names == names[..k] + names[k..];
  }

  // ----- one run -----

  /** How the loop's work on one file can go. */
  datatype Fate = CheckFails | ApplyFails | CommitUnreported | Commits

  datatype Outcome = Outcome(log: seq<string>, err: bool)

  /** Files applied, in order, and whether the loop returned an error. */
  function Migrated(log: seq<string>, names: seq<string>, fate: string -> Fate): Outcome
    decreases names
  {
    if names == [] then Outcome(log, false)
    else
      var name := names[0];
      if fate(name) == CheckFails then Outcome(log, true)
      else if name in log then Migrated(log, names[1..], fate)
      else match fate(name)
        case CommitUnreported => Outcome(log + [name], true)
        case Commits => Migrated(log + [name], names[1..], fate)
        case _ => Outcome(log, true)
  }

  /** The tracking table, and the files whose effects the schema holds, in order. */
  class Database {
    var tracking: set<string>
    var log: seq<string>
    var granted: bool

    ghost predicate Valid()
      reads this
    {
      forall n :: n in tracking <==> n in log
    }

    /** Each file is applied and recorded in one transaction; privileges are granted after the last. */
    method Migrate(names: seq<string>, setupOk: bool, fate: string -> Fate, grantOk: bool) returns (err: bool)
      requires Valid()
      modifies this
      ensures Valid()
      ensures log == if setupOk then Migrated(old(log), names, fate).log else old(log)
      ensures err <==> !setupOk || Migrated(old(log), names, fate).err || !grantOk
      ensures granted == (old(granted) || !err)
    {
      if !setupOk {
        return true;
      }
      for i := 0 to |names|
        invariant Valid() && granted == old(granted)
        invariant Migrated(log, names[i..], fate) == Migrated(old(log), names, fate)
      {
        var name := names[i];
        assert names[i..][0] == name && names[i..][1..] == names[i + 1..];
        if fate(name) == CheckFails {
          return true;
        }
        var alreadyApplied := name in tracking;
        if alreadyApplied {
          continue;
        }
        if fate(name) == ApplyFails {
          return true;
        }
        tracking, log := tracking + {name}, log + [name];
        if fate(name) == CommitUnreported {
          return true;
        }
      }
      if !grantOk {
        return true;
      }
      granted := true;
      err := false;
    }
  }

  /** A run extends the log, and without an error every one of its files is applied. */
  lemma {:induction false} RunExtends(log: seq<string>, names: seq<string>, fate: string -> Fate)
    ensures log <= Migrated(log, names, fate).log
    ensures !Migrated(log, names, fate).err ==> forall n :: n in names ==> n in Migrated(log, names, fate).log
    decreases names
  {
    if names != [] {
      RunExtends(log, names[1..], fate);
      RunExtends(log + [names[0]], names[1..], fate);
      var end := Migrated(log, names, fate).log;
      forall n | n in names && !Migrated(log, names, fate).err ensures n in end {
        if n == names[0] {
          assert n in log || log + [n] <= end;
          assert n in log ==> n in end[..|log|];
          assert n !in log ==> end[|log|] == (log + [n])[|log|];
        } else {
          assert n in names[1..];
        }
      }
    }
  }

  /** The files not yet applied, in order. */
  ghost function Missing(log: seq<string>, names: seq<string>): seq<string>
    decreases names
  {
    if names == [] then [] else (if names[0] in log then [] else [names[0]]) + Missing(log, names[1..])
  }

  lemma {:induction false} MissingOfOthers(log: seq<string>, n: string, names: seq<string>)
    requires n !in names
    ensures Missing(log + [n], names) == Missing(log, names)
    decreases names
  {
    if names != [] {
      assert names[0] in log + [n] <==> names[0] in log;
      MissingOfOthers(log, n, names[1..]);
    }
  }

  /** What the loop does at one file: passes it, or stops there. */
  ghost predicate PassesFile(log: seq<string>, name: string, fate: Fate) {
    fate != CheckFails && (name in log || fate == Commits)
  }

  /**
   The outcome of a run that stops at file k, or at none if k is their number: an error if there is such
   a file; the missing files before it appended in order, and it too only if its commit took effect
   unreported.
   */
  ghost predicate StopsAt(log: seq<string>, names: seq<string>, fate: string -> Fate, k: nat, end: Outcome) {
    && k <= |names| && (forall i :: 0 <= i < k ==> PassesFile(log, names[i], fate(names[i])))
    && (k < |names| ==> !PassesFile(log, names[k], fate(names[k])))
    && (end.err <==> k < |names|)
    && end.log ==
         log + Missing(log, names[..k])
         + if k < |names| && names[k] !in log && fate(names[k]) == CommitUnreported then [names[k]] else []
  }

  lemma {:induction false} PassedApplied(log: seq<string>, names: seq<string>, fate: string -> Fate, j: nat,
                                         end: Outcome)
    requires names != [] && names[0] in log && fate(names[0]) != CheckFails && StopsAt(log, names[1..], fate, j, end)
    ensures StopsAt(log, names, fate, j + 1, end)
  {
    assert names[..j + 1][1..] == names[1..][..j];
    forall i | 0 <= i < j + 1 ensures PassesFile(log, names[i], fate(names[i])) {
      assert i > 0 ==> names[1..][i - 1] == names[i];
    }
  }

  lemma {:induction false} PassedCommitted(log: seq<string>, names: seq<string>, fate: string -> Fate, j: nat,
                                           end: Outcome)
    requires Distinct(names) && names != [] && names[0] !in log && fate(names[0]) == Commits
    requires StopsAt(log + [names[0]], names[1..], fate, j, end)
    ensures StopsAt(log, names, fate, j + 1, end)
  {
    var grown, rest := log + [names[0]], names[1..];
    assert names[..j + 1][1..] == rest[..j];
    assert forall i :: 0 <= i < |rest| ==> rest[i] == names[i + 1] && (rest[i] in grown <==> rest[i] in log);
    forall i | 0 <= i < j + 1 ensures PassesFile(log, names[i], fate(names[i])) {
      assert i > 0 ==> PassesFile(grown, rest[i - 1], fate(rest[i - 1]));
    }
    MissingOfOthers(log, names[0], rest[..j]);
    assert grown + Missing(log, rest[..j]) == log + Missing(log, names[..j + 1]);
  }

  /** A run exactly: it stops at the first file whose check fails or that is missing and does not commit cleanly. */
  lemma {:induction false} MigratedExactly(log: seq<string>, names: seq<string>, fate: string -> Fate) returns (k: nat)
    requires Distinct(names)
    ensures StopsAt(log, names, fate, k, Migrated(log, names, fate))
    decreases names
  {
    if names != [] && PassesFile(log, names[0], fate(names[0])) {
      var j := MigratedExactly(if names[0] in log then log else log + [names[0]], names[1..], fate);
      k := j + 1;
      if names[0] in log {
        PassedApplied(log, names, fate, j, Migrated(log, names, fate));
      } else {
        PassedCommitted(log, names, fate, j, Migrated(log, names, fate));
      }
    } else {
      k := 0;
      assert names[..0] == [];
    }
  }

  /** A file whose application fails is not among the applied ones, if it was not before. */
  lemma {:induction false} FailedStaysUnapplied(log: seq<string>, names: seq<string>, fate: string -> Fate, n: string)
    requires n !in log && fate(n) != Commits && fate(n) != CommitUnreported
    ensures n !in Migrated(log, names, fate).log
    decreases names
  {
    if names != [] {
      FailedStaysUnapplied(log, names[1..], fate, n);
      if names[0] != n {
        FailedStaysUnapplied(log + [names[0]], names[1..], fate, n);
      }
    }
  }

  /** Started on the first k files, a run ends on the first k' >= k; without an error on all. */
  lemma {:induction false} PrefixStaysPrefix(names: seq<string>, k: nat, i: nat, fate: string -> Fate)
    requires Distinct(names) && i <= k <= |names|
    ensures var r := Migrated(names[..k], names[i..], fate);
      names[..k] <= r.log <= names && (!r.err ==> r.log == names)
    decreases |names| - i
  {
    if i < |names| {
      assert names[i..][0] == names[i] && names[i..][1..] == names[i + 1..];
      if i < k {
        assert names[..k][i] == names[i];
        PrefixStaysPrefix(names, k, i + 1, fate);
      } else {
        assert names[i] !in names[..k];
        assert names[..k] + [names[i]] == names[..k + 1];
        PrefixStaysPrefix(names, k + 1, i + 1, fate);
      }
    }
  }

  /** Runs one after another, each from what the one before left, whatever stopped it. */
  ghost function Resumed(log: seq<string>, names: seq<string>, fates: seq<string -> Fate>): seq<string> {
    if fates == [] then log else Migrated(Resumed(log, names, fates[..|fates| - 1]), names, fates[|fates| - 1]).log
  }

  lemma {:induction false} ResumedIsPrefix(names: seq<string>, fates: seq<string -> Fate>)
    requires Distinct(names)
    ensures Resumed([], names, fates) <= names
  {
    if fates != [] {
      ResumedIsPrefix(names, fates[..|fates| - 1]);
      var before := Resumed([], names, fates[..|fates| - 1]);
      assert before == names[..|before|] && names[0..] == names;
      PrefixStaysPrefix(names, |before|, 0, fates[|fates| - 1]);
    }
  }

  /** The schema a log leaves, for any meaning of the files. */
  ghost function Schema<S>(empty: S, apply: (S, string) -> S, log: seq<string>): S {
    if log == [] then empty else apply(Schema(empty, apply, log[..|log| - 1]), log[|log| - 1])
  }

  /**
   Resuming equals an uninterrupted run: after any interrupted runs, one that reports success
   leaves the log and schema of one clean run from nothing, and one more run applies no file.
   */
  lemma {:induction false} ResumeEqualsCleanRun<S>(names: seq<string>, fates: seq<string -> Fate>, last: string -> Fate,
                                again: string -> Fate, empty: S, apply: (S, string) -> S)
    requires Distinct(names)
    requires !Migrated(Resumed([], names, fates), names, last).err
    ensures var resumed, clean := Resumed([], names, fates + [last]), Migrated([], names, _ => Commits);
      && !clean.err && resumed == clean.log == names
      && Schema(empty, apply, resumed) == Schema(empty, apply, clean.log)
      && Migrated(resumed, names, again).log == resumed
  {
    ResumedIsPrefix(names, fates);
    var before := Resumed([], names, fates);
    assert (fates + [last])[..|fates + [last]| - 1] == fates;
    assert before == names[..|before|] && names[0..] == names && names[..0] == [] && names[..|names|] == names;
    PrefixStaysPrefix(names, |before|, 0, last);
    PrefixStaysPrefix(names, 0, 0, _ => Commits);
    CommitsNeverFail([], names);
    PrefixStaysPrefix(names, |names|, 0, again);
  }

  lemma {:induction false} CommitsNeverFail(log: seq<string>, names: seq<string>)
    ensures !Migrated(log, names, _ => Commits).err
    decreases names
  {
    if names != [] {
      CommitsNeverFail(log, names[1..]);
      CommitsNeverFail(log + [names[0]], names[1..]);
    }
  }

  lemma {:induction false} SortedAppend(log: seq<string>, name: string)
    ensures Sorted(log + [name]) <==> Sorted(log) && forall l :: l in log ==> Leq(l, name)
  {
    var more := log + [name];
    if Sorted(more) {
      forall i, j | 0 <= i < j < |log| ensures Leq(log[i], log[j]) {
        assert more[i] == log[i] && more[j] == log[j];
      }
      forall l | l in log ensures Leq(l, name) {
        var i :| 0 <= i < |log| && log[i] == l;
        assert Leq(more[i], more[|log|]);
      }
    }
    if Sorted(log) && forall l :: l in log ==> Leq(l, name) {
      forall i, j | 0 <= i < j < |more| ensures Leq(more[i], more[j]) {
        assert more[i] == log[i] && (j < |log| ==> more[j] == log[j]);
      }
    }
  }

  /** Every missing file sorts after every applied one. */
  ghost predicate MissingComeLast(log: seq<string>, names: seq<string>) {
    forall n, l :: n in names && n !in log && l in log ==> Leq(l, n)
  }

  lemma {:induction false} MissingAfterNext(log: seq<string>, names: seq<string>)
    requires names != [] && Sorted(names) && names[0] !in log
    ensures Sorted(log + [names[0]]) && MissingComeLast(log + [names[0]], names[1..])
      <==> Sorted(log) && MissingComeLast(log, names)
  {
    var name := names[0];
    SortedAppend(log, name);
    if Sorted(log + [name]) && MissingComeLast(log + [name], names[1..]) {
      forall n, l | n in names && n !in log && l in log ensures Leq(l, n) {
        if n != name {
          assert n in names[1..] && n !in log + [name] && l in log + [name];
        }
      }
    }
    if Sorted(log) && MissingComeLast(log, names) {
      assert name in names;
      forall n, l | n in names[1..] && n !in log + [name] && l in log + [name] ensures Leq(l, n) {
        assert n in names && n !in log;
        if l == name {
          var j :| 0 <= j < |names[1..]| && names[1..][j] == n;
          assert Leq(names[0], names[j + 1]);
        }
      }
    }
  }

  /**
   A successful run leaves the applied files in name order exactly when they were in name order
   and every file it had to apply sorts after all of them.
   */
  lemma {:induction false} NameOrderIffMissingLast(log: seq<string>, names: seq<string>, fate: string -> Fate)
    requires Sorted(names) && !Migrated(log, names, fate).err
    ensures Sorted(Migrated(log, names, fate).log) <==>
      Sorted(log) && forall n, l :: n in names && n !in log && l in log ==> Leq(l, n)
    decreases names
  {
    assert MissingComeLast(log, names) <==> forall n, l :: n in names && n !in log && l in log ==> Leq(l, n);
    if names != [] {
      if names[0] in log {
        NameOrderIffMissingLast(log, names[1..], fate);
        assert MissingComeLast(log, names[1..]) <==> MissingComeLast(log, names) by {
          assert forall n :: n in names <==> n == names[0] || n in names[1..];
        }
      } else {
        NameOrderIffMissingLast(log + [names[0]], names[1..], fate);
        MissingAfterNext(log, names);
      }
    }
  }

  /** It leaves exactly its own files, in order, when the table held a prefix of them. */
  lemma {:induction false} OwnFilesIffPrefix(log: seq<string>, names: seq<string>, fate: string -> Fate)
    requires Distinct(names) && !Migrated(log, names, fate).err
    ensures Migrated(log, names, fate).log == names <==> log <= names
  {
    RunExtends(log, names, fate);
    if log <= names {
      assert log == names[..|log|] && names[0..] == names;
      PrefixStaysPrefix(names, |log|, 0, fate);
    }
  }

  /** A run whose new file sorts before the applied one: it succeeds and leaves them out of name order. */
  lemma {:induction false} InsertedFileIsAppliedLate()
    ensures Sorted(["b.sql"]) && Sorted(["a.sql", "b.sql"])
    ensures Migrated(["b.sql"], ["a.sql", "b.sql"], _ => Commits) == Outcome(["b.sql", "a.sql"], false)
    ensures !Sorted(["b.sql", "a.sql"])
  {
    var names := ["a.sql", "b.sql"];
    assert names[0] != "b.sql" by {
      assert names[0][0] != "b.sql"[0];
    }
    assert names[1..] == ["b.sql"] && names[1..][1..] == [];
    assert ["b.sql"] + ["a.sql"] == ["b.sql", "a.sql"];
    assert Migrated(["b.sql", "a.sql"], names[1..], _ => Commits) == Migrated(["b.sql", "a.sql"], [], _ => Commits);
    var late := ["b.sql", "a.sql"];
    assert !Leq(late[0], late[1]);
  }

  // ----- any number of runners -----

  /** Where a runner's Migrate call is; i counts the files it is done with. */
  datatype Phase = Starting | SettingUp | Checking(i: nat) | Applying(i: nat) | Granting | Finished | Stopped

  /** n: how many of the files of all releases this runner's own release has. */
  datatype Runner = Runner(n: nat, phase: Phase)

  datatype State = State(log: seq<string>, tracking: set<string>, created: bool, lock: Option<nat>,
                         runners: map<nat, Runner>)

  datatype Action =
    | Launch(r: nat, n: nat)
    | LockSetup(r: nat)
    | CommitSetup(r: nat)
    | Check(r: nat)
    | Apply(r: nat, fate: Fate)
    | LockGrant(r: nat)
    | Grant(r: nat)
    | Stop(r: nat)

  predicate In(s: State, r: nat, p: Phase) {
    r in s.runners && s.runners[r].phase == p
  }

  predicate Enabled(all: seq<string>, s: State, a: Action) {
    match a
    case Launch(r, n) => r !in s.runners && n <= |all|
    case LockSetup(r) => In(s, r, Starting) && s.lock == None
    case CommitSetup(r) => In(s, r, SettingUp)
    case Check(r) => r in s.runners && s.runners[r].phase.Checking? && s.runners[r].phase.i < s.runners[r].n <= |all|
    case Apply(r, fate) =>
      r in s.runners && s.runners[r].phase.Applying? && s.runners[r].phase.i < |all| && fate != CheckFails
    case LockGrant(r) => r in s.runners && In(s, r, Checking(s.runners[r].n)) && s.lock == None
    case Grant(r) => In(s, r, Granting)
    case Stop(r) => r in s.runners
  }

  predicate HoldsLock(s: State, r: nat) {
    In(s, r, SettingUp) || In(s, r, Granting)
  }

  function At(s: State, r: nat, p: Phase): State
    requires r in s.runners
  {
    s.(runners := s.runners[r := s.runners[r].(phase := p)])
  }

  function Unlock(s: State, r: nat): State {
    if s.lock == Some(r) then s.(lock := None) else s
  }

  /**
   The advisory lock covers the setup and the grant, not the file loop. In the loop a recording
   insert meets the primary key: it succeeds only if no other runner has committed the name.
   */
  function Step(all: seq<string>, s: State, a: Action): State
    requires Enabled(all, s, a)
  {
    match a
    case Launch(r, n) => s.(runners := s.runners[r := Runner(n, Starting)])
    case LockSetup(r) => At(s, r, SettingUp).(lock := Some(r))
    case CommitSetup(r) => Unlock(At(s, r, Checking(0)), r).(created := true)
    case Check(r) =>
      var i := s.runners[r].phase.i;
      At(s, r, if all[i] in s.tracking then Checking(i + 1) else Applying(i))
    case Apply(r, fate) =>
      var i := s.runners[r].phase.i;
      if all[i] in s.tracking || fate == ApplyFails then At(s, r, Stopped)
      else At(s, r, if fate == Commits then Checking(i + 1) else Stopped).(log := s.log + [all[i]],
          tracking := s.tracking + {all[i]})
    case LockGrant(r) => At(s, r, Granting).(lock := Some(r))
    case Grant(r) => Unlock(At(s, r, Finished), r)
    case Stop(r) => Unlock(At(s, r, Stopped), r)
  }

  const INIT: State := State([], {}, false, None, map[])

  /** Files this runner knows to be applied. */
  function Known(p: Runner): nat {
    match p.phase
    case Checking(i) => i
    case Applying(i) => i
    case Granting => p.n
    case Finished => p.n
    case _ => 0
  }

  ghost predicate RunnerOk(all: seq<string>, s: State, r: nat)
    requires r in s.runners
  {
    var p := s.runners[r];
    && p.n <= |all|
    && Known(p) <= p.n && Known(p) <= |s.log|
    && (p.phase.Applying? ==> p.phase.i < p.n)
    && (!p.phase.Starting? && !p.phase.SettingUp? && !p.phase.Stopped? ==> s.created)
    && (p.phase == SettingUp || p.phase == Granting ==> s.lock == Some(r))
  }

  ghost predicate Inv(all: seq<string>, s: State) {
    && s.log <= all
    && (forall n :: n in s.tracking <==> n in s.log)
    && (forall r :: r in s.runners ==> RunnerOk(all, s, r))
  }

  /** A file that is committed by anyone is the very next one of the common order. */
  lemma {:induction false} ApplyExtendsPrefix(all: seq<string>, s: State, r: nat, fate: Fate)
    requires Distinct(all) && Inv(all, s) && Enabled(all, s, Apply(r, fate))
    requires all[s.runners[r].phase.i] !in s.tracking
    ensures s.runners[r].phase.i == |s.log| && s.log + [all[|s.log|]] <= all
  {
    var i := s.runners[r].phase.i;
    assert RunnerOk(all, s, r);
    assert forall k :: 0 <= k < |s.log| ==> s.log[k] == all[k] && s.log[k] in s.tracking;
  }

  /** A runner that did not move stays as it should be while the log grows and its lock stays its own. */
  lemma {:induction false} OthersKeep(all: seq<string>, s: State, t: State, r: nat)
    requires r in s.runners && r in t.runners && t.runners[r] == s.runners[r] && RunnerOk(all, s, r)
    requires |s.log| <= |t.log| && (s.created ==> t.created) && (s.lock == Some(r) ==> t.lock == Some(r))
    ensures RunnerOk(all, t, r)
  {
  }

  /**
   The recording insert decides: a runner that meets a name another has committed, or whose file fails,
   stops and leaves the log; else file and record are committed together, and it goes on only if told so.
   */
  lemma {:induction false} ApplyEffects(all: seq<string>, s: State, r: nat, fate: Fate)
    requires Enabled(all, s, Apply(r, fate))
    ensures var t, name := Step(all, s, Apply(r, fate)), all[s.runners[r].phase.i];
      && (name in s.tracking || fate == ApplyFails ==>
            t.log == s.log && t.tracking == s.tracking && In(t, r, Stopped))
      && (name !in s.tracking && fate != ApplyFails ==>
            t.log == s.log + [name] && t.tracking == s.tracking + {name}
            && In(t, r, if fate == Commits then Checking(s.runners[r].phase.i + 1) else Stopped))
  {
  }

  /** No step moves another runner. */
  lemma {:induction false} StepIsOwn(all: seq<string>, s: State, a: Action, q: nat)
    requires Enabled(all, s, a) && q != a.r
    ensures q in s.runners <==> q in Step(all, s, a).runners
    ensures q in s.runners ==> Step(all, s, a).runners[q] == s.runners[q]
    ensures s.lock == Some(q) ==> Step(all, s, a).lock == s.lock
  {
  }

  /** Steps that leave the log alone. */
  lemma {:induction false} MoveKeeps(all: seq<string>, s: State, a: Action)
    requires Inv(all, s) && Enabled(all, s, a) && !a.Apply? && !a.Check?
    ensures Inv(all, Step(all, s, a))
  {
    var t := Step(all, s, a);
    forall r | r in t.runners ensures RunnerOk(all, t, r) {
      if r in s.runners {
        assert RunnerOk(all, s, r);
        if r != a.r {
          OthersKeep(all, s, t, r);
        }
      }
    }
  }

  lemma {:induction false} CheckKeeps(all: seq<string>, s: State, r0: nat)
    requires Distinct(all) && Inv(all, s) && Enabled(all, s, Check(r0))
    ensures Inv(all, Step(all, s, Check(r0)))
  {
    var t, i := Step(all, s, Check(r0)), s.runners[r0].phase.i;
    assert RunnerOk(all, s, r0);
    if all[i] in s.tracking {
      var k :| 0 <= k < |s.log| && s.log[k] == all[i];
      assert all[k] == all[i];
    }
    forall r | r in t.runners ensures RunnerOk(all, t, r) {
      if r != r0 {
        OthersKeep(all, s, t, r);
      }
    }
  }

  lemma {:induction false} ApplyKeeps(all: seq<string>, s: State, r0: nat, fate: Fate)
    requires Distinct(all) && Inv(all, s) && Enabled(all, s, Apply(r0, fate))
    ensures Inv(all, Step(all, s, Apply(r0, fate)))
  {
    var t := Step(all, s, Apply(r0, fate));
    assert RunnerOk(all, s, r0);
    if t.log != s.log {
      ApplyExtendsPrefix(all, s, r0, fate);
    }
    forall r | r in t.runners ensures RunnerOk(all, t, r) {
      if r != r0 {
        OthersKeep(all, s, t, r);
      }
    }
  }

  lemma {:induction false} StepKeeps(all: seq<string>, s: State, a: Action)
    requires Distinct(all) && Inv(all, s) && Enabled(all, s, a)
    ensures Inv(all, Step(all, s, a))
  {
    match a {
      case Check(r) => CheckKeeps(all, s, r);
      case Apply(r, fate) => ApplyKeeps(all, s, r, fate);
      case _ => MoveKeeps(all, s, a);
    }
  }

  ghost predicate Valid(all: seq<string>, s: State, run: seq<Action>)
    decreases run
  {
    run == [] || (Enabled(all, s, run[0]) && Valid(all, Step(all, s, run[0]), run[1..]))
  }

  ghost function Run(all: seq<string>, s: State, run: seq<Action>): State
    requires Valid(all, s, run)
    decreases run
  {
    if run == [] then s else Run(all, Step(all, s, run[0]), run[1..])
  }

  lemma {:induction false} RunKeeps(all: seq<string>, s: State, run: seq<Action>)
    requires Distinct(all) && Inv(all, s) && Valid(all, s, run)
    ensures Inv(all, Run(all, s, run))
    decreases run
  {
    if run != [] {
      StepKeeps(all, s, run[0]);
      RunKeeps(all, Step(all, s, run[0]), run[1..]);
    }
  }

  /**
   For any number of runners, of releases that each have an initial part of one file order, and
   any interleaving of checks, applies, errors and crashes: the committed files are a prefix of
   that order, none twice, and exactly those in the tracking table; two runners never hold the
   lock; and a runner that grants or has finished has every file of its release applied.
   */
  lemma {:induction false} ConcurrentRunnersAreSafe(all: seq<string>, run: seq<Action>)
    requires Distinct(all) && Valid(all, INIT, run)
    ensures var s := Run(all, INIT, run);
      && s.log <= all && Distinct(s.log)
      && (forall n :: n in s.tracking <==> n in s.log)
      && (forall q, r :: HoldsLock(s, q) && HoldsLock(s, r) ==> q == r)
      && (forall r :: r in s.runners && s.runners[r].phase in {Granting, Finished} ==>
            s.runners[r].n <= |all| && forall i :: 0 <= i < s.runners[r].n ==> all[i] in s.tracking)
  {
    RunKeeps(all, INIT, run);
    var s := Run(all, INIT, run);
    forall i, j | 0 <= i < j < |s.log| ensures s.log[i] != s.log[j] {
      assert all[i] == s.log[i] && all[j] == s.log[j];
    }
    forall q, r | HoldsLock(s, q) && HoldsLock(s, r) ensures q == r {
      assert RunnerOk(all, s, q) && RunnerOk(all, s, r);
    }
    forall r | r in s.runners && s.runners[r].phase in {Granting, Finished}
      ensures s.runners[r].n <= |all| && forall i :: 0 <= i < s.runners[r].n ==> all[i] in s.tracking
    {
      assert RunnerOk(all, s, r);
      forall i | 0 <= i < s.runners[r].n ensures all[i] in s.tracking {
        assert s.log[i] == all[i] && s.log[i] in s.log;
      }
    }
  }

  // ----- a runner by itself -----

  /** The steps of r's file loop when no other runner moves, for the outcomes fate gives its files. */
  ghost function LoopSteps(all: seq<string>, s: State, r: nat, i: nat, fate: string -> Fate): seq<Action>
    requires In(s, r, Checking(i)) && i <= s.runners[r].n <= |all|
    decreases s.runners[r].n - i
  {
    if i == s.runners[r].n then []
    else if fate(all[i]) == CheckFails then [Stop(r)]
    else
      var t := Step(all, s, Check(r));
      if all[i] in s.tracking then [Check(r)] + LoopSteps(all, t, r, i + 1, fate)
      else
        var u := Step(all, t, Apply(r, fate(all[i])));
        [Check(r), Apply(r, fate(all[i]))] + (if fate(all[i]) == Commits then LoopSteps(all, u, r, i + 1, fate) else [])
  }

  lemma {:induction false} RunCons(all: seq<string>, s: State, a: Action, rest: seq<Action>)
    requires Enabled(all, s, a) && Valid(all, Step(all, s, a), rest)
    ensures Valid(all, s, [a] + rest) && Run(all, s, [a] + rest) == Run(all, Step(all, s, a), rest)
  {
    assert ([a] + rest)[1..] == rest;
  }

  /**
   The method's loop is a run of the concurrent model: from any state, r alone applies what Migrated
   says of the rest of its files, and is stopped by the error Migrated reports or ready to grant.
   */
  lemma {:induction false} LoopIsMigrated(all: seq<string>, s: State, r: nat, i: nat, fate: string -> Fate)
    requires In(s, r, Checking(i)) && i <= s.runners[r].n <= |all|
    requires forall n :: n in s.tracking <==> n in s.log
    ensures Valid(all, s, LoopSteps(all, s, r, i, fate))
    ensures var t, end := Run(all, s, LoopSteps(all, s, r, i, fate)), Migrated(s.log, all[i..s.runners[r].n], fate);
      && t.log == end.log && (forall n :: n in t.tracking <==> n in t.log)
      && In(t, r, if end.err then Stopped else Checking(s.runners[r].n))
      && t.runners[r].n == s.runners[r].n
    decreases s.runners[r].n - i
  {
    var n := s.runners[r].n;
    if i < n {
      var name, rest := all[i], all[i..n];
      assert rest[0] == name && rest[1..] == all[i + 1..n];
      if fate(name) == CheckFails {
        RunCons(all, s, Stop(r), []);
        assert [Stop(r)] + [] == [Stop(r)];
      } else {
        var t := Step(all, s, Check(r));
        if name in s.tracking {
          LoopIsMigrated(all, t, r, i + 1, fate);
          RunCons(all, s, Check(r), LoopSteps(all, t, r, i + 1, fate));
        } else {
          ApplyIsMigrated(all, s, r, i, fate);
        }
      }
    }
  }

  lemma {:induction false} ApplyIsMigrated(all: seq<string>, s: State, r: nat, i: nat, fate: string -> Fate)
    requires In(s, r, Checking(i)) && i < s.runners[r].n <= |all|
    requires forall n :: n in s.tracking <==> n in s.log
    requires fate(all[i]) != CheckFails && all[i] !in s.tracking
    ensures Valid(all, s, LoopSteps(all, s, r, i, fate))
    ensures var t, end := Run(all, s, LoopSteps(all, s, r, i, fate)), Migrated(s.log, all[i..s.runners[r].n], fate);
      && t.log == end.log && (forall n :: n in t.tracking <==> n in t.log)
      && In(t, r, if end.err then Stopped else Checking(s.runners[r].n))
      && t.runners[r].n == s.runners[r].n
    decreases s.runners[r].n - i, 0
  {
    var n, name := s.runners[r].n, all[i];
    assert all[i..n][0] == name && all[i..n][1..] == all[i + 1..n];
    var t := Step(all, s, Check(r));
    var a := Apply(r, fate(name));
    var u := Step(all, t, a);
    var more := if fate(name) == Commits then LoopSteps(all, u, r, i + 1, fate) else [];
    if fate(name) == Commits {
      LoopIsMigrated(all, u, r, i + 1, fate);
    }
    RunCons(all, t, a, more);
    RunCons(all, s, Check(r), [a] + more);
    assert [Check(r)] + ([a] + more) == [Check(r), a] + more;
  }
}
