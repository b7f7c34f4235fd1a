/**
  The reloader object. Its loops build schedulers, apply a diff VIP by VIP, consume verdicts and
  expire stagings, all on the registry, the policy manager and the originator; each method is
  proved to make one move of module `Daemon`, or a run of them.
 */
module Reloader {
  import opened Config
  import opened Policy
  import opened System
  import opened Safety
  import opened Runs
  import opened Diff
  import opened Batch
  import opened Build
  import opened Weave
  import opened Reload
  import opened Course
  import opened Rejection
  import opened Planned
  import opened Daemon
  import opened CommitLoop
  import opened Rib
  import opened Refinement
  import opened Verdicts

  datatype Status = Rejected | Unchanged | AppliedWithErrors | Applied

  // ------------------------------------------------------------------
  // Building
  // ------------------------------------------------------------------

  /** No earlier than four times either threshold of any check at its interval, and equal to that for one. */
  ghost predicate Fourfold(now: nat, checks: seq<Check>, deadline: nat) {
    && (forall c :: c in checks ==>
         now + 4 * c.Rise() * c.Interval() <= deadline && now + 4 * c.Fall() * c.Interval() <= deadline)
    && (deadline == now || exists c ::
         c in checks
         && (deadline == now + 4 * c.Rise() * c.Interval() || deadline == now + 4 * c.Fall() * c.Interval()))
  }

  /** `stagingDeadline`: four times the longest window a shadow needs for a verdict, from now. */
  method StagingDeadline(now: nat, checks: seq<Check>) returns (deadline: nat)
    ensures deadline == now + GRACE * MaxWindow(checks)
    ensures Fourfold(now, checks, deadline)
  {
    var window: nat := 0;
    for i := 0 to |checks|
      invariant window == MaxWindow(checks[..i])
    {
      assert checks[..i + 1][..i] == checks[..i];
      if Window(checks[i]) > window {
        window := Window(checks[i]);
      }
    }
    assert checks[..|checks|] == checks;
    MaxWindowIs(checks);
    forall c | c in checks { FourWindows(c); }
    deadline := now + GRACE * window;
  }

  /** The guard, if the VIP asks for one, and the checker of every check can be made. */
  predicate Makeable(v: Vip, list: seq<Check>, oracle: Oracle) {
    && !(v.requireLocal && v.name in oracle.guards)
    && (forall c :: c in list ==> (v.name, c.EffectiveName()) !in oracle.checkers)
  }

  /** The record of a change to be staged: its new schedulers, the checks that go, and its deadline. */
  method MakeRecord(c: Change, proving: seq<Check>, going: seq<Check>, filed: map<string, Id>, at: nat)
    returns (st: Staged)
    requires proving == Proving(c.was, c.v, c.v.CheckList())
    requires forall n :: n in Names(going) <==> n in RemovedNames(c.was, c.v)
    ensures RecordOf(st, c, at) && st.shadows == filed && Fourfold(at, proving, st.deadline)
  {
    hide Fourfold, RecordOf;
    var deadline := StagingDeadline(at, proving);
    st := Staged(c.v, c.was, filed, {}, (set n | n in Names(going)), at, deadline);
    RecordMade(st, c, going, at);
  }

  /** `NewSchedulers`: one scheduler per check of the list, or none at all. */
  method NewSchedulers(v: Vip, list: seq<Check>, first: Id, oracle: Oracle)
    returns (ok: bool, made: map<Id, Sched>, filed: map<string, Id>)
    ensures ok == Works(Job(v, list), oracle)
    ensures ok <==> Makeable(v, list, oracle)
    ensures ok ==> made == Made(Job(v, list), first) && filed == Filed(list, first)
  {
    made, filed := map[], map[];
    if v.requireLocal && v.name in oracle.guards {
      return false, made, filed;
    }
    for i := 0 to |list|
      invariant made == Made(Job(v, list[..i]), first) && filed == Filed(list[..i], first)
      invariant forall k :: 0 <= k < i ==> (v.name, list[k].EffectiveName()) !in oracle.checkers
    {
      assert list[..i + 1][..i] == list[..i];
      if (v.name, list[i].EffectiveName()) in oracle.checkers {
        return false, made, filed;
      }
      made := made[first + i := NewSched(v, list[i])];
      filed := filed[list[i].EffectiveName() := first + i];
    }
    assert list[..|list|] == list;
    ok := true;
  }

  /** The jobs so far have returned their schedulers: they are built, filed and numbered without a gap. */
  predicate Building(s0: State, s: State, done: seq<Job>, out: Outside, ids: map<string, map<string, Id>>, next: Id) {
    && s == WithNews(s0, News(done, out.first)) && ids == FiledUnder(done, out.first) && next == NextId(done, out.first)
    && forall k :: 0 <= k < |done| ==> Works(done[k], out.oracle)
  }

  /** The build phase is over: every job succeeded, or everything returned before the first failure has been closed. */
  predicate BuildEnded(s0: State, s: State, jobs: seq<Job>, out: Outside, ok: bool, ids: map<string, map<string, Id>>) {
    var k := Good(jobs, out.oracle);
    && (ok <==> k == |jobs|)
    && (ok ==> s == WithNews(s0, News(jobs, out.first)) && ids == FiledUnder(jobs, out.first))
    && (!ok ==> s == Closed(WithNews(s0, News(jobs[..k], out.first)), News(jobs[..k], out.first).Keys))
  }

  lemma BuildingNone(s: State, out: Outside)
    ensures Building(s, s, [], out, map[], out.first)
  {
    NoJob(s, out.first);
  }

  lemma {:induction false} BuildGoesOn(s0: State, s: State, done: seq<Job>, job: Job, out: Outside,
                                       ids: map<string, map<string, Id>>, next: Id)
    requires FreshFrom(s0, out.first) && Building(s0, s, done, out, ids, next) && Works(job, out.oracle)
    ensures Enabled(s, Build(Made(job, next)))
    ensures Building(s0, Step(s, Build(Made(job, next))), done + [job], out,
      ids[job.v.name := Filed(job.checks, next)], next + |job.checks|)
  {
    hide FreshFrom, Made, Filed, News, FiledUnder, NextId, WithNews, Step, Enabled, Works;
    NextJob(s0, done, job, out.first);
  }

  /** Job `k` fails: what the jobs before it returned is filed, once each, and waits to be closed. */
  lemma {:induction false} BuildStops(s0: State, s: State, jobs: seq<Job>, k: nat, out: Outside,
                                      ids: map<string, map<string, Id>>, next: Id)
    requires DistinctJobs(jobs) && k < |jobs| && Building(s0, s, jobs[..k], out, ids, next)
      && !Works(jobs[k], out.oracle)
    ensures FiledApart(ids) && AllIds(ids) <= s.built && BuildEnded(s0, Closed(s, AllIds(ids)), jobs, out, false, ids)
  {
    hide News, FiledUnder, NextId, Works, AllIds, FiledApart, DistinctNames, Closed, Good;
    assert DistinctJobs(jobs[..k]);
    FiledCover(jobs[..k], out.first);
    assert forall i :: 0 <= i < k ==> jobs[..k][i] == jobs[i];
    GoodUntil(jobs, k, out.oracle);
  }

  lemma {:induction false} BuildDone(s0: State, s: State, jobs: seq<Job>, out: Outside,
                                     ids: map<string, map<string, Id>>, next: Id)
    requires Building(s0, s, jobs, out, ids, next)
    ensures BuildEnded(s0, s, jobs, out, true, ids)
  {
    hide News, FiledUnder, NextId, Works, Good, WithNews;
    GoodUntil(jobs, |jobs|, out.oracle);
  }

  lemma {:induction false} NewName(s0: State, s: State, jobs: seq<Job>, k: nat, out: Outside,
                                   ids: map<string, map<string, Id>>, next: Id)
    requires DistinctJobs(jobs) && k < |jobs| && Building(s0, s, jobs[..k], out, ids, next)
    ensures jobs[k].v.name !in ids
  {
    hide FiledUnder, DistinctNames, News, NextId, WithNews, Works;
    FiledKeys(jobs[..k], out.first);
  }

  lemma StageJobsNone()
    ensures StageJobs([]) == []
  {
  }

  lemma {:induction false} NextStageJob(added: seq<Vip>, changed: seq<Change>, j: nat)
    requires j < |changed|
    ensures var jobs, done, job := Jobs(added, changed), AddJobs(added) + StageJobs(changed[..j]), StageJob(changed[j]);
      && AddJobs(added) + StageJobs(changed[..j + 1]) == (if job.checks == [] then done else done + [job])
      && done <= jobs && (job.checks != [] ==> |done| < |jobs| && jobs[|done|] == job)
  {
    hide Proving;
    var jobs, done, job := Jobs(added, changed), AddJobs(added) + StageJobs(changed[..j]), StageJob(changed[j]);
    assert changed[..j + 1][..j] == changed[..j];
    StageJobsPrefix(changed, j);
    StageJobsPrefix(changed, j + 1);
    var more := StageJobs(changed[..j + 1]);
    assert more == StageJobs(changed[..j]) + if job.checks == [] then [] else [job];
    if job.checks != [] {
      assert StageJobs(changed)[|more| - 1] == more[|more| - 1] == job;
    }
  }

  /** The filed schedulers are those of the added VIPs and those of the records. */
  ghost predicate Split(ids: map<string, map<string, Id>>, addedIds: map<string, map<string, Id>>,
                        staged: map<string, Staged>) {
    && (forall n :: n in ids <==> n in addedIds || n in staged) && (forall n :: n in addedIds ==> ids[n] == addedIds[n])
    && (forall n :: n in staged ==> n !in addedIds && ids[n] == staged[n].shadows)
  }

  lemma NoneStaged(ids: map<string, map<string, Id>>)
    ensures Split(ids, ids, map[])
  {
  }

  lemma SplitIs(ids: map<string, map<string, Id>>, addedIds: map<string, map<string, Id>>, staged: map<string, Staged>)
    requires Split(ids, addedIds, staged)
    ensures forall n :: n in staged ==> n in ids && ids[n] == staged[n].shadows
  {
  }

  lemma SplitPut(ids: map<string, map<string, Id>>, addedIds: map<string, map<string, Id>>,
                 staged: map<string, Staged>, n: string, st: Staged)
    requires Split(ids, addedIds, staged) && n !in ids
    ensures Split(ids[n := st.shadows], addedIds, staged[n := st]) && n !in staged
  {
  }

  lemma {:induction false} RecordMade(st: Staged, c: Change, rem: seq<Check>, at: nat)
    requires forall n :: n in Names(rem) <==> n in RemovedNames(c.was, c.v)
    requires st ==
      Staged(c.v, c.was, st.shadows, {}, (set n | n in Names(rem)), at,
      at + GRACE * MaxWindow(Proving(c.was, c.v, c.v.CheckList())))
    ensures RecordOf(st, c, at)
  {
    hide RemovedNames, Names, Proving, MaxWindow;
  }

  /** The changes so far have their records. */
  ghost predicate RecordsFor(list: seq<Change>, staged: map<string, Staged>, at: nat) {
    forall c :: c in list && StageJob(c).checks != [] ==> c.v.name in staged && RecordOf(staged[c.v.name], c, at)
  }

  lemma AllRecorded(changed: seq<Change>, staged: map<string, Staged>, ids: map<string, map<string, Id>>, at: nat)
    requires RecordsFor(changed, staged, at) && forall n :: n in staged ==> n in ids && ids[n] == staged[n].shadows
    ensures Recorded(changed, staged, ids, at)
  {
    hide RecordOf, Proving;
  }

  lemma NoRecords(changed: seq<Change>, at: nat)
    ensures changed[..0] == [] && RecordsFor(changed[..0], map[], at)
  {
  }

  lemma NoRecord(changed: seq<Change>, j: nat, staged: map<string, Staged>, at: nat)
    requires j < |changed| && StageJob(changed[j]).checks == [] && RecordsFor(changed[..j], staged, at)
    ensures RecordsFor(changed[..j + 1], staged, at)
  {
    hide RecordOf, Proving;
    assert changed[..j + 1] == changed[..j] + [changed[j]];
  }

  lemma {:induction false} RecordsKept(changed: seq<Change>, j: nat, staged: map<string, Staged>, st: Staged, at: nat)
    requires j < |changed| && changed[j].v.name !in staged && RecordOf(st, changed[j], at)
      && RecordsFor(changed[..j], staged, at)
    ensures RecordsFor(changed[..j + 1], staged[changed[j].v.name := st], at)
  {
    hide RecordOf, Proving;
    assert changed[..j + 1] == changed[..j] + [changed[j]];
  }

  /** The job of change `j` succeeded. */
  lemma {:induction false} OneMoreStaged(s0: State, s: State, added: seq<Vip>, changed: seq<Change>, j: nat,
                                         out: Outside,
                                         ids: map<string, map<string, Id>>, addedIds: map<string, map<string, Id>>,
                                         staged: map<string, Staged>, st: Staged, next: Id)
    requires FreshFrom(s0, out.first) && DistinctJobs(Jobs(added, changed)) && j < |changed|
      && StageJob(changed[j]).checks != []
    requires Building(s0, s, AddJobs(added) + StageJobs(changed[..j]), out, ids, next)
      && Works(StageJob(changed[j]), out.oracle)
    requires Split(ids, addedIds, staged) && RecordsFor(changed[..j], staged, out.at)
    requires RecordOf(st, changed[j], out.at) && st.shadows == Filed(StageJob(changed[j]).checks, next)
    ensures var job := StageJob(changed[j]); var n := changed[j].v.name;
      && Enabled(s, Build(Made(job, next)))
      && Building(s0, Step(s, Build(Made(job, next))), AddJobs(added) + StageJobs(changed[..j + 1]), out,
         ids[n := st.shadows], next + |job.checks|)
      && Split(ids[n := st.shadows], addedIds, staged[n := st]) && RecordsFor(changed[..j + 1], staged[n := st], out.at)
  {
    hide Building, BuildEnded, DistinctJobs, FreshFrom, Works, Step, Enabled, Made, Filed, StageJobs, RecordOf,
      RecordsFor, Proving, Split, Jobs, AddJobs;
    var jobs, done, job := Jobs(added, changed), AddJobs(added) + StageJobs(changed[..j]), StageJob(changed[j]);
    NextStageJob(added, changed, j);
    assert jobs[..|done|] == done;
    NewName(s0, s, jobs, |done|, out, ids, next);
    BuildGoesOn(s0, s, done, job, out, ids, next);
    SplitPut(ids, addedIds, staged, changed[j].v.name, st);
    RecordsKept(changed, j, staged, st, out.at);
  }

  function ShadowsOf(staged: map<string, Staged>): map<string, map<string, Id>> {
    map n | n in staged :: staged[n].shadows
  }

  /** The record of a staged change, as the build phase makes it. */
  predicate RecordOf(st: Staged, c: Change, at: nat) {
    st == Staged(c.v, c.was, st.shadows, {}, RemovedNames(c.was, c.v), at, DeadlineFor(at, c.was, c.v))
  }

  /** Every change with checks to prove has its record, with the schedulers that were built for it. */
  ghost predicate Recorded(changed: seq<Change>, staged: map<string, Staged>, ids: map<string, map<string, Id>>,
                           at: nat) {
    forall c :: c in changed && StageJob(c).checks != [] ==>
      c.v.name in staged && c.v.name in ids && staged[c.v.name].shadows == ids[c.v.name]
        && RecordOf(staged[c.v.name], c, at)
  }

  // ------------------------------------------------------------------
  // The running config after a failed removal
  // ------------------------------------------------------------------

  /** The file's VIPs, with the old definition put back for every VIP whose removal failed. */
  method PutBack(cand: seq<Vip>, running: seq<Vip>, failed: set<string>) returns (vips: seq<Vip>)
    requires DistinctVips(cand) && DistinctVips(running)
    ensures vips == KeepFailed(cand, running, failed)
  {
    hide KeepFailed;
    vips := cand;
    KeepNone(cand, failed);
    for i := 0 to |running|
      invariant vips == KeepFailed(cand, running[..i], failed)
    {
      var o := running[i];
      assert running[..i + 1] == running[..i] + [o];
      KeepOne(cand, running[..i], o, failed);
      if o.name in failed {
        var k := 0;
        while k < |cand| && cand[k].name != o.name
          invariant 0 <= k <= |cand|
          invariant forall j :: 0 <= j < k ==> cand[j].name != o.name
        {
          k := k + 1;
        }
        if k < |cand| {
          vips := vips[k := o];
        } else {
          vips := vips + [o];
        }
      }
    }
    assert running[..|running|] == running;
  }

  lemma {:induction false} KeepNone(cand: seq<Vip>, failed: set<string>)
    ensures KeepFailed(cand, [], failed) == cand
  {
  }

  lemma {:induction false} KeepOne(cand: seq<Vip>, running: seq<Vip>, o: Vip, failed: set<string>)
    requires DistinctVips(cand) && DistinctVips(running + [o])
    ensures |KeepFailed(cand, running, failed)| >= |cand|
    ensures o.name !in failed ==> KeepFailed(cand, running + [o], failed) == KeepFailed(cand, running, failed)
    ensures o.name in failed ==> forall k :: 0 <= k < |cand| && cand[k].name == o.name ==>
      KeepFailed(cand, running + [o], failed) == KeepFailed(cand, running, failed)[k := o]
    ensures o.name in failed && (forall k :: 0 <= k < |cand| ==> cand[k].name != o.name) ==>
      KeepFailed(cand, running + [o], failed) == KeepFailed(cand, running, failed) + [o]
  {
    hide Leftover;
    var all := running + [o];
    assert all[..|all| - 1] == running;
    LookupIs(cand, o.name);
    PatchOne(cand, running, o, failed);
    LeftoverOne(cand, running, o, failed);
  }

  lemma LeftoverOne(cand: seq<Vip>, running: seq<Vip>, o: Vip, failed: set<string>)
    ensures Leftover(running + [o], cand, failed) ==
      Leftover(running, cand, failed) + if o.name in failed && Lookup(cand, o.name).None? then [o] else []
  {
    hide Lookup;
    assert (running + [o])[..|running|] == running;
  }

  lemma {:induction false} PatchOne(cand: seq<Vip>, running: seq<Vip>, o: Vip, failed: set<string>)
    requires DistinctVips(cand)
    ensures var p, q := Patched(cand, running, failed), Patched(cand, running + [o], failed);
      && (o.name !in failed ==> q == p)
      && (forall k :: 0 <= k < |cand| && cand[k].name == o.name && o.name in failed ==> q == p[k := o])
      && ((forall k :: 0 <= k < |cand| ==> cand[k].name != o.name) ==> q == p)
  {
    assert (running + [o])[..|running|] == running;
    assert forall n :: Lookup(running + [o], n) == if o.name == n then Some(o) else Lookup(running, n);
    hide Lookup;
    var p, q := Patched(cand, running, failed), Patched(cand, running + [o], failed);
    forall k | 0 <= k < |cand| && cand[k].name == o.name && o.name in failed
      ensures q == p[k := o]
    {
      assert forall j :: 0 <= j < |cand| ==> q[j] == p[k := o][j];
    }
  }

  // ------------------------------------------------------------------
  // The object
  // ------------------------------------------------------------------

  class Reloader {
    /** Registry, policy manager, originator and the records of the stagings. */
    const node: Node
    var cur: File
    var hash: Option<File>
    var generation: nat
    var fileChanged: bool

    /** `New`, for a daemon that started with the file's definitions. */
    constructor (node: Node, file: File)
      requires node.prog.Valid()
      ensures this.node == node && Value() == Daemon(node.prog.Abs(), file, Some(file), 1, false)
    {
      this.node, cur, hash, generation, fileChanged := node, file, Some(file), 1, false;
    }

    ghost function Now(): State
      requires node.prog.Valid()
      reads node.prog, node.prog.reg, node.prog.pol, node.prog.pol.bgp
    {
      node.prog.Abs()
    }

    ghost function Value(): Daemon
      requires node.prog.Valid()
      reads this, node.prog, node.prog.reg, node.prog.pol, node.prog.pol.bgp
    {
      Daemon(Now(), cur, hash, generation, fileChanged)
    }

    /** `effectiveVIPsLocked`. */
    method EffectiveVips() returns (out: seq<Vip>)
      requires node.prog.Valid()
      ensures out == Effective(cur.vips, Now().staging)
    {
      hide Objects.Program.Valid, Objects.Program.Abs;
      RecordsAre(node.prog);
      var staging := node.prog.staging;
      out := cur.vips;
      for i := 0 to |cur.vips|
        invariant |out| == |cur.vips|
        invariant forall k :: 0 <= k < i ==> out[k] == Effective(cur.vips, staging)[k]
        invariant forall k :: i <= k < |out| ==> out[k] == cur.vips[k]
      {
        if out[i].name in staging {
          out := out[i := staging[out[i].name].was];
        }
      }
    }

    /** `closeSchedulers` for every list of a map, in any order. */
    method CloseFiled(m: map<string, map<string, Id>>)
      requires node.prog.Valid() && FiledApart(m) && AllIds(m) <= Now().built
      modifies node.prog
      ensures node.prog.Valid() && Now() == Closed(old(Now()), AllIds(m))
    {
      hide Closed, FiledApart, AllIds, System.Ids, Step, Enabled, Objects.Program.Valid, Objects.Program.Abs;
      var todo := m.Keys;
      ghost var closed: map<string, map<string, Id>> := map[];
      ClosedNone(Now());
      while todo != {}
        invariant node.prog.Valid()
        invariant forall x :: x in todo ==> x in m && x !in closed
        invariant forall x :: x in m ==> x in todo || x in closed
        invariant forall x :: x in closed ==> x in m && closed[x] == m[x]
        invariant Now() == Closed(old(Now()), AllIds(closed))
        decreases |todo|
      {
        var n :| n in todo;
        FiledRest(m, closed, n);
        AllIdsPut(closed, n, m[n]);
        CloseTwice(old(Now()), AllIds(closed), System.Ids(m[n]));
        node.CloseUnused(System.Ids(m[n]));
        closed := closed[n := m[n]];
        todo := todo - {n};
      }
      assert closed == m;
    }

    /**
      The build phase: a job per added VIP, then one per change with checks to prove. If a job
      fails, what the earlier ones returned is closed, whichever job it was.
     */
    method BuildAll(added: seq<Vip>, changed: seq<Change>, out: Outside)
      returns (ok: bool, ids: map<string, map<string, Id>>, staged: map<string, Staged>)
      requires node.prog.Valid() && FreshFrom(Now(), out.first) && DistinctJobs(Jobs(added, changed))
      requires forall c :: c in changed ==> DistinctNames(c.v.CheckList())
      modifies node.prog
      ensures node.prog.Valid() && BuildEnded(old(Now()), Now(), Jobs(added, changed), out, ok, ids)
      ensures ok ==> Recorded(changed, staged, ids, out.at)
    {
      hide BuildEnded, StageJobs, DistinctNames, FreshFrom, Recorded, WithNews, News, FiledUnder, NextId,
        Objects.Program.Valid, Objects.Program.Abs;
      ghost var jobs := Jobs(added, changed);
      staged := map[];
      var next;
      ok, ids, next := BuildAdded(added, out, jobs);
      if ok {
        ok, ids, staged := BuildChanged(changed, out, next, ids, old(Now()), added);
      }
    }

    /** The jobs of the added VIPs. */
    method BuildAdded(added: seq<Vip>, out: Outside, ghost jobs: seq<Job>)
      returns (ok: bool, ids: map<string, map<string, Id>>, next: Id)
      requires node.prog.Valid() && FreshFrom(Now(), out.first) && DistinctJobs(jobs) && AddJobs(added) <= jobs
      modifies node.prog
      ensures node.prog.Valid() && (ok ==> Building(old(Now()), Now(), AddJobs(added), out, ids, next))
      ensures !ok ==> BuildEnded(old(Now()), Now(), jobs, out, false, ids)
    {
      hide Makeable, Building, BuildEnded, DistinctJobs, FreshFrom, Works, Step, Enabled, Made, Filed,
        Objects.Program.Valid, Objects.Program.Abs;
      ghost var done: seq<Job> := [];
      next := out.first;
      ids := map[];
      BuildingNone(Now(), out);
      for i := 0 to |added|
        invariant node.prog.Valid() && done == jobs[..i] == AddJobs(added)[..i]
          && Building(old(Now()), Now(), done, out, ids, next)
      {
        var v := added[i];
        assert jobs[i] == Job(v, v.CheckList()) && jobs[..i + 1] == done + [jobs[i]];
        var good, made, filed := NewSchedulers(v, v.CheckList(), next, out.oracle);
        if !good {
          BuildStops(old(Now()), Now(), jobs, i, out, ids, next);
          CloseFiled(ids);
          return false, ids, next;
        }
        BuildGoesOn(old(Now()), Now(), done, jobs[i], out, ids, next);
        node.Build(made);
        ids := ids[v.name := filed];
        next := next + |v.CheckList()|;
        done := done + [jobs[i]];
      }
      assert AddJobs(added)[..|added|] == AddJobs(added);
      ok := true;
    }

    /** The jobs of the changes, with the records of the stagings to come. */
    method BuildChanged(changed: seq<Change>, out: Outside, first: Id, addedIds: map<string, map<string, Id>>,
                        ghost s0: State, ghost added: seq<Vip>)
      returns (ok: bool, ids: map<string, map<string, Id>>, staged: map<string, Staged>)
      requires node.prog.Valid() && FreshFrom(s0, out.first) && DistinctJobs(Jobs(added, changed))
      requires Building(s0, Now(), AddJobs(added), out, addedIds, first)
        && forall c :: c in changed ==> DistinctNames(c.v.CheckList())
      modifies node.prog
      ensures node.prog.Valid() && BuildEnded(s0, Now(), Jobs(added, changed), out, ok, ids)
      ensures ok ==> Recorded(changed, staged, ids, out.at)
    {
      hide Fourfold, Makeable, Names, RemovedNames, ChangedNames, Building, BuildEnded, DistinctJobs, FreshFrom,
        Works, Step, Enabled, Made, Filed, DistinctNames, StageJobs, RecordOf, RecordsFor, Recorded, Proving, Split,
        Objects.Program.Valid, Objects.Program.Abs;
      ghost var jobs := Jobs(added, changed);
      ghost var done := AddJobs(added);
      var next: Id := first;
      ids, staged := addedIds, map[];
      NoneStaged(ids);
      StageJobsNone();
      NoRecords(changed, out.at);
      for j := 0 to |changed|
        invariant node.prog.Valid() && done == AddJobs(added) + StageJobs(changed[..j])
          && Building(s0, Now(), done, out, ids, next)
        invariant Split(ids, addedIds, staged)
        invariant RecordsFor(changed[..j], staged, out.at)
      {
        var c := changed[j];
        assert c in changed;
        NextStageJob(added, changed, j);
        var chg, rem := DiffVip(c.was, c.v);
        if |chg| == 0 {
          NoRecord(changed, j, staged, out.at);
          continue;
        }
        var good, made, filed := NewSchedulers(c.v, chg, next, out.oracle);
        if !good {
          assert jobs[..|done|] == done;
          BuildStops(s0, Now(), jobs, |done|, out, ids, next);
          CloseBoth(addedIds, staged, ids);
          return false, ids, staged;
        }
        var st := MakeRecord(c, chg, rem, filed, out.at);
        OneMoreStaged(s0, Now(), added, changed, j, out, ids, addedIds, staged, st, next);
        node.Build(made);
        ids := ids[c.v.name := filed];
        staged := staged[c.v.name := st];
        next := next + |chg|;
        done := AddJobs(added) + StageJobs(changed[..j + 1]);
      }
      assert changed[..|changed|] == changed;
      BuildDone(s0, Now(), jobs, out, ids, next);
      SplitIs(ids, addedIds, staged);
      AllRecorded(changed, staged, ids, out.at);
      ok := true;
    }

    /** The rejection closes the schedulers of the added VIPs, then those of the staged ones. */
    method CloseBoth(addedIds: map<string, map<string, Id>>, staged: map<string, Staged>,
                     ghost ids: map<string, map<string, Id>>)
      requires node.prog.Valid() && FiledApart(ids) && AllIds(ids) <= Now().built && Split(ids, addedIds, staged)
      modifies node.prog
      ensures node.prog.Valid() && Now() == Closed(old(Now()), AllIds(ids))
    {
      hide Closed, FiledApart, AllIds, Objects.Program.Valid, Objects.Program.Abs;
      var shadows := ShadowsOf(staged);
      BothHalves(addedIds, shadows, ids);
      CloseFiled(addedIds);
      OthersBuilt(old(Now()), AllIds(addedIds), AllIds(shadows));
      CloseFiled(shadows);
      ClosedTwice(old(Now()), AllIds(addedIds), AllIds(shadows));
    }

    /**
      The removals, one VIP at a time; `failed` collects the VIPs whose route could not be withdrawn
      when their turn came.
     */
    method RemoveAll(removed: seq<Vip>, sky: map<string, Weather>, ghost env: Env) returns (failed: set<string>)
      requires node.prog.Valid() && Runnable(Now(), Removals(removed, env))
      requires forall i :: 0 <= i < |removed| ==> env.Bgp(removed[i].name) == WithdrawIn(Over(sky, removed[i].name))
      modifies node.prog, node.prog.reg, node.prog.pol, node.prog.pol.bgp
      ensures node.prog.Valid() && Now() == Play(old(Now()), Removals(removed, env))
        && failed == FailedIn(old(Now()), Removals(removed, env))
    {
      hide Benign, Runnable, Play, RemovalFails, FailedIn, Quiet, WithdrawIn, StepRemove, Objects.Program.Valid,
        Objects.Program.Abs;
      ghost var evs := Removals(removed, env);
      failed := {};
      PlayNone(Now(), evs);
      FailedInNone(Now(), evs);
      for i := 0 to |removed|
        invariant node.prog.Valid() && Runnable(old(Now()), evs[..i]) && Now() == Play(old(Now()), evs[..i])
          && failed == FailedIn(old(Now()), evs[..i])
      {
        var n := removed[i].name;
        PlayStep(old(Now()), evs, i);
        assert evs[..i + 1] == evs[..i] + [evs[i]];
        FailedInConcat(old(Now()), evs[..i], evs[i]);
        var ok := node.Remove(n, Over(sky, n));
        if !ok {
          failed := failed + {n};
        }
      }
      assert evs[..|evs|] == evs;
    }

    /** The additions; a VIP that had to stay under its old prefix only has its new schedulers closed. */
    method AddAll(added: seq<Vip>, failed: set<string>, env: Env)
      requires node.prog.Valid() && Core(Now()) && Runnable(Now(), Additions(added, failed, env))
      modifies node.prog, node.prog.reg, node.prog.pol, node.prog.pol.bgp
      ensures node.prog.Valid() && Now() == Play(old(Now()), Additions(added, failed, env))
    {
      hide Core, Enabled, Benign, Runnable, Play, StepAdd, Objects.Program.Valid, Objects.Program.Abs;
      ghost var evs := Additions(added, failed, env);
      PlayNone(Now(), evs);
      for i := 0 to |added|
        invariant node.prog.Valid() && Core(Now()) && Runnable(old(Now()), evs[..i])
          && Now() == Play(old(Now()), evs[..i])
      {
        PlayStep(old(Now()), evs, i);
        StepKeepsIff(Now(), evs[i]);
        var n := added[i].name;
        if n in failed {
          node.CloseUnused(System.Ids(env.Ids(n)));
        } else {
          node.Add(added[i], env.Ids(n), n in env.seen);
        }
      }
      assert evs[..|evs|] == evs;
    }

    /**
      The changes: at once when nothing has to be proved; otherwise the record of the build phase
      is stored and its shadows start. `after` tells in addition what the commits were answered.
     */
    method ChangeAll(changed: seq<Change>, staged: map<string, Staged>, sky: map<string, Weather>, env: Env)
      returns (ghost after: Env)
      requires node.prog.Valid() && Core(Now()) && DistinctChanges(changed) && InTurn(Now(), changed, env)
      requires forall c :: c in changed && NeedsStaging(c) ==>
        c.v.name in staged && staged[c.v.name].shadows == env.Ids(c.v.name) && RecordOf(staged[c.v.name], c, env.at)
      modifies node.prog, node.prog.reg, node.prog.pol, node.prog.pol.bgp
      ensures Varies(env, after, changed) && node.prog.Valid()
      ensures Runnable(old(Now()), Alterations(changed, after))
        && Now() == Play(old(Now()), Alterations(changed, after))
    {
      hide Core, Enabled, Benign, Runnable, Play, Played, Step, ChangedNames, RemovedNames, DeadlineFor, InTurn,
        StepStage, StepCommitNow, Varies, DistinctChanges, RecordOf, Objects.Program.Valid, Objects.Program.Abs;
      after := env;
      NothingVaries(env, changed);
      InTurnWith(Now(), changed, env, after);
      PlayNone(Now(), Alterations(changed, after));
      for i := 0 to |changed|
        invariant node.prog.Valid() && Core(Now()) && Varies(env, after, changed)
        invariant Runnable(old(Now()), Alterations(changed, after)[..i])
          && Now() == Play(old(Now()), Alterations(changed, after)[..i])
      {
        var c := changed[i];
        var v := c.v;
        assert c in changed;
        TurnComes(old(Now()), changed, env, after, i);
        if !NeedsStaging(c) {
          var w := node.Meet(Over(sky, v.name));
          ghost var b := node.CommitAtOnce(v, v.name in env.seen, w);
          after := AnsweredFor(old(Now()), changed, env, after, i, b);
        } else {
          StagedInTurn(old(Now()), changed, env, after, i, staged[v.name]);
          node.StageChange(v, env.Ids(v.name), env.at, staged[v.name]);
        }
      }
      InTurnWith(old(Now()), changed, env, after);
      assert Alterations(changed, after)[..|changed|] == Alterations(changed, after);
    }

    /** Drop the earlier stagings, then the removals, the additions and the changes. */
    method ApplyDiff(f: File, out: Outside, seen: set<string>, sky: map<string, Weather>, added: seq<Vip>,
                     removed: seq<Vip>, changed: seq<Change>,
                     ids: map<string, map<string, Id>>, staged: map<string, Staged>, ghost d: Daemon)
      returns (failed: set<string>, ghost ans: Answers)
      requires node.prog.Valid() && Agrees(d) && ValidVips(f.vips) && FreshFrom(d.s, out.first)
        && Whatever(d.s, out, seen, sky, Delta(d, f))
      requires added == Delta(d, f).added && removed == Delta(d, f).removed && changed == Delta(d, f).changed
      requires Now() == WithNews(d.s, News(WorkJobs(Delta(d, f)), out.first))
        && ids == FiledUnder(WorkJobs(Delta(d, f)), out.first)
      requires Recorded(changed, staged, ids, out.at)
      modifies node.prog, node.prog.reg, node.prog.pol, node.prog.pol.bgp
      ensures node.prog.Valid() && Foretold(ans, seen, sky, Delta(d, f)) && DistinctVips(f.vips)
        && DistinctVips(Delta(d, f).running)
      ensures var c := Straight(d.s, out, ans, Delta(d, f)); Now() == AtTheEnd(d.s, c) && failed == Stuck(d.s, c)
    {
      hide Agrees, ValidVips, FreshFrom, Whatever, Foretold, Proceeds, Delta, News, FiledUnder, WithNews, Runnable,
        Play, Played, FailedIn, Removals, Additions,
        Alterations, Recorded, Straight, Stuck, AtTheEnd, AfterAdditions, StepDrop, DistinctVips, EnvOf, NeedsStaging,
          Core, InTurn, Varies, DistinctChanges,
        RecordOf, WithdrawIn, Over, Withdraws, Objects.Program.Valid, Objects.Program.Abs;
      ghost var w, t := Delta(d, f), Now();
      var env := Env(map[], ids, Withdraws(removed, sky), seen, out.at);
      ghost var first := Answers(env.bgp, seen);
      FirstForetold(removed, sky, seen, w);
      Expected(d.s, out, seen, sky, w, first);
      StraightStages(d, f, out, first, t);
      SameEnv(out, first, w, env);
      node.Drop();
      WithdrawsAre(removed, sky, env);
      failed := RemoveAll(removed, sky, env);
      AddAll(added, failed, env);
      RecordsFit(d, f, out, staged, env);
      TurnsWhatever(d, f, out, seen, sky, env, t);
      ghost var after := ChangeAll(changed, staged, sky, env);
      ans := Answers(after.bgp, seen);
      EndsStraight(d, f, out, seen, sky, env, after, t);
    }

    /** The part of `reloadLocked` that touches the running state, once everything is built. */
    method ApplyFile(f: File, out: Outside, seen: set<string>, sky: map<string, Weather>, running: seq<Vip>,
                     added: seq<Vip>, removed: seq<Vip>,
                     changed: seq<Change>, ids: map<string, map<string, Id>>, staged: map<string, Staged>,
                     ghost d: Daemon)
      returns (failed: set<string>, ghost ans: Answers)
      requires node.prog.Valid() && Agrees(d) && ValidVips(f.vips) && FreshFrom(d.s, out.first)
        && Whatever(d.s, out, seen, sky, Delta(d, f))
      requires Work(running, f.vips, added, removed, changed) == Delta(d, f)
      requires Value() == d.(s := WithNews(d.s, News(WorkJobs(Delta(d, f)), out.first)))
        && ids == FiledUnder(WorkJobs(Delta(d, f)), out.first)
      requires Recorded(changed, staged, ids, out.at)
      modifies this, node.prog, node.prog.reg, node.prog.pol, node.prog.pol.bgp
      ensures node.prog.Valid() && Foretold(ans, seen, sky, Delta(d, f))
      ensures Value() == Apply(d, f, Straight(d.s, out, ans, Delta(d, f)))
        && failed == Stuck(d.s, Straight(d.s, out, ans, Delta(d, f)))
    {
      hide Agrees, ValidVips, FreshFrom, Whatever, Foretold, Delta, WorkJobs, News, FiledUnder, WithNews, KeepFailed,
        Recorded, Straight, Stuck, AtTheEnd, Apply, DistinctVips, Objects.Program.Valid, Objects.Program.Abs;
      failed, ans := ApplyDiff(f, out, seen, sky, added, removed, changed, ids, staged, d);
      var vips := PutBack(f.vips, running, failed);
      cur := f.(vips := vips);
      hash := if failed == {} then Some(f) else None;
      fileChanged := failed != {};
      generation := generation + 1;
      ApplyIs(d, f, Straight(d.s, out, ans, Delta(d, f)));
    }

    /** A file that differs and can be applied without a restart: build, then apply or reject. */
    method BuildAndApply(f: File, out: Outside, seen: set<string>, sky: map<string, Weather>, ghost expected: Answers,
                         ghost d: Daemon)
      returns (status: Status, ghost ans: Answers)
      requires node.prog.Valid() && d == Value() && Agrees(d) && ValidVips(f.vips) && FreshFrom(d.s, out.first)
        && hash != Some(f) && f.fixed == cur.fixed
      requires Judge(d, f, out) == Applies ==> Whatever(d.s, out, seen, sky, Delta(d, f))
      requires Foretold(expected, seen, sky, Delta(d, f))
      requires var mv := ReloadFile(f, out, CourseOf(d, f, out, expected)); Allowed(d, mv) && Agrees(AfterMove(d, mv))
      modifies this, node.prog, node.prog.reg, node.prog.pol, node.prog.pol.bgp
      ensures node.prog.Valid() && Foretold(ans, seen, sky, Delta(d, f))
      ensures var mv := ReloadFile(f, out, CourseOf(d, f, out, ans));
        && Allowed(d, mv) && Agrees(AfterMove(d, mv)) && Value() == AfterMove(d, mv)
           && (status == Rejected <==> IsRejected(d, mv))
      ensures status != Unchanged
        && (status == Applied ==> hash == Some(f) && generation == d.generation + 1 && !fileChanged)
      ensures status == AppliedWithErrors ==> hash == None && generation == d.generation + 1 && fileChanged
    {
      hide Agrees, ValidVips, FreshFrom, Proceeds, Whatever, Foretold, Delta, Effective, Apply, CourseOf, Straight,
        BuildEnded, Recorded, Jobs, Stuck,
        Judge, Allowed, AfterMove, IsRejected, FailedCourse, Played, WithNews, News, FiledUnder, Objects.Program.Valid,
          Objects.Program.Abs;
      ans := expected;
      var running := EffectiveVips();
      var added, removed, changed, same := DiffVips(running, f.vips);
      DeltaIs(d, f, running, added, removed, changed);
      var ok, ids, staged := BuildAll(added, changed, out);
      BuildJudges(d, f, out, Now(), ok, ids);
      if !ok {
        fileChanged := true;
        RejectedIs(d, f, out, ans);
        status := Rejected;
      } else {
        var failed;
        failed, ans := ApplyFile(f, out, seen, sky, running, added, removed, changed, ids, staged, d);
        Proceeding(d, f, out, seen, sky, ans);
        status := if failed == {} then Applied else AppliedWithErrors;
      }
    }

    /**
      `reloadLocked`, performed on the registry, the policy manager and the originator: one move of
      the daemon, and what it reports. `ans` is what the BGP server made of it.
     */
    method ReloadConfig(file: Option<File>, out: Outside, seen: set<string>, sky: map<string, Weather>)
      returns (status: Status, ghost ans: Answers)
      requires node.Sound() && Agrees(Value())
        && (file.Some? ==> ValidVips(file.value.vips) && FreshFrom(Now(), out.first))
      requires file.Some? && Judge(Value(), file.value, out) == Applies ==>
        Whatever(Now(), out, seen, sky, Delta(Value(), file.value))
      modifies this, node, node.prog, node.prog.reg, node.prog.pol, node.prog.pol.bgp
      ensures node.Sound() && Agrees(Value())
      ensures file.None? ==> status == Rejected && Value() == old(Value())
      ensures file.Some? ==> var mv := ReloadFile(file.value, out, CourseOf(old(Value()), file.value, out, ans));
        && Foretold(ans, seen, sky, Delta(old(Value()), file.value))
        && Allowed(old(Value()), mv) && Value() == AfterMove(old(Value()), mv)
        && (status == Rejected <==> IsRejected(old(Value()), mv)) && (status == Unchanged <==> old(hash) == file)
        && (status == Applied ==> hash == file && generation == old(generation) + 1 && !fileChanged)
        && (status == AppliedWithErrors ==> hash == None && generation == old(generation) + 1 && fileChanged)
    {
      hide Agrees, ValidVips, FreshFrom, Proceeds, Whatever, Foretold, WorkOf, Effective, Apply, CourseOf, Straight,
        BuildEnded, Recorded, Jobs, Stuck, Reaches, Objects.Program.Valid, Objects.Program.Abs;
      if file.None? {
        return Rejected, Answers(map[], {});
      }
      var f := file.value;
      ghost var d := Value();
      ans := Expecting(d, f, out, seen, sky);
      if hash == Some(f) {
        fileChanged := false;
        return Unchanged, ans;
      }
      if f.fixed != cur.fixed {
        fileChanged := true;
        return Rejected, ans;
      }
      status, ans := BuildAndApply(f, out, seen, sky, ans, d);
      ghost var evs := MoveReaches(d, ReloadFile(f, out, CourseOf(d, f, out, ans)));
      node.Note(evs, d.s);
    }

    /**
      `commitReady`: take the queue and consume it. What remains staged is exactly what still
      waits for a shadow; everything else runs its new definition.
     */
    method CommitReady(seen: seq<bool>, sky: seq<Weather>)
      requires node.Sound() && Agrees(Value()) && Now().drained == [] && AllQuiet(Now())
        && |seen| == |sky| == |Now().queue|
      modifies node, node.prog, node.prog.reg, node.prog.pol, node.prog.pol.bgp
      ensures node.Sound() && Agrees(Value()) && Now().drained == [] && Now().queue == []
      ensures Now().staging == Consumed(old(Now()).staging, old(Now()).queue)
      ensures forall n :: n in Now().staging ==> Owes(Now(), n)
    {
      hide Agrees, AllQuiet, Consuming, Step, Enabled, Consumed, Core, Reaches, StepReport, Objects.Program.Valid,
        Objects.Program.Abs;
      ghost var s0, q := Now(), Now().queue;
      DrainStarts(Value());
      node.Drain();
      node.Note([DrainQueue], s0);
      for i := 0 to |seen|
        invariant node.Sound() && Agrees(Value()) && AllQuiet(Now()) && Consuming(s0, Now(), q, i)
      {
        ghost var d := Value();
        ConsumeAhead(d, s0, q, i, node.prog);
        var w := node.Meet(sky[i]);
        ghost var b := node.Consume(seen[i], w);
        ConsumeOne(d, s0, q, i, seen[i], b);
        node.Note([Report(seen[i], b)], d.s);
      }
      ConsumeDone(s0, Now(), q);
      forall n | n in Now().staging ensures Owes(Now(), n) { NoneOverdue(node.trace, Now(), n); }
    }

    /** A staged VIP past its deadline is committed. */
    method ExpireVip(n: string, ghost now: nat, seen: bool, weather: Weather)
      requires node.Sound() && Agrees(Value()) && AllQuiet(Now()) && n in Now().staging
        && now >= Now().staging[n].deadline
      modifies node, node.prog, node.prog.reg, node.prog.pol, node.prog.pol.bgp
      ensures node.Sound() && Agrees(Value()) && AllQuiet(Now()) && Now().drained == old(Now()).drained
        && Now().staging == old(Now()).staging - {n}
    {
      hide Agrees, AllQuiet, Core, Step, Enabled, Reaches, StepCommit, Objects.Program.Valid, Objects.Program.Abs;
      ghost var d := Value();
      AgreesCore(d);
      RecordsAre(node.prog);
      var w := node.Meet(weather);
      ghost var b := node.CommitStaged(n, seen, w);
      ExpireOne(d, n, now, seen, b);
      node.Note([Expire(n, now, seen, b)], d.s);
    }

    /** `expireStaged`: commit every staged VIP past its deadline, in any order, and no other. */
    method ExpireStaged(now: nat, seen: set<string>, sky: map<string, Weather>)
      requires node.Sound() && Agrees(Value()) && AllQuiet(Now())
      modifies node, node.prog, node.prog.reg, node.prog.pol, node.prog.pol.bgp
      ensures node.Sound() && Agrees(Value()) && Now().drained == old(Now()).drained
      ensures Now().staging ==
        map n | n in old(Now()).staging && now < old(Now()).staging[n].deadline :: old(Now()).staging[n]
    {
      hide Agrees, AllQuiet, Reaches, Objects.Program.Valid, Objects.Program.Abs;
      ghost var staging := Now().staging;
      RecordsAre(node.prog);
      var todo := node.prog.staging.Keys;
      assert Unexpired(staging, now, todo) == staging;
      while todo != {}
        invariant node.Sound() && Agrees(Value()) && AllQuiet(Now()) && Now().drained == old(Now()).drained
        invariant todo <= staging.Keys && Now().staging == Unexpired(staging, now, todo)
        decreases |todo|
      {
        var n :| n in todo;
        UnexpiredOneLess(staging, now, todo, n);
        RecordsAre(node.prog);
        assert n in node.prog.staging && node.prog.staging[n] == staging[n];
        if now >= node.prog.staging[n].deadline {
          ExpireVip(n, now, n in seen, Over(sky, n));
        }
        todo := todo - {n};
      }
    }
  }

  // ------------------------------------------------------------------
  // What the BGP server answers
  // ------------------------------------------------------------------

  /** The weather over a VIP; fair unless told otherwise. */
  function Over(sky: map<string, Weather>, n: string): Weather {
    if n in sky then sky[n] else Weather(true, true, Added(0))
  }

  /** What the withdraws of the removals will be answered. */
  function Withdraws(removed: seq<Vip>, sky: map<string, Weather>): map<string, Bgp> {
    map o | o in removed :: o.name := WithdrawIn(Over(sky, o.name))
  }

  /** Answers that fit the weather: the withdraws are foretold by it; a commit may be answered in any way. */
  ghost predicate Foretold(ans: Answers, seen: set<string>, sky: map<string, Weather>, w: Work) {
    ans.seen == seen && forall o :: o in w.removed ==> AnswerFor(ans, o.name) == WithdrawIn(Over(sky, o.name))
  }

  function AnswerFor(ans: Answers, n: string): Bgp { if n in ans.bgp then ans.bgp[n] else Done }

  /** Whatever the commits are answered, the straight course can be taken. */
  ghost predicate Whatever(s: State, out: Outside, seen: set<string>, sky: map<string, Weather>, w: Work) {
    forall ans :: Foretold(ans, seen, sky, w) ==> Proceeds(s, out, w, Straight(s, out, ans, w))
  }

  /** A reload that nothing hinders proceeds whatever its commits are answered. */
  lemma {:induction false} UnhinderedWhatever(s: State, out: Outside, seen: set<string>, sky: map<string, Weather>,
                                              w: Work)
    requires Core(s) && s.built == {} && Sorted(w) && Governing(s, w.running) && FreshFrom(s, out.first)
    requires Unhindered(s, EnvOf(out, Answers(Withdraws(w.removed, sky), seen), w), w)
    ensures Whatever(s, out, seen, sky, w)
  {
    hide Core, Sorted, Governing, FreshFrom, Proceeds, Straight, News, FiledUnder, Jobs, RemovalFails, Quiet,
      WithdrawIn;
    var first := Answers(Withdraws(w.removed, sky), seen);
    FirstForetold(w.removed, sky, seen, w);
    forall ans | Foretold(ans, seen, sky, w)
      ensures Proceeds(s, out, w, Straight(s, out, ans, w))
    {
      assert Failed(s, w.removed, EnvOf(out, ans, w)) == Failed(s, w.removed, EnvOf(out, first, w)) by {
        assert forall o :: o in w.removed ==>
          EnvOf(out, ans, w).Bgp(o.name) == AnswerFor(ans, o.name)
          && EnvOf(out, first, w).Bgp(o.name) == AnswerFor(first, o.name);
      }
      StraightProceeds(s, out, ans, w);
    }
  }

  lemma FirstForetold(removed: seq<Vip>, sky: map<string, Weather>, seen: set<string>, w: Work)
    requires removed == w.removed
    ensures Foretold(Answers(Withdraws(removed, sky), seen), seen, sky, w)
  {
    hide WithdrawIn, Over;
  }

  lemma WithdrawsAre(removed: seq<Vip>, sky: map<string, Weather>, env: Env)
    requires env.bgp == Withdraws(removed, sky)
    ensures forall i :: 0 <= i < |removed| ==> env.Bgp(removed[i].name) == WithdrawIn(Over(sky, removed[i].name))
  {
    hide WithdrawIn, Over;
    forall i | 0 <= i < |removed|
      ensures env.Bgp(removed[i].name) == WithdrawIn(Over(sky, removed[i].name))
    {
      assert removed[i] in removed;
    }
  }

  lemma Expected(s: State, out: Outside, seen: set<string>, sky: map<string, Weather>, w: Work, ans: Answers)
    requires Whatever(s, out, seen, sky, w) && Foretold(ans, seen, sky, w)
    ensures Proceeds(s, out, w, Straight(s, out, ans, w))
  {
    hide Proceeds, Straight, Foretold;
  }

  /** Answers to expect, before anything is done. */
  lemma {:induction false} Expecting(d: Daemon, f: File, out: Outside, seen: set<string>, sky: map<string, Weather>)
    returns (ans: Answers)
    requires Agrees(d) && ValidVips(f.vips) && FreshFrom(d.s, out.first)
    requires Judge(d, f, out) == Applies ==> Whatever(d.s, out, seen, sky, Delta(d, f))
    ensures Foretold(ans, seen, sky, Delta(d, f))
    ensures var mv := ReloadFile(f, out, CourseOf(d, f, out, ans)); Allowed(d, mv) && Agrees(AfterMove(d, mv))
  {
    hide Agrees, ValidVips, FreshFrom, Whatever, Foretold, Proceeds, Straight, Delta, CourseOf, AfterMove, Allowed,
      Judge;
    var w := Delta(d, f);
    ans := Answers(Withdraws(w.removed, sky), seen);
    FirstForetold(w.removed, sky, seen, w);
    if Judge(d, f, out) == Applies { Expected(d.s, out, seen, sky, w, ans); }
    CourseAllowed(d, f, out, ans);
    MoveKeeps(d, ReloadFile(f, out, CourseOf(d, f, out, ans)));
  }

  /** The reload went its course, with the answers it got. */
  lemma {:induction false} Proceeding(d: Daemon, f: File, out: Outside, seen: set<string>, sky: map<string, Weather>,
                                      ans: Answers)
    requires Agrees(d) && ValidVips(f.vips) && FreshFrom(d.s, out.first) && Judge(d, f, out) == Applies
    requires Whatever(d.s, out, seen, sky, Delta(d, f)) && Foretold(ans, seen, sky, Delta(d, f))
    ensures CourseOf(d, f, out, ans) == Straight(d.s, out, ans, Delta(d, f))
    ensures var mv := ReloadFile(f, out, CourseOf(d, f, out, ans));
      && Allowed(d, mv) && Agrees(AfterMove(d, mv)) && AfterMove(d, mv) ==
         Apply(d, f, Straight(d.s, out, ans, Delta(d, f))) && !IsRejected(d, mv)
    ensures var e := Apply(d, f, Straight(d.s, out, ans, Delta(d, f)));
      var stuck := Stuck(d.s, Straight(d.s, out, ans, Delta(d, f)));
      && e.generation == d.generation + 1 && (e.fileChanged <==> stuck != {})
         && e.hash == if stuck == {} then Some(f) else None
  {
    hide Agrees, ValidVips, FreshFrom, Whatever, Foretold, Proceeds, Straight, Delta, Stuck, Apply, WorkJobs, Good;
    Expected(d.s, out, seen, sky, Delta(d, f), ans);
    CourseAllowed(d, f, out, ans);
    MoveKeeps(d, ReloadFile(f, out, CourseOf(d, f, out, ans)));
    AppliedIs(d, f, Straight(d.s, out, ans, Delta(d, f)));
  }

  /** The build failed as judged. */
  lemma RejectedIs(d: Daemon, f: File, out: Outside, ans: Answers)
    requires Judge(d, f, out) == BuildFails && Allowed(d, ReloadFile(f, out, CourseOf(d, f, out, ans)))
    ensures var mv := ReloadFile(f, out, CourseOf(d, f, out, ans));
      AfterMove(d, mv) == d.(s := Played(d.s, FailedCourse(d, f, out)), fileChanged := true) && IsRejected(d, mv)
  {
    hide Played, Builds, Closes, Straight, Delta, WorkJobs, Good;
  }

  // ------------------------------------------------------------------
  // Changes in turn
  // ------------------------------------------------------------------

  /** The same but for what the commits of the changes are answered. */
  ghost predicate Varies(env: Env, e: Env, changed: seq<Change>) {
    e == env.(bgp := e.bgp) && forall n :: (forall c :: c in changed ==> c.v.name != n) ==> e.Bgp(n) == env.Bgp(n)
  }

  /** The changes can be made one after the other, each while its VIP still runs the old definition. */
  ghost predicate Turns(s: State, changed: seq<Change>, e: Env) {
    && Runnable(s, Alterations(changed, e))
    && forall i :: 0 <= i < |changed| ==>
      var t := Played(s, Alterations(changed, e)[..i]);
        changed[i].v.name in t.vips && t.vips[changed[i].v.name].cfg == changed[i].was
  }

  ghost predicate InTurn(s: State, changed: seq<Change>, env: Env) {
    forall e :: Varies(env, e, changed) ==> Turns(s, changed, e)
  }

  lemma NothingVaries(env: Env, changed: seq<Change>)
    ensures Varies(env, env, changed)
  {
  }

  lemma InTurnWith(s: State, changed: seq<Change>, env: Env, e: Env)
    requires InTurn(s, changed, env) && Varies(env, e, changed)
    ensures Turns(s, changed, e) && Runnable(s, Alterations(changed, e))
  {
    hide Varies, Runnable, Played, Alterations;
  }

  /** Change `i` can be made now, whatever it will be answered. */
  lemma {:induction false} TurnComes(s: State, changed: seq<Change>, env: Env, e: Env, i: nat)
    requires InTurn(s, changed, env) && Varies(env, e, changed) && i < |changed|
    ensures var evs, c := Alterations(changed, e), changed[i];
      && Runnable(s, evs[..i]) && Ready(Play(s, evs[..i]), evs[i])
      && Runnable(s, evs[..i + 1]) && Play(s, evs[..i + 1]) == Step(Play(s, evs[..i]), evs[i])
      && c.v.name in Play(s, evs[..i]).vips && Play(s, evs[..i]).vips[c.v.name].cfg == c.was
      && (!NeedsStaging(c) ==> AtOnce(Play(s, evs[..i]), c.v))
      && (NeedsStaging(c) ==> Enabled(Play(s, evs[..i]), Stage(c.v, env.Ids(c.v.name), env.at)))
  {
    hide InTurn, Runnable, Play, Step, Enabled, Benign, ChangedNames;
    InTurnWith(s, changed, env, e);
    var evs := Alterations(changed, e);
    PlayStep(s, evs, i);
    assert Played(s, evs[..i]) == Play(s, evs[..i]);
    if !NeedsStaging(changed[i]) { NowAtOnce(Play(s, evs[..i]), evs[i]); }
  }

  lemma NowAtOnce(s: State, ev: Event)
    requires ev.CommitNow? && Enabled(s, ev)
    ensures AtOnce(s, ev.v)
  {
    hide Quiet, ValidVip, ChangedNames;
  }

  /** It was answered: the record of the answers grows by one. */
  lemma {:induction false} AnsweredFor(s: State, changed: seq<Change>, env: Env, e: Env, i: nat, b: Bgp)
    returns (next: Env)
    requires InTurn(s, changed, env) && Varies(env, e, changed) && i < |changed| && DistinctChanges(changed)
      && !NeedsStaging(changed[i])
    requires Runnable(s, Alterations(changed, e)[..i]) && Core(Play(s, Alterations(changed, e)[..i]))
      && changed[i].v.name in Play(s, Alterations(changed, e)[..i]).vips
    ensures Varies(env, next, changed) && Runnable(s, Alterations(changed, next)[..i + 1])
    ensures var t, v := Play(s, Alterations(changed, e)[..i]), changed[i].v;
      Play(s, Alterations(changed, next)[..i + 1]) == StepCommitNow(t, v, v.name in env.seen, b)
    ensures Core(Play(s, Alterations(changed, next)[..i + 1]))
  {
    hide InTurn, Runnable, Play, Enabled, Benign, ChangedNames, StepCommitNow, Core;
    var v := changed[i].v;
    assert changed[i] in changed;
    next := e.(bgp := e.bgp[v.name := b]);
    assert Varies(env, next, changed);
    var evs, nexts := Alterations(changed, e), Alterations(changed, next);
    assert nexts[..i] == evs[..i];
    assert nexts[i] == CommitNow(v, v.name in env.seen, b);
    TurnComes(s, changed, env, next, i);
    StepKeepsIff(Play(s, nexts[..i]), nexts[i]);
  }

  /** Its record fits the state. */
  lemma {:induction false} StagedInTurn(s: State, changed: seq<Change>, env: Env, e: Env, i: nat, st: Staged)
    requires InTurn(s, changed, env) && Varies(env, e, changed) && i < |changed| && NeedsStaging(changed[i])
    requires Runnable(s, Alterations(changed, e)[..i]) && Core(Play(s, Alterations(changed, e)[..i]))
    requires RecordOf(st, changed[i], env.at) && st.shadows == env.Ids(changed[i].v.name)
    ensures var t, v := Play(s, Alterations(changed, e)[..i]), changed[i].v;
      && v.name in t.vips && st ==
         Staged(v, t.vips[v.name].cfg, env.Ids(v.name), {}, RemovedNames(t.vips[v.name].cfg, v), env.at,
         DeadlineFor(env.at, t.vips[v.name].cfg, v))
      && Runnable(s, Alterations(changed, e)[..i + 1]) && Play(s, Alterations(changed, e)[..i + 1]) ==
         StepStage(t, v, env.Ids(v.name), env.at)
      && Core(Play(s, Alterations(changed, e)[..i + 1]))
  {
    hide InTurn, Runnable, Play, Enabled, Benign, ChangedNames, RemovedNames, DeadlineFor, StepStage, Core;
    var evs := Alterations(changed, e);
    TurnComes(s, changed, env, e, i);
    assert evs[i] == Stage(changed[i].v, env.Ids(changed[i].v.name), env.at);
    StepKeepsIff(Play(s, evs[..i]), evs[i]);
  }

  /** The answers to the commits have no part in what happens before the changes. */
  lemma {:induction false} SameStraight(s: State, out: Outside, a: Answers, b: Answers, w: Work)
    requires a.seen == b.seen && forall o :: o in w.removed ==> AnswerFor(a, o.name) == AnswerFor(b, o.name)
    ensures var c, e := Straight(s, out, a, w), Straight(s, out, b, w);
      && c.opening == e.opening && c.removals == e.removals && c.additions == e.additions
      && AfterAdditions(s, c) == AfterAdditions(s, e) && Stuck(s, c) == Stuck(s, e)
  {
    hide Opening, News, FiledUnder, Jobs, Runnable, Play, Played, FailedIn, Alterations;
    var ea, eb := EnvOf(out, a, w), EnvOf(out, b, w);
    assert Removals(w.removed, ea) == Removals(w.removed, eb) by {
      forall i | 0 <= i < |w.removed|
        ensures ea.Bgp(w.removed[i].name) == eb.Bgp(w.removed[i].name)
      {
        assert w.removed[i] in w.removed;
      }
    }
    assert forall failed :: Additions(w.added, failed, ea) == Additions(w.added, failed, eb);
  }

  /** Answers that vary only for the changes are still foretold. */
  lemma {:induction false} VariedForetold(w: Work, seen: set<string>, sky: map<string, Weather>, env: Env, e: Env)
    requires Sorted(w) && env.seen == seen && Foretold(Answers(env.bgp, seen), seen, sky, w)
      && Varies(env, e, w.changed)
    ensures Foretold(Answers(e.bgp, seen), seen, sky, w)
    ensures forall o :: o in w.removed ==>
      AnswerFor(Answers(env.bgp, seen), o.name) == AnswerFor(Answers(e.bgp, seen), o.name)
  {
    hide WithdrawIn, Over, ValidVips, Sorted;
    forall o | o in w.removed
      ensures e.Bgp(o.name) == env.Bgp(o.name)
    {
      RemovedUnchanged(w, o);
    }
    assert forall n ::
      AnswerFor(Answers(e.bgp, seen), n) == e.Bgp(n) && AnswerFor(Answers(env.bgp, seen), n) == env.Bgp(n);
  }

  lemma {:induction false} RemovedUnchanged(w: Work, o: Vip)
    requires Sorted(w) && o in w.removed
    ensures forall c :: c in w.changed ==> c.v.name != o.name
  {
    hide ValidVip, DistinctChanges, Lookup, IsAdded;
    LookupIs(w.running, o.name);
    LookupIs(w.cand, o.name);
  }

  /** After the additions the changes come in turn, whatever they will be answered. */
  lemma {:induction false} TurnsWhatever(d: Daemon, f: File, out: Outside, seen: set<string>,
                                         sky: map<string, Weather>, env: Env, t: State)
    requires Agrees(d) && ValidVips(f.vips) && FreshFrom(d.s, out.first) && Whatever(d.s, out, seen, sky, Delta(d, f))
    requires t == WithNews(d.s, News(WorkJobs(Delta(d, f)), out.first))
      && Foretold(Answers(env.bgp, seen), seen, sky, Delta(d, f))
    requires env == Env(map[], FiledUnder(WorkJobs(Delta(d, f)), out.first), env.bgp, seen, out.at)
    ensures InTurn(AfterAdditions(d.s, Straight(d.s, out, Answers(env.bgp, seen), Delta(d, f))), Delta(d, f).changed,
      env)
    ensures DistinctChanges(Delta(d, f).changed)
  {
    hide Agrees, ValidVips, FreshFrom, Whatever, Foretold, Proceeds, Delta, News, FiledUnder, WithNews, Runnable, Play,
      Played, Alterations, AfterAdditions,
      Straight, Varies, Sorted, DistinctChanges, StepDrop, EnvOf, Stuck, FailedIn, Removals, Additions, DistinctVips,
        Jobs;
    var w, first := Delta(d, f), Answers(env.bgp, seen);
    DeltaSorted(d, f);
    forall e | Varies(env, e, w.changed)
      ensures Turns(AfterAdditions(d.s, Straight(d.s, out, first, w)), w.changed, e)
    {
      var ans := Answers(e.bgp, seen);
      VariedForetold(w, seen, sky, env, e);
      SameStraight(d.s, out, first, ans, w);
      Expected(d.s, out, seen, sky, w, ans);
      StraightStages(d, f, out, ans, t);
      TurnsCome(d, f, out, ans);
      VariedEnv(env, e, w.changed);
      SameEnv(out, ans, w, e);
    }
  }

  lemma VariedEnv(env: Env, e: Env, changed: seq<Change>)
    requires Varies(env, e, changed)
    ensures e == env.(bgp := e.bgp)
  {
  }

  lemma DeltaSorted(d: Daemon, f: File)
    requires Agrees(d) && ValidVips(f.vips)
    ensures Sorted(Delta(d, f)) && DistinctChanges(Delta(d, f).changed)
  {
    hide Agrees, ValidVips, Effective, IsAdded, IsRemoved, IsChanged, Lookup, WorkOf, DistinctChanges;
    EffectiveGoverns(d);
    WorkIs(d, f);
    WorkIsSorted(Delta(d, f).running, f.vips);
  }

  /** The end of the changes is the end of the straight course with the answers they got. */
  lemma {:induction false} EndsStraight(d: Daemon, f: File, out: Outside, seen: set<string>, sky: map<string, Weather>,
                                        env: Env, after: Env, t: State)
    requires Agrees(d) && ValidVips(f.vips) && FreshFrom(d.s, out.first) && Whatever(d.s, out, seen, sky, Delta(d, f))
    requires t == WithNews(d.s, News(WorkJobs(Delta(d, f)), out.first))
      && Foretold(Answers(env.bgp, seen), seen, sky, Delta(d, f))
    requires env == Env(map[], FiledUnder(WorkJobs(Delta(d, f)), out.first), env.bgp, seen, out.at)
      && Varies(env, after, Delta(d, f).changed)
    ensures Foretold(Answers(after.bgp, seen), seen, sky, Delta(d, f))
    ensures var w, first, ans := Delta(d, f), Answers(env.bgp, seen), Answers(after.bgp, seen);
      var c, e, g := Straight(d.s, out, first, w), Straight(d.s, out, ans, w), Alterations(w.changed, after);
      && Stuck(d.s, c) == Stuck(d.s, e) && Runnable(AfterAdditions(d.s, c), g)
         && AtTheEnd(d.s, e) == Play(AfterAdditions(d.s, c), g)
  {
    hide Agrees, ValidVips, FreshFrom, Whatever, Foretold, Proceeds, Delta, News, FiledUnder, WithNews, Runnable, Play,
      Played, Alterations, AfterAdditions, AtTheEnd,
      Straight, Varies, Sorted, DistinctChanges, StepDrop, EnvOf, Stuck, FailedIn, Removals, Additions, DistinctVips,
        Jobs;
    var w, first, ans := Delta(d, f), Answers(env.bgp, seen), Answers(after.bgp, seen);
    DeltaSorted(d, f);
    VariedForetold(w, seen, sky, env, after);
    SameStraight(d.s, out, first, ans, w);
    Expected(d.s, out, seen, sky, w, ans);
    StraightStages(d, f, out, ans, t);
    VariedEnv(env, after, w.changed);
    SameEnv(out, ans, w, after);
  }

  lemma ClosedNone(s: State)
    ensures AllIds(map[]) == {} && Closed(s, {}) == s
  {
    var none: set<Id> := {};
    assert s.built - none == s.built && s.closed + multiset(none) == s.closed;
  }

  lemma {:induction false} FiledRest(m: map<string, map<string, Id>>, closed: map<string, map<string, Id>>, n: string)
    requires FiledApart(m) && n in m && n !in closed && forall x :: x in closed ==> x in m && closed[x] == m[x]
    ensures System.Ids(m[n]) !! AllIds(closed) && AllIds(closed) <= AllIds(m) && System.Ids(m[n]) <= AllIds(m)
  {
    forall id | id in AllIds(closed)
      ensures id !in System.Ids(m[n]) && id in AllIds(m)
    {
      var x, c :| x in closed && c in closed[x] && closed[x][c] == id;
      assert id in System.Ids(m[x]) && System.Ids(m[x]) !! System.Ids(m[n]);
    }
  }

  lemma {:induction false} BothHalves(a: map<string, map<string, Id>>, b: map<string, map<string, Id>>,
                                      m: map<string, map<string, Id>>)
    requires FiledApart(m) && (forall n :: n in m <==> n in a || n in b) && (forall n :: n in a ==> m[n] == a[n])
      && (forall n :: n in b ==> n !in a && m[n] == b[n])
    ensures FiledApart(a) && FiledApart(b) && AllIds(a) !! AllIds(b) && AllIds(m) == AllIds(a) + AllIds(b)
  {
    hide System.Ids;
    HalfWithin(a, m);
    HalfWithin(b, m);
    HalvesApart(a, b, m);
    forall id | id in AllIds(m)
      ensures id in AllIds(a) + AllIds(b)
    {
      var n, c :| n in m && c in m[n] && m[n][c] == id;
      if n in a { assert c in a[n]; } else { assert n in b && c in b[n]; }
    }
  }

  lemma HalfWithin(a: map<string, map<string, Id>>, m: map<string, map<string, Id>>)
    requires forall n :: n in a ==> n in m && m[n] == a[n]
    ensures AllIds(a) <= AllIds(m)
  {
    forall id | id in AllIds(a)
      ensures id in AllIds(m)
    {
      var n, c :| n in a && c in a[n] && a[n][c] == id;
      assert n in m && c in m[n];
    }
  }

  lemma {:induction false} HalvesApart(a: map<string, map<string, Id>>, b: map<string, map<string, Id>>,
                                       m: map<string, map<string, Id>>)
    requires FiledApart(m) && (forall n :: n in a ==> n in m && m[n] == a[n])
      && (forall n :: n in b ==> n !in a && n in m && m[n] == b[n])
    ensures AllIds(a) !! AllIds(b)
  {
    forall id | id in AllIds(a)
      ensures id !in AllIds(b)
    {
      var n, c :| n in a && c in a[n] && a[n][c] == id;
      forall n', c' | n' in b && c' in b[n']
        ensures b[n'][c'] != id
      {
        assert System.Ids(m[n]) !! System.Ids(m[n']) && id in System.Ids(m[n]) && b[n'][c'] in System.Ids(m[n']);
      }
    }
  }

  lemma OthersBuilt(s: State, a: set<Id>, b: set<Id>)
    requires a !! b && a + b <= s.built
    ensures b <= Closed(s, a).built && a <= s.built
  {
  }

  lemma ClosedTwice(s: State, a: set<Id>, b: set<Id>)
    requires a !! b
    ensures Closed(Closed(s, a), b) == Closed(s, a + b)
  {
    assert s.built - a - b == s.built - (a + b);
    assert multiset(a + b) == multiset(a) + multiset(b);
    assert s.closed + multiset(a) + multiset(b) == s.closed + multiset(a + b);
  }

  lemma FailedInNone(s: State, evs: seq<Event>)
    ensures Runnable(s, evs[..0]) && FailedIn(s, evs[..0]) == {}
  {
  }

  // ------------------------------------------------------------------
  // The uninterrupted course
  // ------------------------------------------------------------------

  /** The events of an uninterrupted reload: build and close again, or the straight course. */
  ghost function CourseOf(d: Daemon, f: File, out: Outside, ans: Answers): Course {
    var w := Delta(d, f);
    if Judge(d, f, out) == BuildFails then Course(FailedCourse(d, f, out), [], [], []) else Straight(d.s, out, ans, w)
  }

  /** Build as far as it goes, and close again. */
  function FailedCourse(d: Daemon, f: File, out: Outside): seq<Event> {
    var jobs := WorkJobs(Delta(d, f))[..Succeeding(d, f, out)];
    Builds(jobs, out.first) + Closes(jobs, out.first)
  }

  lemma {:induction false} RejectFollows(d: Daemon, f: File, out: Outside)
    ensures var jobs := WorkJobs(Delta(d, f))[..Succeeding(d, f, out)];
      Follows(Builds(jobs, out.first) + Closes(jobs, out.first),
        OpenOnly(Returned(d, f, out)) + CloseDuties(Returned(d, f, out)))
  {
    hide Follows, Made, NextId, Jobs, WorkOf, Effective;
    var all, k := WorkJobs(Delta(d, f)), Succeeding(d, f, out);
    var jobs := all[..k];
    assert forall i :: 0 <= i < k ==> jobs[..i] == all[..i] && jobs[i] == all[i];
    FollowsEach(Builds(jobs, out.first) + Closes(jobs, out.first),
      OpenOnly(Returned(d, f, out)) + CloseDuties(Returned(d, f, out)));
  }

  lemma {:induction false} RejectPlays(s: State, jobs: seq<Job>, first: Id)
    requires FreshFrom(s, first)
    ensures var evs := Builds(jobs, first) + Closes(jobs, first);
      Runnable(s, evs) && Play(s, evs) == Closed(WithNews(s, News(jobs, first)), News(jobs, first).Keys)
  {
    hide Runnable, Play, FreshFrom, News, Builds, Closes, Closed;
    BuildsPlay(s, jobs, first);
    ClosesPlay(WithNews(s, News(jobs, first)), jobs, first);
    PlayConcat(s, Builds(jobs, first), Closes(jobs, first));
  }

  lemma {:induction false} CourseAllowed(d: Daemon, f: File, out: Outside, ans: Answers)
    requires ValidVips(f.vips) && FreshFrom(d.s, out.first)
    requires Judge(d, f, out) == Applies ==> Proceeds(d.s, out, Delta(d, f), Straight(d.s, out, ans, Delta(d, f)))
    ensures Allowed(d, ReloadFile(f, out, CourseOf(d, f, out, ans)))
  {
    hide ValidVips, FreshFrom, Proceeds, Straight, Follows, GoesOn, Builds, Closes, OpenOnly, CloseDuties, Delta, Jobs,
      Runnable, Play;
    if Judge(d, f, out) == BuildFails {
      var jobs := WorkJobs(Delta(d, f))[..Succeeding(d, f, out)];
      RejectFollows(d, f, out);
      RejectPlays(d.s, jobs, out.first);
      RunnableGoesOn(d.s, Builds(jobs, out.first) + Closes(jobs, out.first));
    }
  }

  lemma DeltaIs(d: Daemon, f: File, running: seq<Vip>, added: seq<Vip>, removed: seq<Vip>, changed: seq<Change>)
    requires Agrees(d) && ValidVips(f.vips) && running == Effective(d.cur.vips, d.s.staging)
    requires added == AddedOf(running, f.vips) && removed == RemovedOf(running, f.vips)
      && changed == ChangedOf(running, f.vips)
    ensures Work(running, f.vips, added, removed, changed) == Delta(d, f) && DistinctJobs(Jobs(added, changed))
    ensures forall c :: c in changed ==> DistinctNames(c.v.CheckList())
  {
    hide Agrees, Effective, AddedOf, RemovedOf, ChangedOf, DistinctJobs, Jobs, Sorted, DistinctNames, ValidVip;
    EffectiveGoverns(d);
    WorkIsSorted(running, f.vips);
    WorkJobsDistinct(Delta(d, f));
    SortedNames(Delta(d, f));
  }

  lemma SortedNames(w: Work)
    requires Sorted(w)
    ensures forall c :: c in w.changed ==> DistinctNames(c.v.CheckList())
  {
    hide Lookup, DistinctNames, ByName, IsAdded, IsRemoved, IsChanged;
    forall c | c in w.changed ensures DistinctNames(c.v.CheckList()) { assert c.v in w.cand && ValidVip(c.v); }
  }

  /** The build succeeds or fails as judged, and its end is the end of the rejected course. */
  lemma {:induction false} BuildJudges(d: Daemon, f: File, out: Outside, t: State, ok: bool,
                                       ids: map<string, map<string, Id>>)
    requires FreshFrom(d.s, out.first) && d.hash != Some(f) && f.fixed == d.cur.fixed
      && BuildEnded(d.s, t, WorkJobs(Delta(d, f)), out, ok, ids)
    ensures ok <==> Judge(d, f, out) == Applies
    ensures !ok ==> Judge(d, f, out) == BuildFails && t == Played(d.s, FailedCourse(d, f, out))
    ensures ok ==>
      t == WithNews(d.s, News(WorkJobs(Delta(d, f)), out.first)) && ids == FiledUnder(WorkJobs(Delta(d, f)), out.first)
  {
    hide FreshFrom, Straight, Builds, Closes, Delta, Jobs, Runnable, Play, News, FiledUnder, WithNews, Closed, Good;
    if !ok { RejectPlays(d.s, WorkJobs(Delta(d, f))[..Succeeding(d, f, out)], out.first); }
  }

  lemma ApplyIs(d: Daemon, f: File, c: Course)
    ensures var stuck := Stuck(d.s, c);
      Apply(d, f, c) ==
      Daemon(AtTheEnd(d.s, c), f.(vips := KeepFailed(f.vips, Delta(d, f).running, stuck)),
             if stuck == {} then Some(f) else None, d.generation + 1, stuck != {})
  {
    hide Stuck, AtTheEnd, KeepFailed, Delta;
  }

  lemma AppliedIs(d: Daemon, f: File, c: Course)
    ensures var e := Apply(d, f, c);
      && e.generation == d.generation + 1 && (e.fileChanged <==> Stuck(d.s, c) != {})
         && e.hash == if Stuck(d.s, c) == {} then Some(f) else None
  {
    hide Stuck, AtTheEnd, KeepFailed;
  }

  /** The stages of the straight course, from the state in which everything is built. */
  lemma {:induction false} StraightIs(d: Daemon, f: File, out: Outside, ans: Answers, t: State)
    requires Agrees(d) && ValidVips(f.vips) && FreshFrom(d.s, out.first)
      && Proceeds(d.s, out, Delta(d, f), Straight(d.s, out, ans, Delta(d, f)))
    requires t == WithNews(d.s, News(WorkJobs(Delta(d, f)), out.first))
    ensures var c := Straight(d.s, out, ans, Delta(d, f));
      && Core(t) && Core(StepDrop(t)) && AfterOpening(d.s, c) == StepDrop(t) && RunsThrough(d.s, c)
         && Stuck(d.s, c) == FailedIn(AfterOpening(d.s, c), c.removals)
      && DistinctVips(f.vips) && DistinctVips(Delta(d, f).running)
  {
    hide Agrees, ValidVips, FreshFrom, Proceeds, Delta, News, Runnable, Play, FailedIn, Removals, Additions,
      Alterations, Builds, Met, Goes, AtTheEnd, Jobs;
    var w, c := Delta(d, f), Straight(d.s, out, ans, Delta(d, f));
    ApplyHeads(d, f, out, c);
    AgreesCore(d);
    BuildsPlay(d.s, WorkJobs(w), out.first);
    PlayKeepsCore(d.s, Builds(WorkJobs(w), out.first));
    PlaySplit(d.s, Builds(WorkJobs(w), out.first), [DropStaging]);
    DropPlays(t);
    PlayKeepsCore(t, [DropStaging]);
    EffectiveGoverns(d);
    WorkIs(d, f);
    FileDistinct(f);
  }

  lemma {:induction false} StraightStages(d: Daemon, f: File, out: Outside, ans: Answers, t: State)
    requires Agrees(d) && ValidVips(f.vips) && FreshFrom(d.s, out.first)
      && Proceeds(d.s, out, Delta(d, f), Straight(d.s, out, ans, Delta(d, f)))
    requires t == WithNews(d.s, News(WorkJobs(Delta(d, f)), out.first))
    ensures Core(t) && DistinctVips(f.vips) && DistinctVips(Delta(d, f).running)
    ensures var w, env := Delta(d, f), EnvOf(out, ans, Delta(d, f));
      var c := Straight(d.s, out, ans, w);
      var b, e, g := Removals(w.removed, env), Additions(w.added, Stuck(d.s, c), env), Alterations(w.changed, env);
      && Runnable(StepDrop(t), b) && Core(Play(StepDrop(t), b)) && Stuck(d.s, c) == FailedIn(StepDrop(t), b)
      && Runnable(Play(StepDrop(t), b), e) && AfterAdditions(d.s, c) == Play(Play(StepDrop(t), b), e)
      && Core(AfterAdditions(d.s, c)) && Runnable(AfterAdditions(d.s, c), g)
         && AtTheEnd(d.s, c) == Play(AfterAdditions(d.s, c), g) && c.changes == g
  {
    hide Core, Agrees, ValidVips, FreshFrom, Proceeds, Delta, News, Runnable, Play, FailedIn, Removals, Additions,
      Alterations, StepDrop, DistinctVips, EnvOf, Stuck, Opening, WithNews;
    StraightIs(d, f, out, ans, t);
    var c := Straight(d.s, out, ans, Delta(d, f));
    SameStuck(d.s, c, Course(c.opening, c.removals, [], []));
    PlayKeepsCore(AfterOpening(d.s, c), c.removals);
    PlayKeepsCore(AfterRemovals(d.s, c), c.additions);
  }

  lemma DropPlays(t: State)
    requires Runnable(t, [DropStaging])
    ensures Play(t, [DropStaging]) == StepDrop(t)
  {
    hide StepDrop;
    assert [DropStaging][1..] == [];
    assert Play(Step(t, DropStaging), []) == Step(t, DropStaging);
  }

  lemma FileDistinct(f: File)
    requires ValidVips(f.vips)
    ensures DistinctVips(f.vips)
  {
    hide ValidVip;
  }

  /** The events do not depend on how the schedulers are recorded. */
  lemma SameEnv(out: Outside, ans: Answers, w: Work, env: Env)
    requires env == Env(map[], FiledUnder(WorkJobs(w), out.first), ans.bgp, ans.seen, out.at)
    ensures Removals(w.removed, env) == Removals(w.removed, EnvOf(out, ans, w))
    ensures forall failed :: Additions(w.added, failed, env) == Additions(w.added, failed, EnvOf(out, ans, w))
    ensures Alterations(w.changed, env) == Alterations(w.changed, EnvOf(out, ans, w))
  {
    hide News, FiledUnder, System.Ids, ChangedNames, Jobs;
  }

  lemma {:induction false} RecordsFit(d: Daemon, f: File, out: Outside, staged: map<string, Staged>, env: Env)
    requires Agrees(d) && ValidVips(f.vips) && env.at == out.at
      && Recorded(Delta(d, f).changed, staged, env.ids, out.at)
    ensures forall c :: c in Delta(d, f).changed && NeedsStaging(c) ==>
      c.v.name in staged && staged[c.v.name].shadows == env.Ids(c.v.name) && RecordOf(staged[c.v.name], c, env.at)
  {
    hide Agrees, Effective, Proving, RecordOf, WorkOf, Sorted, NeedsStaging, ValidVips, DistinctNames;
    EffectiveGoverns(d);
    WorkIs(d, f);
    WorkIsSorted(Delta(d, f).running, f.vips);
    SortedNames(Delta(d, f));
    forall c | c in Delta(d, f).changed && NeedsStaging(c)
      ensures StageJob(c).checks != []
    {
      NeedsJob(c);
    }
  }

  /** When its turn comes, a changed VIP still runs its old definition. */
  lemma {:induction false} TurnsCome(d: Daemon, f: File, out: Outside, ans: Answers)
    requires Agrees(d) && ValidVips(f.vips) && FreshFrom(d.s, out.first)
      && Proceeds(d.s, out, Delta(d, f), Straight(d.s, out, ans, Delta(d, f)))
    ensures var w, c := Delta(d, f), Straight(d.s, out, ans, Delta(d, f));
      forall i :: 0 <= i < |w.changed| ==>
        var t := Played(AfterAdditions(d.s, c), c.changes[..i]);
          w.changed[i].v.name in t.vips && t.vips[w.changed[i].v.name].cfg == w.changed[i].was
  {
    hide Agrees, ValidVips, FreshFrom, Proceeds, Delta, Runnable, Play, AfterAdditions, Straight, Sorted, Governing,
      ChangeDuties, Performs, IsAside;
    var w, c := Delta(d, f), Straight(d.s, out, ans, Delta(d, f));
    StraightChanges(d.s, out, ans, w);
    EffectiveGoverns(d);
    WorkIs(d, f);
    WorkIsSorted(w.running, f.vips);
    AgreesCore(d);
    BuiltNone(d);
    forall i | 0 <= i < |w.changed|
      ensures var t := Played(AfterAdditions(d.s, c), c.changes[..i]);
        w.changed[i].v.name in t.vips && t.vips[w.changed[i].v.name].cfg == w.changed[i].was
    {
      ChangedAtTurn(d.s, out, w, c, i);
    }
  }

  lemma StraightChanges(s: State, out: Outside, ans: Answers, w: Work)
    ensures var c := Straight(s, out, ans, w);
      |c.changes| == |w.changed|
        && forall k :: 0 <= k < |w.changed| ==>
        !IsAside(c.changes[k]) && Performs(c.changes[k], ChangeDuties(w, Stock(out, w))[k])
  {
    hide Stuck, News, FiledUnder, Jobs, ChangedNames, Removals, Additions, Opening;
  }

  lemma BuiltNone(d: Daemon)
    requires Agrees(d)
    ensures d.s.built == {}
  {
    hide Core, Lookup, Heading;
  }

  /** The first `i` verdicts of the queue are consumed. */
  predicate Consuming(s0: State, s: State, q: seq<Id>, i: nat)
  {
    i <= |q| && s.drained == q[i..] && s.queue == [] && WellFiled(s, s0.staging)
      && s.staging == Consumed(s0.staging, q[..i])
  }

  lemma {:induction false} DrainStarts(d: Daemon)
    requires Agrees(d) && d.s.drained == [] && AllQuiet(d.s)
    ensures Enabled(d.s, DrainQueue) && Agrees(d.(s := Step(d.s, DrainQueue))) && AllQuiet(Step(d.s, DrainQueue))
      && Core(d.s)
    ensures Consuming(d.s, Step(d.s, DrainQueue), d.s.queue, 0) && Reaches(d.s, [DrainQueue], Step(d.s, DrainQueue))
  {
    hide Agrees, AllQuiet, WellFiled, Consumed, Core, Step, Enabled;
    AgreesCore(d);
    CoreFiled(d.s);
    NothingConsumed(d.s);
    DrainShape(d.s);
    KeepsInternal(d, DrainQueue);
    OneReaches(d.s, DrainQueue);
    assert d.s.queue[0..] == d.s.queue && d.s.queue[..0] == [];
  }

  lemma {:induction false} ConsumeOne(d: Daemon, s0: State, q: seq<Id>, i: nat, seen: bool, b: Bgp)
    requires Agrees(d) && AllQuiet(d.s) && Core(s0) && i < |q| && Consuming(s0, d.s, q, i)
    ensures Enabled(d.s, Report(seen, b)) && Agrees(d.(s := Step(d.s, Report(seen, b))))
      && AllQuiet(Step(d.s, Report(seen, b)))
    ensures Consuming(s0, Step(d.s, Report(seen, b)), q, i + 1)
    ensures Step(d.s, Report(seen, b)) == StepReport(d.s, seen, b)
      && Reaches(d.s, [Report(seen, b)], StepReport(d.s, seen, b))
  {
    hide Agrees, AllQuiet, WellFiled, Consumed, Core, StepReport, Completes, Current, CommitQuiet, SameShape,
      StagingAfter;
    AgreesCore(d);
    CoreFiled(s0);
    ReportEnabled(d.s, seen, b);
    KeepsInternal(d, Report(seen, b));
    ReportIs(d.s, seen, b);
    ConsumedOneMore(d.s, s0.staging, q[..i]);
    FiledStays(d.s, StepReport(d.s, seen, b), s0.staging);
    OneReaches(d.s, Report(seen, b));
    assert q[..i] + [q[i]] == q[..i + 1] && q[i..][1..] == q[i + 1..];
  }

  lemma OneReaches(s: State, ev: Event)
    requires Enabled(s, ev) && Benign(s, ev)
    ensures Reaches(s, [ev], Step(s, ev))
  {
    hide Enabled, Benign, Step;
    assert [ev][1..] == [] && Reaches(Step(s, ev), [], Step(s, ev));
  }

  /** A verdict is left to consume. */
  lemma ConsumeAhead(d: Daemon, s0: State, q: seq<Id>, i: nat, prog: Objects.Program)
    requires Agrees(d) && i < |q| && Consuming(s0, d.s, q, i) && prog.Valid() && prog.Abs() == d.s
    ensures Core(d.s) && prog.drained != []
  {
    hide Agrees, WellFiled, Consumed, Core, Objects.Program.Valid, Objects.Program.Abs;
    AgreesCore(d);
    RecordsAre(prog);
  }

  /** One expiry. */
  lemma {:induction false} ExpireOne(d: Daemon, n: string, now: nat, seen: bool, b: Bgp)
    requires Agrees(d) && AllQuiet(d.s) && n in d.s.staging && now >= d.s.staging[n].deadline
    ensures var t := StepCommit(d.s, n, seen, b);
      && Agrees(d.(s := t)) && AllQuiet(t) && t.staging == d.s.staging - {n} && t.drained == d.s.drained
         && Reaches(d.s, [Expire(n, now, seen, b)], t)
  {
    hide Agrees, AllQuiet, Core, StepCommit, CommitQuiet, Reaches;
    AgreesCore(d);
    ExpireIs(d.s, n, now, seen, b);
    KeepsInternal(d, Expire(n, now, seen, b));
    OneReaches(d.s, Expire(n, now, seen, b));
  }

  lemma ConsumeDone(s0: State, s: State, q: seq<Id>)
    requires Consuming(s0, s, q, |q|)
    ensures s.drained == [] && s.queue == [] && s.staging == Consumed(s0.staging, q)
  {
    hide WellFiled, Consumed;
    assert q[..|q|] == q;
  }

  lemma {:induction false} DrainShape(s: State)
    requires AllQuiet(s) && Core(s) && s.drained == []
    ensures Enabled(s, DrainQueue)
    ensures var t := Step(s, DrainQueue); AllQuiet(t) && t.staging == s.staging && t.drained == s.queue && t.queue == []
    ensures forall staging :: WellFiled(s, staging) ==> WellFiled(Step(s, DrainQueue), staging)
  {
    hide Core, Picked;
    var t := Step(s, DrainQueue);
    forall n | n in t.staging ensures CommitQuiet(t, n) { assert CommitQuiet(s, n); }
  }
}
