/**
  Building the schedulers of a reload, before anything that runs is touched: one job per added
  VIP and per VIP with checks to prove. A job that fails yields nothing; a reload whose build
  fails closes what the earlier jobs returned.
 */
module Build {
  import opened Config
  import opened System
  import opened Diff
  import opened Batch

  /** What cannot be made: the local address guard of a VIP, the checker of a check. */
  datatype Oracle = Oracle(guards: set<string>, checkers: set<(string, string)>)

  datatype Job = Job(v: Vip, checks: seq<Check>)

  /** `NewSchedulers` succeeds: the guard, if asked for, and every checker can be made. */
  predicate Works(job: Job, oracle: Oracle) {
    && (job.v.requireLocal ==> job.v.name !in oracle.guards)
    && forall i :: 0 <= i < |job.checks| ==> (job.v.name, job.checks[i].EffectiveName()) !in oracle.checkers
  }

  function NewSched(v: Vip, c: Check): Sched { Sched(v.name, c, v.Guard(), [], false, false, None) }

  /** The schedulers a job returns, numbered from `first`. */
  function Made(job: Job, first: Id): map<Id, Sched>
    decreases |job.checks|
  {
    if job.checks == [] then map[] else
    var k := |job.checks| - 1;
    Made(job.(checks := job.checks[..k]), first)[first + k := NewSched(job.v, job.checks[k])]
  }

  /** The same by check name; a later scheduler wins. */
  function Filed(checks: seq<Check>, first: Id): map<string, Id> {
    if checks == [] then map[] else
    var k := |checks| - 1;
    Filed(checks[..k], first)[checks[k].EffectiveName() := first + k]
  }

  // ------------------------------------------------------------------
  // All jobs
  // ------------------------------------------------------------------

  function AddJobs(added: seq<Vip>): seq<Job> {
    seq(|added|, i requires 0 <= i < |added| => Job(added[i], added[i].CheckList()))
  }

  function StageJob(c: Change): Job { Job(c.v, Proving(c.was, c.v, c.v.CheckList())) }

  /** A change without a check to prove needs no scheduler. */
  function StageJobs(changed: seq<Change>): seq<Job> {
    if changed == [] then [] else
    var k := |changed| - 1;
    StageJobs(changed[..k]) + if StageJob(changed[k]).checks == [] then [] else [StageJob(changed[k])]
  }

  function Jobs(added: seq<Vip>, changed: seq<Change>): seq<Job> { AddJobs(added) + StageJobs(changed) }

  /** How many jobs succeed before the first failure. */
  function Good(jobs: seq<Job>, oracle: Oracle): (k: nat)
    ensures k <= |jobs|
    ensures forall i :: 0 <= i < k ==> Works(jobs[i], oracle)
    ensures k < |jobs| ==> !Works(jobs[k], oracle)
  {
    if jobs == [] then 0 else
    var n := |jobs| - 1;
    var k := Good(jobs[..n], oracle);
    if k < n || !Works(jobs[n], oracle) then k else |jobs|
  }

  function NextId(jobs: seq<Job>, first: Id): (id: Id)
    ensures id >= first
  {
    if jobs == [] then first else NextId(jobs[..|jobs| - 1], first) + |jobs[|jobs| - 1].checks|
  }

  function News(jobs: seq<Job>, first: Id): map<Id, Sched> {
    if jobs == [] then map[] else
    var k := |jobs| - 1;
    News(jobs[..k], first) + Made(jobs[k], NextId(jobs[..k], first))
  }

  /** The schedulers by VIP and check name. */
  function FiledUnder(jobs: seq<Job>, first: Id): map<string, map<string, Id>> {
    if jobs == [] then map[] else
    var k := |jobs| - 1;
    FiledUnder(jobs[..k], first)[jobs[k].v.name := Filed(jobs[k].checks, NextId(jobs[..k], first))]
  }

  predicate DistinctJobs(jobs: seq<Job>) {
    && (forall i, j :: 0 <= i < j < |jobs| ==> jobs[i].v.name != jobs[j].v.name)
    && (forall i :: 0 <= i < |jobs| ==> DistinctNames(jobs[i].checks))
  }

  // ------------------------------------------------------------------
  // What the jobs return
  // ------------------------------------------------------------------

  lemma {:induction false} FiledIs(checks: seq<Check>, first: Id)
    requires DistinctNames(checks)
    ensures forall c :: c in Filed(checks, first) <==> c in Names(checks)
    ensures forall i :: 0 <= i < |checks| ==>
      checks[i].EffectiveName() in Filed(checks, first) && Filed(checks, first)[checks[i].EffectiveName()] == first + i
  {
    if checks != [] {
      var k := |checks| - 1;
      FiledIs(checks[..k], first);
      assert Names(checks) == Names(checks[..k]) + [checks[k].EffectiveName()];
      forall i | 0 <= i < |checks|
        ensures checks[i].EffectiveName() in Filed(checks, first)
          && Filed(checks, first)[checks[i].EffectiveName()] == first + i
      {
        if i < k { assert checks[..k][i] == checks[i]; }
      }
    }
  }

  /** The schedulers of a job are new and numbered without a gap. */
  lemma {:induction false} MadeIs(job: Job, first: Id)
    ensures forall id :: id in Made(job, first) <==> first <= id < first + |job.checks|
    ensures forall id :: id in Made(job, first) ==> Made(job, first)[id] == NewSched(job.v, job.checks[id - first])
    decreases |job.checks|
  {
    hide NewSched;
    if job.checks != [] {
      var k := |job.checks| - 1;
      MadeIs(job.(checks := job.checks[..k]), first);
    }
  }

  /** A filed name leads to the scheduler made for it. */
  predicate FiledRight(job: Job, first: Id, x: string) {
    && x in Filed(job.checks, first) && Filed(job.checks, first)[x] in Made(job, first)
    && exists c ::
       c in job.checks && c.EffectiveName() == x
       && Made(job, first)[Filed(job.checks, first)[x]] == NewSched(job.v, c)
  }

  lemma {:induction false} FiledMade(job: Job, first: Id, x: string)
    requires DistinctNames(job.checks) && x in Filed(job.checks, first)
    ensures FiledRight(job, first, x)
  {
    hide Filed, Made, DistinctNames, NewSched;
    FiledIs(job.checks, first);
    MadeIs(job, first);
    var i :| 0 <= i < |job.checks| && Names(job.checks)[i] == x;
    assert Filed(job.checks, first)[x] == first + i;
    assert job.checks[i] in job.checks;
  }

  /** Exactly the schedulers made are filed. */
  lemma {:induction false} FiledAll(job: Job, first: Id)
    requires DistinctNames(job.checks)
    ensures Ids(Filed(job.checks, first)) == Made(job, first).Keys
  {
    hide Filed, Made, DistinctNames, NewSched;
    var ids := Filed(job.checks, first);
    FiledIs(job.checks, first);
    MadeIs(job, first);
    forall id | id in Made(job, first)
      ensures id in Ids(ids)
    {
      var c := job.checks[id - first];
      assert c.EffectiveName() in ids && ids[c.EffectiveName()] == id;
    }
    forall x | x in ids
      ensures ids[x] in Made(job, first)
    {
      FiledMade(job, first, x);
    }
  }

  /** The schedulers are new and numbered without a gap. */
  lemma {:induction false} NewsIs(jobs: seq<Job>, first: Id)
    ensures forall id :: id in News(jobs, first) <==> first <= id < NextId(jobs, first)
    ensures forall id :: id in News(jobs, first) ==> IsNew(News(jobs, first)[id])
  {
    if jobs != [] {
      hide Made, IsNew;
      var k := |jobs| - 1;
      NewsIs(jobs[..k], first);
      MadeIs(jobs[k], NextId(jobs[..k], first));
    }
  }

  lemma {:induction false} JobAt(jobs: seq<Job>, first: Id, i: nat)
    requires DistinctJobs(jobs) && i < |jobs|
    ensures var from := NextId(jobs[..i], first);
      && jobs[i].v.name in FiledUnder(jobs, first) && FiledUnder(jobs, first)[jobs[i].v.name] ==
         Filed(jobs[i].checks, from)
      && forall id :: id in Made(jobs[i], from) ==>
         id in News(jobs, first) && News(jobs, first)[id] == Made(jobs[i], from)[id]
  {
    hide Filed, DistinctNames, Made;
    var k := |jobs| - 1;
    var before := jobs[..k];
    if i < k {
      JobAt(before, first, i);
      assert before[..i] == jobs[..i] && before[i] == jobs[i];
      NewsIs(before, first);
      MadeIs(jobs[k], NextId(before, first));
    } else {
      assert jobs[..i] == before;
    }
  }

  /** Every scheduler comes from some job. */
  lemma {:induction false} NewsCovered(jobs: seq<Job>, first: Id, id: Id)
    requires id in News(jobs, first)
    ensures exists i :: 0 <= i < |jobs| && id in Made(jobs[i], NextId(jobs[..i], first))
  {
    var k := |jobs| - 1;
    var before := jobs[..k];
    if id in Made(jobs[k], NextId(before, first)) {
      assert jobs[..k] == before;
    } else {
      NewsCovered(before, first, id);
      var i :| 0 <= i < |before| && id in Made(before[i], NextId(before[..i], first));
      assert before[..i] == jobs[..i] && before[i] == jobs[i];
    }
  }

  // ------------------------------------------------------------------
  // The jobs of a diff
  // ------------------------------------------------------------------

  lemma {:induction false} StageJobsAre(changed: seq<Change>)
    requires DistinctChanges(changed)
    ensures forall j :: j in StageJobs(changed) ==> exists c :: c in changed && j == StageJob(c) && j.checks != []
    ensures forall c :: c in changed && StageJob(c).checks != [] ==> StageJob(c) in StageJobs(changed)
    ensures forall i, j :: 0 <= i < j < |StageJobs(changed)| ==>
      StageJobs(changed)[i].v.name != StageJobs(changed)[j].v.name
  {
    hide Proving;
    if changed != [] {
      var k := |changed| - 1;
      var before, last := changed[..k], changed[k];
      StageJobsAre(before);
      assert changed == before + [last];
      forall j | j in StageJobs(before)
        ensures exists c :: c in changed && j == StageJob(c) && j.checks != []
        ensures j.v.name != last.v.name
      {
        var c :| c in before && j == StageJob(c) && j.checks != [];
        assert c in changed;
        var i :| 0 <= i < k && before[i] == c;
      }
      assert last in changed;
    }
  }

  lemma {:induction false} JobsDistinct(added: seq<Vip>, changed: seq<Change>)
    requires DistinctVips(added) && DistinctChanges(changed)
    requires forall v, c :: v in added && c in changed ==> v.name != c.v.name
    requires (forall v :: v in added ==> DistinctNames(v.CheckList()))
      && forall c :: c in changed ==> DistinctNames(c.v.CheckList())
    ensures DistinctJobs(Jobs(added, changed))
  {
    hide Proving, StageJobs, DistinctNames;
    StageJobsAre(changed);
    var a, b := AddJobs(added), StageJobs(changed);
    var jobs := Jobs(added, changed);
    forall i | 0 <= i < |b|
      ensures exists c :: c in changed && b[i] == StageJob(c)
      ensures DistinctNames(b[i].checks)
    {
      assert b[i] in b;
      var c :| c in changed && b[i] == StageJob(c);
      ProvingIs(c.was, c.v, c.v.CheckList());
    }
    forall i, j | 0 <= i < j < |jobs|
      ensures jobs[i].v.name != jobs[j].v.name
    {
      if i < |a| <= j {
        assert added[i] in added && jobs[j] == b[j - |a|];
        var c :| c in changed && b[j - |a|] == StageJob(c);
      }
    }
    forall i | 0 <= i < |jobs|
      ensures DistinctNames(jobs[i].checks)
    {
      if i < |a| { assert added[i] in added; }
    }
  }

  // ------------------------------------------------------------------
  // The events
  // ------------------------------------------------------------------

  predicate FreshFrom(s: State, first: Id) { forall id :: id in s.scheds ==> id < first }

  function Builds(jobs: seq<Job>, first: Id): seq<Event> {
    seq(|jobs|, i requires 0 <= i < |jobs| => Build(Made(jobs[i], NextId(jobs[..i], first))))
  }

  /** Closing, job by job, what was returned. */
  function Closes(jobs: seq<Job>, first: Id): seq<Event> {
    seq(|jobs|, i requires 0 <= i < |jobs| => CloseBuilt(Made(jobs[i], NextId(jobs[..i], first)).Keys))
  }

  function WithNews(s: State, news: map<Id, Sched>): State {
    s.(scheds := s.scheds + news, built := s.built + news.Keys)
  }

  lemma {:induction false} BuildsPlay(s: State, jobs: seq<Job>, first: Id)
    requires FreshFrom(s, first)
    ensures Runnable(s, Builds(jobs, first)) && Play(s, Builds(jobs, first)) == WithNews(s, News(jobs, first))
  {
    if jobs == [] {
      assert s.scheds + map[] == s.scheds && s.built + {} == s.built;
    } else {
      hide Runnable, Play, Made, WithNews, Enabled, Step, Builds, NextId, FreshFrom;
      var k := |jobs| - 1;
      var before := jobs[..k];
      BuildsPlay(s, before, first);
      var t := WithNews(s, News(before, first));
      var made := Made(jobs[k], NextId(before, first));
      MadeFresh(s, before, jobs[k], first);
      PlayOne(t, Build(made));
      PlayConcat(s, Builds(before, first), [Build(made)]);
      LastBuild(jobs, first);
      BuildTwice(s, News(before, first), made);
    }
  }

  lemma {:induction false} BuildTwice(s: State, a: map<Id, Sched>, b: map<Id, Sched>)
    requires Enabled(WithNews(s, a), Build(b))
    ensures Step(WithNews(s, a), Build(b)) == WithNews(s, a + b)
  {
    hide IsNew;
    assert s.scheds + a + b == s.scheds + (a + b);
    assert s.built + a.Keys + b.Keys == s.built + (a + b).Keys;
  }

  lemma LastBuild(jobs: seq<Job>, first: Id)
    requires jobs != []
    ensures var k := |jobs| - 1; var made := Made(jobs[k], NextId(jobs[..k], first));
      && Builds(jobs, first) == Builds(jobs[..k], first) + [Build(made)]
      && Closes(jobs, first) == Closes(jobs[..k], first) + [CloseBuilt(made.Keys)]
  {
    hide Made, NextId;
    var k := |jobs| - 1;
    assert forall i :: 0 <= i < k ==> jobs[..k][..i] == jobs[..i];
  }

  lemma {:induction false} MadeFresh(s: State, before: seq<Job>, job: Job, first: Id)
    requires FreshFrom(s, first)
    ensures Enabled(WithNews(s, News(before, first)), Build(Made(job, NextId(before, first))))
  {
    hide Made, News, NextId;
    NewsIs(before, first);
    MadeIs(job, NextId(before, first));
  }

  function Closed(t: State, ids: set<Id>): State { t.(built := t.built - ids, closed := t.closed + multiset(ids)) }

  /** After the builds, closing job by job closes every new scheduler once and nothing else. */
  lemma {:induction false} ClosesPlay(t: State, jobs: seq<Job>, first: Id)
    requires News(jobs, first).Keys <= t.built
    ensures Runnable(t, Closes(jobs, first)) && Play(t, Closes(jobs, first)) == Closed(t, News(jobs, first).Keys)
  {
    if jobs == [] {
      var none: set<Id> := {};
      assert t.built - none == t.built && t.closed + multiset(none) == t.closed;
    } else {
      hide Runnable, Play, Made, NextId, Closes, Step, Enabled, Closed;
      var k := |jobs| - 1;
      var before := jobs[..k];
      var a, b := News(before, first).Keys, Made(jobs[k], NextId(before, first)).Keys;
      assert a !! b by { NewsIs(before, first); MadeIs(jobs[k], NextId(before, first)); }
      ClosesPlay(t, before, first);
      CloseTwice(t, a, b);
      PlayOne(Closed(t, a), CloseBuilt(b));
      PlayConcat(t, Closes(before, first), [CloseBuilt(b)]);
      LastBuild(jobs, first);
      assert News(jobs, first).Keys == a + b;
    }
  }

  lemma CloseTwice(t: State, a: set<Id>, b: set<Id>)
    requires a !! b && a <= t.built && b <= t.built
    ensures Enabled(Closed(t, a), CloseBuilt(b)) && Step(Closed(t, a), CloseBuilt(b)) == Closed(t, a + b)
  {
    assert t.built - a - b == t.built - (a + b);
    assert multiset(a + b) == multiset(a) + multiset(b);
    assert t.closed + multiset(a) + multiset(b) == t.closed + multiset(a + b);
  }

  // ------------------------------------------------------------------
  // The filed schedulers together
  // ------------------------------------------------------------------

  function AllIds(m: map<string, map<string, Id>>): set<Id> { set n, c | n in m && c in m[n] :: m[n][c] }

  /** No scheduler is filed under two VIPs. */
  predicate FiledApart(m: map<string, map<string, Id>>) {
    forall n, n' :: n in m && n' in m && n != n' ==> Ids(m[n]) !! Ids(m[n'])
  }

  lemma {:induction false} FiledKeys(jobs: seq<Job>, first: Id)
    ensures forall n :: n in FiledUnder(jobs, first) <==> exists i :: 0 <= i < |jobs| && jobs[i].v.name == n
  {
    if jobs != [] {
      hide Filed;
      var k := |jobs| - 1;
      FiledKeys(jobs[..k], first);
      forall n
        ensures n in FiledUnder(jobs, first) <==> exists i :: 0 <= i < |jobs| && jobs[i].v.name == n
      {
        if n in FiledUnder(jobs[..k], first) {
          var i :| 0 <= i < k && jobs[..k][i].v.name == n;
          assert jobs[i].v.name == n;
        }
        if i :| 0 <= i < |jobs| && jobs[i].v.name == n {
          if i < k { assert jobs[..k][i].v.name == n; }
        }
      }
    }
  }

  lemma AllIdsPut(m: map<string, map<string, Id>>, n: string, f: map<string, Id>)
    requires n !in m
    ensures AllIds(m[n := f]) == AllIds(m) + Ids(f)
  {
    forall id | id in AllIds(m) + Ids(f)
      ensures id in AllIds(m[n := f])
    {
      if id in AllIds(m) {
        var x, c :| x in m && c in m[x] && m[x][c] == id;
        assert x in m[n := f] && c in m[n := f][x];
      } else {
        var c :| c in f && f[c] == id;
        assert n in m[n := f] && c in m[n := f][n];
      }
    }
  }

  /** Filed are exactly the new schedulers, each under one VIP. */
  lemma {:induction false} FiledCover(jobs: seq<Job>, first: Id)
    requires DistinctJobs(jobs)
    ensures AllIds(FiledUnder(jobs, first)) == News(jobs, first).Keys && FiledApart(FiledUnder(jobs, first))
  {
    if jobs != [] {
      hide Filed, Made, DistinctNames, AllIds;
      var k := |jobs| - 1;
      var before, job := jobs[..k], jobs[k];
      FiledCover(before, first);
      FiledKeys(before, first);
      var from, m := NextId(before, first), FiledUnder(before, first);
      var f := Filed(job.checks, from);
      FiledAll(job, from);
      NewsIs(before, first);
      MadeIs(job, from);
      AllIdsPut(m, job.v.name, f);
      forall n | n in m
        ensures Ids(m[n]) !! Ids(f)
      {
        IdsWithin(m, n);
      }
    } else {
      assert AllIds(FiledUnder(jobs, first)) == {};
    }
  }

  lemma IdsWithin(m: map<string, map<string, Id>>, n: string)
    requires n in m
    ensures Ids(m[n]) <= AllIds(m)
  {
  }

  /** One more job that succeeded. */
  lemma {:induction false} NextJob(s: State, done: seq<Job>, job: Job, first: Id)
    requires FreshFrom(s, first)
    ensures var more, made := done + [job], Made(job, NextId(done, first));
      && NextId(more, first) == NextId(done, first) + |job.checks|
      && FiledUnder(more, first) == FiledUnder(done, first)[job.v.name := Filed(job.checks, NextId(done, first))]
      && Enabled(WithNews(s, News(done, first)), Build(made))
      && Step(WithNews(s, News(done, first)), Build(made)) == WithNews(s, News(more, first))
  {
    hide Made, Filed, WithNews, Enabled, Step, FreshFrom;
    var more := done + [job];
    assert more[..|done|] == done;
    MadeFresh(s, done, job, first);
    BuildTwice(s, News(done, first), Made(job, NextId(done, first)));
  }

  lemma NoJob(s: State, first: Id)
    ensures NextId([], first) == first && FiledUnder([], first) == map[] && News([], first) == map[]
      && WithNews(s, News([], first)) == s
  {
    assert s.scheds + map[] == s.scheds && s.built + {} == s.built;
  }

  /** The first failing job ends the good ones. */
  lemma {:induction false} GoodUntil(jobs: seq<Job>, k: nat, oracle: Oracle)
    requires k <= |jobs| && (forall i :: 0 <= i < k ==> Works(jobs[i], oracle))
      && (k < |jobs| ==> !Works(jobs[k], oracle))
    ensures Good(jobs, oracle) == k
  {
    hide Works;
    var g := Good(jobs, oracle);
    assert !(g < k) && !(k < g);
  }

  lemma {:induction false} StageJobsPrefix(changed: seq<Change>, j: nat)
    requires j <= |changed|
    ensures StageJobs(changed[..j]) <= StageJobs(changed)
    decreases |changed|
  {
    hide Proving;
    if j == |changed| {
      assert changed[..j] == changed;
    } else {
      var k := |changed| - 1;
      StageJobsPrefix(changed[..k], j);
      assert changed[..k][..j] == changed[..j];
    }
  }
}
