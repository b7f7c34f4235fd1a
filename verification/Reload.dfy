/**
  One reload: the candidate file is compared with the definitions that govern the routes, and
  the difference is applied as a batch of removals, a batch of additions and a batch of changes.
 */
module Reload {
  import opened Config
  import opened Policy
  import opened System
  import opened Safety
  import opened ReloadSafety
  import opened CommitSafety
  import opened Runs
  import opened Diff
  import opened Batch
  import opened Build

  /**
    A loaded config file: its text, which determines the rest, the VIPs, the restart-only sections
    (only ever compared) and `logging.level`.
   */
  datatype File = File(text: string, vips: seq<Vip>, fixed: int, level: int)

  /**
    What the environment decides before a reload touches anything: the time, unused scheduler
    numbers, and what cannot be built.
   */
  datatype Outside = Outside(at: nat, first: Id, oracle: Oracle)

  /** What it answers to an uninterrupted reload: the outcome of every BGP call and which drain files exist. */
  datatype Answers = Answers(bgp: map<string, Bgp>, seen: set<string>)

  /** Both, once the schedulers are built. */
  datatype Env = Env(news: map<Id, Sched>, ids: map<string, map<string, Id>>, bgp: map<string, Bgp>, seen: set<string>,
    at: nat)
  {
    function Ids(n: string): map<string, Id> { if n in ids then ids[n] else map[] }
    function Bgp(n: string): Bgp { if n in bgp then bgp[n] else Done }
  }

  /** `effectiveVIPsLocked`: the running config with every staged VIP under its still-governing definition. */
  function Effective(cur: seq<Vip>, staging: map<string, Staged>): seq<Vip> {
    seq(|cur|, i requires 0 <= i < |cur| => if cur[i].name in staging then staging[cur[i].name].was else cur[i])
  }

  function Failed(s: State, removed: seq<Vip>, env: Env): set<string> {
    set o | o in removed && RemovalFails(s, o.name, env.Bgp(o.name)) :: o.name
  }

  function Removal(o: Vip, env: Env): Event { RemoveVip(o.name, env.Bgp(o.name)) }

  function Addition(v: Vip, failed: set<string>, env: Env): Event {
    if v.name in failed then CloseBuilt(System.Ids(env.Ids(v.name))) else AddVip(v, env.Ids(v.name), v.name in env.seen)
  }

  function Alteration(c: Change, env: Env): Event {
    if ChangedNames(c.was, c.v) == {} then CommitNow(c.v, c.v.name in env.seen, env.Bgp(c.v.name))
    else Stage(c.v, env.Ids(c.v.name), env.at)
  }

  function Removals(list: seq<Vip>, env: Env): seq<Event> {
    seq(|list|, i requires 0 <= i < |list| => Removal(list[i], env))
  }

  function Additions(list: seq<Vip>, failed: set<string>, env: Env): seq<Event> {
    seq(|list|, i requires 0 <= i < |list| => Addition(list[i], failed, env))
  }

  function Alterations(list: seq<Change>, env: Env): seq<Event> {
    seq(|list|, i requires 0 <= i < |list| => Alteration(list[i], env))
  }

  function VipNames(list: seq<Vip>): seq<string> { seq(|list|, i requires 0 <= i < |list| => list[i].name) }
  function ChangeNames(list: seq<Change>): seq<string> { seq(|list|, i requires 0 <= i < |list| => list[i].v.name) }

  /** The candidate's VIPs with the old definition in place of every VIP whose removal failed. */
  function KeepFailed(cand: seq<Vip>, running: seq<Vip>, failed: set<string>): seq<Vip> {
    Patched(cand, running, failed) + Leftover(running, cand, failed)
  }

  function Patched(cand: seq<Vip>, running: seq<Vip>, failed: set<string>): seq<Vip> {
    seq(|cand|, i requires 0 <= i < |cand| =>
      var o := Lookup(running, cand[i].name);
      if cand[i].name in failed && o.Some? then o.value else cand[i])
  }

  function Leftover(running: seq<Vip>, cand: seq<Vip>, failed: set<string>): seq<Vip> {
    if running == [] then [] else
    var o := running[|running| - 1];
    Leftover(running[..|running| - 1], cand, failed) + if o.name in failed
      && Lookup(cand, o.name).None? then [o] else []
  }

  // ------------------------------------------------------------------
  // The fate of one VIP
  // ------------------------------------------------------------------

  /** What a reload makes of a VIP: the definition that governs it and the definition staged for it. */
  datatype Fate = Fate(def: Option<Vip>, staged: Option<Vip>)

  /**
    The documented effect of a reload, for one name: the governing definition before, the file's,
    and whether a needed withdraw failed.
   */
  function FateOf(o: Option<Vip>, v: Option<Vip>, fails: bool): Fate {
    match (o, v)
    case (None, v) => Fate(v, None)
    case (Some(was), None) => Fate(if fails then o else None, None)
    case (Some(was), Some(new_)) =>
      if was.prefix != new_.prefix then Fate(if fails then o else v, None)
      else if was == new_ || ChangedNames(was, new_) == {} then Fate(v, None)
      else Fate(o, v)
  }

  predicate Met(s: State, n: string, f: Fate) {
    && Def(s, n) == f.def
    && (StagedAt(s, n).Some? <==> f.staged.Some?)
    && (f.staged.Some? ==> StagedAt(s, n).value.cfg == f.staged.value && Some(StagedAt(s, n).value.was) == f.def)
  }

  // ------------------------------------------------------------------
  // Lookups
  // ------------------------------------------------------------------

  lemma {:induction false} EffectiveLookup(cur: seq<Vip>, staging: map<string, Staged>, n: string)
    requires forall m :: m in staging ==> staging[m].was.name == m
    ensures Lookup(Effective(cur, staging), n) ==
      if Lookup(cur, n).Some? && n in staging then Some(staging[n].was) else Lookup(cur, n)
  {
    if cur != [] {
      var k := |cur| - 1;
      EffectiveLookup(cur[..k], staging, n);
      assert Effective(cur, staging)[..k] == Effective(cur[..k], staging);
    }
  }

  lemma {:induction false} EffectiveDistinct(cur: seq<Vip>, staging: map<string, Staged>)
    requires DistinctVips(cur) && forall m :: m in staging ==> staging[m].was.name == m
    ensures DistinctVips(Effective(cur, staging))
  {
    var e := Effective(cur, staging);
    assert forall i :: 0 <= i < |e| ==> e[i].name == cur[i].name;
  }

  lemma {:induction false} PatchedLookup(cand: seq<Vip>, running: seq<Vip>, failed: set<string>, n: string)
    ensures Lookup(Patched(cand, running, failed), n) ==
      if Lookup(cand, n).Some? && n in failed && Lookup(running, n).Some? then Lookup(running, n) else Lookup(cand, n)
  {
    if cand != [] {
      var k := |cand| - 1;
      PatchedLookup(cand[..k], running, failed, n);
      assert Patched(cand, running, failed)[..k] == Patched(cand[..k], running, failed);
      LookupIs(running, cand[k].name);
    }
  }

  lemma {:induction false} LeftoverIs(running: seq<Vip>, cand: seq<Vip>, failed: set<string>)
    ensures forall o :: o in Leftover(running, cand, failed) <==>
      o in running && o.name in failed && Lookup(cand, o.name).None?
    ensures DistinctVips(running) ==> DistinctVips(Leftover(running, cand, failed))
  {
    hide Lookup;
    if running != [] {
      var k := |running| - 1;
      LeftoverIs(running[..k], cand, failed);
      assert running == running[..k] + [running[k]];
      if DistinctVips(running) {
        forall o | o in Leftover(running[..k], cand, failed)
          ensures o.name != running[k].name
        {
          var i :| 0 <= i < k && running[..k][i] == o;
        }
      }
    }
  }

  lemma {:induction false} LookupConcat(a: seq<Vip>, b: seq<Vip>, n: string)
    ensures Lookup(a + b, n) == if Lookup(b, n).Some? then Lookup(b, n) else Lookup(a, n)
  {
    if b == [] {
      assert a + b == a;
    } else {
      var k := |b| - 1;
      LookupConcat(a, b[..k], n);
      assert (a + b)[..|a + b| - 1] == a + b[..k];
    }
  }

  /** The running config after the reload: the file, except for the VIPs that had to stay. */
  lemma {:induction false} KeptLookup(cand: seq<Vip>, running: seq<Vip>, failed: set<string>, n: string)
    requires DistinctVips(running) && forall m :: m in failed ==> Lookup(running, m).Some?
    ensures Lookup(KeepFailed(cand, running, failed), n) == if n in failed then Lookup(running, n) else Lookup(cand, n)
  {
    hide Leftover, Patched;
    var a, b := Patched(cand, running, failed), Leftover(running, cand, failed);
    LookupConcat(a, b, n);
    PatchedLookup(cand, running, failed, n);
    LeftoverIs(running, cand, failed);
    LookupIs(b, n);
    LookupIs(running, n);
    LookupIs(cand, n);
  }

  lemma {:induction false} KeptDistinct(cand: seq<Vip>, running: seq<Vip>, failed: set<string>)
    requires DistinctVips(cand) && DistinctVips(running)
    ensures DistinctVips(KeepFailed(cand, running, failed))
  {
    hide Leftover, Lookup;
    var a, b := Patched(cand, running, failed), Leftover(running, cand, failed);
    LeftoverIs(running, cand, failed);
    forall i | 0 <= i < |a|
      ensures a[i].name == cand[i].name
    {
      LookupIs(running, cand[i].name);
    }
    var all := KeepFailed(cand, running, failed);
    forall i, j | 0 <= i < j < |all|
      ensures all[i].name != all[j].name
    {
      if i < |a| <= j {
        assert all[j] in b;
        LookupIs(cand, all[j].name);
        assert cand[i] in cand;
      }
    }
  }

  // ------------------------------------------------------------------
  // Applying a reload
  // ------------------------------------------------------------------

  /** The lists of a diff. */
  datatype Work = Work(running: seq<Vip>, cand: seq<Vip>, added: seq<Vip>, removed: seq<Vip>, changed: seq<Change>)

  function WorkOf(running: seq<Vip>, cand: seq<Vip>): Work {
    Work(running, cand, AddedOf(running, cand), RemovedOf(running, cand), ChangedOf(running, cand))
  }

  /** Membership in the lists, VIP by VIP. */
  ghost predicate Sorted(w: Work) {
    && DistinctVips(w.running) && ValidVips(w.cand)
    && (forall v :: v in w.added <==> v in w.cand && IsAdded(w.running, v))
    && (forall o :: o in w.removed <==> o in w.running && IsRemoved(w.cand, o))
    && (forall c :: c in w.changed <==>
       c.v in w.cand && IsChanged(w.running, c.v) && Lookup(w.running, c.v.name) == Some(c.was))
    && DistinctVips(w.added) && DistinctVips(w.removed) && DistinctChanges(w.changed)
  }

  lemma {:induction false} WorkIsSorted(running: seq<Vip>, cand: seq<Vip>)
    requires DistinctVips(running) && ValidVips(cand)
    ensures Sorted(WorkOf(running, cand))
  {
    hide Lookup, AddedOf, RemovedOf, ChangedOf, ValidVip;
    AddedIs(running, cand);
    RemovedIs(running, cand);
    ChangedIs(running, cand);
  }

  /** The policy manager's definitions are those of the list. */
  ghost predicate Governing(s: State, running: seq<Vip>) {
    forall n :: Lookup(running, n) == Def(s, n)
  }

  predicate NeedsStaging(c: Change) { ChangedNames(c.was, c.v) != {} }

  /** The schedulers the build step returned: one per check of an added VIP and per changed check, all fresh. */
  ghost predicate Supplies(s: State, env: Env, w: Work) {
    && Enabled(s, Build(env.news))
    && (forall v :: v in w.added ==> env.Ids(v.name).Keys == v.Checks().Keys && Supplied(env, v))
    && (forall c :: c in w.changed && NeedsStaging(c) ==>
         env.Ids(c.v.name).Keys == ChangedNames(c.was, c.v) && Supplied(env, c.v))
    && (forall id :: id in env.news ==>
         || (exists v :: v in w.added && id in System.Ids(env.Ids(v.name)))
         || (exists c :: c in w.changed && NeedsStaging(c) && id in System.Ids(env.Ids(c.v.name))))
  }

  predicate Supplied(env: Env, v: Vip) {
    forall x :: x in env.Ids(v.name) ==>
      x in v.Checks() && env.Ids(v.name)[x] in env.news && Governs(env.news[env.Ids(v.name)[x]], v, x)
  }

  lemma {:induction false} NeedsJob(c: Change)
    requires DistinctNames(c.v.CheckList())
    ensures NeedsStaging(c) <==> StageJob(c).checks != []
  {
    hide Proving, ChangedNames;
    ProvingNames(c.was, c.v);
    var list := StageJob(c).checks;
    if list != [] { assert Names(list)[0] in ChangedNames(c.was, c.v); }
    if NeedsStaging(c) {
      var n :| n in ChangedNames(c.was, c.v);
      assert n in Names(list);
    }
  }

  /** The jobs of a diff concern different VIPs, and the checks of each have different names. */
  lemma {:induction false} WorkJobsDistinct(w: Work)
    requires Sorted(w)
    ensures DistinctJobs(WorkJobs(w))
  {
    hide Lookup, Proving, Jobs, DistinctJobs, DistinctNames, ByName;
    forall v | v in w.added
      ensures DistinctNames(v.CheckList())
    {
      assert v in w.cand && ValidVip(v);
    }
    forall c | c in w.changed
      ensures DistinctNames(c.v.CheckList())
    {
      assert c.v in w.cand && ValidVip(c.v);
    }
    forall v, c | v in w.added && c in w.changed
      ensures v.name != c.v.name
    {
      assert v in w.cand && c.v in w.cand;
      LookupIs(w.cand, v.name);
      LookupIs(w.cand, c.v.name);
    }
    JobsDistinct(w.added, w.changed);
  }

  /** What one job leaves: a scheduler per check of the list, built from that check, filed under its name. */
  lemma {:induction false} JobSupplies(out: Outside, ans: Answers, w: Work, i: nat)
    requires DistinctJobs(WorkJobs(w)) && i < |WorkJobs(w)|
    requires var job := WorkJobs(w)[i];
      forall c :: c in job.checks ==> c.EffectiveName() in job.v.Checks() && job.v.Checks()[c.EffectiveName()] == c
    ensures var env, job := EnvOf(out, ans, w), WorkJobs(w)[i];
      && (forall x :: x in env.Ids(job.v.name) <==> x in Names(job.checks)) && Supplied(env, job.v)
      && System.Ids(env.Ids(job.v.name)) == Made(job, NextId(WorkJobs(w)[..i], out.first)).Keys
  {
    hide Jobs, Made, Filed, FiledUnder, News, NextId, DistinctNames, ByName;
    var env, jobs := EnvOf(out, ans, w), WorkJobs(w);
    var job, from := jobs[i], NextId(jobs[..i], out.first);
    JobAt(jobs, out.first, i);
    FiledIs(job.checks, from);
    FiledAll(job, from);
    forall x | x in env.Ids(job.v.name)
      ensures x in job.v.Checks() && env.Ids(job.v.name)[x] in env.news
        && Governs(env.news[env.Ids(job.v.name)[x]], job.v, x)
    {
      FiledMade(job, from, x);
    }
  }

  /** A build that succeeds supplies exactly what the reload needs. */
  lemma {:induction false} BuildSupplies(s: State, out: Outside, ans: Answers, w: Work)
    requires Sorted(w) && FreshFrom(s, out.first)
    ensures Supplies(s, EnvOf(out, ans, w), w)
  {
    hide Lookup, Jobs, StageJobs, Made, News, FiledUnder, NextId, DistinctJobs, ByName, ChangedNames, Proving,
      NeedsStaging, Supplied, System.Ids, ValidVip, IsAdded, IsChanged, IsRemoved, DistinctChanges, FreshFrom;
    var env, jobs := EnvOf(out, ans, w), WorkJobs(w);
    WorkJobsDistinct(w);
    NewsAside(s, jobs, out.first);
    NewsIs(jobs, out.first);
    forall v | v in w.added
      ensures env.Ids(v.name).Keys == v.Checks().Keys && Supplied(env, v)
    {
      var i := AddedJob(w, v);
      JobSupplies(out, ans, w, i);
      ByNameIs(v.CheckList());
    }
    forall c | c in w.changed && NeedsStaging(c)
      ensures env.Ids(c.v.name).Keys == ChangedNames(c.was, c.v) && Supplied(env, c.v)
    {
      var i := ChangedJob(w, c);
      JobSupplies(out, ans, w, i);
      ProvingNames(c.was, c.v);
    }
    forall id | id in env.news
      ensures (exists v :: v in w.added && id in System.Ids(env.Ids(v.name)))
        || (exists c :: c in w.changed && NeedsStaging(c) && id in System.Ids(env.Ids(c.v.name)))
    {
      NewsCovered(jobs, out.first, id);
      var i :| 0 <= i < |jobs| && id in Made(jobs[i], NextId(jobs[..i], out.first));
      JobOrigin(w, i);
      JobSupplies(out, ans, w, i);
    }
  }

  lemma {:induction false} AddedJob(w: Work, v: Vip) returns (i: nat)
    requires Sorted(w) && v in w.added
    ensures i < |WorkJobs(w)| && WorkJobs(w)[i] == Job(v, v.CheckList()) && DistinctNames(v.CheckList())
    ensures forall c :: c in v.CheckList() ==> c.EffectiveName() in v.Checks() && v.Checks()[c.EffectiveName()] == c
  {
    hide Lookup, StageJobs, ByName, IsAdded, IsChanged, IsRemoved, DistinctChanges;
    i :| 0 <= i < |w.added| && w.added[i] == v;
    assert v in w.cand && ValidVip(v);
    ByNameIs(v.CheckList());
  }

  lemma {:induction false} ChangedJob(w: Work, c: Change) returns (i: nat)
    requires Sorted(w) && c in w.changed && NeedsStaging(c)
    ensures i < |WorkJobs(w)| && WorkJobs(w)[i] == StageJob(c) && DistinctNames(c.v.CheckList())
    ensures forall x :: x in StageJob(c).checks ==>
      x.EffectiveName() in c.v.Checks() && c.v.Checks()[x.EffectiveName()] == x
  {
    hide Lookup, StageJobs, ByName, Proving, NeedsStaging, IsAdded, IsChanged, IsRemoved, DistinctNames;
    assert c.v in w.cand && ValidVip(c.v);
    NeedsJob(c);
    StageJobsAre(w.changed);
    ProvingNames(c.was, c.v);
    var j :| 0 <= j < |StageJobs(w.changed)| && StageJobs(w.changed)[j] == StageJob(c);
    i := |w.added| + j;
  }

  /** Every job belongs to an added VIP or to a change that needs staging. */
  lemma {:induction false} JobOrigin(w: Work, i: nat)
    requires Sorted(w) && i < |WorkJobs(w)|
    ensures var job := WorkJobs(w)[i];
      && (forall c :: c in job.checks ==> c.EffectiveName() in job.v.Checks() && job.v.Checks()[c.EffectiveName()] == c)
      && ((exists v :: v in w.added && job.v == v) || (exists c :: c in w.changed && NeedsStaging(c) && job.v == c.v))
  {
    hide Lookup, StageJobs, ByName, Proving, NeedsStaging, IsAdded, IsChanged, IsRemoved, DistinctNames;
    var job := WorkJobs(w)[i];
    if i < |w.added| {
      var v := w.added[i];
      assert v in w.added && v in w.cand && ValidVip(v);
      ByNameIs(v.CheckList());
    } else {
      StageJobsAre(w.changed);
      assert job in StageJobs(w.changed);
      var c :| c in w.changed && job == StageJob(c) && job.checks != [];
      assert c.v in w.cand && ValidVip(c.v);
      NeedsJob(c);
      ProvingNames(c.was, c.v);
    }
  }

  /**
    What the reload counts on. The schedulers it stops have been waited for; a removed VIP leaves
    no orphan route, and if it has to stay no added VIP takes its prefix; an immediate change
    keeps a known check.
   */
  ghost predicate Unhindered(s: State, env: Env, w: Work) {
    && Quiet(s, ShadowIds(s.staging))
    && (forall o :: o in w.removed && o.name in s.vips ==>
         Quiet(s, System.Ids(Visible(s, o.name))) && LeavesNoOrphan(s, o.name))
    && (forall o, v ::
         o in w.removed && v in w.added
         && o.name in Failed(s, w.removed, env) && v.name !in Failed(s, w.removed, env) ==>
         o.prefix != v.prefix)
    && (forall c :: c in w.changed && !NeedsStaging(c) && c.v.name in s.vips ==>
         Quiet(s, Picked(Visible(s, c.v.name), RemovedNames(c.was, c.v))) && KeepsKnown(s, c.v, map[]))
  }

  function WorkJobs(w: Work): seq<Job> { Jobs(w.added, w.changed) }

  /** What the build phase leaves to the reload when every job succeeds. */
  function EnvOf(out: Outside, ans: Answers, w: Work): Env {
    Env(News(WorkJobs(w), out.first), FiledUnder(WorkJobs(w), out.first), ans.bgp, ans.seen, out.at)
  }

  /** Build everything, then drop the earlier stagings. */
  function Opening(out: Outside, w: Work): seq<Event> { Builds(WorkJobs(w), out.first) + [DropStaging] }

  /** The state after building and dropping the earlier stagings, before the first VIP is touched. */
  predicate Cleared(s: State, env: Env, t: State) {
    && t.vips == s.vips && t.visible == s.visible && t.routes == s.routes && t.staging == map[]
    && t.scheds == s.scheds + env.news && t.built == s.built + env.news.Keys
  }

  lemma {:induction false} Clears(s: State, out: Outside, ans: Answers, w: Work)
    requires Core(s) && FreshFrom(s, out.first) && Quiet(s, ShadowIds(s.staging))
    ensures var evs := Opening(out, w);
      Runnable(s, evs) && Core(Play(s, evs)) && Cleared(s, EnvOf(out, ans, w), Play(s, evs))
  {
    hide Core, Runnable, Play, News, FreshFrom, Builds;
    var jobs := WorkJobs(w);
    BuildsPlay(s, jobs, out.first);
    var s0 := WithNews(s, News(jobs, out.first));
    PlayKeepsCore(s, Builds(jobs, out.first));
    assert Quiet(s0, ShadowIds(s0.staging)) by { ShadowsKnown(s); NewsAside(s, jobs, out.first); }
    StepKeepsIff(s0, DropStaging);
    PlayOne(s0, DropStaging);
    PlayConcat(s, Builds(jobs, out.first), [DropStaging]);
  }

  lemma {:induction false} NewsAside(s: State, jobs: seq<Job>, first: Id)
    requires FreshFrom(s, first)
    ensures News(jobs, first).Keys !! s.scheds.Keys
  {
    hide News;
    NewsIs(jobs, first);
  }

  lemma {:induction false} PlayKeepsCore(s: State, evs: seq<Event>)
    requires Core(s) && Runnable(s, evs)
    ensures Core(Play(s, evs))
  {
    hide Core, Runnable, Play, Reaches;
    PlayReaches(s, evs);
    RunKeepsCore(s, evs, Play(s, evs));
  }

  lemma ShadowsKnown(s: State)
    requires Core(s)
    ensures forall id :: id in ShadowIds(s.staging) ==> id in s.scheds
  {
    hide VipsOk, IdsOk, QueueOk, RoutesOwned;
    forall id | id in ShadowIds(s.staging)
      ensures id in s.scheds
    {
      ShadowsRun(s, id);
    }
  }

  lemma {:induction false} RemovalReady(s: State, env: Env, w: Work, t: State, o: Vip)
    requires Core(s) && Cleared(s, env, t) && Unhindered(s, env, w) && Enabled(s, Build(env.news))
    requires o in w.removed && o.name in s.vips
    ensures Ready(t, Removal(o, env)) && About(t, Removal(o, env), o.name)
  {
    hide Core, Cleared, ChangedNames, RemovedNames, KeepsKnown, ShadowIds, IsNew, Failed, Quiet, Visible;
    QuietClear(s, env, t, o.name);
    ClearRoutes(s, env, t, o.name);
  }

  lemma ClearRoutes(s: State, env: Env, t: State, n: string)
    requires Cleared(s, env, t) && n in s.vips
    ensures n in t.vips && t.vips[n] == s.vips[n] && Visible(t, n) == Visible(s, n) && n !in t.staging
    ensures LeavesNoOrphan(t, n) <==> LeavesNoOrphan(s, n)
  {
  }

  lemma {:induction false} QuietClear(s: State, env: Env, t: State, n: string)
    requires Core(s) && Cleared(s, env, t) && n in s.vips && Quiet(s, System.Ids(Visible(s, n)))
      && env.news.Keys !! s.scheds.Keys
    ensures Quiet(t, System.Ids(Visible(t, n)))
  {
    hide VipsOk, IdsOk, QueueOk, RoutesOwned;
    VisibleRun(s, n);
  }

  // ------------------------------------------------------------------
  // VIP by VIP
  // ------------------------------------------------------------------

  /** The VIP runs and is to be removed; is to be added; changes in place. */
  predicate Goes(w: Work, n: string) { Lookup(w.running, n).Some? && IsRemoved(w.cand, Lookup(w.running, n).value) }
  predicate Comes(w: Work, n: string) { Lookup(w.cand, n).Some? && IsAdded(w.running, Lookup(w.cand, n).value) }
  predicate Alters(w: Work, n: string) { Lookup(w.cand, n).Some? && IsChanged(w.running, Lookup(w.cand, n).value) }

  predicate Fails(s: State, env: Env, w: Work, n: string) { Goes(w, n) && RemovalFails(s, n, env.Bgp(n)) }

  lemma {:induction false} GoesIs(w: Work, n: string)
    requires Sorted(w)
    ensures n in VipNames(w.removed) <==> Goes(w, n)
    ensures forall i :: 0 <= i < |w.removed| && w.removed[i].name == n ==> Lookup(w.running, n) == Some(w.removed[i])
  {
    hide Lookup, ValidVips, DistinctChanges;
    LookupIs(w.running, n);
    if n in VipNames(w.removed) {
      var i :| 0 <= i < |w.removed| && VipNames(w.removed)[i] == n;
      assert w.removed[i] in w.removed;
    }
    if Goes(w, n) {
      var o := Lookup(w.running, n).value;
      assert o in w.removed;
      var i :| 0 <= i < |w.removed| && w.removed[i] == o;
      assert VipNames(w.removed)[i] == n;
    }
    forall i | 0 <= i < |w.removed| && w.removed[i].name == n
      ensures Lookup(w.running, n) == Some(w.removed[i])
    {
      assert w.removed[i] in w.removed;
    }
  }

  lemma {:induction false} ComesIs(w: Work, n: string)
    requires Sorted(w)
    ensures n in VipNames(w.added) <==> Comes(w, n)
    ensures forall i :: 0 <= i < |w.added| && w.added[i].name == n ==> Lookup(w.cand, n) == Some(w.added[i])
  {
    hide Lookup, DistinctChanges, ValidVip;
    LookupIs(w.cand, n);
    if n in VipNames(w.added) {
      var i :| 0 <= i < |w.added| && VipNames(w.added)[i] == n;
      assert w.added[i] in w.added;
    }
    if Comes(w, n) {
      var v := Lookup(w.cand, n).value;
      assert v in w.added;
      var i :| 0 <= i < |w.added| && w.added[i] == v;
      assert VipNames(w.added)[i] == n;
    }
    forall i | 0 <= i < |w.added| && w.added[i].name == n
      ensures Lookup(w.cand, n) == Some(w.added[i])
    {
      assert w.added[i] in w.added;
    }
  }

  lemma {:induction false} AltersIs(w: Work, n: string)
    requires Sorted(w)
    ensures n in ChangeNames(w.changed) <==> Alters(w, n)
    ensures forall i :: 0 <= i < |w.changed| && w.changed[i].v.name == n ==>
      Lookup(w.cand, n) == Some(w.changed[i].v) && Lookup(w.running, n) == Some(w.changed[i].was)
  {
    hide Lookup, ValidVip;
    LookupIs(w.cand, n);
    if n in ChangeNames(w.changed) {
      var i :| 0 <= i < |w.changed| && ChangeNames(w.changed)[i] == n;
      assert w.changed[i] in w.changed;
    }
    if Alters(w, n) {
      var c := Change(Lookup(w.running, n).value, Lookup(w.cand, n).value);
      assert c in w.changed;
      var i :| 0 <= i < |w.changed| && w.changed[i] == c;
      assert ChangeNames(w.changed)[i] == n;
    }
    forall i | 0 <= i < |w.changed| && w.changed[i].v.name == n
      ensures Lookup(w.cand, n) == Some(w.changed[i].v) && Lookup(w.running, n) == Some(w.changed[i].was)
    {
      assert w.changed[i] in w.changed;
    }
  }

  lemma {:induction false} FailedIs(s: State, env: Env, w: Work, n: string)
    requires Sorted(w)
    ensures n in Failed(s, w.removed, env) <==> Fails(s, env, w, n)
  {
    hide Sorted, Goes, RemovalFails;
    GoesIs(w, n);
    if n in Failed(s, w.removed, env) {
      var o :| o in w.removed && RemovalFails(s, o.name, env.Bgp(o.name)) && o.name == n;
      var i :| 0 <= i < |w.removed| && w.removed[i] == o;
      assert VipNames(w.removed)[i] == n;
    }
    if Fails(s, env, w, n) {
      var i :| 0 <= i < |w.removed| && VipNames(w.removed)[i] == n;
      assert w.removed[i] in w.removed;
    }
  }

  // ------------------------------------------------------------------
  // The three batches
  // ------------------------------------------------------------------

  /** The state after the removals. */
  ghost predicate Removed(s: State, env: Env, w: Work, t1: State, t2: State) {
    && Core(t2)
    && (forall n :: Def(t2, n) == if Goes(w, n) && !Fails(s, env, w, n) then None else Def(s, n))
    && (forall n :: StagedAt(t2, n) == None)
    && (forall n :: !Goes(w, n) ==> Apart(t1, t2, n))
    && (forall id :: id in t2.built <==> id in t1.built) && (forall id :: id in t1.built ==> SameSched(t1, t2, id))
  }

  lemma {:induction false} Removes(s: State, env: Env, w: Work, t1: State)
    requires Core(s) && Core(t1) && Cleared(s, env, t1) && Unhindered(s, env, w) && Enabled(s, Build(env.news))
    requires Sorted(w) && Governing(s, w.running)
    ensures var evs := Removals(w.removed, env); Runnable(t1, evs) && Removed(s, env, w, t1, Play(t1, evs))
  {
    hide Core, Cleared, Unhindered, Sorted, Enabled, Ready, Outcome, Apart, About, Def, StagedAt, SameSched;
    var evs, names := Removals(w.removed, env), VipNames(w.removed);
    RemovalsReady(s, env, w, t1);
    BatchRuns(t1, evs, names);
    var t2 := Play(t1, evs);
    forall n
      ensures Def(t2, n) == if Goes(w, n) && !Fails(s, env, w, n) then None else Def(s, n)
      ensures StagedAt(t2, n) == None
      ensures !Goes(w, n) ==> Apart(t1, t2, n)
    {
      assert Outcome(t1, t2, evs, names, n);
      RemovedAt(s, env, w, t1, t2, n);
    }
    forall id
      ensures Untaken(evs, id)
    {
    }
  }

  lemma {:induction false} RemovalsReady(s: State, env: Env, w: Work, t1: State)
    requires Core(s) && Cleared(s, env, t1) && Unhindered(s, env, w) && Enabled(s, Build(env.news))
    requires Sorted(w) && Governing(s, w.running)
    ensures var evs, names := Removals(w.removed, env), VipNames(w.removed);
      IsBatch(t1, evs, names) && AllReady(t1, evs) && NewPrefixes(evs)
  {
    hide Core, Cleared, Unhindered, Enabled, Ready, About, ValidVips, Lookup, DistinctChanges;
    var evs, names := Removals(w.removed, env), VipNames(w.removed);
    forall i | 0 <= i < |evs|
      ensures Ready(t1, evs[i]) && About(t1, evs[i], names[i])
    {
      var o := w.removed[i];
      assert o in w.removed;
      LookupIs(w.running, o.name);
      assert Lookup(w.running, o.name) == Def(s, o.name);
      RemovalReady(s, env, w, t1, o);
    }
  }

  lemma {:induction false} RemovedAt(s: State, env: Env, w: Work, t1: State, t2: State, n: string)
    requires Sorted(w) && Governing(s, w.running) && Cleared(s, env, t1)
    requires Outcome(t1, t2, Removals(w.removed, env), VipNames(w.removed), n)
    ensures Def(t2, n) == if Goes(w, n) && !Fails(s, env, w, n) then None else Def(s, n)
    ensures StagedAt(t2, n) == None
    ensures !Goes(w, n) ==> Apart(t1, t2, n)
  {
    hide Sorted, Goes, SameVip, SameScheds, SameBuilt, Lookup;
    GoesIs(w, n);
    var evs, names := Removals(w.removed, env), VipNames(w.removed);
    assert Def(t1, n) == Def(s, n) && StagedAt(t1, n) == None;
    if Goes(w, n) {
      var i :| 0 <= i < |names| && names[i] == n;
      assert evs[i] == RemoveVip(n, env.Bgp(n));
    }
  }

  /** The state after the additions. */
  ghost predicate Enlarged(s: State, env: Env, w: Work, t2: State, t3: State) {
    && Core(t3)
    && (forall n :: Def(t3, n) == if Comes(w, n) && !Fails(s, env, w, n) then Lookup(w.cand, n) else Def(t2, n))
    && (forall n :: StagedAt(t3, n) == StagedAt(t2, n))
    && (forall n :: !Comes(w, n) ==> Apart(t2, t3, n))
    && (forall id :: id in t3.built <==>
       id in t2.built && forall v :: v in w.added ==> id !in System.Ids(env.Ids(v.name)))
    && (forall id :: id in t3.built ==> SameSched(t2, t3, id))
  }

  /** A scheduler of the build step, still waiting where it was put. */
  lemma {:induction false} StillBuilt(s: State, env: Env, w: Work, t1: State, t2: State, v: Vip)
    requires Cleared(s, env, t1) && Removed(s, env, w, t1, t2) && Supplied(env, v)
    requires forall id :: id in env.news ==> IsNew(env.news[id])
    ensures BuiltFor(t2, v, env.Ids(v.name))
    ensures System.Ids(env.Ids(v.name)) <= t2.built
      && forall id :: id in System.Ids(env.Ids(v.name)) ==> id in t2.scheds && t2.scheds[id].vip == v.name
  {
    hide Core, Goes, Fails, Apart, IsNew, Def, StagedAt;
    var ids := env.Ids(v.name);
    forall x | x in ids
      ensures ids[x] in t2.built && ids[x] in t2.scheds && t2.scheds[ids[x]] == env.news[ids[x]]
      ensures IsNew(t2.scheds[ids[x]]) && Governs(t2.scheds[ids[x]], v, x)
    {
      assert ids[x] in env.news && ids[x] in t1.built;
      assert SameSched(t1, t2, ids[x]);
    }
    forall id | id in System.Ids(ids)
      ensures id in t2.built && id in t2.scheds && t2.scheds[id].vip == v.name
    {
      var x :| x in ids && ids[x] == id;
    }
  }

  lemma {:induction false} SuppliedAdded(s: State, env: Env, w: Work, v: Vip)
    requires Supplies(s, env, w) && Sorted(w) && v in w.added
    ensures ValidVip(v) && env.Ids(v.name).Keys == v.Checks().Keys && Supplied(env, v)
      && forall id :: id in env.news ==> IsNew(env.news[id])
  {
    hide ValidVip, Supplied, IsNew, DistinctChanges, DistinctVips, IsChanged, IsRemoved, ChangedNames, System.Ids,
      Lookup, Config.ByName;
    assert v in w.cand;
  }

  lemma {:induction false} AdditionReady(s: State, env: Env, w: Work, t1: State, t2: State, v: Vip)
    requires Cleared(s, env, t1) && Removed(s, env, w, t1, t2) && Supplies(s, env, w) && Unhindered(s, env, w)
    requires Sorted(w) && Governing(s, w.running) && v in w.added
    ensures var ev := Addition(v, Failed(s, w.removed, env), env); Ready(t2, ev) && About(t2, ev, v.name)
  {
    hide Cleared, Removed, Supplies, Supplied, Sorted, Governing, IsNew, BuiltFor, Unhindered, PrefixFree, Failed,
      ValidVip, Fails, System.Ids, Config.ByName;
    SuppliedAdded(s, env, w, v);
    StillBuilt(s, env, w, t1, t2, v);
    FailedIs(s, env, w, v.name);
    if !Fails(s, env, w, v.name) {
      AdditionFree(s, env, w, t1, t2, v);
    }
  }

  lemma {:induction false} AdditionFree(s: State, env: Env, w: Work, t1: State, t2: State, v: Vip)
    requires Removed(s, env, w, t1, t2) && Unhindered(s, env, w)
    requires Sorted(w) && Governing(s, w.running) && v in w.added && !Fails(s, env, w, v.name)
    ensures v.name !in t2.vips && PrefixFree(t2, v)
  {
    hide Core, Apart, StagedAt, Lookup, Failed, SameSched, ValidVip, DistinctChanges, Quiet, KeepsKnown;
    LookupIs(w.cand, v.name);
    LookupIs(w.running, v.name);
    assert Def(t2, v.name) == None;
    forall m | m in t2.vips
      ensures t2.vips[m].cfg.prefix != v.prefix
    {
      var x := t2.vips[m].cfg;
      assert Def(t2, m) == Some(x) == Def(s, m) == Lookup(w.running, m);
      LookupIs(w.running, m);
      LookupIs(w.cand, m);
      if Goes(w, m) {
        FailedIs(s, env, w, m);
        FailedIs(s, env, w, v.name);
        assert x in w.removed;
      } else {
        assert v in w.cand && Lookup(w.cand, m).value in w.cand && v != Lookup(w.cand, m).value;
      }
    }
  }

  lemma {:induction false} Adds(s: State, env: Env, w: Work, t1: State, t2: State)
    requires Cleared(s, env, t1) && Removed(s, env, w, t1, t2) && Supplies(s, env, w) && Unhindered(s, env, w)
    requires Sorted(w) && Governing(s, w.running)
    ensures var evs := Additions(w.added, Failed(s, w.removed, env), env);
      Runnable(t2, evs) && Enlarged(s, env, w, t2, Play(t2, evs))
  {
    hide Core, Cleared, Supplies, Unhindered, Sorted, Enabled, Benign, Outcome, Apart, About, Def, StagedAt, SameSched,
      Governing, Lookup, Failed, Untaken, Goes, Fails;
    var failed := Failed(s, w.removed, env);
    var evs, names := Additions(w.added, failed, env), VipNames(w.added);
    AdditionsReady(s, env, w, t1, t2);
    BatchRuns(t2, evs, names);
    var t3 := Play(t2, evs);
    forall n
      ensures Def(t3, n) == if Comes(w, n) && !Fails(s, env, w, n) then Lookup(w.cand, n) else Def(t2, n)
      ensures StagedAt(t3, n) == StagedAt(t2, n)
      ensures !Comes(w, n) ==> Apart(t2, t3, n)
    {
      assert Outcome(t2, t3, evs, names, n);
      AddedAt(s, env, w, t2, t3, n);
    }
    forall id
      ensures Untaken(evs, id) <==> forall v :: v in w.added ==> id !in System.Ids(env.Ids(v.name))
    {
      AdditionsTake(env, w, failed, id);
    }
  }

  lemma {:induction false} AdditionsTake(env: Env, w: Work, failed: set<string>, id: Id)
    ensures Untaken(Additions(w.added, failed, env), id) <==>
      forall v :: v in w.added ==> id !in System.Ids(env.Ids(v.name))
  {
    var evs := Additions(w.added, failed, env);
    assert forall i :: 0 <= i < |evs| ==> Taken(evs[i]) == System.Ids(env.Ids(w.added[i].name));
    if Untaken(evs, id) {
      forall v | v in w.added
        ensures id !in System.Ids(env.Ids(v.name))
      {
        var i :| 0 <= i < |w.added| && w.added[i] == v;
        assert id !in Taken(evs[i]);
      }
    }
  }

  lemma {:induction false} AdditionsReady(s: State, env: Env, w: Work, t1: State, t2: State)
    requires Cleared(s, env, t1) && Removed(s, env, w, t1, t2) && Supplies(s, env, w) && Unhindered(s, env, w)
    requires Sorted(w) && Governing(s, w.running)
    ensures var evs, names := Additions(w.added, Failed(s, w.removed, env), env), VipNames(w.added);
      IsBatch(t2, evs, names) && AllReady(t2, evs) && NewPrefixes(evs)
  {
    hide Core, Cleared, Removed, Supplies, Unhindered, Enabled, Benign, About, Lookup, DistinctChanges, Governing,
      Failed, ValidVip;
    var evs, names := Additions(w.added, Failed(s, w.removed, env), env), VipNames(w.added);
    forall i | 0 <= i < |evs|
      ensures Ready(t2, evs[i]) && About(t2, evs[i], names[i])
    {
      assert w.added[i] in w.added;
      AdditionReady(s, env, w, t1, t2, w.added[i]);
    }
    forall i, j | 0 <= i < j < |evs| && evs[i].AddVip? && evs[j].AddVip?
      ensures evs[i].v.prefix != evs[j].v.prefix
    {
      assert w.added[i] in w.cand && w.added[j] in w.cand && w.added[i] != w.added[j];
    }
  }

  lemma {:induction false} AddedAt(s: State, env: Env, w: Work, t2: State, t3: State, n: string)
    requires Sorted(w)
    requires Outcome(t2, t3, Additions(w.added, Failed(s, w.removed, env), env), VipNames(w.added), n)
    ensures Def(t3, n) == if Comes(w, n) && !Fails(s, env, w, n) then Lookup(w.cand, n) else Def(t2, n)
    ensures StagedAt(t3, n) == StagedAt(t2, n)
    ensures !Comes(w, n) ==> Apart(t2, t3, n)
  {
    hide Sorted, Comes, Fails, SameVip, SameScheds, SameBuilt, Lookup, Failed;
    ComesIs(w, n);
    FailedIs(s, env, w, n);
    var failed := Failed(s, w.removed, env);
    var evs, names := Additions(w.added, failed, env), VipNames(w.added);
    if Comes(w, n) {
      var i :| 0 <= i < |names| && names[i] == n;
      assert evs[i] == Addition(w.added[i], failed, env);
    }
  }
}
