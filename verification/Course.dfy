/**
  The course of a whole reload under any interleaving with check runs and callbacks: build, drop
  the earlier stagings, remove, add, change. Its outcome is read off VIP by VIP.
 */
module Course {
  import opened Config
  import opened Policy
  import opened System
  import opened Safety
  import opened Runs
  import opened Diff
  import opened Batch
  import opened Build
  import opened Weave
  import opened Reload

  // ------------------------------------------------------------------
  // Opening: build everything, drop the earlier stagings
  // ------------------------------------------------------------------

  function OpenDuties(batches: seq<map<Id, Sched>>): seq<Duty> {
    seq(|batches|, i requires 0 <= i < |batches| => Opens(batches[i])) + [Drops]
  }

  /** The schedulers to come are new and do not clash. */
  predicate Unused(s: State, batches: seq<map<Id, Sched>>) {
    && (forall i :: 0 <= i < |batches| ==> FreshBatch(s, batches[i]))
    && (forall i, j :: 0 <= i < j < |batches| ==> batches[i].Keys !! batches[j].Keys)
  }

  predicate FreshBatch(s: State, batch: map<Id, Sched>) {
    batch.Keys !! s.scheds.Keys && forall id :: id in batch ==> IsNew(batch[id])
  }

  ghost predicate Supplying(batches: seq<map<Id, Sched>>, id: Id) { exists i :: 0 <= i < |batches| && id in batches[i] }

  /** What the opening leaves: the same definitions, no staging, and the new schedulers waiting beside the old ones. */
  ghost predicate Opened(s: State, t: State, batches: seq<map<Id, Sched>>) {
    && Core(t) && t.staging == map[] && (forall n :: Def(t, n) == Def(s, n))
    && (forall id :: id in t.built <==> id in s.built || Supplying(batches, id))
    && (forall id :: id in s.built ==> SameSched(s, t, id))
    && (forall i, id :: 0 <= i < |batches| && id in batches[i] ==> id in t.scheds && t.scheds[id] == batches[i][id])
  }

  lemma {:induction false} OpeningRuns(s: State, batches: seq<map<Id, Sched>>, evs: seq<Event>)
    requires Core(s) && Unused(s, batches) && Follows(evs, OpenDuties(batches)) && GoesOn(s, evs)
    ensures Runnable(s, evs) && Opened(s, Play(s, evs), batches)
    decreases |evs|
  {
    hide Core, Enabled, Benign, Step, Opened, Awaited, FreshBatch;
    var ev, rest, duties := evs[0], evs[1..], OpenDuties(batches);
    if IsAside(ev) {
      assert Enabled(s, ev) by { AsideCan(s, ev); }
      var s1 := Step(s, ev);
      AsideBefore(s, ev, batches);
      OpeningRuns(s1, batches, rest);
      OpenedLater(s, ev, Play(s1, rest), batches);
    } else if batches == [] {
      assert duties[0] == Drops && duties[1..] == [];
      DropFirst(s, evs);
    } else {
      assert duties[0] == Opens(batches[0]) && duties[1..] == OpenDuties(batches[1..]);
      BuildFirst(s, batches, ev);
      var s1 := Step(s, ev);
      OpeningRuns(s1, batches[1..], rest);
      OpenedFirst(s, ev, Play(s1, rest), batches);
    }
  }

  lemma AsideCan(s: State, ev: Event)
    requires IsAside(ev) && Awaited(s, ev)
    ensures Enabled(s, ev) && Benign(s, ev)
  {
    hide Enabled;
  }

  lemma {:induction false} AsideBefore(s: State, ev: Event, batches: seq<map<Id, Sched>>)
    requires Core(s) && Unused(s, batches) && IsAside(ev) && Enabled(s, ev)
    ensures Core(Step(s, ev)) && Unused(Step(s, ev), batches) && Benign(s, ev)
  {
    hide Core, Step, IsNew;
    StepKeepsIff(s, ev);
    AsideScheds(s, ev);
  }

  lemma {:induction false} AsideScheds(s: State, ev: Event)
    requires IsAside(ev) && Enabled(s, ev)
    ensures Step(s, ev).scheds.Keys == s.scheds.Keys
  {
    hide ToPolicy, ToQueue, AfterRun, AfterResult, OnTransition;
    match ev
    case DeliverResult(id, seen, b, b2) => ResultScheds(s, id, seen, b, b2);
    case _ =>
  }

  lemma {:induction false} OpenedLater(s: State, ev: Event, t: State, batches: seq<map<Id, Sched>>)
    requires Core(s) && IsAside(ev) && Enabled(s, ev) && Opened(Step(s, ev), t, batches)
    ensures Opened(s, t, batches)
  {
    hide Core, Step, Enabled, SameSched, Supplying;
    var s1 := Step(s, ev);
    AsideKeepsDefs(s, ev);
    forall n
      ensures Def(t, n) == Def(s, n)
    {
      assert Def(t, n) == Def(s1, n);
    }
    forall id | id in s.built
      ensures SameSched(s, t, id)
    {
      AsideKeepsBuilt(s, ev, id);
      SameSchedTrans(s, s1, t, id);
    }
  }

  lemma {:induction false} BuildFirst(s: State, batches: seq<map<Id, Sched>>, ev: Event)
    requires Core(s) && batches != [] && Unused(s, batches) && Performs(ev, Opens(batches[0]))
    ensures Ready(s, ev) && Core(Step(s, ev)) && Unused(Step(s, ev), batches[1..])
  {
    hide Core, IsNew;
    assert FreshBatch(s, batches[0]);
    StepKeepsIff(s, ev);
    var s1, rest := Step(s, ev), batches[1..];
    forall i | 0 <= i < |rest|
      ensures FreshBatch(s1, rest[i])
    {
      assert rest[i] == batches[i + 1] && FreshBatch(s, batches[i + 1]) && batches[0].Keys !! batches[i + 1].Keys;
    }
  }

  lemma {:induction false} OpenedFirst(s: State, ev: Event, t: State, batches: seq<map<Id, Sched>>)
    requires Core(s) && batches != [] && ev == Build(batches[0]) && FreshBatch(s, batches[0]) && Enabled(s, ev)
    requires Opened(Step(s, ev), t, batches[1..])
    ensures Opened(s, t, batches)
  {
    hide Core, IsNew, Supplying;
    var s1 := Step(s, ev);
    assert forall i :: 0 < i < |batches| ==> batches[i] == batches[1..][i - 1];
    forall id
      ensures Supplying(batches, id) <==> id in batches[0] || Supplying(batches[1..], id)
    {
      SupplyingSplit(batches, id);
    }
    forall n
      ensures Def(t, n) == Def(s, n)
    {
      assert Def(t, n) == Def(s1, n);
    }
    BuiltHere(s);
    forall i, id | 0 <= i < |batches| && id in batches[i]
      ensures id in t.scheds && t.scheds[id] == batches[i][id]
    {
      if i == 0 {
        assert id in s1.built && SameSched(s1, t, id);
      } else {
        assert id in batches[1..][i - 1];
      }
    }
  }

  lemma SupplyingSplit(batches: seq<map<Id, Sched>>, id: Id)
    requires batches != []
    ensures Supplying(batches, id) <==> id in batches[0] || Supplying(batches[1..], id)
  {
    if Supplying(batches[1..], id) {
      var i :| 0 <= i < |batches[1..]| && id in batches[1..][i];
      assert id in batches[i + 1];
    }
    if Supplying(batches, id) && id !in batches[0] {
      var i :| 0 <= i < |batches| && id in batches[i];
      assert id in batches[1..][i - 1];
    }
  }

  lemma BuiltHere(s: State)
    requires Core(s)
    ensures forall id :: id in s.built ==> id in s.scheds
  {
    hide VipsOk, QueueOk, RoutesOwned, IdOk;
    assert NoStrays(s);
  }

  lemma {:induction false} DropFirst(s: State, evs: seq<Event>)
    requires Core(s) && evs != [] && evs[0] == DropStaging && GoesOn(s, evs) && Follows(evs[1..], [])
    ensures Runnable(s, evs) && Opened(s, Play(s, evs), [])
  {
    hide Core, SameSched, Woven, Untouchable;
    var s1, rest := Step(s, DropStaging), evs[1..];
    StepKeepsIff(s, DropStaging);
    WeaveRuns(s1, [], rest);
    var t := Play(s1, rest);
    AfterAsides(s1, t, FailedIn(s1, rest));
    BuiltHere(s);
    forall id | id in s.built
      ensures SameSched(s, t, id)
    {
      SameStays(s, s1, t, id);
    }
  }

  lemma SameStays(s: State, s1: State, t: State, id: Id)
    requires s1.scheds == s.scheds && SameSched(s1, t, id)
    ensures SameSched(s, t, id)
  {
  }

  lemma AfterAsides(s: State, t: State, failed: set<string>)
    requires forall m :: Woven(s, t, [], failed, m)
    requires forall id :: id in t.built <==> id in s.built && Untouchable([], id)
    ensures forall n :: Def(t, n) == Def(s, n)
    ensures s.staging == map[] ==> t.staging == map[]
    ensures t.built == s.built
  {
    forall n
      ensures Def(t, n) == Def(s, n) && StagedAt(t, n) == StagedAt(s, n)
    {
      assert Woven(s, t, [], failed, n);
    }
    if s.staging == map[] {
      forall n ensures n !in t.staging { assert StagedAt(t, n) == StagedAt(s, n); }
    }
    assert forall id :: Untouchable([], id);
  }

  // ------------------------------------------------------------------
  // The course of a reload
  // ------------------------------------------------------------------

  /** The events of the four phases, asides included. */
  datatype Course = Course(opening: seq<Event>, removals: seq<Event>, additions: seq<Event>, changes: seq<Event>)

  function Batches(out: Outside, w: Work): seq<map<Id, Sched>> {
    var jobs := WorkJobs(w);
    seq(|jobs|, i requires 0 <= i < |jobs| => Made(jobs[i], NextId(jobs[..i], out.first)))
  }

  /** What the build phase leaves in stock. */
  function Stock(out: Outside, w: Work): Env { EnvOf(out, Answers(map[], {}), w) }

  function RemoveDuties(w: Work): seq<Duty> {
    seq(|w.removed|, i requires 0 <= i < |w.removed| => Removes(w.removed[i].name))
  }

  function AddDuty(v: Vip, failed: set<string>, stock: Env): Duty {
    if v.name in failed then Discards(v.name, System.Ids(stock.Ids(v.name))) else Duty.Adds(v, stock.Ids(v.name))
  }

  function AddDuties(w: Work, failed: set<string>, stock: Env): seq<Duty> {
    seq(|w.added|, i requires 0 <= i < |w.added| => AddDuty(w.added[i], failed, stock))
  }

  function ChangeDuty(c: Change, stock: Env): Duty {
    if ChangedNames(c.was, c.v) == {} then Switches(c.v) else Stages(c.v, stock.Ids(c.v.name), stock.at)
  }

  function ChangeDuties(w: Work, stock: Env): seq<Duty> {
    seq(|w.changed|, i requires 0 <= i < |w.changed| => ChangeDuty(w.changed[i], stock))
  }

  ghost function AfterOpening(s: State, c: Course): State { Played(s, c.opening) }
  ghost function AfterRemovals(s: State, c: Course): State { Played(AfterOpening(s, c), c.removals) }
  ghost function AfterAdditions(s: State, c: Course): State { Played(AfterRemovals(s, c), c.additions) }
  ghost function AtTheEnd(s: State, c: Course): State { Played(AfterAdditions(s, c), c.changes) }

  /** The VIPs that had to stay. */
  ghost function Stuck(s: State, c: Course): set<string> {
    if Runnable(AfterOpening(s, c), c.removals) then FailedIn(AfterOpening(s, c), c.removals) else {}
  }

  /** The events follow the program, and every step finds what it counts on. */
  ghost predicate Proceeds(s: State, out: Outside, w: Work, c: Course) {
    && Follows(c.opening, OpenDuties(Batches(out, w))) && GoesOn(s, c.opening)
    && Follows(c.removals, RemoveDuties(w)) && GoesOn(AfterOpening(s, c), c.removals)
    && Follows(c.additions, AddDuties(w, Stuck(s, c), Stock(out, w))) && GoesOn(AfterRemovals(s, c), c.additions)
    && Follows(c.changes, ChangeDuties(w, Stock(out, w))) && GoesOn(AfterAdditions(s, c), c.changes)
  }

  /** The schedulers of the build wait, as built. */
  predicate InStock(t: State, news: map<Id, Sched>, id: Id) {
    id in t.built && id in t.scheds && id in news && t.scheds[id] == news[id]
  }

  ghost predicate Vacated(s: State, stock: Env, t: State) {
    && Core(t) && (forall n :: Def(t, n) == Def(s, n)) && (forall n :: StagedAt(t, n) == None)
    && (forall id :: id in t.built <==> id in stock.news)
       && (forall id :: id in stock.news ==> InStock(t, stock.news, id))
  }

  lemma {:induction false} OpeningPhase(s: State, out: Outside, w: Work, c: Course)
    requires Core(s) && s.built == {} && FreshFrom(s, out.first) && Sorted(w)
    requires Follows(c.opening, OpenDuties(Batches(out, w))) && GoesOn(s, c.opening)
    ensures Runnable(s, c.opening) && Vacated(s, Stock(out, w), AfterOpening(s, c))
  {
    hide Core, FreshFrom, Sorted, Follows, GoesOn, Runnable, Play, OpenDuties, Supplying, SameSched, News, FiledUnder;
    var batches, news := Batches(out, w), News(WorkJobs(w), out.first);
    BatchesUnused(s, out, w);
    OpeningRuns(s, batches, c.opening);
    var t := AfterOpening(s, c);
    WorkJobsDistinct(w);
    forall id
      ensures Supplying(batches, id) <==> id in news
      ensures id in news ==> InStock(t, news, id)
    {
      StockedAt(s, out, w, t, id);
    }
  }

  lemma {:induction false} BatchesUnused(s: State, out: Outside, w: Work)
    requires FreshFrom(s, out.first)
    ensures Unused(s, Batches(out, w))
  {
    hide Made, NextId, Jobs;
    var jobs, batches := WorkJobs(w), Batches(out, w);
    forall i | 0 <= i < |jobs|
      ensures FreshBatch(s, batches[i])
    {
      MadeIs(jobs[i], NextId(jobs[..i], out.first));
    }
    forall i, j | 0 <= i < j < |jobs|
      ensures batches[i].Keys !! batches[j].Keys
    {
      MadeIs(jobs[i], NextId(jobs[..i], out.first));
      MadeIs(jobs[j], NextId(jobs[..j], out.first));
      NextIdGrows(jobs, out.first, i, j);
    }
  }

  lemma {:induction false} NextIdGrows(jobs: seq<Job>, first: Id, i: nat, j: nat)
    requires i < j <= |jobs|
    ensures NextId(jobs[..i], first) + |jobs[i].checks| <= NextId(jobs[..j], first)
    decreases j
  {
    assert jobs[..j][..j - 1] == jobs[..j - 1];
    if i < j - 1 {
      NextIdGrows(jobs, first, i, j - 1);
    }
  }

  lemma {:induction false} StockedAt(s: State, out: Outside, w: Work, t: State, id: Id)
    requires DistinctJobs(WorkJobs(w)) && Opened(s, t, Batches(out, w))
    ensures var news := News(WorkJobs(w), out.first);
      (Supplying(Batches(out, w), id) <==> id in news) && (id in news ==> InStock(t, news, id))
  {
    hide Core, Made, NextId, Jobs, DistinctJobs, News, SameSched, FiledUnder;
    var jobs, batches, news := WorkJobs(w), Batches(out, w), News(WorkJobs(w), out.first);
    if Supplying(batches, id) {
      var i :| 0 <= i < |batches| && id in batches[i];
      JobAt(jobs, out.first, i);
    }
    if id in news {
      NewsCovered(jobs, out.first, id);
      var i :| 0 <= i < |jobs| && id in Made(jobs[i], NextId(jobs[..i], out.first));
      assert id in batches[i];
      JobAt(jobs, out.first, i);
    }
  }

  // ------------------------------------------------------------------
  // Removals
  // ------------------------------------------------------------------

  /** The removals are over: exactly the VIPs that could be withdrawn are gone. */
  ghost predicate Shrunk(s: State, stock: Env, w: Work, stuck: set<string>, t: State) {
    && Core(t) && (forall n :: n in stuck ==> Goes(w, n))
    && (forall n :: Def(t, n) == if Goes(w, n) && n !in stuck then None else Def(s, n))
       && (forall n :: StagedAt(t, n) == None)
    && (forall id :: id in t.built <==> id in stock.news)
       && (forall id :: id in stock.news ==> InStock(t, stock.news, id))
  }

  lemma {:induction false} RemovalPhase(s: State, out: Outside, w: Work, c: Course)
    requires Sorted(w) && Governing(s, w.running) && Vacated(s, Stock(out, w), AfterOpening(s, c))
    requires Follows(c.removals, RemoveDuties(w)) && GoesOn(AfterOpening(s, c), c.removals)
    ensures Runnable(AfterOpening(s, c), c.removals) && Shrunk(s, Stock(out, w), w, Stuck(s, c), AfterRemovals(s, c))
  {
    hide Core, Sorted, Governing, Vacated, Follows, GoesOn, Runnable, Play, Woven, SameSched, Def, StagedAt, EnvOf,
      Goes, Primed, OfDifferentVips, InStock, AfterOpening, Untouchable;
    var t1, duties := AfterOpening(s, c), RemoveDuties(w);
    RemovesPrimed(s, Stock(out, w), w, t1);
    WeaveRuns(t1, duties, c.removals);
    var t2, stuck := AfterRemovals(s, c), Stuck(s, c);
    forall n
      ensures n in stuck ==> Goes(w, n)
      ensures Def(t2, n) == if Goes(w, n) && n !in stuck then None else Def(s, n)
      ensures StagedAt(t2, n) == None
    {
      assert Woven(t1, t2, duties, stuck, n);
      ShrunkAt(s, Stock(out, w), w, t1, t2, stuck, n);
    }
    forall id
      ensures id in t2.built <==> id in Stock(out, w).news
      ensures id in Stock(out, w).news ==> InStock(t2, Stock(out, w).news, id)
    {
      assert Untouchable(duties, id) by { RemovesTake(w, id); }
      StockKept(s, Stock(out, w), t1, t2, id);
    }
  }

  lemma RemovesTake(w: Work, id: Id)
    ensures Untouchable(RemoveDuties(w), id)
  {
  }

  lemma StockKept(s: State, stock: Env, t1: State, t2: State, id: Id)
    requires Vacated(s, stock, t1) && (id in t2.built <==> id in t1.built) && (id in t2.built ==> SameSched(t1, t2, id))
    ensures id in t2.built <==> id in stock.news
    ensures id in stock.news ==> InStock(t2, stock.news, id)
  {
    hide Core, Def, StagedAt;
    assert id in stock.news ==> InStock(t1, stock.news, id);
  }

  lemma {:induction false} RemovesPrimed(s: State, stock: Env, w: Work, t1: State)
    requires Sorted(w) && Governing(s, w.running) && Vacated(s, stock, t1)
    ensures Core(t1) && OfDifferentVips(RemoveDuties(w))
      && forall i :: 0 <= i < |RemoveDuties(w)| ==> Primed(t1, RemoveDuties(w)[i])
  {
    hide Core, ValidVips, Lookup, DistinctChanges, InStock, IsAdded, IsRemoved, IsChanged;
    var duties := RemoveDuties(w);
    forall i | 0 <= i < |duties|
      ensures Primed(t1, duties[i])
    {
      var o := w.removed[i];
      assert o in w.removed && o in w.running;
      LookupIs(w.running, o.name);
      assert Lookup(w.running, o.name) == Def(s, o.name) == Def(t1, o.name);
      assert StagedAt(t1, o.name) == None;
    }
    assert forall i, j :: 0 <= i < j < |duties| ==> w.removed[i].name != w.removed[j].name;
  }

  lemma {:induction false} ShrunkAt(s: State, stock: Env, w: Work, t1: State, t2: State, stuck: set<string>, n: string)
    requires Sorted(w) && Vacated(s, stock, t1) && Woven(t1, t2, RemoveDuties(w), stuck, n)
    ensures n in stuck ==> Goes(w, n)
    ensures Def(t2, n) == if Goes(w, n) && n !in stuck then None else Def(s, n)
    ensures StagedAt(t2, n) == None
  {
    hide Core, Sorted, Goes, Def, StagedAt, InStock;
    GoesIs(w, n);
    var duties := RemoveDuties(w);
    assert Def(t1, n) == Def(s, n) && StagedAt(t1, n) == None;
    if Goes(w, n) {
      var i :| 0 <= i < |w.removed| && VipNames(w.removed)[i] == n;
      assert duties[i].Name() == n;
    } else {
      forall i | 0 <= i < |duties|
        ensures duties[i].Name() != n
      {
        assert VipNames(w.removed)[i] == duties[i].Name();
      }
    }
  }

  // ------------------------------------------------------------------
  // Additions
  // ------------------------------------------------------------------

  /** The additions are over: every added VIP that was not stuck runs the file's definition. */
  ghost predicate Grown(stock: Env, w: Work, stuck: set<string>, t2: State, t3: State) {
    && Core(t3)
    && (forall n :: Def(t3, n) == if Comes(w, n) && n !in stuck then Lookup(w.cand, n) else Def(t2, n))
       && (forall n :: StagedAt(t3, n) == None)
    && (forall id :: id in t3.built <==>
       id in stock.news && forall v :: v in w.added ==> id !in System.Ids(stock.Ids(v.name)))
    && (forall id :: id in t3.built ==> InStock(t3, stock.news, id))
  }

  lemma {:induction false} AdditionPhase(s: State, out: Outside, w: Work, c: Course)
    requires Sorted(w) && Governing(s, w.running) && Supplies(s, Stock(out, w), w)
    requires Shrunk(s, Stock(out, w), w, Stuck(s, c), AfterRemovals(s, c))
    requires Follows(c.additions, AddDuties(w, Stuck(s, c), Stock(out, w))) && GoesOn(AfterRemovals(s, c), c.additions)
    ensures Runnable(AfterRemovals(s, c), c.additions)
      && Grown(Stock(out, w), w, Stuck(s, c), AfterRemovals(s, c), AfterAdditions(s, c))
  {
    hide Core, Sorted, Governing, Supplies, Shrunk, Follows, GoesOn, Runnable, Play, Woven, SameSched, Def, StagedAt,
      EnvOf, Comes, Primed, OfDifferentVips, InStock,
      AfterRemovals, Untouchable, Lookup, System.Ids, Stuck;
    var stock, stuck, t2 := Stock(out, w), Stuck(s, c), AfterRemovals(s, c);
    var duties := AddDuties(w, stuck, stock);
    AddsPrimed(s, stock, w, stuck, t2);
    WeaveRuns(t2, duties, c.additions);
    var t3 := AfterAdditions(s, c);
    var none := FailedIn(t2, c.additions);
    forall n
      ensures Def(t3, n) == if Comes(w, n) && n !in stuck then Lookup(w.cand, n) else Def(t2, n)
      ensures StagedAt(t3, n) == None
    {
      assert Woven(t2, t3, duties, none, n);
      GrownAt(s, stock, w, stuck, t2, t3, none, n);
    }
    forall id
      ensures id in t3.built <==> id in stock.news && forall v :: v in w.added ==> id !in System.Ids(stock.Ids(v.name))
      ensures id in t3.built ==> InStock(t3, stock.news, id)
    {
      AddsTake(w, stuck, stock, id);
      StillStocked(s, stock, w, stuck, t2, t3, id);
    }
  }

  lemma {:induction false} AddsTake(w: Work, stuck: set<string>, stock: Env, id: Id)
    ensures Untouchable(AddDuties(w, stuck, stock), id) <==>
      forall v :: v in w.added ==> id !in System.Ids(stock.Ids(v.name))
  {
    hide System.Ids;
    var duties := AddDuties(w, stuck, stock);
    assert forall i :: 0 <= i < |duties| ==> Takes(duties[i]) == System.Ids(stock.Ids(w.added[i].name));
    if Untouchable(duties, id) {
      forall v | v in w.added
        ensures id !in System.Ids(stock.Ids(v.name))
      {
        var i :| 0 <= i < |w.added| && w.added[i] == v;
        assert id !in Takes(duties[i]);
      }
    }
  }

  lemma StillStocked(s: State, stock: Env, w: Work, stuck: set<string>, t2: State, t3: State, id: Id)
    requires Shrunk(s, stock, w, stuck, t2) && (id in t3.built ==> id in t2.built && SameSched(t2, t3, id))
    ensures id in t2.built <==> id in stock.news
    ensures id in t3.built ==> InStock(t3, stock.news, id)
  {
    hide Core, Def, StagedAt, Goes;
    assert id in stock.news ==> InStock(t2, stock.news, id);
  }

  /** The stocked schedulers of a VIP are what its duty needs. */
  lemma {:induction false} StockedFor(t: State, stock: Env, v: Vip)
    requires Supplied(stock, v) && (forall id :: id in stock.news ==> IsNew(stock.news[id]))
    requires forall x :: x in stock.Ids(v.name) ==> InStock(t, stock.news, stock.Ids(v.name)[x])
    ensures BuiltFor(t, v, stock.Ids(v.name))
    ensures Primed(t, Discards(v.name, System.Ids(stock.Ids(v.name))))
  {
    hide IsNew, ByName;
    var ids := stock.Ids(v.name);
    forall x | x in ids
      ensures ids[x] in t.built && ids[x] in t.scheds && IsNew(t.scheds[ids[x]]) && Governs(t.scheds[ids[x]], v, x)
    {
      assert InStock(t, stock.news, ids[x]);
    }
  }

  lemma {:induction false} AddsPrimed(s: State, stock: Env, w: Work, stuck: set<string>, t2: State)
    requires Sorted(w) && Governing(s, w.running) && Supplies(s, stock, w) && Shrunk(s, stock, w, stuck, t2)
    ensures var duties := AddDuties(w, stuck, stock);
      Core(t2) && OfDifferentVips(duties) && forall i :: 0 <= i < |duties| ==> Primed(t2, duties[i])
  {
    hide Core, Supplies, Governing, Shrunk, Primed, System.Ids, Lookup, IsAdded, IsRemoved, IsChanged, DistinctChanges,
      ValidVips;
    var duties := AddDuties(w, stuck, stock);
    assert Core(t2) by { ShrunkCore(s, stock, w, stuck, t2); }
    forall i | 0 <= i < |duties|
      ensures Primed(t2, duties[i])
    {
      assert w.added[i] in w.added;
      AddPrimed(s, stock, w, stuck, t2, w.added[i]);
    }
    assert forall i, j :: 0 <= i < j < |duties| ==> w.added[i].name != w.added[j].name;
  }

  lemma ShrunkCore(s: State, stock: Env, w: Work, stuck: set<string>, t2: State)
    requires Shrunk(s, stock, w, stuck, t2)
    ensures Core(t2)
  {
    hide Core, Def, StagedAt, Goes, InStock;
  }

  lemma {:induction false} AddPrimed(s: State, stock: Env, w: Work, stuck: set<string>, t2: State, v: Vip)
    requires Sorted(w) && Governing(s, w.running) && Supplies(s, stock, w) && Shrunk(s, stock, w, stuck, t2)
      && v in w.added
    ensures Primed(t2, AddDuty(v, stuck, stock))
  {
    hide Core, Sorted, Supplies, Supplied, Governing, IsNew, ValidVip, System.Ids, ByName, BuiltFor, InStock, Lookup,
      Goes;
    SuppliedAdded(s, stock, w, v);
    forall x | x in stock.Ids(v.name)
      ensures InStock(t2, stock.news, stock.Ids(v.name)[x])
    {
      SuppliedNews(stock, v, x);
    }
    StockedFor(t2, stock, v);
    AddedUnknown(s, w, v);
  }

  lemma SuppliedNews(stock: Env, v: Vip, x: string)
    requires Supplied(stock, v) && x in stock.Ids(v.name)
    ensures stock.Ids(v.name)[x] in stock.news && stock.news[stock.Ids(v.name)[x]].vip == v.name
  {
    hide ByName;
  }

  /** An added VIP does not run, or is to be removed first. */
  lemma {:induction false} AddedUnknown(s: State, w: Work, v: Vip)
    requires Sorted(w) && Governing(s, w.running) && v in w.added
    ensures Comes(w, v.name) && Lookup(w.cand, v.name) == Some(v) && (Goes(w, v.name) || Def(s, v.name) == None)
  {
    hide Def, Lookup, DistinctChanges, ValidVip;
    assert v in w.cand;
    LookupIs(w.cand, v.name);
    LookupIs(w.running, v.name);
    assert Lookup(w.running, v.name) == Def(s, v.name);
  }

  lemma {:induction false} GrownAt(s: State, stock: Env, w: Work, stuck: set<string>, t2: State, t3: State,
                                   none: set<string>, n: string)
    requires Sorted(w) && Shrunk(s, stock, w, stuck, t2) && Woven(t2, t3, AddDuties(w, stuck, stock), none, n)
    ensures Def(t3, n) == if Comes(w, n) && n !in stuck then Lookup(w.cand, n) else Def(t2, n)
    ensures StagedAt(t3, n) == None
  {
    hide Core, Sorted, Comes, Goes, Def, StagedAt, InStock, System.Ids, Lookup;
    ComesIs(w, n);
    var duties := AddDuties(w, stuck, stock);
    assert StagedAt(t2, n) == None;
    if Comes(w, n) {
      var i :| 0 <= i < |w.added| && VipNames(w.added)[i] == n;
      assert duties[i].Name() == n && duties[i] == AddDuty(w.added[i], stuck, stock);
    } else {
      forall i | 0 <= i < |duties|
        ensures duties[i].Name() != n
      {
        assert VipNames(w.added)[i] == duties[i].Name();
      }
    }
  }

  // ------------------------------------------------------------------
  // Changes
  // ------------------------------------------------------------------

  lemma {:induction false} ChangePhase(s: State, out: Outside, w: Work, c: Course)
    requires Sorted(w) && Governing(s, w.running) && Supplies(s, Stock(out, w), w)
    requires Shrunk(s, Stock(out, w), w, Stuck(s, c), AfterRemovals(s, c))
    requires Grown(Stock(out, w), w, Stuck(s, c), AfterRemovals(s, c), AfterAdditions(s, c))
    requires Follows(c.changes, ChangeDuties(w, Stock(out, w))) && GoesOn(AfterAdditions(s, c), c.changes)
    ensures Runnable(AfterAdditions(s, c), c.changes) && Core(AtTheEnd(s, c)) && AtTheEnd(s, c).built == {}
    ensures forall n :: Met(AtTheEnd(s, c), n, FateOf(Lookup(w.running, n), Lookup(w.cand, n), n in Stuck(s, c)))
  {
    hide Core, Sorted, Governing, Supplies, Shrunk, Grown, Follows, GoesOn, Runnable, Play, Woven, SameSched, Def,
      StagedAt, EnvOf, Primed, OfDifferentVips, InStock,
      AfterRemovals, AfterAdditions, Untouchable, Lookup, System.Ids, Stuck, Met, FateOf;
    var stock, stuck, t2, t3 := Stock(out, w), Stuck(s, c), AfterRemovals(s, c), AfterAdditions(s, c);
    var duties := ChangeDuties(w, stock);
    ChangesPrimed(s, stock, w, stuck, t2, t3);
    WeaveRuns(t3, duties, c.changes);
    var t4 := AtTheEnd(s, c);
    var none := FailedIn(t3, c.changes);
    forall n
      ensures Met(t4, n, FateOf(Lookup(w.running, n), Lookup(w.cand, n), n in stuck))
    {
      assert Woven(t3, t4, duties, none, n);
      MetAt(s, stock, w, stuck, t2, t3, t4, none, n);
    }
    forall id
      ensures id !in t4.built
    {
      if id in t3.built { NothingLeft(s, stock, w, stuck, t2, t3, id); }
    }
  }

  lemma {:induction false} NothingLeft(s: State, stock: Env, w: Work, stuck: set<string>, t2: State, t3: State, id: Id)
    requires Supplies(s, stock, w) && Grown(stock, w, stuck, t2, t3) && id in t3.built
    ensures !Untouchable(ChangeDuties(w, stock), id)
  {
    hide Core, Def, StagedAt, Comes, InStock, System.Ids, Supplied, IsNew, Lookup, ChangedNames;
    var c :| c in w.changed && NeedsStaging(c) && id in System.Ids(stock.Ids(c.v.name));
    var i :| 0 <= i < |w.changed| && w.changed[i] == c;
    assert id in Takes(ChangeDuties(w, stock)[i]);
  }

  lemma {:induction false} ChangesPrimed(s: State, stock: Env, w: Work, stuck: set<string>, t2: State, t3: State)
    requires Sorted(w) && Governing(s, w.running) && Supplies(s, stock, w) && Shrunk(s, stock, w, stuck, t2)
      && Grown(stock, w, stuck, t2, t3)
    ensures var duties := ChangeDuties(w, stock);
      Core(t3) && OfDifferentVips(duties) && forall i :: 0 <= i < |duties| ==> Primed(t3, duties[i])
  {
    hide Core, Supplies, Governing, Shrunk, Grown, Primed, System.Ids, Lookup, IsAdded, IsRemoved, IsChanged,
      ValidVips, ChangedNames;
    var duties := ChangeDuties(w, stock);
    assert Core(t3) by { GrownCore(stock, w, stuck, t2, t3); }
    forall i | 0 <= i < |duties|
      ensures Primed(t3, duties[i])
    {
      assert w.changed[i] in w.changed;
      ChangePrimed(s, stock, w, stuck, t2, t3, w.changed[i]);
    }
    assert forall i, j :: 0 <= i < j < |duties| ==> w.changed[i].v.name != w.changed[j].v.name;
  }

  lemma GrownCore(stock: Env, w: Work, stuck: set<string>, t2: State, t3: State)
    requires Grown(stock, w, stuck, t2, t3)
    ensures Core(t3)
  {
    hide Core, Def, StagedAt, Comes, InStock, System.Ids, Lookup;
  }

  /** A changed VIP runs its old definition until its turn comes. */
  lemma {:induction false} ChangedKnown(s: State, stock: Env, w: Work, stuck: set<string>, t2: State, t3: State,
                                        c: Change)
    requires Sorted(w) && Governing(s, w.running) && Shrunk(s, stock, w, stuck, t2) && Grown(stock, w, stuck, t2, t3)
      && c in w.changed
    ensures Def(t3, c.v.name) == Some(c.was) && StagedAt(t3, c.v.name) == None && c.v.prefix == c.was.prefix
      && ValidVip(c.v)
    ensures forall v :: v in w.added ==> v.name != c.v.name
  {
    hide Core, InStock, System.Ids, Lookup, StagedAt, Def, ValidVip, DistinctChanges;
    assert c.v in w.cand;
    LookupIs(w.cand, c.v.name);
    LookupIs(w.running, c.v.name);
    assert Lookup(w.running, c.v.name) == Def(s, c.v.name);
    assert !Goes(w, c.v.name) && !Comes(w, c.v.name);
    forall v | v in w.added
      ensures v.name != c.v.name
    {
      AddedUnknown(s, w, v);
    }
  }

  lemma {:induction false} ChangePrimed(s: State, stock: Env, w: Work, stuck: set<string>, t2: State, t3: State,
                                        c: Change)
    requires Sorted(w) && Governing(s, w.running) && Supplies(s, stock, w) && Shrunk(s, stock, w, stuck, t2)
      && Grown(stock, w, stuck, t2, t3) && c in w.changed
    ensures Primed(t3, ChangeDuty(c, stock))
  {
    hide Core, Sorted, Supplies, Supplied, Governing, Shrunk, Grown, IsNew, ValidVip, System.Ids, ByName, BuiltFor,
      InStock, Lookup, ChangedNames;
    ChangedKnown(s, stock, w, stuck, t2, t3, c);
    if NeedsStaging(c) {
      SuppliedChanged(s, stock, w, c);
      forall x | x in stock.Ids(c.v.name)
        ensures InStock(t3, stock.news, stock.Ids(c.v.name)[x])
      {
        SuppliedNews(stock, c.v, x);
        LeftInStock(s, stock, w, stuck, t2, t3, c, stock.Ids(c.v.name)[x]);
      }
      StockedFor(t3, stock, c.v);
      assert stock.Ids(c.v.name) != map[];
    }
  }

  lemma {:induction false} SuppliedChanged(s: State, stock: Env, w: Work, c: Change)
    requires Supplies(s, stock, w) && c in w.changed && NeedsStaging(c)
    ensures stock.Ids(c.v.name).Keys == ChangedNames(c.was, c.v) && Supplied(stock, c.v)
      && forall id :: id in stock.news ==> IsNew(stock.news[id])
  {
    hide Supplied, IsNew, ChangedNames, System.Ids, ByName;
  }

  /** The additions took no scheduler of a changed VIP. */
  lemma {:induction false} LeftInStock(s: State, stock: Env, w: Work, stuck: set<string>, t2: State, t3: State,
                                       c: Change, id: Id)
    requires Supplies(s, stock, w) && Grown(stock, w, stuck, t2, t3) && id in stock.news
      && stock.news[id].vip == c.v.name
    requires forall v :: v in w.added ==> v.name != c.v.name
    ensures InStock(t3, stock.news, id)
  {
    hide Core, Def, StagedAt, Comes, InStock, Supplied, IsNew, Lookup, ChangedNames, ByName;
    forall v | v in w.added
      ensures id !in System.Ids(stock.Ids(v.name))
    {
      if x :| x in stock.Ids(v.name) && stock.Ids(v.name)[x] == id {
        SuppliedNews(stock, v, x);
      }
    }
  }

  lemma {:induction false} MetAt(s: State, stock: Env, w: Work, stuck: set<string>, t2: State, t3: State, t4: State,
                                 none: set<string>, n: string)
    requires Sorted(w) && Governing(s, w.running) && Shrunk(s, stock, w, stuck, t2) && Grown(stock, w, stuck, t2, t3)
    requires Woven(t3, t4, ChangeDuties(w, stock), none, n)
    ensures Met(t4, n, FateOf(Lookup(w.running, n), Lookup(w.cand, n), n in stuck))
  {
    hide Core, Sorted, InStock, System.Ids, Lookup, ChangedNames, RemovedNames, DeadlineFor, Def, StagedAt;
    AltersIs(w, n);
    LookupIs(w.running, n);
    LookupIs(w.cand, n);
    var duties := ChangeDuties(w, stock);
    assert Lookup(w.running, n) == Def(s, n);
    assert Def(t2, n) == if Goes(w, n) && n !in stuck then None else Def(s, n);
    assert Def(t3, n) == if Comes(w, n) && n !in stuck then Lookup(w.cand, n) else Def(t2, n);
    assert StagedAt(t3, n) == None && (n in stuck ==> Goes(w, n));
    if Alters(w, n) {
      var i :| 0 <= i < |w.changed| && ChangeNames(w.changed)[i] == n;
      assert duties[i].Name() == n && duties[i] == ChangeDuty(w.changed[i], stock);
      assert Accomplished(t3, t4, duties[i], n in none);
    } else {
      forall i | 0 <= i < |duties|
        ensures duties[i].Name() != n
      {
        assert ChangeNames(w.changed)[i] == duties[i].Name();
      }
    }
  }

  // ------------------------------------------------------------------
  // The whole course
  // ------------------------------------------------------------------

  ghost predicate RunsThrough(s: State, c: Course) {
    && Runnable(s, c.opening) && Runnable(AfterOpening(s, c), c.removals)
    && Runnable(AfterRemovals(s, c), c.additions) && Runnable(AfterAdditions(s, c), c.changes)
  }

  /**
    A reload under any interleaving: if every step finds the schedulers it stops waited for and is
    none of the hazards when its turn comes, no step can fail otherwise. The invariant holds at the
    end, every VIP meets the fate that its governing definition, the file's definition and the
    outcome of its own withdraw call for, and every scheduler that was built has been taken over
    or closed.
   */
  lemma {:induction false} CourseMeetsFates(s: State, out: Outside, w: Work, c: Course)
    requires Core(s) && s.built == {} && FreshFrom(s, out.first) && Sorted(w) && Governing(s, w.running)
      && Proceeds(s, out, w, c)
    ensures RunsThrough(s, c) && Core(AtTheEnd(s, c)) && AtTheEnd(s, c).built == {}
    ensures forall n :: n in Stuck(s, c) ==> Goes(w, n)
    ensures forall n :: Met(AtTheEnd(s, c), n, FateOf(Lookup(w.running, n), Lookup(w.cand, n), n in Stuck(s, c)))
  {
    hide Core, FreshFrom, Sorted, Governing, Follows, GoesOn, Runnable, Vacated, Grown, Supplies, AfterOpening,
      AfterRemovals, AfterAdditions, AtTheEnd, Stuck, Stock,
      Met, FateOf, Lookup, Goes, OpenDuties, Batches, RemoveDuties, AddDuties, ChangeDuties, InStock, Def, StagedAt;
    assert Supplies(s, Stock(out, w), w) by { StockSupplies(s, out, w); }
    OpeningPhase(s, out, w, c);
    RemovalPhase(s, out, w, c);
    AdditionPhase(s, out, w, c);
    ChangePhase(s, out, w, c);
  }

  lemma StockSupplies(s: State, out: Outside, w: Work)
    requires Sorted(w) && FreshFrom(s, out.first)
    ensures Supplies(s, Stock(out, w), w)
  {
    hide Sorted, FreshFrom, Supplies, EnvOf;
    BuildSupplies(s, out, Answers(map[], {}), w);
  }

  /** In an uninterrupted run of the changes, a VIP runs its old definition until its turn comes. */
  lemma {:induction false} ChangedAtTurn(s: State, out: Outside, w: Work, c: Course, i: nat)
    requires Core(s) && s.built == {} && FreshFrom(s, out.first) && Sorted(w) && Governing(s, w.running)
      && Proceeds(s, out, w, c)
    requires |c.changes| == |w.changed| && i < |w.changed|
    requires forall k :: 0 <= k < |w.changed| ==>
      !IsAside(c.changes[k]) && Performs(c.changes[k], ChangeDuties(w, Stock(out, w))[k])
    ensures var t := Played(AfterAdditions(s, c), c.changes[..i]); Def(t, w.changed[i].v.name) == Some(w.changed[i].was)
  {
    hide Core, FreshFrom, Sorted, Governing, Follows, GoesOn, Runnable, Play, Vacated, Shrunk, Grown, Supplies,
      AfterOpening, AfterRemovals, AfterAdditions, AtTheEnd, Stuck, Stock,
      Met, FateOf, Lookup, Goes, OpenDuties, Batches, RemoveDuties, AddDuties, InStock, Def, StagedAt, IsAside,
        Performs, Primed, ChangeDuty, Woven;
    StockSupplies(s, out, w);
    OpeningPhase(s, out, w, c);
    RemovalPhase(s, out, w, c);
    AdditionPhase(s, out, w, c);
    var stock, stuck, t2, t3 := Stock(out, w), Stuck(s, c), AfterRemovals(s, c), AfterAdditions(s, c);
    ChangesPrimed(s, stock, w, stuck, t2, t3);
    ChangePhase(s, out, w, c);
    var duties, change := ChangeDuties(w, stock), w.changed[i];
    PlayPrefix(t3, c.changes, i);
    PrefixFollows(t3, c.changes, duties, i);
    WeaveRuns(t3, duties[..i], c.changes[..i]);
    assert change in w.changed;
    ChangedKnown(s, stock, w, stuck, t2, t3, change);
    var t := Play(t3, c.changes[..i]);
    assert Woven(t3, t, duties[..i], FailedIn(t3, c.changes[..i]), change.v.name);
    NotAmong(t3, t, w, stock, i, FailedIn(t3, c.changes[..i]));
  }

  lemma {:induction false} NotAmong(t3: State, t: State, w: Work, stock: Env, i: nat, failed: set<string>)
    requires OfDifferentVips(ChangeDuties(w, stock)) && i < |w.changed|
      && Woven(t3, t, ChangeDuties(w, stock)[..i], failed, w.changed[i].v.name)
    ensures Def(t, w.changed[i].v.name) == Def(t3, w.changed[i].v.name)
  {
    hide Def, StagedAt, Accomplished, ChangedNames;
    var duties := ChangeDuties(w, stock);
    assert duties[i].Name() == w.changed[i].v.name;
    assert forall k :: 0 <= k < i ==> duties[..i][k] == duties[k] && duties[k].Name() != duties[i].Name();
  }

  lemma PlayPrefix(s: State, evs: seq<Event>, i: nat)
    requires Runnable(s, evs) && i < |evs|
    ensures Runnable(s, evs[..i])
  {
    hide Runnable, Play;
    PlayStep(s, evs, i);
  }

  lemma {:induction false} PrefixFollows(s: State, evs: seq<Event>, duties: seq<Duty>, i: nat)
    requires |evs| == |duties| && i < |evs| && Runnable(s, evs[..i]) && OfDifferentVips(duties)
    requires forall k :: 0 <= k < |evs| ==> !IsAside(evs[k]) && Performs(evs[k], duties[k])
    ensures Follows(evs[..i], duties[..i]) && GoesOn(s, evs[..i]) && OfDifferentVips(duties[..i])
  {
    hide Follows, GoesOn, Runnable, IsAside, Performs;
    FollowsEach(evs[..i], duties[..i]);
    RunnableGoesOn(s, evs[..i]);
  }
}
