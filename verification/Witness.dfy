/**
  The assumptions of the theorems over runs can be met: a daemon starts, announces its VIP, is
  given a file that stages a change, or one whose withdrawal fails.
 */
module Witness {
  import opened Config
  import opened Policy
  import opened System
  import opened Safety
  import opened CommitSafety
  import opened Runs
  import opened Diff
  import opened Batch
  import opened Build
  import opened Reload
  import opened Course
  import opened Planned
  import opened Daemon
  import opened Convergence
  import opened Hazards

  /** A file with the VIP, its check defined one way or another. */
  function FileWith(rest: int): File { File(if rest == 0 then "a" else "b", [Simple("v", rest)], 0, 0) }

  const EMPTIED := File("c", [], 0, 0)
  const ABLE := Oracle({}, {})

  function From(first: Id): Outside { Outside(0, first, ABLE) }

  const CALM := Answers(map[], {})
  const FAILING := Answers(map["v" := Kept], {})

  lemma FileIs(rest: int)
    ensures ValidVips(FileWith(rest).vips)
  {
    hide ValidVip;
    SimpleIs("v", rest);
  }

  // ------------------------------------------------------------------
  // Building one scheduler
  // ------------------------------------------------------------------

  lemma {:induction false} OneJob(rest: int, first: Id)
    ensures var jobs := [Job(Simple("v", rest), [Web(rest)])];
      News(jobs, first) == map[first := Built("v", rest)] && Good(jobs, ABLE) == 1
        && Batch1(jobs, first) == [map[first := Built("v", rest)]]
  {
    var job := Job(Simple("v", rest), [Web(rest)]);
    assert [job][..0] == [] && [Web(rest)][..0] == [];
    assert Made(Job(Simple("v", rest), []), first) == map[];
    assert Made(job, first) == map[first := Built("v", rest)];
    assert Works(job, ABLE);
    assert Good([], ABLE) == 0 && Good([job], ABLE) == 1;
    assert News([], first) == map[];
  }

  function Batch1(jobs: seq<Job>, first: Id): seq<map<Id, Sched>> {
    seq(|jobs|, i requires 0 <= i < |jobs| => Made(jobs[i], NextId(jobs[..i], first)))
  }

  lemma {:induction false} FirstWork(v: Vip)
    ensures WorkOf([], [v]) == Work([], [v], [v], [], []) && WorkJobs(WorkOf([], [v])) == [Job(v, v.CheckList())]
  {
    hide AddedOf, RemovedOf, ChangedOf, StageJobs;
    AddsOne(v);
    RemovesNone(v);
    ChangesNone([], [v]);
    NoStageJobs();
    assert AddJobs([v]) == [Job(v, v.CheckList())];
  }

  lemma AddsOne(v: Vip)
    ensures AddedOf([], [v]) == [v]
  {
    assert [v][..0] == [] && AddedOf([], []) == [] && Lookup([], v.name) == None;
  }

  lemma RemovesNone(v: Vip)
    ensures RemovedOf([], [v]) == []
  {
    assert [v][..0] == [] && ReplacedOf([], []) == [] && Lookup([], v.name) == None;
    assert ReplacedOf([], [v]) == [] && GoneOf([], [v]) == [];
  }

  lemma ChangesNone(running: seq<Vip>, cand: seq<Vip>)
    requires running == [] && |cand| <= 1
    ensures ChangedOf(running, cand) == []
  {
    if cand != [] { assert cand[..0] == [] && Lookup([], cand[0].name) == None && ChangedOf(running, []) == []; }
  }

  lemma NoStageJobs()
    ensures StageJobs([]) == []
  {
  }

  lemma {:induction false} LastWork(v: Vip)
    ensures WorkOf([v], []) == Work([v], [], [], [v], []) && WorkJobs(WorkOf([v], [])) == []
  {
    hide StageJobs;
    assert [v][..0] == [] && GoneOf([], []) == [] && Lookup([], v.name) == None;
    assert GoneOf([v], []) == [v] && ReplacedOf([v], []) == [];
    NoStageJobs();
    assert AddJobs([]) == [];
  }

  // ------------------------------------------------------------------
  // Startup
  // ------------------------------------------------------------------

  /** The daemon starts with one VIP. */
  lemma {:induction false} Startup() returns (d: Daemon, c: Course)
    ensures Starts(d, FileWith(0), From(0), c) && d.s == With(Live([]), Held(Withdrawn, Unknown, false), None, [])
  {
    hide Core, ValidVip, ByName, Runnable, Play, WorkOf, Sorted, Straight, Proceeds, AtTheEnd, Unhindered, With,
      Governing;
    var f := FileWith(0);
    var w := WorkOf([], f.vips);
    FileIs(0);
    EmptyIsCore();
    WorkIsSorted([], f.vips);
    NothingRuns(f);
    StraightProceeds(EMPTY, From(0), CALM, w);
    c := Straight(EMPTY, From(0), CALM, w);
    d := Daemon(AtTheEnd(EMPTY, c), f, Some(f), 1, false);
    StartState(c);
  }

  lemma {:induction false} NothingRuns(f: File)
    requires f == FileWith(0)
    ensures Delta(Nothing(f), f) == WorkOf([], f.vips) && Governing(EMPTY, WorkOf([], f.vips).running)
    ensures Unhindered(EMPTY, EnvOf(From(0), CALM, WorkOf([], f.vips)), WorkOf([], f.vips))
  {
    hide WorkOf, ByName;
    FirstWork(Simple("v", 0));
    assert Effective(Nothing(f).cur.vips, EMPTY.staging) == [];
  }

  lemma {:induction false} StartState(c: Course)
    requires c == Straight(EMPTY, From(0), CALM, WorkOf([], FileWith(0).vips))
    requires Proceeds(EMPTY, From(0), WorkOf([], FileWith(0).vips), c)
    ensures AtTheEnd(EMPTY, c) == With(Live([]), Held(Withdrawn, Unknown, false), None, [])
  {
    hide Proceeds, WorkOf, With, Step, Enabled, Stuck, EnvOf, Runnable, Play;
    var w, env := WorkOf([], FileWith(0).vips), EnvOf(From(0), CALM, WorkOf([], FileWith(0).vips));
    FirstWork(Simple("v", 0));
    FirstEnv();
    var build, add := Build(map[0 := Built("v", 0)]), AddVip(Simple("v", 0), map["web" := 0], false);
    assert c.opening == [build] + [DropStaging] && c.removals == [] && c.changes == [];
    NobodyStuck(Course(c.opening, c.removals, [], []));
    assert env.seen == {} by { SeenNone(w); }
    assert c.additions == [add];
    FirstBuild();
    FirstAdd();
    var s1 := EMPTY.(scheds := map[0 := Built("v", 0)], built := {0});
    DropsNothing(s1);
    PlayOne(EMPTY, build);
    PlayOne(s1, DropStaging);
    PlayConcat(EMPTY, [build], [DropStaging]);
    PlayOne(s1, add);
    NothingPlays(s1);
    NothingPlays(Step(s1, add));
  }

  lemma FirstEnv()
    ensures var w := WorkOf([], FileWith(0).vips); var env := EnvOf(From(0), CALM, w);
      && env.news == map[0 := Built("v", 0)] && env.Ids("v") == map["web" := 0]
         && Builds(WorkJobs(w), 0) == [Build(map[0 := Built("v", 0)])]
  {
    hide WorkOf;
    FirstWork(Simple("v", 0));
    OneJob(0, 0);
    var job := Job(Simple("v", 0), [Web(0)]);
    assert [job][..0] == [] && [Web(0)][..0] == [];
    assert FiledUnder([job], 0) == map["v" := map["web" := 0]];
  }

  lemma NobodyStuck(c: Course)
    requires c.removals == []
    ensures Stuck(EMPTY, c) == {}
  {
  }

  lemma SeenNone(w: Work)
    ensures EnvOf(From(0), CALM, w).seen == {}
  {
    hide News, FiledUnder;
  }

  lemma NothingPlays(s: State)
    ensures Played(s, []) == s
  {
  }

  lemma DropsNothing(s: State)
    requires s.staging == map[] && s.queue == []
    ensures Ready(s, DropStaging) && Step(s, DropStaging) == s
  {
    assert ShadowIds(s.staging) == {};
    assert s.running - {} == s.running && s.closed + multiset(ShadowIds(s.staging)) == s.closed;
  }

  // ------------------------------------------------------------------
  // Announced, and a withdrawal that fails
  // ------------------------------------------------------------------

  /** Its check rises and the VIP is announced. */
  lemma {:induction false} StartAndAnnounce() returns (d: Daemon, c: Course, moves: seq<Move>, e: Daemon)
    ensures Starts(d, FileWith(0), From(0), c) && Leads(d, moves, e)
    ensures e == d.(s := With(Live([true]), Held(Announced, Healthy, false), Some(FULL), [Originate("p", FULL)]))
      && e.cur == FileWith(0) && e.hash == Some(FileWith(0))
  {
    hide Starts, OnResult, OnTransition, Hysteresis.Up, With, Enabled, Step, Leads;
    d, c := Startup();
    assert d.cur == FileWith(0) && d.hash == Some(FileWith(0)) by { StartConfig(d, c); }
    Ups();
    var e0 := Held(Withdrawn, Unknown, false);
    RunIs(Live([]), e0, None, [], true);
    var sc := AfterRun(Live([]), true);
    assert [] + [true] == [true] && [] + [Originate("p", FULL)] == [Originate("p", FULL)];
    ResultHeard(Withdrawn, Unknown, None);
    ResultIs(sc, e0, None, [], Done, Done);
    TransitionHeard(Withdrawn, Unknown, None, true, Done);
    TransitionIs(AfterResult(sc), e0, None, [], Done);
    var a, b, g := Run(0, true), DeliverResult(0, false, Done, Done), DeliverTransition(0, false, Done);
    moves := [Internal(a), Internal(b), Internal(g)];
    var d1 := d.(s := With(sc, e0, None, []));
    var d2 := d.(s := With(AfterResult(sc), e0, None, []));
    e := d.(s := With(Live([true]), Held(Announced, Healthy, false), Some(FULL), [Originate("p", FULL)]));
    ThreeMoves(d, a, d1, b, d2, g, e);
  }

  lemma StartConfig(d: Daemon, c: Course)
    requires Starts(d, FileWith(0), From(0), c)
    ensures d.cur == FileWith(0) && d.hash == Some(FileWith(0))
  {
    hide Proceeds, AtTheEnd, ValidVips;
  }

  lemma {:induction false} ThreeMoves(d: Daemon, a: Event, d1: Daemon, b: Event, d2: Daemon, g: Event, e: Daemon)
    requires IsInternal(a) && IsInternal(b) && IsInternal(g)
    requires Enabled(d.s, a) && d1 == d.(s := Step(d.s, a)) && Enabled(d1.s, b) && d2 == d.(s := Step(d1.s, b))
      && Enabled(d2.s, g) && e == d.(s := Step(d2.s, g))
    ensures Leads(d, [Internal(a), Internal(b), Internal(g)], e)
  {
    hide Enabled, Step;
    var moves := [Internal(a), Internal(b), Internal(g)];
    assert moves[1..] == [Internal(b), Internal(g)] && moves[1..][1..] == [Internal(g)] && moves[1..][1..][1..] == [];
    assert Leads(e, [], e);
    assert Leads(d2, [Internal(g)], e);
    assert Leads(d1, [Internal(b), Internal(g)], e);
  }

  /**
    A run after which a reload to an empty file is applied and cannot withdraw the VIP: what a retry
    starts from exists.
   */
  lemma {:induction false} WithdrawalFails() returns (d: Daemon, c: Course, moves: seq<Move>, e: Daemon, c2: Course)
    ensures Starts(d, FileWith(0), From(0), c) && Leads(d, moves, e)
    ensures Allowed(e, ReloadFile(EMPTIED, From(1), c2)) && Judge(e, EMPTIED, From(1)) == Applies && !Clean(e, c2)
  {
    hide Starts, Leads, With, Straight, Proceeds, Core, Agrees, Sorted, Governing, Unhindered, Effective, Stuck, Delta,
      Failed, RemovalFails;
    d, c, moves, e := StartAndAnnounce();
    StartAgrees(d, FileWith(0), From(0), c);
    AlwaysAgrees(d, moves, e);
    var w := Delta(e, EMPTIED);
    EffectiveGoverns(e);
    WorkIs(e, EMPTIED);
    WorkIsSorted(w.running, EMPTIED.vips);
    AgreesCore(e);
    EmptyingWork(e);
    c2 := Straight(e.s, From(1), FAILING, w);
    StraightProceeds(e.s, From(1), FAILING, w);
  }

  lemma {:induction false} EmptyingWork(e: Daemon)
    requires e.s == With(Live([true]), Held(Announced, Healthy, false), Some(FULL), [Originate("p", FULL)])
      && e.cur == FileWith(0) && e.hash == Some(FileWith(0))
    ensures var w := Delta(e, EMPTIED);
      && w == Work([Simple("v", 0)], [], [], [Simple("v", 0)], []) && WorkJobs(w) == [] && e.s.built == {}
         && FreshFrom(e.s, 1)
      && Unhindered(e.s, EnvOf(From(1), FAILING, w), w) && Failed(e.s, w.removed, EnvOf(From(1), FAILING, w)) != {}
      && Judge(e, EMPTIED, From(1)) == Applies
  {
    hide WorkOf, Unhindered, Failed, EnvOf;
    var v := Simple("v", 0);
    assert Effective(e.cur.vips, e.s.staging) == [v];
    LastWork(v);
    var w := Delta(e, EMPTIED);
    CannotWithdraw(e.s, w);
  }

  lemma {:induction false} CannotWithdraw(s: State, w: Work)
    requires s == With(Live([true]), Held(Announced, Healthy, false), Some(FULL), [Originate("p", FULL)])
      && w == Work([Simple("v", 0)], [], [], [Simple("v", 0)], [])
    ensures Unhindered(s, EnvOf(From(1), FAILING, w), w) && Failed(s, w.removed, EnvOf(From(1), FAILING, w)) != {}
  {
    hide News, FiledUnder, Jobs, Quiet;
    var env := EnvOf(From(1), FAILING, w);
    assert ShadowIds(s.staging) == {};
    QuietNone(s);
    StaysQuiet(s);
    assert Simple("v", 0) in w.removed && RemovalFails(s, "v", env.Bgp("v"));
    assert "v" in Failed(s, w.removed, env);
  }

  // ------------------------------------------------------------------
  // A staged change
  // ------------------------------------------------------------------

  lemma {:induction false} ChangeWork()
    ensures WorkOf([Simple("v", 0)], [Simple("v", 1)]) ==
      Work([Simple("v", 0)], [Simple("v", 1)], [], [], [Change(Simple("v", 0), Simple("v", 1))])
    ensures ChangedNames(Simple("v", 0), Simple("v", 1)) == {"web"}
  {
    hide ValidVip, ByName;
    var a, b := Simple("v", 0), Simple("v", 1);
    SimpleIs("v", 0);
    SimpleIs("v", 1);
    assert [a][..0] == [] && [b][..0] == [];
    assert Lookup([a], "v") == Some(a) && Lookup([b], "v") == Some(b);
    assert AddedOf([a], [b]) == [] && GoneOf([a], [b]) == [] && ReplacedOf([a], [b]) == [];
    assert ChangedOf([a], [b]) == [Change(a, b)];
  }

  lemma {:induction false} ChangeJobs()
    ensures var jobs := WorkJobs(WorkOf([Simple("v", 0)], [Simple("v", 1)]));
      jobs == [Job(Simple("v", 1), [Web(1)])] && Good(jobs, ABLE) == 1
  {
    hide ValidVip, ByName, WorkOf;
    var a, b := Simple("v", 0), Simple("v", 1);
    ChangeWork();
    SimpleIs("v", 0);
    assert [Web(1)][..0] == [] && [Change(a, b)][..0] == [];
    assert Proving(a, b, []) == [] && Proving(a, b, [Web(1)]) == [Web(1)];
    assert StageJobs([]) == [] && StageJobs([Change(a, b)]) == [StageJob(Change(a, b))];
    assert AddJobs([]) == [];
    OneJob(1, 0);
  }

  /**
    From every resting state of that daemon, a file that redefines the check stages the VIP, which
    keeps its old definition meanwhile.
   */
  lemma {:induction false} ChangeIsStaged(d: Daemon, first: Id) returns (c: Course)
    requires Agrees(d) && d.cur == FileWith(0) && d.hash == Some(FileWith(0)) && d.s.staging == map[]
      && FreshFrom(d.s, first)
    ensures Allowed(d, ReloadFile(FileWith(1), From(first), c)) && Judge(d, FileWith(1), From(first)) == Applies
    ensures var e := AfterMove(d, ReloadFile(FileWith(1), From(first), c));
      "v" in e.s.staging && Def(e.s, "v") == Some(Simple("v", 0)) && e.s.staging["v"].cfg == Simple("v", 1)
  {
    hide Agrees, Core, ValidVip, ByName, WorkOf, Sorted, ChangedNames, KeepFailed, Straight, Proceeds, FreshFrom,
      Governing, Stuck, AtTheEnd, Failed, Unhindered, EnvOf,
      Met, FateOf, Def, ValidVips, Good, Jobs, RunsThrough, Goes;
    var f := FileWith(1);
    assert Effective(d.cur.vips, d.s.staging) == [Simple("v", 0)];
    var w := Delta(d, f);
    FileIs(1);
    ChangeWork();
    ChangeJobs();
    EffectiveGoverns(d);
    WorkIs(d, f);
    WorkIsSorted(w.running, f.vips);
    AgreesCore(d);
    RestsBuilt(d);
    NothingHinders(d.s, first, w);
    StraightProceeds(d.s, From(first), CALM, w);
    c := Straight(d.s, From(first), CALM, w);
    ApplyHeads(d, f, From(first), c);
    StagedFate(d, w, Apply(d, f, c).s, "v" in Stuck(d.s, c));
  }

  lemma RestsBuilt(d: Daemon)
    requires Agrees(d)
    ensures d.s.built == {}
  {
    hide Core, Lookup, Heading;
  }

  lemma NothingHinders(s: State, first: Id, w: Work)
    requires s.staging == map[] && w ==
      Work([Simple("v", 0)], [Simple("v", 1)], [], [], [Change(Simple("v", 0), Simple("v", 1))])
    requires ChangedNames(Simple("v", 0), Simple("v", 1)) == {"web"}
    ensures Unhindered(s, EnvOf(From(first), CALM, w), w)
  {
    hide ChangedNames, News, FiledUnder, Quiet, KeepsKnown;
    assert ShadowIds(s.staging) == {};
    assert Quiet(s, {}) by { QuietNone(s); }
  }

  lemma QuietNone(s: State)
    ensures Quiet(s, {})
  {
  }

  lemma StagedFate(d: Daemon, w: Work, t: State, fails: bool)
    requires Governing(d.s, w.running) && w.running == [Simple("v", 0)]
    requires Met(t, "v", FateOf(Def(d.s, "v"), Lookup([Simple("v", 1)], "v"), fails))
    requires ChangedNames(Simple("v", 0), Simple("v", 1)) == {"web"}
    ensures "v" in t.staging && Def(t, "v") == Some(Simple("v", 0)) && t.staging["v"].cfg == Simple("v", 1)
  {
    hide ChangedNames, ByName;
    assert Lookup(w.running, "v") == Def(d.s, "v");
    assert Lookup([Simple("v", 0)], "v") == Some(Simple("v", 0))
      && Lookup([Simple("v", 1)], "v") == Some(Simple("v", 1));
  }
}
