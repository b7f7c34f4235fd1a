/** What a staging promises: it waits for every shadow, changes nothing meanwhile, and hands over without a break. */
module Staging {
  import opened Config
  import opened Hysteresis
  import opened Policy
  import opened System
  import opened Safety
  import opened CommitSafety
  import opened Runs
  import opened Diff

  // ------------------------------------------------------------------
  // The commit gate
  // ------------------------------------------------------------------

  /** No earlier than four times either threshold of any shadow's check at its interval, and equal to that for one. */
  ghost predicate Bounded(st: Staged, scheds: map<Id, Sched>) {
    && (forall c :: c in st.shadows ==> st.shadows[c] in scheds && Outlasts(st, scheds[st.shadows[c]].check))
    && exists c :: c in st.shadows && Meets(st, scheds[st.shadows[c]].check)
  }

  predicate Outlasts(st: Staged, k: Check) {
    st.deadline >= st.at + 4 * k.Rise() * k.Interval() && st.deadline >= st.at + 4 * k.Fall() * k.Interval()
  }

  predicate Meets(st: Staged, k: Check) {
    st.deadline == st.at + 4 * k.Rise() * k.Interval() || st.deadline == st.at + 4 * k.Fall() * k.Interval()
  }

  lemma {:induction false} StagedBounded(e: Entry, st: Staged, scheds: map<Id, Sched>, running: map<Id, bool>)
    requires StagedOk(e, st, scheds, running)
    ensures Bounded(st, scheds)
  {
    hide Window, StagedOk, Outlasts, Meets;
    StagedCovers(e, st, scheds, running);
    forall c | c in st.shadows
      ensures st.shadows[c] in scheds && Outlasts(st, scheds[st.shadows[c]].check)
    {
      Outlasting(st, scheds[st.shadows[c]].check);
    }
    var c :| c in st.shadows && st.deadline == st.at + GRACE * Window(scheds[st.shadows[c]].check);
    Outlasting(st, scheds[st.shadows[c]].check);
  }

  lemma Outlasting(st: Staged, k: Check)
    ensures st.at + GRACE * Window(k) <= st.deadline ==> Outlasts(st, k)
    ensures st.at + GRACE * Window(k) == st.deadline ==> Meets(st, k)
  {
    hide Window;
    FourWindows(k);
  }

  lemma {:induction false} StagedCovers(e: Entry, st: Staged, scheds: map<Id, Sched>, running: map<Id, bool>)
    requires StagedOk(e, st, scheds, running)
    ensures forall c :: c in st.shadows ==>
      st.shadows[c] in scheds && st.at + GRACE * Window(scheds[st.shadows[c]].check) <= st.deadline
    ensures exists c :: c in st.shadows && st.deadline == st.at + GRACE * Window(scheds[st.shadows[c]].check)
  {
    hide Window, EverDecided, RemovedNames, ChangedNames, MaxWindow, Proving, ByName;
    var list := Proving(st.was, st.cfg, st.cfg.CheckList());
    ProvingNames(st.was, st.cfg);
    NamesOf(list);
    MaxWindowIs(list);
    forall c | c in st.shadows
      ensures st.shadows[c] in scheds && scheds[st.shadows[c]].check in list
        && scheds[st.shadows[c]].check.EffectiveName() == c
    {
      assert ShadowOk(st, c, st.shadows[c], scheds, running);
      var x :| x in list && x.EffectiveName() == c;
      assert st.cfg.Checks()[c] == x;
    }
    if MaxWindow(list) != 0 {
      var x :| x in list && Window(x) == MaxWindow(list);
      var c := x.EffectiveName();
      assert c in st.shadows;
      assert ShadowOk(st, c, st.shadows[c], scheds, running);
      assert st.cfg.Checks()[c] == x == scheds[st.shadows[c]].check;
    } else {
      var c :| c in st.shadows;
      assert ShadowOk(st, c, st.shadows[c], scheds, running);
      ValidCheck(st.cfg, c);
      WindowPositive(scheds[st.shadows[c]].check);
    }
  }

  lemma WindowPositive(c: Check)
    requires c.Rise() >= 1 && c.Fall() >= 1
    ensures Window(c) >= 0
  {
  }

  /**
    Over every run, a staged VIP is governed by its old definition and waits for at least one
    shadow, within a bounded time.
   */
  lemma {:induction false} StagingWaits(evs: seq<Event>, t: State, n: string)
    requires Reaches(EMPTY, evs, t) && n in t.staging
    ensures n in t.vips && t.staging[n].was == t.vips[n].cfg
    ensures |t.staging[n].verdicts| < |t.staging[n].shadows|
    ensures forall c :: c in t.staging[n].verdicts ==>
      c in t.staging[n].shadows && t.staging[n].shadows[c] in t.scheds && t.scheds[t.staging[n].shadows[c]].HadVerdict()
    ensures Bounded(t.staging[n], t.scheds)
  {
    hide Core, Reaches, Bounded;
    EmptyIsCore();
    RunKeepsCore(EMPTY, evs, t);
    CoreStaging(t, n);
  }

  lemma {:induction false} CoreStaging(t: State, n: string)
    requires Core(t) && n in t.staging
    ensures n in t.vips && t.staging[n].was == t.vips[n].cfg
    ensures t.staging[n].verdicts < t.staging[n].shadows.Keys && |t.staging[n].verdicts| < |t.staging[n].shadows|
    ensures forall c :: c in t.staging[n].verdicts ==>
      c in t.staging[n].shadows && t.staging[n].shadows[c] in t.scheds && t.scheds[t.staging[n].shadows[c]].HadVerdict()
    ensures Bounded(t.staging[n], t.scheds)
  {
    hide VipsOk, IdsOk, QueueOk, RoutesOwned, EverDecided, ValidVip, ChangedNames, RemovedNames, DeadlineFor, Bounded;
    StagedHere(t, n);
    var st := t.staging[n];
    StagedBounded(t.vips[n], st, t.scheds, t.running);
    forall c | c in st.shadows
      ensures ShadowOk(st, c, st.shadows[c], t.scheds, t.running)
    {
    }
    ProperSubset(st.verdicts, st.shadows.Keys);
  }

  lemma {:induction false} ProperSubset(a: set<string>, b: set<string>)
    requires a < b
    ensures |a| < |b|
  {
    var x :| x in b && x !in a;
    var rest := b - a;
    assert x in rest && b == a + rest;
    assert |b| == |a| + |rest|;
  }

  /** A staging ends by being superseded, at its deadline, or when every one of its shadows has reached a verdict. */
  lemma {:induction false} CommitGate(s: State, ev: Event, n: string)
    requires Core(s) && Enabled(s, ev) && n in s.staging && n !in Step(s, ev).staging
    ensures match ev
      case DropStaging => true
      case Expire(m, now, _, _) => m == n && now >= s.staging[n].deadline
      case Report(_, _) => forall c :: c in s.staging[n].shadows ==>
        s.staging[n].shadows[c] in s.scheds && s.scheds[s.staging[n].shadows[c]].HadVerdict()
      case _ => false
  {
    hide Core, StepResult, StepTransition, StepReport, Switch, EverDecided, ValidVip, ChangedNames, RemovedNames,
      Quiet, BuiltFor, NewEntry;
    match ev
    case DeliverResult(id, seen, b, b2) => ResultGrows(s, id, seen, b, b2, id);
    case DeliverTransition(id, seen, b) => TransitionStaging(s, id, seen, b);
    case CommitNow(v, seen, b) => SwitchStaging(s, v, map[], RemovedNames(s.vips[v.name].cfg, v), seen, b);
    case Expire(m, _, seen, b) =>
      var st := s.staging[m];
      SwitchStaging(s.(staging := s.staging - {m}), st.cfg, st.shadows, st.removed, seen, b);
    case Report(seen, b) => ReportGate(s, seen, b, n);
    case _ =>
  }

  lemma TransitionStaging(s: State, id: Id, seen: bool, b: Bgp)
    requires id in s.scheds && s.scheds[id].inflight.Some? && s.scheds[id].inflight.value.transition.Some?
    ensures StepTransition(s, id, seen, b).staging == s.staging
  {
    hide OnTransition;
  }

  lemma SwitchStaging(s: State, v: Vip, shadows: map<string, Id>, removed: set<string>, seen: bool, b: Bgp)
    ensures Switch(s, v, shadows, removed, seen, b).staging == s.staging
  {
    hide Commit, Committable, Seeds, Mark, Enlist, Picked;
  }

  lemma {:induction false} ReportGate(s: State, seen: bool, b: Bgp, n: string)
    requires Core(s) && s.drained != [] && n in s.staging && n !in StepReport(s, seen, b).staging
    ensures forall c :: c in s.staging[n].shadows ==>
      s.staging[n].shadows[c] in s.scheds && s.scheds[s.staging[n].shadows[c]].HadVerdict()
  {
    hide Core, EverDecided, StepReport;
    ReportStaging(s, seen, b);
    AllReported(s, n, s.drained[0]);
  }

  /** A report ends a staging only by completing it. */
  lemma {:induction false} ReportStaging(s: State, seen: bool, b: Bgp)
    requires s.drained != []
    ensures forall n :: n in s.staging && n !in StepReport(s, seen, b).staging ==>
      Completes(s) && n == s.scheds[s.drained[0]].vip
  {
    hide StepCommit;
    var id := s.drained[0];
    if Current(s, id) {
      var m := s.scheds[id].vip;
      var s2 := s.(drained := s.drained[1..], staging := s.staging[m := Noted(s.staging[m], s.scheds[id].Name())]);
      CommitStaging(s2, m, seen, b);
    }
  }

  lemma CommitStaging(s: State, m: string, seen: bool, b: Bgp)
    requires m in s.staging
    ensures StepCommit(s, m, seen, b).staging == s.staging - {m}
  {
    hide Switch;
    var st := s.staging[m];
    SwitchStaging(s.(staging := s.staging - {m}), st.cfg, st.shadows, st.removed, seen, b);
  }

  /** The last verdict: with it, every shadow of the staging has reported. */
  lemma {:induction false} AllReported(s: State, n: string, id: Id)
    requires Core(s) && id in s.drained && Current(s, id) && n == s.scheds[id].vip
    requires |Noted(s.staging[n], s.scheds[id].Name()).verdicts| >= |s.staging[n].shadows|
    ensures forall c :: c in s.staging[n].shadows ==>
      s.staging[n].shadows[c] in s.scheds && s.scheds[s.staging[n].shadows[c]].HadVerdict()
  {
    hide Core, EverDecided, Bounded;
    CoreStaging(s, n);
    var st := Noted(s.staging[n], s.scheds[id].Name());
    assert st.verdicts <= st.shadows.Keys;
    SubsetFull(st.verdicts, st.shadows.Keys);
    DrainedVerdict(s, id);
  }

  lemma SubsetFull(a: set<string>, b: set<string>)
    requires a <= b && |a| >= |b|
    ensures a == b
  {
    if a != b { ProperSubset(a, b); }
  }

  /** A shadow that never reached a threshold is committed as unhealthy. */
  lemma {:induction false} UndecidedSeed(s: State, n: string, c: string)
    requires Core(s) && n in s.staging && c in s.staging[n].shadows
    ensures var sc := s.scheds[s.staging[n].shadows[c]]; var seeds := Seeds(s.scheds, s.staging[n].shadows);
      && s.staging[n].shadows[c] in s.scheds && c in seeds
      && (!sc.HadVerdict() ==> seeds[c] == Unhealthy)
      && (seeds[c] == Healthy <==> Verdict(sc.hist, sc.check.Rise(), sc.check.Fall()))
  {
    hide VipsOk, IdsOk, QueueOk, RoutesOwned, EverDecided, Up, Verdict, ValidVip;
    StagedHere(s, n);
    var st := s.staging[n];
    assert ShadowOk(st, c, st.shadows[c], s.scheds, s.running);
    var sc := s.scheds[st.shadows[c]];
    ValidCheck(st.cfg, c);
    UndecidedIsDown(sc.hist, sc.check.Rise(), sc.check.Fall());
    UpIsVerdict(sc.hist, sc.check.Rise(), sc.check.Fall());
  }

  // ------------------------------------------------------------------
  // Make before break
  // ------------------------------------------------------------------

  /** A run of a shadow of `n`, or the delivery of its result. */
  predicate ShadowEvent(s: State, ev: Event, n: string) {
    n in s.staging && (ev.Run? || ev.DeliverResult?) && ev.id in Ids(s.staging[n].shadows)
  }

  ghost predicate ShadowRun(s: State, evs: seq<Event>, t: State, n: string)
    decreases |evs|
  {
    if evs == [] then t == s
    else ShadowEvent(s, evs[0], n) && Enabled(s, evs[0]) && ShadowRun(Step(s, evs[0]), evs[1..], t, n)
  }

  /** No sequence of shadow results changes a policy entry or a route, or causes a BGP call. */
  lemma {:induction false} ShadowsAreSilent(s: State, evs: seq<Event>, t: State, n: string)
    requires Core(s) && ShadowRun(s, evs, t, n)
    ensures Core(t) && t.vips == s.vips && t.routes == s.routes && t.log == s.log
    ensures t.staging == s.staging && t.visible == s.visible
    decreases |evs|
  {
    hide Core, Step, Enabled, ShadowEvent;
    if evs != [] {
      ShadowStep(s, evs[0], n);
      ShadowsAreSilent(Step(s, evs[0]), evs[1..], t, n);
    }
  }

  lemma {:induction false} ShadowStep(s: State, ev: Event, n: string)
    requires Core(s) && Enabled(s, ev) && ShadowEvent(s, ev, n)
    ensures var t := Step(s, ev);
      Core(t) && t.vips == s.vips && t.routes == s.routes && t.log == s.log && t.staging == s.staging
        && t.visible == s.visible
  {
    hide VipsOk, IdsOk, QueueOk, RoutesOwned, ValidVip, ChangedNames, RemovedNames, Governs, EverDecided, Up, Decided;
    var id := ev.id;
    var c :| c in s.staging[n].shadows && s.staging[n].shadows[c] == id;
    StagedHere(s, n);
    assert ShadowOk(s.staging[n], c, id, s.scheds, s.running);
    StepKeepsIff(s, ev);
  }

  /**
    The staged change keeps the check names and a negation-free policy, and the VIP is healthy with
    every healthy check up in its shadow.
   */
  ghost predicate Smooth(t: State, n: string) {
    && n in t.staging && n in t.vips && t.vips[n].health == Healthy
    && var st := t.staging[n];
       && Names(st.cfg.CheckList()) == Names(st.was.CheckList())
       && st.cfg.checksPolicy == st.was.checksPolicy && Monotone(st.cfg.checksPolicy)
       && forall c ::
         c in st.shadows && st.shadows[c] in t.scheds && c in t.vips[n].checks && t.vips[n].checks[c] == Healthy ==>
         t.scheds[st.shadows[c]].IsUp()
  }

  /** The VIP runs the staged definition, is still up, and nothing but originations was called for since. */
  predicate TookOver(t: State, n: string, u: State) {
    && n in t.staging && n in u.vips && u.vips[n].cfg == t.staging[n].cfg && u.vips[n].health == Healthy
       && u.vips[n].state != Withdrawn
    && t.log <= u.log && (forall i :: |t.log| <= i < |u.log| ==> u.log[i].Originate?)
  }

  /**
    Make-before-break. After any run of the daemon, whatever happened to the VIP, its checks and
    the other VIPs meanwhile: if the change is smooth at the moment a verdict or the deadline
    commits it, the commit issues no withdraw and the VIP stays up.
   */
  lemma {:induction false} MakeBeforeBreak(s: State, evs: seq<Event>, t: State, ev: Event, n: string)
    requires Core(s) && Reaches(s, evs, t) && Enabled(t, ev) && Smooth(t, n)
    requires (ev.Report? || ev.Expire?) && n !in Step(t, ev).staging
    ensures TookOver(t, n, Step(t, ev))
  {
    hide Core, Reaches, Enabled, Step, Smooth, TookOver, StepCommit;
    RunKeepsCore(s, evs, t);
    var rest := Step(t, ev).drained;
    SmoothAnyway(t, n, rest);
    CommitsIt(t, ev, n);
    SmoothCommit(t.(drained := rest), n, ev.seen, ev.b);
    TookOverAnyway(t, n, rest, Step(t, ev));
  }

  /** The drained verdicts have no part in it. */
  lemma SmoothAnyway(t: State, n: string, rest: seq<Id>)
    requires Smooth(t, n)
    ensures n in t.staging && Smooth(t.(drained := rest), n)
  {
    hide Names, Monotone, Up;
  }

  lemma TookOverAnyway(t: State, n: string, rest: seq<Id>, u: State)
    requires TookOver(t.(drained := rest), n, u)
    ensures TookOver(t, n, u)
  {
  }

  /** The event that ends a staging, other than a reload, is its commit. */
  lemma {:induction false} CommitsIt(t: State, ev: Event, n: string)
    requires Core(t) && Enabled(t, ev) && n in t.staging && n !in Step(t, ev).staging && (ev.Report? || ev.Expire?)
    ensures var now := t.(drained := Step(t, ev).drained); Core(now) && Step(t, ev) == StepCommit(now, n, ev.seen, ev.b)
  {
    hide Core, StepCommit, Quiet, CommitQuiet;
    if ev.Expire? {
      CommitStaging(t, ev.name, ev.seen, ev.b);
      NotedAnyway(t, ev.name, t.staging[ev.name], ev.seen, ev.b);
      assert t.(drained := t.drained) == t;
    } else {
      var id := t.drained[0];
      var s1 := t.(drained := t.drained[1..]);
      ReportStaging(t, ev.seen, ev.b);
      Popped(t);
      var st := Noted(t.staging[n], t.scheds[id].Name());
      assert Step(t, ev) == StepCommit(s1.(staging := t.staging[n := st]), n, ev.seen, ev.b);
      NotedAnyway(s1, n, st, ev.seen, ev.b);
    }
  }

  /** Noting the last verdict before the commit forgets the staging makes no difference. */
  lemma NotedAnyway(s: State, n: string, st: Staged, seen: bool, b: Bgp)
    requires n in s.staging && st == s.staging[n].(verdicts := st.verdicts)
    ensures StepCommit(s.(staging := s.staging[n := st]), n, seen, b) == StepCommit(s, n, seen, b)
    ensures StepCommit(s, n, seen, b).drained == s.drained
  {
    hide Commit, Committable, Seeds, Mark, Enlist, Picked, Visible;
    assert s.staging[n := st] - {n} == s.staging - {n};
  }

  lemma {:induction false} SmoothCommit(t: State, n: string, seen: bool, b: Bgp)
    requires Core(t) && Smooth(t, n)
    ensures TookOver(t, n, StepCommit(t, n, seen, b))
  {
    hide Core, VipsOk, Names, Monotone, Commit, Committable, Switch, Fits, Seeds, StagedOk, Up, ValidVip, EntryOk,
      RouteOk;
    assert VipsOk(t) by { CoreVips(t); }
    StagedHere(t, n);
    StagedFits(t, n);
    EntryHere(t, n);
    var st := t.staging[n];
    var e := t.vips[n];
    NeverRefused(t, st.cfg, st.shadows, st.removed);
    SwitchedIs(t, st.cfg, st.shadows, st.removed, seen, b);
    var seeds := Seeds(t.scheds, st.shadows);
    SeedsAre(t.scheds, st.shadows);
    WasHere(e, st, t.scheds, t.running);
    CommitKeepsRoute(e, RouteAt(t, e.cfg.prefix), st.cfg, seeds, seen, b);
    CommitCfg(e, RouteAt(t, e.cfg.prefix), st.cfg, seeds, seen, b);
  }

  lemma CoreVips(s: State)
    requires Core(s)
    ensures VipsOk(s)
  {
    hide VipsOk, IdsOk, QueueOk, RoutesOwned;
  }

  lemma WasHere(e: Entry, st: Staged, scheds: map<Id, Sched>, running: map<Id, bool>)
    requires StagedOk(e, st, scheds, running)
    ensures st.was == e.cfg
  {
    hide ValidVip, ChangedNames, RemovedNames, ShadowOk;
  }

  lemma SeedsAre(scheds: map<Id, Sched>, shadows: map<string, Id>)
    ensures var seeds := Seeds(scheds, shadows);
      && (forall c :: c in seeds ==> seeds[c] != Unknown && c in shadows && shadows[c] in scheds)
      && (forall c :: c in seeds && scheds[shadows[c]].IsUp() ==> seeds[c] == Healthy)
  {
    hide Up;
  }
}
