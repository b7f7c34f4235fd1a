/**
  Theorems over every run of the daemon: any sequence of events, in any interleaving, with
  any check results, drain readings and BGP failures.
 */
module Runs {
  import opened Config
  import opened Hysteresis
  import opened Policy
  import opened System
  import opened Safety
  import opened ReloadSafety
  import opened CommitSafety

  /**
    Three events of the reloader break the invariant under a condition visible beforehand:
    removing a withdrawn VIP whose route is still installed, adding a VIP on a prefix that is
    taken, and committing at once over unknown checks only.
   */
  predicate Benign(s: State, ev: Event)
    requires Enabled(s, ev)
  {
    match ev
    case RemoveVip(n, _) => LeavesNoOrphan(s, n)
    case AddVip(v, _, _) => PrefixFree(s, v)
    case CommitNow(v, _, _) => KeepsKnown(s, v, map[])
    case _ => true
  }

  /** Every event keeps the invariant exactly when it is benign. */
  lemma {:induction false} StepKeepsIff(s: State, ev: Event)
    requires Core(s) && Enabled(s, ev)
    ensures Core(Step(s, ev)) <==> Benign(s, ev)
  {
    hide Core, Step, LeavesNoOrphan, PrefixFree, KeepsKnown;
    match ev
    case Run(id, success) => KeepsRun(s, id, success);
    case DeliverResult(id, seen, b, b2) => KeepsResult(s, id, seen, b, b2);
    case DeliverTransition(id, seen, b) => KeepsTransition(s, id, seen, b);
    case Build(news) => KeepsBuild(s, news);
    case CloseBuilt(unused) => KeepsClose(s, unused);
    case DropStaging => KeepsDrop(s);
    case RemoveVip(n, b) => KeepsRemoveIff(s, n, b);
    case AddVip(v, ids, seen) => KeepsAddIff(s, v, ids, seen);
    case CommitNow(v, seen, b) => KeepsCommitNowIff(s, v, seen, b);
    case Stage(v, ids, at) => KeepsStage(s, v, ids, at);
    case DrainQueue => KeepsDrain(s);
    case Report(seen, b) => KeepsReport(s, seen, b);
    case Expire(n, now, seen, b) => KeepsExpire(s, n, now, seen, b);
  }

  /** Before startup; the startup itself is a `Build` and an `AddVip` per configured VIP. */
  const EMPTY := State(map[], {}, multiset{}, map[], map[], map[], map[], [], map[], [], [])

  ghost predicate Reaches(s: State, evs: seq<Event>, t: State)
    decreases |evs|
  {
    if evs == [] then t == s
    else Enabled(s, evs[0]) && Benign(s, evs[0]) && Reaches(Step(s, evs[0]), evs[1..], t)
  }

  lemma {:induction false} RunKeepsCore(s: State, evs: seq<Event>, t: State)
    requires Core(s) && Reaches(s, evs, t)
    ensures Core(t)
    decreases |evs|
  {
    hide Core, Step, Enabled, Benign;
    if evs != [] {
      StepKeepsIff(s, evs[0]);
      RunKeepsCore(Step(s, evs[0]), evs[1..], t);
    }
  }

  lemma {:induction false} ReachesConcat(s: State, a: seq<Event>, t: State, b: seq<Event>, u: State)
    requires Reaches(s, a, t) && Reaches(t, b, u)
    ensures Reaches(s, a + b, u)
    decreases |a|
  {
    hide Step, Enabled, Benign;
    if a == [] {
      assert a + b == b;
    } else {
      assert (a + b)[0] == a[0] && (a + b)[1..] == a[1..] + b;
      ReachesConcat(Step(s, a[0]), a[1..], t, b, u);
    }
  }

  /** A run goes on with one more event. */
  lemma {:induction false} ReachesMore(s: State, evs: seq<Event>, t: State, ev: Event)
    requires Reaches(s, evs, t) && Enabled(t, ev) && Benign(t, ev)
    ensures Reaches(s, evs + [ev], Step(t, ev))
  {
    hide Step, Enabled, Benign;
    assert [ev][1..] == [] && Reaches(Step(t, ev), [], Step(t, ev));
    ReachesConcat(s, evs, t, [ev], Step(t, ev));
  }

  lemma EmptyIsCore()
    ensures Core(EMPTY)
  {
  }

  // ------------------------------------------------------------------
  // Routes follow the check histories
  // ------------------------------------------------------------------

  /**
    What a scheduler's whole history says: the rise/fall verdict, unknown before the first rise
    unless a commit seeded the check.
   */
  ghost function HistoryHealth(sc: Sched): Health {
    if Verdict(sc.hist, sc.check.Rise(), sc.check.Fall()) then Healthy
    else if sc.seeded || RoseOnce(sc.hist, sc.check.Rise()) then Unhealthy
    else Unknown
  }

  predicate Governed(s: State, n: string) {
    n in s.vips && n in s.visible && forall c :: c in s.visible[n] ==> s.visible[n][c] in s.scheds
  }

  ghost function Histories(s: State, n: string): map<string, Health>
    requires Governed(s, n)
  {
    map c | c in s.visible[n] :: HistoryHealth(s.scheds[s.visible[n][c]])
  }

  /** The route the histories of the governing checks, the checks policy and the recorded drain flag call for. */
  ghost function ExpectedRoute(s: State, n: string): Option<Attrs>
    requires Governed(s, n)
  {
    var e := s.vips[n];
    var health := Histories(s, n);
    if NoneKnown(health) then None else
    var healthy := Holds(Evaluator(e.cfg.checksPolicy, Names(e.cfg.CheckList())), HealthySet(health));
    Wanted(e.cfg.routing, Evaluate(healthy, e.drained, e.cfg.routing))
  }

  /** No BGP operation pending and no callback undelivered. */
  predicate Settled(s: State, n: string)
    requires Governed(s, n)
  {
    !s.vips[n].pending && forall c :: c in s.visible[n] ==> s.scheds[s.visible[n][c]].inflight.None?
  }

  /** Over every run, the route of a settled VIP is exactly what the check histories call for. */
  lemma {:induction false} RoutesFollowHistories(evs: seq<Event>, t: State, n: string)
    requires Reaches(EMPTY, evs, t) && n in t.vips
    ensures Governed(t, n)
    ensures Settled(t, n) ==> RouteAt(t, t.vips[n].cfg.prefix) == ExpectedRoute(t, n)
    ensures forall c :: c in t.visible[n] <==> c in t.vips[n].cfg.Checks()
    ensures forall c :: c in t.visible[n] ==> Governs(t.scheds[t.visible[n][c]], t.vips[n].cfg, c)
  {
    hide Core, Reaches;
    EmptyIsCore();
    RunKeepsCore(EMPTY, evs, t);
    CoreRoutes(t, n);
  }

  lemma {:induction false} CoreRoutes(t: State, n: string)
    requires Core(t) && n in t.vips
    ensures Governed(t, n)
    ensures Settled(t, n) ==> RouteAt(t, t.vips[n].cfg.prefix) == ExpectedRoute(t, n)
    ensures forall c :: c in t.visible[n] <==> c in t.vips[n].cfg.Checks()
    ensures forall c :: c in t.visible[n] ==> Governs(t.scheds[t.visible[n][c]], t.vips[n].cfg, c)
  {
    hide VipOk, VisibleOk, EntryOk, RouteOk, IdsOk, QueueOk, RoutesOwned, Governs, ExpectedRoute, HistoryHealth;
    assert VipOk(t, n);
    VipParts(t, n);
    var e := t.vips[n];
    KeysOk(e);
    forall c | c in t.visible[n]
      ensures t.visible[n][c] in t.scheds && Governs(t.scheds[t.visible[n][c]], e.cfg, c)
      ensures t.scheds[t.visible[n][c]].inflight.None? ==> HistoryHealth(t.scheds[t.visible[n][c]]) == e.checks[c]
    {
      VisibleHere(e, t.visible[n], t.scheds, t.running, c);
      KnownIsHistory(t.scheds[t.visible[n][c]], e.cfg, c);
    }
    if Settled(t, n) {
      assert Histories(t, n) == e.checks;
      ExpectedIs(t, n);
    }
  }

  lemma VipParts(t: State, n: string)
    requires n in t.vips && VipOk(t, n)
    ensures EntryOk(t.vips[n]) && RouteOk(t.vips[n], RouteAt(t, t.vips[n].cfg.prefix)) && ValidVip(t.vips[n].cfg)
    ensures n in t.visible && VisibleOk(t.vips[n], t.visible[n], t.scheds, t.running)
    ensures t.visible[n].Keys == t.vips[n].checks.Keys
  {
    hide StagedOk, ValidVip, Combine, Due, RouteOk, VisibleAt;
  }

  lemma {:induction false} ExpectedIs(t: State, n: string)
    requires Governed(t, n) && EntryOk(t.vips[n]) && RouteOk(t.vips[n], RouteAt(t, t.vips[n].cfg.prefix))
    requires Histories(t, n) == t.vips[n].checks && !t.vips[n].pending
    ensures RouteAt(t, t.vips[n].cfg.prefix) == ExpectedRoute(t, n)
  {
    hide ValidVip, Holds, HealthySet, Histories, NoneKnown, RouteAttrs, Names, Compiles;
  }

  lemma {:induction false} KnownIsHistory(sc: Sched, v: Vip, c: string)
    requires ValidVip(v) && Governs(sc, v, c)
    ensures HistoryHealth(sc) == sc.Known()
  {
    hide Up, EverUp, Verdict, RoseOnce;
    ValidCheck(v, c);
    UpIsVerdict(sc.hist, sc.check.Rise(), sc.check.Fall());
    EverUpIsRoseOnce(sc.hist, sc.check.Rise(), sc.check.Fall());
  }

  // ------------------------------------------------------------------
  // Schedulers are conserved
  // ------------------------------------------------------------------

  /**
    Over every run, a scheduler that was handed out is listed, or a shadow of a staging, or was
    closed once; never two of these.
   */
  lemma {:induction false} SchedulersConserved(evs: seq<Event>, t: State, id: Id)
    requires Reaches(EMPTY, evs, t) && id in t.scheds && id !in t.built
    ensures t.closed[id] <= 1
    ensures id in t.running <==> t.closed[id] == 0
    ensures id in t.running <==> Listed(t, id) || Current(t, id)
    ensures !(Listed(t, id) && Current(t, id))
  {
    hide Core, Reaches;
    EmptyIsCore();
    RunKeepsCore(EMPTY, evs, t);
    CoreConserved(t, id);
  }

  lemma {:induction false} CoreConserved(t: State, id: Id)
    requires Core(t) && id in t.scheds && id !in t.built
    ensures t.closed[id] <= 1
    ensures id in t.running <==> t.closed[id] == 0
    ensures id in t.running <==> Listed(t, id) || Current(t, id)
    ensures !(Listed(t, id) && Current(t, id))
  {
    hide RoutesOwned, QueueOk, EntryOk, RouteOk, Told, Governs, EverDecided, ValidVip, DeadlineFor;
    assert IdOk(t, id);
    var n, c := t.scheds[id].vip, t.scheds[id].Name();
    if Listed(t, id) {
      assert VipOk(t, n);
      assert VisibleAt(t.vips[n], t.visible[n], t.scheds, t.running, c);
    }
    if Current(t, id) {
      assert VipOk(t, n);
      assert ShadowOk(t.staging[n], c, id, t.scheds, t.running);
    }
  }

  /** Neither an event of a closed scheduler nor a drained verdict of it can touch the daemon again. */
  lemma {:induction false} ClosedIsSilent(s: State, id: Id)
    requires Core(s) && id in s.scheds && s.closed[id] == 1
    ensures forall success :: !Enabled(s, Run(id, success))
    ensures forall seen, b, b2 :: !Enabled(s, DeliverResult(id, seen, b, b2))
    ensures forall seen, b :: !Enabled(s, DeliverTransition(id, seen, b))
    ensures !Current(s, id)
    ensures s.drained != [] && s.drained[0] == id ==>
      forall seen, b :: Enabled(s, Report(seen, b)) ==> Step(s, Report(seen, b)) == s.(drained := s.drained[1..])
  {
    hide VipsOk, QueueOk, RoutesOwned, StepCommit;
    assert IdOk(s, id);
    assert id !in s.built;
    CoreConserved(s, id);
  }

  /** Closing is final. */
  lemma {:induction false} ClosedStaysClosed(s: State, ev: Event, id: Id)
    requires Enabled(s, ev) && id in s.scheds
    ensures id in Step(s, ev).scheds && Step(s, ev).closed[id] >= s.closed[id]
  {
    hide StepResult, StepTransition, StepCommit, StepReport, StepDrop, StepRemove, StepAdd, StepStage, StepCommitNow,
      ValidVip, ChangedNames, RemovedNames, BuiltFor, Quiet, ShadowIds, Ids, Picked, IsNew, CommitQuiet, Completes,
        DeadlineFor, AfterRun, Visible;
    match ev
    case DeliverResult(x, seen, b, b2) => ResultGrows(s, x, seen, b, b2, id);
    case DeliverTransition(x, seen, b) => TransitionGrows(s, x, seen, b, id);
    case DropStaging => DropGrows(s, id);
    case RemoveVip(n, b) => RemoveGrows(s, n, b, id);
    case AddVip(v, ids, seen) => AddGrows(s, v, ids, seen, id);
    case Stage(v, ids, at) => StageGrows(s, v, ids, at);
    case CommitNow(v, seen, b) => NowGrows(s, v, seen, b, id);
    case Expire(n, _, seen, b) => CommitGrows(s, n, seen, b, id);
    case Report(seen, b) => ReportGrows(s, seen, b, id);
    case _ =>
  }

  lemma DropGrows(s: State, id: Id)
    ensures StepDrop(s).scheds == s.scheds && StepDrop(s).closed[id] >= s.closed[id]
  {
    hide ShadowIds;
  }

  lemma RemoveGrows(s: State, n: string, b: Bgp, id: Id)
    requires n in s.vips
    ensures StepRemove(s, n, b).scheds == s.scheds && StepRemove(s, n, b).closed[id] >= s.closed[id]
  {
    hide Ids, Visible;
  }

  lemma AddGrows(s: State, v: Vip, ids: map<string, Id>, seen: bool, id: Id)
    requires id in s.scheds
    ensures id in StepAdd(s, v, ids, seen).scheds && StepAdd(s, v, ids, seen).closed == s.closed
  {
    hide NewEntry, Ids, Mark;
  }

  lemma StageGrows(s: State, v: Vip, ids: map<string, Id>, at: nat)
    requires v.name in s.vips
    ensures StepStage(s, v, ids, at).scheds == s.scheds && StepStage(s, v, ids, at).closed == s.closed
  {
    hide RemovedNames, Ids, Mark;
  }

  lemma NowGrows(s: State, v: Vip, seen: bool, b: Bgp, id: Id)
    requires v.name in s.vips && id in s.scheds
    ensures var t := StepCommitNow(s, v, seen, b); id in t.scheds && t.closed[id] >= s.closed[id]
  {
    hide Switch, RemovedNames;
    SwitchGrows(s, v, map[], RemovedNames(s.vips[v.name].cfg, v), seen, b, id);
  }

  lemma ResultGrows(s: State, x: Id, seen: bool, b: Bgp, b2: Bgp, id: Id)
    requires x in s.scheds && s.scheds[x].inflight.Some? && id in s.scheds
    ensures var t := StepResult(s, x, seen, b, b2); id in t.scheds && t.closed == s.closed && t.staging == s.staging
  {
    hide ToPolicy, ToQueue, AfterResult;
    var sc := s.scheds[x];
    var s1 := s.(scheds := s.scheds[x := AfterResult(sc)]);
    PolicyGrows(s1, sc, seen, b, b2);
    QueueGrows(s1, x, sc);
  }

  lemma PolicyGrows(s: State, sc: Sched, seen: bool, b: Bgp, b2: Bgp)
    ensures var t := ToPolicy(s, sc, seen, b, b2);
      t.scheds == s.scheds && t.closed == s.closed && t.staging == s.staging
  {
    hide OnResult, PutRoute, RouteAt;
  }

  lemma QueueGrows(s: State, id: Id, sc: Sched)
    ensures ToQueue(s, id, sc) == s.(queue := ToQueue(s, id, sc).queue)
  {
    hide Decided;
  }

  lemma TransitionGrows(s: State, x: Id, seen: bool, b: Bgp, id: Id)
    requires x in s.scheds && s.scheds[x].inflight.Some? && s.scheds[x].inflight.value.transition.Some?
      && id in s.scheds
    ensures var t := StepTransition(s, x, seen, b); id in t.scheds && t.closed == s.closed
  {
    hide OnTransition;
  }

  lemma {:induction false} SwitchGrows(s: State, v: Vip, shadows: map<string, Id>, removed: set<string>, seen: bool,
                                       b: Bgp, id: Id)
    requires id in s.scheds
    ensures var t := Switch(s, v, shadows, removed, seen, b); id in t.scheds && t.closed[id] >= s.closed[id]
  {
    hide Commit, Committable, Seeds, Mark, Picked;
  }

  lemma {:induction false} CommitGrows(s: State, n: string, seen: bool, b: Bgp, id: Id)
    requires n in s.staging && id in s.scheds
    ensures var t := StepCommit(s, n, seen, b); id in t.scheds && t.closed[id] >= s.closed[id]
  {
    hide Switch;
    var st := s.staging[n];
    SwitchGrows(s.(staging := s.staging - {n}), st.cfg, st.shadows, st.removed, seen, b, id);
  }

  lemma {:induction false} ReportGrows(s: State, seen: bool, b: Bgp, id: Id)
    requires s.drained != [] && id in s.scheds
    ensures var t := StepReport(s, seen, b); id in t.scheds && t.closed[id] >= s.closed[id]
  {
    hide StepCommit;
    var x := s.drained[0];
    if Current(s, x) {
      var sc := s.scheds[x];
      var s2 := s.(drained := s.drained[1..], staging := s.staging[sc.vip := Noted(s.staging[sc.vip], sc.Name())]);
      CommitGrows(s2, sc.vip, seen, b, id);
    }
  }
}
