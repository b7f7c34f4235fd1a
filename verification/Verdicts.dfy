/**
  Every verdict is reported. A shadow whose delivered results reached a threshold is queued,
  drained or noted, and no other is; so a staging never waits for a shadow that has decided and
  been heard.
 */
module Verdicts {
  import opened Config
  import opened Hysteresis
  import opened Policy
  import opened System
  import opened Safety
  import opened CommitSafety
  import opened Runs
  import opened Staging

  // ------------------------------------------------------------------
  // Thresholds in terms of the history
  // ------------------------------------------------------------------

  /** The latest results are `rise` successes or `fall` failures. */
  predicate AtThreshold(hist: seq<bool>, rise: int, fall: int) {
    Trailing(hist, true) >= rise || Trailing(hist, false) >= fall
  }

  /** At some time they were. */
  ghost predicate Reached(hist: seq<bool>, rise: int, fall: int) {
    exists k :: 0 <= k <= |hist| && AtThreshold(hist[..k], rise, fall)
  }

  lemma {:induction false} DecidedIs(hist: seq<bool>, rise: int, fall: int)
    requires rise >= 1 && fall >= 1
    ensures Decided(hist, rise, fall) <==> AtThreshold(hist, rise, fall)
  {
    CountersAreCappedRuns(hist, rise, fall);
  }

  lemma {:induction false} ReachedMore(hist: seq<bool>, rise: int, fall: int)
    ensures Reached(hist, rise, fall) <==>
      AtThreshold(hist, rise, fall) || (hist != [] && Reached(hist[..|hist| - 1], rise, fall))
  {
    hide AtThreshold;
    assert hist[..|hist|] == hist;
    if hist != [] {
      var init := hist[..|hist| - 1];
      assert forall k :: 0 <= k < |hist| ==> init[..k] == hist[..k];
    }
  }

  lemma {:induction false} EverDecidedIsReached(hist: seq<bool>, rise: int, fall: int)
    requires rise >= 1 && fall >= 1
    ensures EverDecided(hist, rise, fall) <==> Reached(hist, rise, fall)
  {
    hide Decided, AtThreshold, Reached;
    DecidedIs(hist, rise, fall);
    ReachedMore(hist, rise, fall);
    if hist != [] { EverDecidedIsReached(hist[..|hist| - 1], rise, fall); }
  }

  // ------------------------------------------------------------------
  // The invariant
  // ------------------------------------------------------------------

  /** The results whose callback has been delivered. */
  function Delivered(sc: Sched): seq<bool> {
    if sc.inflight.Some? && sc.hist != [] then sc.hist[..|sc.hist| - 1] else sc.hist
  }

  predicate HeardVerdict(sc: Sched) { EverDecided(Delivered(sc), sc.check.Rise(), sc.check.Fall()) }

  /** The shadow's verdict waits in a queue or has been noted. */
  predicate Reported(s: State, n: string, c: string)
    requires n in s.staging && c in s.staging[n].shadows
  {
    s.staging[n].shadows[c] in s.queue || s.staging[n].shadows[c] in s.drained || c in s.staging[n].verdicts
  }

  ghost predicate NoneUnreported(s: State) {
    forall n, c ::
      n in s.staging && c in s.staging[n].shadows && s.staging[n].shadows[c] in s.scheds
      && HeardVerdict(s.scheds[s.staging[n].shadows[c]]) ==>
      Reported(s, n, c)
  }

  /** No scheduler changes what it has heard, and nothing leaves the queues. */
  ghost predicate Undisturbed(s: State, t: State) {
    && (forall id :: id in s.scheds ==>
         && id in t.scheds && t.scheds[id].check == s.scheds[id].check
         && Delivered(t.scheds[id]) == Delivered(s.scheds[id]))
    && (forall id :: id in s.queue || id in s.drained ==> id in t.queue || id in t.drained)
  }

  /** Every staging that is left is an old one, with at least its verdicts. */
  ghost predicate Older(s: State, t: State) {
    forall n :: n in t.staging ==>
      n in s.staging && t.staging[n].shadows == s.staging[n].shadows && s.staging[n].verdicts <= t.staging[n].verdicts
  }

  lemma {:induction false} UndisturbedKeeps(s: State, t: State)
    requires NoneUnreported(s) && ShadowsKnown(s) && Undisturbed(s, t) && Older(s, t)
    ensures NoneUnreported(t)
  {
    hide EverDecided;
    forall n, c | n in t.staging && c in t.staging[n].shadows && t.staging[n].shadows[c] in t.scheds
      && HeardVerdict(t.scheds[t.staging[n].shadows[c]])
      ensures Reported(t, n, c)
    {
      assert n in s.staging && c in s.staging[n].shadows;
      assert Reported(s, n, c);
    }
  }

  predicate ShadowsKnown(s: State) {
    forall n, c :: n in s.staging && c in s.staging[n].shadows ==> s.staging[n].shadows[c] in s.scheds
  }

  lemma {:induction false} CoreKnowsShadows(s: State)
    requires Core(s)
    ensures ShadowsKnown(s)
  {
    hide VipsOk, IdsOk, RoutesOwned, QueueOk, StagedOk, Fits;
    forall n, c | n in s.staging && c in s.staging[n].shadows
      ensures s.staging[n].shadows[c] in s.scheds
    {
      StagedHere(s, n);
      StagedFits(s, n);
      ShadowsOwn(s, s.staging[n].cfg, s.staging[n].shadows, s.staging[n].removed);
      assert s.staging[n].shadows[c] in Ids(s.staging[n].shadows);
    }
  }

  // ------------------------------------------------------------------
  // Every event
  // ------------------------------------------------------------------

  lemma {:induction false} RunReports(s: State, id: Id, success: bool)
    requires Core(s) && NoneUnreported(s) && Enabled(s, Run(id, success))
    ensures NoneUnreported(Step(s, Run(id, success)))
  {
    hide Core, EverDecided, Up, EverUp;
    CoreKnowsShadows(s);
    var sc, t := s.scheds[id], Step(s, Run(id, success));
    assert (sc.hist + [success])[..|sc.hist|] == sc.hist;
    assert Delivered(t.scheds[id]) == Delivered(sc);
    UndisturbedKeeps(s, t);
  }

  lemma {:induction false} TransitionReports(s: State, id: Id, seen: bool, b: Bgp)
    requires Core(s) && NoneUnreported(s) && Enabled(s, DeliverTransition(id, seen, b))
    ensures NoneUnreported(Step(s, DeliverTransition(id, seen, b)))
  {
    hide Core, NoneUnreported, StepTransition;
    LiveIsNoShadow(s, id);
    TransitionShape(s, id, seen, b);
    OnlyOneHeard(s, StepTransition(s, id, seen, b), id);
  }

  lemma TransitionShape(s: State, id: Id, seen: bool, b: Bgp)
    requires id in s.scheds && s.scheds[id].inflight.Some? && s.scheds[id].inflight.value.transition.Some?
    ensures var t := StepTransition(s, id, seen, b);
      && t.staging == s.staging && t.queue == s.queue && t.drained == s.drained
      && t.scheds.Keys == s.scheds.Keys && forall x :: x in s.scheds && x != id ==> t.scheds[x] == s.scheds[x]
  {
    hide OnTransition;
  }

  /** A scheduler that owes the policy manager something is no shadow. */
  lemma {:induction false} LiveIsNoShadow(s: State, id: Id)
    requires Core(s) && id in s.scheds && s.scheds[id].inflight.Some?
      && (s.scheds[id].inflight.value.live || s.scheds[id].inflight.value.transition.Some?)
    ensures forall n, c :: n in s.staging && c in s.staging[n].shadows ==> s.staging[n].shadows[c] != id
  {
    hide VipsOk, IdsOk, RoutesOwned, QueueOk, StagedOk, Fits;
    forall n, c | n in s.staging && c in s.staging[n].shadows
      ensures s.staging[n].shadows[c] != id
    {
      StagedHere(s, n);
      StagedFits(s, n);
      ShadowsOwn(s, s.staging[n].cfg, s.staging[n].shadows, s.staging[n].removed);
      assert s.staging[n].shadows[c] in Ids(s.staging[n].shadows);
    }
  }

  /** What happens to a scheduler that is no shadow is of no account. */
  lemma {:induction false} OnlyOneHeard(s: State, t: State, id: Id)
    requires NoneUnreported(s) && t.staging == s.staging && t.queue == s.queue && t.drained == s.drained
    requires t.scheds.Keys == s.scheds.Keys && forall x :: x in s.scheds && x != id ==> t.scheds[x] == s.scheds[x]
    requires forall n, c :: n in s.staging && c in s.staging[n].shadows ==> s.staging[n].shadows[c] != id
    ensures NoneUnreported(t)
  {
    hide HeardVerdict;
    forall n, c | n in t.staging && c in t.staging[n].shadows && t.staging[n].shadows[c] in t.scheds
      && HeardVerdict(t.scheds[t.staging[n].shadows[c]])
      ensures Reported(t, n, c)
    {
      assert Reported(s, n, c);
    }
  }

  lemma {:induction false} ResultReports(s: State, id: Id, seen: bool, b: Bgp, b2: Bgp)
    requires Core(s) && NoneUnreported(s) && Enabled(s, DeliverResult(id, seen, b, b2))
    ensures NoneUnreported(Step(s, DeliverResult(id, seen, b, b2)))
  {
    hide Core, OnResult, HeardVerdict, ToQueue, NoneUnreported, AfterResult;
    var sc, t := s.scheds[id], Step(s, DeliverResult(id, seen, b, b2));
    if sc.inflight.value.live {
      LiveIsNoShadow(s, id);
      OnlyOneHeard(s, t, id);
    } else {
      ShadowReports(s, id, seen, b, b2);
    }
  }

  /** The callback of a shadow: if the result it brings reaches a threshold, the shadow is queued. */
  lemma {:induction false} ShadowReports(s: State, id: Id, seen: bool, b: Bgp, b2: Bgp)
    requires Core(s) && NoneUnreported(s) && Enabled(s, DeliverResult(id, seen, b, b2))
      && !s.scheds[id].inflight.value.live
    ensures NoneUnreported(Step(s, DeliverResult(id, seen, b, b2)))
  {
    hide Core, Decided;
    CoreKnowsShadows(s);
    var sc, t := s.scheds[id], Step(s, DeliverResult(id, seen, b, b2));
    assert t == ToQueue(s.(scheds := s.scheds[id := AfterResult(sc)]), id, sc);
    forall n, c | n in t.staging && c in t.staging[n].shadows && t.staging[n].shadows[c] in t.scheds
      && HeardVerdict(t.scheds[t.staging[n].shadows[c]])
      ensures Reported(t, n, c)
    {
      var x := t.staging[n].shadows[c];
      if HeardVerdict(s.scheds[x]) {
        assert Reported(s, n, c);
      } else {
        assert x == id && sc.HasVerdict();
      }
    }
  }

  /** Attaching schedulers changes nothing they have heard. */
  lemma EnlistDelivers(scheds: map<Id, Sched>, ids: set<Id>, seeded: bool)
    ensures var after := Enlist(scheds, ids, seeded);
      forall id :: id in scheds ==>
        id in after && Delivered(after[id]) == Delivered(scheds[id]) && after[id].check == scheds[id].check
  {
  }

  lemma {:induction false} SwitchReports(s: State, v: Vip, shadows: map<string, Id>, removed: set<string>, seen: bool,
                                         b: Bgp)
    ensures var t := Switch(s, v, shadows, removed, seen, b);
      && t.staging == s.staging && t.queue == s.queue && t.drained == s.drained && Undisturbed(s, t)
  {
    hide Delivered, Enlist, Mark, Picked, Seeds, Committable, Commit, Visible;
    EnlistDelivers(s.scheds, Ids(shadows), true);
  }

  lemma {:induction false} CommitReports(s: State, n: string, seen: bool, b: Bgp)
    requires Core(s) && NoneUnreported(s) && n in s.staging
    ensures NoneUnreported(StepCommit(s, n, seen, b))
  {
    hide Core, NoneUnreported, Switch, Delivered;
    CoreKnowsShadows(s);
    var st := s.staging[n];
    var s1 := s.(staging := s.staging - {n});
    SwitchReports(s1, st.cfg, st.shadows, st.removed, seen, b);
    UndisturbedKeeps(s, StepCommit(s, n, seen, b));
  }

  lemma {:induction false} ReportReports(s: State, seen: bool, b: Bgp)
    requires Core(s) && NoneUnreported(s) && Enabled(s, Report(seen, b))
    ensures NoneUnreported(Step(s, Report(seen, b)))
  {
    hide Core, StepCommit, HeardVerdict, Delivered, Quiet, CommitQuiet;
    var id, s1 := s.drained[0], s.(drained := s.drained[1..]);
    var t := Step(s, Report(seen, b));
    assert forall x :: x in s.drained ==> x == id || x in s1.drained;
    CoreKnowsShadows(s);
    if !Current(s, id) {
      PoppedReports(s, s1, id);
    } else {
      var n := s.scheds[id].vip;
      var st := Noted(s.staging[n], s.scheds[id].Name());
      var s2 := s1.(staging := s.staging[n := st]);
      if |st.verdicts| < |st.shadows| {
        NotedReports(s, s2, id);
      } else {
        Popped(s);
        NotedAnyway(s1, n, st, seen, b);
        LastReports(s, n, seen, b);
      }
    }
  }

  /** A verdict that belongs to no staging is dropped. */
  lemma {:induction false} PoppedReports(s: State, t: State, id: Id)
    requires Core(s) && NoneUnreported(s) && !Current(s, id) && t == s.(drained := t.drained)
    requires forall x :: x in s.drained ==> x == id || x in t.drained
    ensures NoneUnreported(t)
  {
    hide Core, HeardVerdict, Current;
    forall n, c | n in t.staging && c in t.staging[n].shadows && t.staging[n].shadows[c] in t.scheds
      && HeardVerdict(t.scheds[t.staging[n].shadows[c]])
      ensures Reported(t, n, c)
    {
      assert Reported(s, n, c);
      ShadowIsCurrent(s, n, c);
    }
  }

  lemma {:induction false} ShadowIsCurrent(s: State, n: string, c: string)
    requires Core(s) && n in s.staging && c in s.staging[n].shadows
    ensures var id := s.staging[n].shadows[c];
      id in s.scheds && Current(s, id) && s.scheds[id].vip == n && s.scheds[id].Name() == c
  {
    hide VipsOk, IdsOk, RoutesOwned, QueueOk, StagedOk;
    StagedHere(s, n);
    StagedFits(s, n);
    assert ReadyShadow(s, s.staging[n].cfg, c, s.staging[n].shadows[c]);
  }

  /** A verdict that is noted is reported. */
  lemma {:induction false} NotedReports(s: State, t: State, id: Id)
    requires Core(s) && NoneUnreported(s) && Current(s, id)
    requires var n := s.scheds[id].vip;
      t == s.(drained := t.drained, staging := s.staging[n := Noted(s.staging[n], s.scheds[id].Name())])
    requires forall x :: x in s.drained ==> x == id || x in t.drained
    ensures NoneUnreported(t)
  {
    hide Core, HeardVerdict;
    forall n, c | n in t.staging && c in t.staging[n].shadows && t.staging[n].shadows[c] in t.scheds
      && HeardVerdict(t.scheds[t.staging[n].shadows[c]])
      ensures Reported(t, n, c)
    {
      assert n in s.staging && c in s.staging[n].shadows && Reported(s, n, c);
      ShadowIsCurrent(s, n, c);
    }
  }

  /** The last verdict of a staging: the others lose nothing. */
  lemma {:induction false} LastReports(s: State, n: string, seen: bool, b: Bgp)
    requires Core(s) && NoneUnreported(s) && s.drained != [] && Current(s, s.drained[0])
      && s.scheds[s.drained[0]].vip == n
    ensures NoneUnreported(StepCommit(s.(drained := s.drained[1..]), n, seen, b))
  {
    hide Core, Switch, HeardVerdict, Delivered;
    var id, s1, st := s.drained[0], s.(drained := s.drained[1..], staging := s.staging - {n}), s.staging[n];
    var t := StepCommit(s.(drained := s.drained[1..]), n, seen, b);
    SwitchReports(s1, st.cfg, st.shadows, st.removed, seen, b);
    assert t.staging == s.staging - {n} && t.queue == s.queue && t.drained == s.drained[1..];
    assert forall x :: x in s.drained ==> x == id || x in t.drained;
    forall m, c | m in t.staging && c in t.staging[m].shadows && t.staging[m].shadows[c] in t.scheds
      && HeardVerdict(t.scheds[t.staging[m].shadows[c]])
      ensures Reported(t, m, c)
    {
      ShadowIsCurrent(s, m, c);
      SameVerdict(s1.scheds[s.staging[m].shadows[c]], t.scheds[s.staging[m].shadows[c]]);
      assert Reported(s, m, c);
    }
  }

  lemma SameVerdict(a: Sched, b: Sched)
    requires Delivered(a) == Delivered(b) && a.check == b.check
    ensures HeardVerdict(a) <==> HeardVerdict(b)
  {
    hide Delivered, EverDecided;
  }

  lemma {:induction false} StageReports(s: State, v: Vip, ids: map<string, Id>, at: nat)
    requires Core(s) && NoneUnreported(s) && Enabled(s, Stage(v, ids, at))
    ensures NoneUnreported(Step(s, Stage(v, ids, at)))
  {
    hide Core, HeardVerdict, ChangedNames, RemovedNames, DeadlineFor, ValidVip;
    var t := Step(s, Stage(v, ids, at));
    forall n, c | n in t.staging && c in t.staging[n].shadows && t.staging[n].shadows[c] in t.scheds
      && HeardVerdict(t.scheds[t.staging[n].shadows[c]])
      ensures Reported(t, n, c)
    {
      if n == v.name {
        NewUnheard(s, v, ids, c);
      } else {
        assert Reported(s, n, c);
      }
    }
  }

  /** A new scheduler has heard nothing. */
  lemma {:induction false} NewUnheard(s: State, v: Vip, ids: map<string, Id>, c: string)
    requires ValidVip(v) && BuiltFor(s, v, ids) && c in ids
    ensures ids[c] in s.scheds && !HeardVerdict(s.scheds[ids[c]])
  {
    hide ValidVip;
    ValidCheck(v, c);
  }

  /** Every event keeps every verdict reported. */
  lemma {:induction false} StepReports(s: State, ev: Event)
    requires Core(s) && NoneUnreported(s) && Enabled(s, ev)
    ensures NoneUnreported(Step(s, ev))
  {
    hide Core, NoneUnreported, StepResult, StepTransition, StepCommit, StepReport, StepDrop, StepRemove, StepAdd,
      StepStage, StepCommitNow, ValidVip, ChangedNames, RemovedNames, BuiltFor, Quiet, ShadowIds, System.Ids, Picked,
      IsNew, CommitQuiet, Completes, DeadlineFor, AfterRun, Visible, Delivered, Undisturbed, Older;
    CoreKnowsShadows(s);
    match ev
    case Run(id, success) => RunReports(s, id, success);
    case DeliverResult(id, seen, b, b2) => ResultReports(s, id, seen, b, b2);
    case DeliverTransition(id, seen, b) => TransitionReports(s, id, seen, b);
    case DropStaging => DropReports(s);
    case RemoveVip(n, b) => RemoveReports(s, n, b);
    case AddVip(v, ids, seen) => AddReports(s, v, ids, seen);
    case CommitNow(v, seen, b) => NowReports(s, v, seen, b);
    case Stage(v, ids, at) => StageReports(s, v, ids, at);
    case Report(seen, b) => ReportReports(s, seen, b);
    case Expire(n, _, seen, b) => CommitReports(s, n, seen, b);
    case Build(news) => PlainReports(s, Step(s, ev));
    case CloseBuilt(_) => PlainReports(s, Step(s, ev));
    case DrainQueue => PlainReports(s, Step(s, ev));
  }

  lemma PlainReports(s: State, t: State)
    requires NoneUnreported(s) && ShadowsKnown(s) && t.staging == s.staging
    requires forall id :: id in s.scheds ==> id in t.scheds && t.scheds[id] == s.scheds[id]
    requires forall id :: id in s.queue || id in s.drained ==> id in t.queue || id in t.drained
    ensures NoneUnreported(t)
  {
    hide NoneUnreported, Delivered;
    UndisturbedKeeps(s, t);
  }

  lemma DropReports(s: State)
    ensures NoneUnreported(StepDrop(s))
  {
    hide ShadowIds;
  }

  lemma RemoveReports(s: State, n: string, b: Bgp)
    requires NoneUnreported(s) && ShadowsKnown(s) && n in s.vips
    ensures NoneUnreported(StepRemove(s, n, b))
  {
    hide NoneUnreported, Visible, System.Ids;
    PlainReports(s, StepRemove(s, n, b));
  }

  lemma AddReports(s: State, v: Vip, ids: map<string, Id>, seen: bool)
    requires NoneUnreported(s) && ShadowsKnown(s)
    ensures NoneUnreported(StepAdd(s, v, ids, seen))
  {
    hide NoneUnreported, Delivered, NewEntry, System.Ids, Mark, Enlist;
    EnlistDelivers(s.scheds, System.Ids(ids), false);
    UndisturbedKeeps(s, StepAdd(s, v, ids, seen));
  }

  lemma NowReports(s: State, v: Vip, seen: bool, b: Bgp)
    requires NoneUnreported(s) && ShadowsKnown(s) && v.name in s.vips
    ensures NoneUnreported(StepCommitNow(s, v, seen, b))
  {
    hide NoneUnreported, Delivered, Switch, RemovedNames, Undisturbed;
    SwitchReports(s, v, map[], RemovedNames(s.vips[v.name].cfg, v), seen, b);
    UndisturbedKeeps(s, StepCommitNow(s, v, seen, b));
  }

  lemma {:induction false} RunsReport(s: State, evs: seq<Event>, t: State)
    requires Core(s) && NoneUnreported(s) && Reaches(s, evs, t)
    ensures NoneUnreported(t)
    decreases |evs|
  {
    hide Core, NoneUnreported, Step, Enabled, Benign;
    if evs != [] {
      StepReports(s, evs[0]);
      StepKeepsIff(s, evs[0]);
      RunsReport(Step(s, evs[0]), evs[1..], t);
    }
  }

  // ------------------------------------------------------------------
  // The theorems
  // ------------------------------------------------------------------

  /**
    Over every run from startup: a staged shadow with nothing in flight is queued, drained or noted
    if and only if its history at some time ended in `rise` successes or in `fall` failures.
   */
  lemma {:induction false} VerdictsAreReported(evs: seq<Event>, t: State, n: string, c: string)
    requires Reaches(EMPTY, evs, t) && n in t.staging && c in t.staging[n].shadows
    ensures t.staging[n].shadows[c] in t.scheds
    ensures var sc := t.scheds[t.staging[n].shadows[c]];
      && (Reported(t, n, c) ==> Reached(sc.hist, sc.check.Rise(), sc.check.Fall()))
      && (sc.inflight.None? && Reached(sc.hist, sc.check.Rise(), sc.check.Fall()) ==> Reported(t, n, c))
  {
    hide Core, NoneUnreported, Reaches, EverDecided, Reached, ValidVip;
    EmptyIsCore();
    EmptyReports();
    RunKeepsCore(EMPTY, evs, t);
    RunsReport(EMPTY, evs, t);
    ShadowIsCurrent(t, n, c);
    var id := t.staging[n].shadows[c];
    var sc := t.scheds[id];
    ShadowThresholds(t, n, c);
    EverDecidedIsReached(sc.hist, sc.check.Rise(), sc.check.Fall());
    if Reported(t, n, c) {
      CoreStaging(t, n);
      if id in t.queue || id in t.drained { QueuedVerdict(t, id); }
    }
    if sc.inflight.None? && sc.HadVerdict() { assert HeardVerdict(sc); HeardIsReported(t, n, c); }
  }

  lemma HeardIsReported(t: State, n: string, c: string)
    requires NoneUnreported(t) && n in t.staging && c in t.staging[n].shadows && t.staging[n].shadows[c] in t.scheds
    requires HeardVerdict(t.scheds[t.staging[n].shadows[c]])
    ensures Reported(t, n, c)
  {
    hide HeardVerdict, Reported;
  }

  lemma QueuedVerdict(t: State, id: Id)
    requires Core(t) && (id in t.queue || id in t.drained)
    ensures id in t.scheds && t.scheds[id].HadVerdict()
  {
    hide VipsOk, IdsOk, RoutesOwned, EverDecided;
  }

  lemma EmptyReports()
    ensures NoneUnreported(EMPTY)
  {
  }

  lemma {:induction false} ShadowThresholds(s: State, n: string, c: string)
    requires Core(s) && n in s.staging && c in s.staging[n].shadows
    ensures var id := s.staging[n].shadows[c];
      id in s.scheds && s.scheds[id].check.Rise() >= 1 && s.scheds[id].check.Fall() >= 1
  {
    hide VipsOk, IdsOk, RoutesOwned, QueueOk, StagedOk, ValidVip;
    StagedHere(s, n);
    StagedFits(s, n);
    assert ReadyShadow(s, s.staging[n].cfg, c, s.staging[n].shadows[c]);
    ValidCheck(s.staging[n].cfg, c);
  }

  /** A staging waits for a shadow that has a callback to deliver or never reached a threshold. */
  ghost predicate Owes(t: State, n: string)
    requires n in t.staging
  {
    exists c :: c in t.staging[n].shadows && t.staging[n].shadows[c] in t.scheds
      && var sc := t.scheds[t.staging[n].shadows[c]];
         sc.inflight.Some? || !Reached(sc.hist, sc.check.Rise(), sc.check.Fall())
  }

  /** Over every run: once the queues are consumed, no staging is left whose shadows have all decided and been heard. */
  lemma {:induction false} NoneOverdue(evs: seq<Event>, t: State, n: string)
    requires Reaches(EMPTY, evs, t) && t.queue == [] && t.drained == [] && n in t.staging
    ensures Owes(t, n)
  {
    hide Core, Reaches, Reached, EverDecided;
    EmptyIsCore();
    RunKeepsCore(EMPTY, evs, t);
    CoreStaging(t, n);
    var c :| c in t.staging[n].shadows && c !in t.staging[n].verdicts;
    VerdictsAreReported(evs, t, n, c);
  }

  // ------------------------------------------------------------------
  // The queue
  // ------------------------------------------------------------------

  predicate NoneTwice(queue: seq<Id>) { forall i, j :: 0 <= i < j < |queue| ==> queue[i] != queue[j] }

  /** An event leaves the queue, empties it, or appends a scheduler that is not in it. */
  lemma {:induction false} QueueStep(s: State, ev: Event)
    requires Enabled(s, ev)
    ensures var t := Step(s, ev);
      t.queue == s.queue || t.queue == [] || exists id :: id !in s.queue && t.queue == s.queue + [id]
  {
    hide StepTransition, StepReport, StepCommit, Switch, StepRemove, StepAdd, StepStage, OnResult, ValidVip,
      ChangedNames, RemovedNames, BuiltFor, Quiet, ShadowIds, System.Ids, Picked, IsNew, CommitQuiet, DeadlineFor,
      AfterRun, Visible,
      Decided, AfterResult;
    match ev
    case DeliverTransition(id, seen, b) => TransitionQueue(s, id, seen, b);
    case RemoveVip(n, b) => assert StepRemove(s, n, b).queue == s.queue by { RemoveQueue(s, n, b); }
    case AddVip(v, ids, seen) => assert StepAdd(s, v, ids, seen).queue == s.queue by { AddQueue(s, v, ids, seen); }
    case Stage(v, ids, at) => StageQueue(s, v, ids, at);
    case CommitNow(v, seen, b) => SwitchReports(s, v, map[], RemovedNames(s.vips[v.name].cfg, v), seen, b);
    case Expire(n, _, seen, b) => CommitQueue(s, n, seen, b);
    case Report(seen, b) => ReportQueue(s, seen, b);
    case _ =>
  }

  lemma ReportQueue(s: State, seen: bool, b: Bgp)
    requires s.drained != []
    ensures StepReport(s, seen, b).queue == s.queue
  {
    hide StepCommit;
    var id := s.drained[0];
    if Current(s, id) {
      var n := s.scheds[id].vip;
      var st := Noted(s.staging[n], s.scheds[id].Name());
      CommitQueue(s.(drained := s.drained[1..], staging := s.staging[n := st]), n, seen, b);
    }
  }

  lemma TransitionQueue(s: State, id: Id, seen: bool, b: Bgp)
    requires id in s.scheds && s.scheds[id].inflight.Some? && s.scheds[id].inflight.value.transition.Some?
    ensures StepTransition(s, id, seen, b).queue == s.queue
  {
    hide OnTransition;
  }

  lemma RemoveQueue(s: State, n: string, b: Bgp)
    requires n in s.vips
    ensures StepRemove(s, n, b).queue == s.queue
  {
  }

  lemma AddQueue(s: State, v: Vip, ids: map<string, Id>, seen: bool)
    ensures StepAdd(s, v, ids, seen).queue == s.queue
  {
  }

  lemma StageQueue(s: State, v: Vip, ids: map<string, Id>, at: nat)
    requires v.name in s.vips
    ensures StepStage(s, v, ids, at).queue == s.queue
  {
  }

  lemma CommitQueue(s: State, n: string, seen: bool, b: Bgp)
    requires n in s.staging
    ensures StepCommit(s, n, seen, b).queue == s.queue
  {
    hide Switch;
    var st := s.staging[n];
    SwitchReports(s.(staging := s.staging - {n}), st.cfg, st.shadows, st.removed, seen, b);
  }

  /** Over every run no scheduler is queued twice. */
  lemma {:induction false} QueuedOnce(s: State, evs: seq<Event>, t: State)
    requires NoneTwice(s.queue) && Reaches(s, evs, t)
    ensures NoneTwice(t.queue)
    decreases |evs|
  {
    hide Step, Enabled, Benign;
    if evs != [] {
      QueueStep(s, evs[0]);
      QueuedOnce(Step(s, evs[0]), evs[1..], t);
    }
  }
}
