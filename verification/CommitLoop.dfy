/** What the commit loop and the deadline check do to the stagings as a whole. */
module CommitLoop {
  import opened Config
  import opened Hysteresis
  import opened Policy
  import opened System
  import opened Safety
  import opened CommitSafety
  import opened Runs
  import opened Staging
  import opened Batch
  import opened Daemon

  /** The schedulers a commit will stop have been waited for, for every staged VIP. */
  predicate AllQuiet(s: State) {
    forall n :: n in s.staging ==> CommitQuiet(s, n)
  }

  /** The same schedulers, as far as a staging sees them. */
  predicate SameShape(s: State, t: State) {
    && t.scheds.Keys == s.scheds.Keys
    && forall id :: id in s.scheds ==>
      t.scheds[id].vip == s.scheds[id].vip && t.scheds[id].check == s.scheds[id].check
        && t.scheds[id].inflight == s.scheds[id].inflight
  }

  /** A commit ends its own staging and disturbs no other. */
  lemma {:induction false} CommitIs(s: State, m: string, seen: bool, b: Bgp)
    requires Core(s) && m in s.staging
    ensures var t := StepCommit(s, m, seen, b);
      && t.staging == s.staging - {m} && t.queue == s.queue && t.drained == s.drained && SameShape(s, t)
      && forall n :: n != m ==> Visible(t, n) == Visible(s, n)
  {
    hide Core, VipsOk, Commit, Committable, Switch, Fits, Seeds, StagedOk, EntryOk, RouteOk, ValidVip, Mark, Picked,
      PutRoute;
    assert VipsOk(s) by { CoreVips(s); }
    StagedHere(s, m);
    StagedFits(s, m);
    EntryHere(s, m);
    StagedIs(s, m);
    var st := s.staging[m];
    NeverRefused(s, st.cfg, st.shadows, st.removed);
    SwitchedIs(s, st.cfg, st.shadows, st.removed, seen, b);
  }

  lemma {:induction false} CommitKeepsQuiet(s: State, t: State, m: string)
    requires AllQuiet(s) && m in s.staging && t.staging == s.staging - {m} && SameShape(s, t)
    requires forall n :: n != m ==> Visible(t, n) == Visible(s, n)
    ensures AllQuiet(t)
  {
    hide Picked;
    forall n | n in t.staging
      ensures CommitQuiet(t, n)
    {
      assert CommitQuiet(s, n);
    }
  }

  /** The stagings after one drained verdict. */
  function StagingAfter(s: State): map<string, Staged>
    requires s.drained != []
  {
    var id := s.drained[0];
    if !Current(s, id) then s.staging else
    var m := s.scheds[id].vip;
    if Completes(s) then s.staging - {m} else s.staging[m := Noted(s.staging[m], s.scheds[id].Name())]
  }

  lemma {:induction false} ReportIs(s: State, seen: bool, b: Bgp)
    requires Core(s) && s.drained != [] && AllQuiet(s)
    ensures var t := StepReport(s, seen, b);
      t.staging == StagingAfter(s) && t.queue == s.queue && t.drained == s.drained[1..] && SameShape(s, t)
        && AllQuiet(t)
  {
    hide Core, StepCommit, AllQuiet, SameShape, Visible, CommitQuiet;
    var id := s.drained[0];
    var s1 := s.(drained := s.drained[1..]);
    if !Current(s, id) {
      ShapeSelf(s, s1);
    } else {
      var m := s.scheds[id].vip;
      var s2 := s1.(staging := s.staging[m := Noted(s.staging[m], s.scheds[id].Name())]);
      if Completes(s) {
        NotedSame(s, m, s2, seen, b);
        CommitIs(s, m, seen, b);
        var t := StepCommit(s, m, seen, b);
        CommitKeepsQuiet(s, t, m);
        ShapePops(s, t, StepReport(s, seen, b));
      } else {
        ShapeNoted(s, s2, m);
      }
    }
  }

  lemma ShapeSelf(s: State, t: State)
    requires AllQuiet(s) && t == s.(drained := t.drained)
    ensures SameShape(s, t) && AllQuiet(t)
  {
    hide Picked;
    forall n | n in t.staging ensures CommitQuiet(t, n) { assert CommitQuiet(s, n); }
  }

  lemma ShapePops(s: State, t: State, u: State)
    requires SameShape(s, t) && AllQuiet(t) && u == t.(drained := u.drained)
    ensures SameShape(s, u) && AllQuiet(u)
  {
    hide Picked;
    forall n | n in u.staging ensures CommitQuiet(u, n) { assert CommitQuiet(t, n); }
  }

  lemma ShapeNoted(s: State, t: State, m: string)
    requires AllQuiet(s) && m in s.staging && m in t.staging
    requires t == s.(drained := t.drained, staging := s.staging[m := t.staging[m]])
    requires t.staging[m] == s.staging[m].(verdicts := t.staging[m].verdicts)
    ensures SameShape(s, t) && AllQuiet(t)
  {
    hide Picked;
    forall n | n in t.staging ensures CommitQuiet(t, n) { assert CommitQuiet(s, n); }
  }

  // ------------------------------------------------------------------
  // All verdicts together
  // ------------------------------------------------------------------

  /** The shadows of a staging that had reported before or are among the given ones. */
  function ReportedBy(st: Staged, ids: seq<Id>): set<string> {
    st.verdicts + set c | c in st.shadows && st.shadows[c] in ids
  }

  /** Some shadow of the staging has not reported. */
  predicate StillWaits(st: Staged, ids: seq<Id>) { ReportedBy(st, ids) != st.shadows.Keys }

  /** The stagings once the given verdicts are consumed: those that still wait, with the verdicts noted. */
  function Consumed(staging: map<string, Staged>, ids: seq<Id>): map<string, Staged> {
    map n | n in staging && StillWaits(staging[n], ids) :: staging[n].(verdicts := ReportedBy(staging[n], ids))
  }

  /** Shadows are found under the VIP and check they were built for. */
  predicate WellFiled(s: State, staging: map<string, Staged>) {
    forall n, c :: n in staging && c in staging[n].shadows ==>
      var id := staging[n].shadows[c]; id in s.scheds && s.scheds[id].vip == n && s.scheds[id].Name() == c
  }

  lemma {:induction false} CoreFiled(s: State)
    requires Core(s)
    ensures WellFiled(s, s.staging) && forall n :: n in s.staging ==> s.staging[n].verdicts < s.staging[n].shadows.Keys
  {
    hide VipsOk, IdsOk, QueueOk, RoutesOwned, ValidVip, ChangedNames, RemovedNames, EverDecided, DeadlineFor;
    forall n | n in s.staging
      ensures s.staging[n].verdicts < s.staging[n].shadows.Keys
      ensures forall c :: c in s.staging[n].shadows ==>
        var id := s.staging[n].shadows[c]; id in s.scheds && s.scheds[id].vip == n && s.scheds[id].Name() == c
    {
      StagedHere(s, n);
      StagedIs(s, n);
      var st := s.staging[n];
      forall c | c in st.shadows
        ensures var id := st.shadows[c]; id in s.scheds && s.scheds[id].vip == n && s.scheds[id].Name() == c
      {
        assert ShadowOk(st, c, st.shadows[c], s.scheds, s.running);
      }
    }
  }

  /** One more verdict, seen from one staging of the beginning. */
  lemma {:induction false} ReportedOneMore(s: State, st: Staged, n: string, ids: seq<Id>, id: Id)
    requires id in s.scheds
    requires forall c :: c in st.shadows ==>
      st.shadows[c] in s.scheds && s.scheds[st.shadows[c]].vip == n && s.scheds[st.shadows[c]].Name() == c
    ensures var c := s.scheds[id].Name();
      ReportedBy(st, ids + [id]) ==
        ReportedBy(st, ids) + if s.scheds[id].vip == n && c in st.shadows && st.shadows[c] == id then {c} else {}
  {
  }

  lemma FullIsFull(st: Staged, verdicts: set<string>)
    requires verdicts <= st.shadows.Keys
    ensures |verdicts| >= |st.shadows| <==> verdicts == st.shadows.Keys
  {
    assert |st.shadows| == |st.shadows.Keys|;
    if |verdicts| >= |st.shadows.Keys| { SubsetFull(verdicts, st.shadows.Keys); }
  }

  /** Consuming one verdict of the queue keeps the overall picture. */
  lemma {:induction false} ConsumedOneMore(s: State, staging: map<string, Staged>, ids: seq<Id>)
    requires s.drained != [] && s.drained[0] in s.scheds && WellFiled(s, staging)
    requires forall n :: n in staging ==> staging[n].verdicts <= staging[n].shadows.Keys
    requires s.staging == Consumed(staging, ids)
    ensures StagingAfter(s) == Consumed(staging, ids + [s.drained[0]])
  {
    hide WellFiled, ReportedBy;
    var id := s.drained[0];
    var more := ids + [id];
    forall n
      ensures n in StagingAfter(s) <==> n in Consumed(staging, more)
      ensures n in StagingAfter(s) ==> StagingAfter(s)[n] == Consumed(staging, more)[n]
    {
      if n in staging {
        FiledAt(s, staging, n);
        ReportedOneMore(s, staging[n], n, ids, id);
        ReportedWithin(staging[n], ids);
        ReportedWithin(staging[n], more);
        FullIsFull(staging[n], ReportedBy(staging[n], more));
        ConsumedAt(s, staging, ids, n);
      }
    }
  }

  lemma FiledAt(s: State, staging: map<string, Staged>, n: string)
    requires WellFiled(s, staging) && n in staging
    ensures forall c :: c in staging[n].shadows ==>
      staging[n].shadows[c] in s.scheds && s.scheds[staging[n].shadows[c]].vip == n
        && s.scheds[staging[n].shadows[c]].Name() == c
  {
  }

  lemma ReportedWithin(st: Staged, ids: seq<Id>)
    requires st.verdicts <= st.shadows.Keys
    ensures ReportedBy(st, ids) <= st.shadows.Keys
  {
  }

  lemma {:induction false} ConsumedAt(s: State, staging: map<string, Staged>, ids: seq<Id>, n: string)
    requires s.drained != [] && s.drained[0] in s.scheds && n in staging && s.staging == Consumed(staging, ids)
    requires var id := s.drained[0]; var c := s.scheds[id].Name(); var st := staging[n];
      && ReportedBy(st, ids + [id]) ==
         ReportedBy(st, ids) + (if s.scheds[id].vip == n && c in st.shadows && st.shadows[c] == id then {c} else {})
      && (|ReportedBy(st, ids + [id])| >= |st.shadows| <==> ReportedBy(st, ids + [id]) == st.shadows.Keys)
      && ReportedBy(st, ids + [id]) <= st.shadows.Keys
    ensures n in StagingAfter(s) <==> n in Consumed(staging, ids + [s.drained[0]])
    ensures n in StagingAfter(s) ==> StagingAfter(s)[n] == Consumed(staging, ids + [s.drained[0]])[n]
  {
    hide ReportedBy;
    var id := s.drained[0];
    if Current(s, id) && s.scheds[id].vip == n {
      assert s.staging[n] == staging[n].(verdicts := ReportedBy(staging[n], ids));
    }
  }

  lemma {:induction false} NothingConsumed(s: State)
    requires Core(s)
    ensures Consumed(s.staging, []) == s.staging
  {
    hide Core;
    CoreFiled(s);
    assert forall n :: n in s.staging ==> ReportedBy(s.staging[n], []) == s.staging[n].verdicts;
  }

  lemma FiledStays(s: State, t: State, staging: map<string, Staged>)
    requires WellFiled(s, staging) && SameShape(s, t)
    ensures WellFiled(t, staging)
  {
  }

  lemma {:induction false} ReportEnabled(s: State, seen: bool, b: Bgp)
    requires Core(s) && AllQuiet(s) && s.drained != []
    ensures Enabled(s, Report(seen, b)) && s.drained[0] in s.scheds
  {
    hide VipsOk, IdsOk, RoutesOwned, CommitQuiet, EverDecided;
    assert s.drained[0] in s.drained;
  }

  // ------------------------------------------------------------------
  // Deadlines
  // ------------------------------------------------------------------

  /** The stagings whose deadline is still ahead, or that were not looked at yet. */
  function Unexpired(staging: map<string, Staged>, now: nat, todo: set<string>): map<string, Staged> {
    map n | n in staging && (now < staging[n].deadline || n in todo) :: staging[n]
  }

  lemma UnexpiredOneLess(staging: map<string, Staged>, now: nat, todo: set<string>, n: string)
    requires n in todo && n in staging
    ensures Unexpired(staging, now, todo - {n}) ==
      if now < staging[n].deadline then Unexpired(staging, now, todo) else Unexpired(staging, now, todo) - {n}
  {
  }

  lemma {:induction false} ExpireIs(s: State, n: string, now: nat, seen: bool, b: Bgp)
    requires Core(s) && AllQuiet(s) && n in s.staging && now >= s.staging[n].deadline
    ensures Enabled(s, Expire(n, now, seen, b))
    ensures var t := Step(s, Expire(n, now, seen, b));
      t.staging == s.staging - {n} && AllQuiet(t) && t.drained == s.drained && t.queue == s.queue
  {
    hide Core, StepCommit, CommitQuiet, SameShape, Visible;
    CommitIs(s, n, seen, b);
    CommitKeepsQuiet(s, StepCommit(s, n, seen, b), n);
  }

  // ------------------------------------------------------------------
  // Under any interleaving with check runs and callbacks
  // ------------------------------------------------------------------

  /** What can happen while the commit loop or the deadline check holds the reloader's lock. */
  predicate IsCheckEvent(ev: Event) { ev.Run? || ev.DeliverResult? || ev.DeliverTransition? }

  function Reports(evs: seq<Event>): nat {
    if evs == [] then 0 else (if evs[0].Report? then 1 else 0) + Reports(evs[1..])
  }

  /** Check events leave stagings, drained verdicts and what shadows were built for alone. */
  lemma {:induction false} CheckEventIs(s: State, ev: Event, staging: map<string, Staged>)
    requires Core(s) && IsCheckEvent(ev) && Enabled(s, ev) && WellFiled(s, staging)
    ensures var t := Step(s, ev); t.staging == s.staging && t.drained == s.drained && WellFiled(t, staging)
  {
    hide Core, StepResult, StepTransition, AfterRun, WellFiled;
    match ev
    case Run(id, x) =>
      RunShape(s.scheds[id], x);
      FiledSched(s, Step(s, ev), staging, id);
    case DeliverResult(id, seen, b, b2) =>
      ResultShape(s, id, seen, b, b2);
      FiledSched(s, Step(s, ev), staging, id);
    case DeliverTransition(id, seen, b) =>
      TransitionShape(s, id, seen, b);
      FiledSched(s, Step(s, ev), staging, id);
    case _ =>
  }

  lemma RunShape(sc: Sched, x: bool)
    ensures AfterRun(sc, x).vip == sc.vip && AfterRun(sc, x).check == sc.check
  {
    hide Up;
  }

  lemma FiledSched(s: State, t: State, staging: map<string, Staged>, id: Id)
    requires WellFiled(s, staging) && id in s.scheds && id in t.scheds && t.scheds == s.scheds[id := t.scheds[id]]
    requires t.scheds[id].vip == s.scheds[id].vip && t.scheds[id].check == s.scheds[id].check
    ensures WellFiled(t, staging)
  {
  }

  lemma {:induction false} ResultShape(s: State, id: Id, seen: bool, b: Bgp, b2: Bgp)
    requires id in s.scheds && s.scheds[id].inflight.Some?
    ensures var t := StepResult(s, id, seen, b, b2);
      && t.staging == s.staging && t.drained == s.drained && id in t.scheds && t.scheds == s.scheds[id := t.scheds[id]]
      && t.scheds[id].vip == s.scheds[id].vip && t.scheds[id].check == s.scheds[id].check
  {
    hide ToPolicy, ToQueue;
    var sc := s.scheds[id];
    var s1 := s.(scheds := s.scheds[id := AfterResult(sc)]);
    PolicyGrows(s1, sc, seen, b, b2);
    QueueGrows(s1, id, sc);
    PolicyDrained(s1, sc, seen, b, b2);
  }

  lemma {:induction false} TransitionShape(s: State, id: Id, seen: bool, b: Bgp)
    requires id in s.scheds && s.scheds[id].inflight.Some? && s.scheds[id].inflight.value.transition.Some?
    ensures var t := StepTransition(s, id, seen, b);
      && t.staging == s.staging && t.drained == s.drained && id in t.scheds && t.scheds == s.scheds[id := t.scheds[id]]
      && t.scheds[id].vip == s.scheds[id].vip && t.scheds[id].check == s.scheds[id].check
  {
    hide OnTransition, PutRoute;
  }

  lemma PolicyDrained(s: State, sc: Sched, seen: bool, b: Bgp, b2: Bgp)
    ensures ToPolicy(s, sc, seen, b, b2).drained == s.drained
  {
    hide OnResult, PutRoute, RouteAt;
  }

  /** A drained verdict, whatever else is under way. */
  lemma {:induction false} ReportStep(s: State, seen: bool, b: Bgp, staging: map<string, Staged>)
    requires Core(s) && s.drained != [] && WellFiled(s, staging)
    ensures var t := StepReport(s, seen, b);
      t.staging == StagingAfter(s) && t.drained == s.drained[1..] && WellFiled(t, staging)
  {
    hide Core, StepCommit, WellFiled, Visible, CommitQuiet, SameShape;
    var id := s.drained[0];
    var s1 := s.(drained := s.drained[1..]);
    if !Current(s, id) {
      SameScheds1(s, s1);
      FiledStays(s, s1, staging);
    } else {
      var m := s.scheds[id].vip;
      var s2 := s1.(staging := s.staging[m := Noted(s.staging[m], s.scheds[id].Name())]);
      if Completes(s) {
        NotedSame(s, m, s2, seen, b);
        CommitIs(s, m, seen, b);
        var t := StepCommit(s, m, seen, b);
        FiledStays(s, t, staging);
        SameScheds1(t, StepReport(s, seen, b));
        FiledStays(t, StepReport(s, seen, b), staging);
      } else {
        SameScheds1(s, s2);
        FiledStays(s, s2, staging);
      }
    }
  }

  lemma SameScheds1(s: State, t: State)
    requires t.scheds == s.scheds
    ensures SameShape(s, t)
  {
  }

  lemma {:induction false} Consumes(s: State, evs: seq<Event>, staging: map<string, Staged>, ids: seq<Id>)
    requires Core(s) && Runnable(s, evs) && (forall i :: 0 <= i < |evs| ==> IsCheckEvent(evs[i]) || evs[i].Report?)
    requires WellFiled(s, staging) && (forall n :: n in staging ==> staging[n].verdicts <= staging[n].shadows.Keys)
      && s.staging == Consumed(staging, ids)
    ensures Reports(evs) <= |s.drained| && Play(s, evs).drained == s.drained[Reports(evs)..]
    ensures Play(s, evs).staging == Consumed(staging, ids + s.drained[..Reports(evs)])
    decreases |evs|
  {
    hide Core, Enabled, Benign, Step, WellFiled, Consumed, IsCheckEvent, StagingAfter;
    if evs == [] {
      assert s.drained[0..] == s.drained && ids + s.drained[..0] == ids;
    } else {
      var ev, rest := evs[0], evs[1..];
      StepKeepsIff(s, ev);
      var s1 := Step(s, ev);
      if ev.Report? {
        ReportHere(s, ev);
        ReportStep(s, ev.seen, ev.b, staging);
        ConsumedOneMore(s, staging, ids);
        Consumes(s1, rest, staging, ids + [s.drained[0]]);
        assert s.drained[1..][Reports(rest)..] == s.drained[Reports(evs)..];
        HeadFirst(ids, s.drained, Reports(rest));
      } else {
        assert IsCheckEvent(ev);
        CheckEventIs(s, ev, staging);
        NotReport(ev);
        Consumes(s1, rest, staging, ids);
      }
    }
  }

  lemma HeadFirst(ids: seq<Id>, list: seq<Id>, k: nat)
    requires list != [] && k < |list|
    ensures ids + [list[0]] + list[1..][..k] == ids + list[..k + 1]
  {
    assert list[..k + 1] == [list[0]] + list[1..][..k];
  }

  lemma NotReport(ev: Event)
    requires IsCheckEvent(ev)
    ensures !ev.Report?
  {
  }

  lemma {:induction false} ReportHere(s: State, ev: Event)
    requires Core(s) && Enabled(s, ev) && ev.Report?
    ensures s.drained != [] && s.drained[0] in s.scheds && Step(s, ev) == StepReport(s, ev.seen, ev.b)
  {
    hide VipsOk, IdsOk, RoutesOwned, CommitQuiet, Completes, StepReport;
    assert s.drained[0] in s.drained;
  }

  /**
    `commitReady` under any interleaving with check runs and callbacks: once every drained verdict
    is consumed, what is still staged is exactly what still waits for a shadow, with the verdicts noted.
   */
  lemma {:induction false} DrainedIsConsumed(s: State, evs: seq<Event>)
    requires Core(s) && Runnable(s, evs) && (forall i :: 0 <= i < |evs| ==> IsCheckEvent(evs[i]) || evs[i].Report?)
      && Reports(evs) == |s.drained|
    ensures Play(s, evs).drained == [] && Play(s, evs).staging == Consumed(s.staging, s.drained)
  {
    hide Core, Runnable, Play, WellFiled, Consumed, IsCheckEvent;
    CoreFiled(s);
    NothingConsumed(s);
    Consumes(s, evs, s.staging, []);
    assert [] + s.drained[..|s.drained|] == s.drained;
  }

  /**
    `expireStaged` under any interleaving: when no staging past the deadline is left, exactly the
    stagings whose deadline is still ahead remain, untouched.
   */
  lemma {:induction false} ExpiredIsCommitted(s: State, evs: seq<Event>, now: nat)
    requires Core(s) && Runnable(s, evs)
      && (forall i :: 0 <= i < |evs| ==> IsCheckEvent(evs[i]) || (evs[i].Expire? && evs[i].now == now))
    requires forall n :: n in Play(s, evs).staging ==> now < Play(s, evs).staging[n].deadline
    ensures Play(s, evs).staging == map n | n in s.staging && now < s.staging[n].deadline :: s.staging[n]
    decreases |evs|
  {
    hide Core, Enabled, Benign, Step, IsCheckEvent;
    if evs != [] {
      var ev, rest := evs[0], evs[1..];
      StepKeepsIff(s, ev);
      CoreFiled(s);
      if IsCheckEvent(ev) { CheckEventIs(s, ev, s.staging); } else { ExpireHere(s, ev); }
      assert Play(s, evs) == Play(Step(s, ev), rest);
      ExpiredIsCommitted(Step(s, ev), rest, now);
    }
  }

  lemma {:induction false} ExpireHere(s: State, ev: Event)
    requires Core(s) && Enabled(s, ev) && ev.Expire?
    ensures ev.name in s.staging && ev.now >= s.staging[ev.name].deadline
      && Step(s, ev).staging == s.staging - {ev.name}
  {
    hide Core, StepCommit, CommitQuiet;
    CommitIs(s, ev.name, ev.seen, ev.b);
  }
}
