/**
  A reload step by step. While it works through its duties, checks run and deliver their callbacks,
  and the commit loop may take the verdict queue; only the reloader's own work waits, as it holds
  the reloader's lock. Whatever interleaves, every step finds what it needs, and every VIP ends
  as its own duty leaves it.
 */
module Weave {
  import opened Config
  import opened Policy
  import opened System
  import opened Safety
  import opened ReloadSafety
  import opened CommitSafety
  import opened Runs
  import opened Staging
  import opened Batch

  /** An event that does not need the reloader's lock. */
  predicate IsAside(ev: Event) { ev.Run? || ev.DeliverResult? || ev.DeliverTransition? || ev.DrainQueue? }

  datatype Duty =
    | Opens(news: map<Id, Sched>)
    | Drops
    | Removes(n: string)
    | Adds(v: Vip, ids: map<string, Id>)
    | Discards(n: string, unused: set<Id>)
    | Switches(v: Vip)
    | Stages(v: Vip, ids: map<string, Id>, at: nat)
  {
    /** The VIP the duty is about. */
    function Name(): string {
      match this
      case Opens(_) => ""
      case Drops => ""
      case Removes(n) => n
      case Adds(v, _) => v.name
      case Discards(n, _) => n
      case Switches(v) => v.name
      case Stages(v, _, _) => v.name
    }

    predicate IsOfVip() { !Opens? && !Drops? }
  }

  /** The event performs the duty; drain file and BGP answer are whatever they are by then. */
  predicate Performs(ev: Event, duty: Duty) {
    match duty
    case Opens(news) => ev == Build(news)
    case Drops => ev == DropStaging
    case Removes(n) => ev.RemoveVip? && ev.name == n
    case Adds(v, ids) => ev.AddVip? && ev.v == v && ev.ids == ids
    case Discards(_, unused) => ev == CloseBuilt(unused)
    case Switches(v) => ev.CommitNow? && ev.v == v
    case Stages(v, ids, at) => ev == Stage(v, ids, at)
  }

  /** Between asides, the events perform the duties in order. */
  predicate Follows(evs: seq<Event>, duties: seq<Duty>)
    decreases |evs|
  {
    if evs == [] then duties == []
    else if IsAside(evs[0]) then Follows(evs[1..], duties)
    else duties != [] && Performs(evs[0], duties[0]) && Follows(evs[1..], duties[1..])
  }

  /**
    What a step counts on when its turn comes: the schedulers it stops have been waited for, and it
    is none of the hazards. An aside happens only when it can.
   */
  predicate Awaited(s: State, ev: Event) {
    match ev
    case DropStaging => Quiet(s, ShadowIds(s.staging))
    case RemoveVip(n, _) => n in s.vips ==> Quiet(s, Ids(Visible(s, n))) && LeavesNoOrphan(s, n)
    case AddVip(v, _, _) => PrefixFree(s, v)
    case CommitNow(v, _, _) => v.name in s.vips ==>
      Quiet(s, Picked(Visible(s, v.name), RemovedNames(s.vips[v.name].cfg, v))) && KeepsKnown(s, v, map[])
    case _ => IsAside(ev) ==> Enabled(s, ev)
  }

  /** Every event finds what it counts on, as long as the ones before it could happen. */
  ghost predicate GoesOn(s: State, evs: seq<Event>)
    decreases |evs|
  {
    evs == [] || (Awaited(s, evs[0]) && (Enabled(s, evs[0]) ==> GoesOn(Step(s, evs[0]), evs[1..])))
  }

  /** The VIPs whose removal failed when its turn came. */
  ghost function FailedIn(s: State, evs: seq<Event>): set<string>
    requires Runnable(s, evs)
    decreases |evs|
  {
    if evs == [] then {} else
    var ev := evs[0];
    (if ev.RemoveVip? && RemovalFails(s, ev.name, ev.b) then {ev.name} else {}) + FailedIn(Step(s, ev), evs[1..])
  }

  lemma {:induction false} FollowsEach(evs: seq<Event>, duties: seq<Duty>)
    requires |evs| == |duties| && forall i :: 0 <= i < |evs| ==> !IsAside(evs[i]) && Performs(evs[i], duties[i])
    ensures Follows(evs, duties)
    decreases |evs|
  {
    hide IsAside, Performs;
    if evs != [] { FollowsEach(evs[1..], duties[1..]); }
  }

  /** An event that can happen finds what it counts on. */
  lemma {:induction false} RunnableGoesOn(s: State, evs: seq<Event>)
    requires Runnable(s, evs)
    ensures GoesOn(s, evs)
    decreases |evs|
  {
    hide Step, Enabled, Benign, Awaited;
    if evs != [] {
      ReadyAwaited(s, evs[0]);
      RunnableGoesOn(Step(s, evs[0]), evs[1..]);
    }
  }

  lemma ReadyAwaited(s: State, ev: Event)
    requires Ready(s, ev)
    ensures Awaited(s, ev)
  {
    hide ValidVip, BuiltFor, ChangedNames, RemovedNames, Quiet, LeavesNoOrphan, PrefixFree, KeepsKnown, Picked,
      Visible, IsNew, Completes, CommitQuiet;
  }

  // ------------------------------------------------------------------
  // Asides
  // ------------------------------------------------------------------

  /** An event that reaches one VIP's entry and leaves its definition alone. */
  predicate SameDefs(s: State, t: State) {
    t.staging == s.staging && t.built == s.built && t.vips.Keys == s.vips.Keys
      && forall m :: m in s.vips ==> t.vips[m].cfg == s.vips[m].cfg
  }

  lemma {:induction false} ResultHeads(s: State, id: Id, seen: bool, b: Bgp, b2: Bgp)
    requires Core(s) && Enabled(s, DeliverResult(id, seen, b, b2))
    ensures SameDefs(s, StepResult(s, id, seen, b, b2))
  {
    hide Core, ToPolicy, ToQueue, AfterResult, SameDefs, EntryOk, RouteOk;
    var sc := s.scheds[id];
    var s1 := s.(scheds := s.scheds[id := AfterResult(sc)]);
    SameSelf(s, s1);
    if sc.inflight.value.live {
      if sc.vip in s.vips { CoreVips(s); EntryHere(s, sc.vip); }
      PolicyHeads(s1, sc, seen, b, b2);
    } else {
      QueueGrows(s1, id, sc);
      SameSelf(s, ToQueue(s1, id, sc));
    }
  }

  lemma SameSelf(s: State, t: State)
    requires t.vips == s.vips && t.staging == s.staging && t.built == s.built
    ensures SameDefs(s, t) && forall u :: SameDefs(t, u) ==> SameDefs(s, u)
  {
  }

  lemma {:induction false} PolicyHeads(s: State, sc: Sched, seen: bool, b: Bgp, b2: Bgp)
    requires sc.vip in s.vips ==>
      EntryOk(s.vips[sc.vip]) && RouteOk(s.vips[sc.vip], RouteAt(s, s.vips[sc.vip].cfg.prefix))
    ensures SameDefs(s, ToPolicy(s, sc, seen, b, b2))
  {
    hide OnResult, PutRoute, EntryOk, RouteOk;
    if sc.vip in s.vips {
      var e := s.vips[sc.vip];
      OnResultOk(e, RouteAt(s, e.cfg.prefix), sc.Name(), seen, b, b2);
    }
  }

  lemma {:induction false} TransitionHeads(s: State, id: Id, seen: bool, b: Bgp)
    requires Core(s) && Enabled(s, DeliverTransition(id, seen, b))
    ensures SameDefs(s, StepTransition(s, id, seen, b))
  {
    hide VipsOk, IdsOk, QueueOk, RoutesOwned, OnTransition, PutRoute, EntryOk, RouteOk;
    var sc := s.scheds[id];
    if sc.vip in s.vips {
      EntryHere(s, sc.vip);
      var e := s.vips[sc.vip];
      OnTransitionOk(e, RouteAt(s, e.cfg.prefix), sc.Name(), sc.inflight.value.transition.value, seen, b);
    }
  }

  lemma {:induction false} AsideKeepsDefs(s: State, ev: Event)
    requires Core(s) && IsAside(ev) && Enabled(s, ev)
    ensures SameDefs(s, Step(s, ev))
  {
    hide Core, StepResult, StepTransition, AfterRun, SameDefs;
    match ev
    case DeliverResult(id, seen, b, b2) => ResultHeads(s, id, seen, b, b2);
    case DeliverTransition(id, seen, b) => TransitionHeads(s, id, seen, b);
    case Run(_, _) => SameSelf(s, Step(s, ev));
    case DrainQueue => SameSelf(s, Step(s, ev));
    case _ =>
  }

  /** Schedulers that wait to be taken over have no events. */
  lemma {:induction false} AsideKeepsBuilt(s: State, ev: Event, id: Id)
    requires Core(s) && IsAside(ev) && Enabled(s, ev) && id in s.built
    ensures SameSched(s, Step(s, ev), id)
  {
    hide VipsOk, QueueOk, RoutesOwned, ToPolicy, ToQueue, AfterRun, AfterResult, OnTransition, Listed, Current;
    assert NoStrays(s) && IdOk(s, id);
    match ev
    case Run(x, _) => assert x != id;
    case DeliverResult(x, seen, b, b2) =>
      assert IdOk(s, x);
      ResultScheds(s, x, seen, b, b2);
    case DeliverTransition(x, seen, b) => assert IdOk(s, x);
    case DrainQueue =>
    case _ =>
  }

  lemma ResultScheds(s: State, x: Id, seen: bool, b: Bgp, b2: Bgp)
    requires x in s.scheds && s.scheds[x].inflight.Some?
    ensures StepResult(s, x, seen, b, b2).scheds == s.scheds[x := AfterResult(s.scheds[x])]
  {
    hide ToPolicy, ToQueue, AfterResult;
    var sc := s.scheds[x];
    var s1 := s.(scheds := s.scheds[x := AfterResult(sc)]);
    PolicyGrows(s1, sc, seen, b, b2);
    QueueGrows(s1, x, sc);
  }

  // ------------------------------------------------------------------
  // Duties
  // ------------------------------------------------------------------

  /** What the program has seen to before a duty's turn comes. */
  predicate Primed(s: State, duty: Duty) {
    match duty
    case Opens(_) => false
    case Drops => false
    case Removes(n) => n in s.vips && n !in s.staging
    case Adds(v, ids) => v.name !in s.vips && ValidVip(v) && ids.Keys == v.Checks().Keys && BuiltFor(s, v, ids)
    case Discards(n, unused) => unused <= s.built
      && forall id :: id in unused ==> id in s.scheds && s.scheds[id].vip == n
    case Switches(v) =>
      && v.name in s.vips && v.name !in s.staging && ValidVip(v)
      && v.prefix == s.vips[v.name].cfg.prefix && ChangedNames(s.vips[v.name].cfg, v) == {}
    case Stages(v, ids, at) =>
      && v.name in s.vips && v.name !in s.staging && ValidVip(v)
      && v.prefix == s.vips[v.name].cfg.prefix && ids.Keys == ChangedNames(s.vips[v.name].cfg, v) && ids != map[]
      && BuiltFor(s, v, ids)
  }

  lemma {:induction false} DutyReady(s: State, ev: Event, duty: Duty)
    requires Primed(s, duty) && Performs(ev, duty) && Awaited(s, ev)
    ensures Ready(s, ev) && About(s, ev, duty.Name())
  {
    hide ValidVip, BuiltFor, ChangedNames, RemovedNames, Quiet, LeavesNoOrphan, PrefixFree, KeepsKnown, Picked, Visible;
  }

  /** Nothing a duty of VIP `n` depends on differs. */
  predicate Stable(s: State, t: State, n: string) {
    && Def(s, n) == Def(t, n) && StagedAt(s, n) == StagedAt(t, n)
    && forall id :: id in s.built && id in s.scheds && s.scheds[id].vip == n ==> id in t.built && SameSched(s, t, id)
  }

  lemma {:induction false} StaysPrimed(s: State, t: State, duty: Duty)
    requires Primed(s, duty) && Stable(s, t, duty.Name())
    ensures Primed(t, duty)
  {
    hide ValidVip, ChangedNames, IsNew;
    match duty
    case Adds(v, ids) => BuiltStays(s, t, v, ids);
    case Stages(v, ids, at) => BuiltStays(s, t, v, ids);
    case _ =>
  }

  lemma {:induction false} BuiltStays(s: State, t: State, v: Vip, ids: map<string, Id>)
    requires BuiltFor(s, v, ids) && Stable(s, t, v.name)
    ensures BuiltFor(t, v, ids)
  {
    hide IsNew, Def, StagedAt;
    forall c | c in ids
      ensures ids[c] in t.built && ids[c] in t.scheds && IsNew(t.scheds[ids[c]]) && Governs(t.scheds[ids[c]], v, c)
    {
      assert Governs(s.scheds[ids[c]], v, c);
    }
  }

  lemma ApartIsStable(s: State, t: State, n: string)
    requires Apart(s, t, n)
    ensures Stable(s, t, n)
  {
    hide SameVip;
  }

  lemma {:induction false} AsideIsStable(s: State, ev: Event, n: string)
    requires Core(s) && IsAside(ev) && Enabled(s, ev)
    ensures Stable(s, Step(s, ev), n)
  {
    hide Core, Step, Enabled, SameSched;
    AsideKeepsDefs(s, ev);
    forall id | id in s.built
      ensures SameSched(s, Step(s, ev), id)
    {
      AsideKeepsBuilt(s, ev, id);
    }
  }

  // ------------------------------------------------------------------
  // What the duties make of each VIP
  // ------------------------------------------------------------------

  /** The outcome of a duty for its VIP, from the state the duties started in. */
  predicate Accomplished(s: State, t: State, duty: Duty, failed: bool) {
    var n := duty.Name();
    match duty
    case Opens(_) => false
    case Drops => false
    case Removes(_) => Def(t, n) == (if failed then Def(s, n) else None) && StagedAt(t, n) == StagedAt(s, n)
    case Adds(v, _) => Def(t, n) == Some(v) && StagedAt(t, n) == StagedAt(s, n)
    case Discards(_, _) => Def(t, n) == Def(s, n) && StagedAt(t, n) == StagedAt(s, n)
    case Switches(v) => Def(t, n) == Some(v) && StagedAt(t, n) == StagedAt(s, n)
    case Stages(v, ids, at) =>
      && Def(t, n) == Def(s, n) && Def(s, n).Some?
      && StagedAt(t, n) ==
         Some(Staged(v, Def(s, n).value, ids, {}, RemovedNames(Def(s, n).value, v), at,
         DeadlineFor(at, Def(s, n).value, v)))
  }

  predicate Woven(s: State, t: State, duties: seq<Duty>, failed: set<string>, m: string) {
    && ((forall i :: 0 <= i < |duties| ==> duties[i].Name() != m) ==>
       Def(t, m) == Def(s, m) && StagedAt(t, m) == StagedAt(s, m) && m !in failed)
    && (forall i :: 0 <= i < |duties| && duties[i].Name() == m ==> Accomplished(s, t, duties[i], m in failed))
  }

  predicate OfDifferentVips(duties: seq<Duty>) {
    && (forall i :: 0 <= i < |duties| ==> duties[i].IsOfVip())
    && (forall i, j :: 0 <= i < j < |duties| ==> duties[i].Name() != duties[j].Name())
  }

  function Takes(duty: Duty): set<Id> {
    match duty
    case Adds(_, ids) => Ids(ids)
    case Discards(_, unused) => unused
    case Stages(_, ids, _) => Ids(ids)
    case _ => {}
  }

  predicate Untouchable(duties: seq<Duty>, id: Id) { forall i :: 0 <= i < |duties| ==> id !in Takes(duties[i]) }

  /** One step of the reload: its own VIP as the duty says, the others stable. */
  lemma {:induction false} DutyStep(s: State, ev: Event, duty: Duty)
    requires Core(s) && duty.IsOfVip() && Primed(s, duty) && Performs(ev, duty) && Awaited(s, ev)
    ensures Ready(s, ev) && Core(Step(s, ev))
    ensures var t := Step(s, ev); var n := duty.Name();
      && (forall m :: m != n ==> Stable(s, t, m))
      && Accomplished(s, t, duty, ev.RemoveVip? && RemovalFails(s, n, ev.b))
      && t.built == s.built - Takes(duty) && (forall id :: id in t.built ==> SameSched(s, t, id))
  {
    hide Core, Enabled, Benign, Apart, Def, StagedAt, Step, Stable, SameSched, Primed, Awaited, RemovedNames,
      DeadlineFor, About;
    DutyReady(s, ev, duty);
    var n := duty.Name();
    FirstStep(s, ev, n);
    forall m | m != n
      ensures Stable(s, Step(s, ev), m)
    {
      ApartIsStable(s, Step(s, ev), m);
    }
    if duty.Stages? { StagesKnown(s, duty); }
  }

  lemma StagesKnown(s: State, duty: Duty)
    requires Primed(s, duty) && duty.Stages?
    ensures Def(s, duty.v.name) == Some(s.vips[duty.v.name].cfg) && duty.v.name in s.vips
  {
    hide ValidVip, ChangedNames, BuiltFor;
  }

  /**
    Duties about different VIPs, prepared when the first one starts, under any interleaving with
    asides: every step can happen when its turn comes, the invariant holds throughout, and every
    VIP ends as its own duty leaves it.
   */
  lemma {:induction false} WeaveRuns(s: State, duties: seq<Duty>, evs: seq<Event>)
    requires Core(s) && OfDifferentVips(duties) && (forall i :: 0 <= i < |duties| ==> Primed(s, duties[i]))
    requires Follows(evs, duties) && GoesOn(s, evs)
    ensures Runnable(s, evs) && Core(Play(s, evs))
    ensures forall m :: Woven(s, Play(s, evs), duties, FailedIn(s, evs), m)
    ensures forall id :: id in Play(s, evs).built <==> id in s.built && Untouchable(duties, id)
    ensures forall id :: id in Play(s, evs).built ==> SameSched(s, Play(s, evs), id)
    decreases |evs|
  {
    hide Core, Enabled, Benign, Step, Performs, Awaited, Primed, Woven, Untouchable, SameSched, RemovalFails, Stable,
      Accomplished;
    if evs == [] {
      NothingWoven(s);
    } else {
      var ev, rest := evs[0], evs[1..];
      if IsAside(ev) {
        AsideFirst(s, duties, evs);
      } else {
        DutyFirst(s, duties, evs);
      }
    }
  }

  lemma {:induction false} NothingWoven(s: State)
    requires Core(s)
    ensures (forall m :: Woven(s, s, [], {}, m)) && (forall id :: Untouchable([], id))
      && (forall id :: id in s.built ==> SameSched(s, s, id))
  {
    hide VipsOk, QueueOk, RoutesOwned, IdOk;
    assert NoStrays(s);
  }

  lemma {:induction false} AsideFirst(s: State, duties: seq<Duty>, evs: seq<Event>)
    requires Core(s) && OfDifferentVips(duties) && (forall i :: 0 <= i < |duties| ==> Primed(s, duties[i]))
    requires Follows(evs, duties) && GoesOn(s, evs) && evs != [] && IsAside(evs[0])
    ensures Runnable(s, evs) && Core(Play(s, evs))
    ensures forall m :: Woven(s, Play(s, evs), duties, FailedIn(s, evs), m)
    ensures forall id :: id in Play(s, evs).built <==> id in s.built && Untouchable(duties, id)
    ensures forall id :: id in Play(s, evs).built ==> SameSched(s, Play(s, evs), id)
    decreases |evs|, 0
  {
    hide Core, Enabled, Step, Primed, Woven, Untouchable, SameSched, Stable, OfDifferentVips, SameDefs;
    var ev, rest := evs[0], evs[1..];
    assert Enabled(s, ev) && Benign(s, ev);
    StepKeepsIff(s, ev);
    var s1 := Step(s, ev);
    forall i | 0 <= i < |duties|
      ensures Primed(s1, duties[i])
    {
      AsideIsStable(s, ev, duties[i].Name());
      StaysPrimed(s, s1, duties[i]);
    }
    WeaveRuns(s1, duties, rest);
    AsideKeepsDefs(s, ev);
    var t := Play(s1, rest);
    assert Runnable(s, evs) && Play(s, evs) == t && !ev.RemoveVip?;
    assert FailedIn(s, evs) == {} + FailedIn(s1, rest) == FailedIn(s1, rest);
    forall m
      ensures Woven(s, t, duties, FailedIn(s, evs), m)
    {
      assert Woven(s1, t, duties, FailedIn(s1, rest), m);
      WovenLater(s, s1, t, duties, FailedIn(s1, rest), m);
    }
    SameBuiltDefs(s, s1);
    forall id | id in t.built
      ensures SameSched(s, t, id)
    {
      AsideKeepsBuilt(s, ev, id);
      SameSchedTrans(s, s1, t, id);
    }
  }

  lemma SameBuiltDefs(s: State, t: State)
    requires SameDefs(s, t)
    ensures t.built == s.built
  {
  }

  lemma SameSchedTrans(s: State, s1: State, t: State, id: Id)
    requires SameSched(s, s1, id) && SameSched(s1, t, id)
    ensures SameSched(s, t, id)
  {
  }

  lemma {:induction false} WovenLater(s: State, s1: State, t: State, duties: seq<Duty>, failed: set<string>, m: string)
    requires SameDefs(s, s1) && Woven(s1, t, duties, failed, m)
    ensures Woven(s, t, duties, failed, m)
  {
    hide RemovedNames, DeadlineFor;
    assert Def(s1, m) == Def(s, m) && StagedAt(s1, m) == StagedAt(s, m);
  }

  lemma {:induction false} DutyFirst(s: State, duties: seq<Duty>, evs: seq<Event>)
    requires Core(s) && OfDifferentVips(duties) && (forall i :: 0 <= i < |duties| ==> Primed(s, duties[i]))
    requires Follows(evs, duties) && GoesOn(s, evs) && evs != [] && !IsAside(evs[0])
    ensures Runnable(s, evs) && Core(Play(s, evs))
    ensures forall m :: Woven(s, Play(s, evs), duties, FailedIn(s, evs), m)
    ensures forall id :: id in Play(s, evs).built <==> id in s.built && Untouchable(duties, id)
    ensures forall id :: id in Play(s, evs).built ==> SameSched(s, Play(s, evs), id)
    decreases |evs|, 0
  {
    hide Core, Enabled, Benign, Step, Primed, Woven, Untouchable, SameSched, Stable, Accomplished, Awaited,
      RemovalFails, Takes;
    var ev, rest, duty, others := evs[0], evs[1..], duties[0], duties[1..];
    assert Primed(s, duty) && Performs(ev, duty) && Awaited(s, ev);
    DutyStep(s, ev, duty);
    var s1 := Step(s, ev);
    forall i | 0 <= i < |others|
      ensures Primed(s1, others[i])
    {
      assert others[i] == duties[i + 1] && duties[0].Name() != duties[i + 1].Name();
      StaysPrimed(s, s1, others[i]);
    }
    assert OfDifferentVips(others);
    WeaveRuns(s1, others, rest);
    var t := Play(s1, rest);
    assert Runnable(s, evs) && Play(s, evs) == t;
    var now := if ev.RemoveVip? && RemovalFails(s, ev.name, ev.b) then {ev.name} else {};
    assert FailedIn(s, evs) == now + FailedIn(s1, rest);
    forall m
      ensures Woven(s, t, duties, FailedIn(s, evs), m)
    {
      assert Woven(s1, t, others, FailedIn(s1, rest), m);
      WovenFirst(s, s1, t, duties, FailedIn(s1, rest), ev, m);
    }
    forall id
      ensures Untouchable(duties, id) <==> id !in Takes(duty) && Untouchable(others, id)
    {
      UntouchableSplit(duties, id);
    }
    forall id | id in t.built
      ensures SameSched(s, t, id)
    {
      SameSchedTrans(s, s1, t, id);
    }
  }

  lemma UntouchableSplit(duties: seq<Duty>, id: Id)
    requires duties != []
    ensures Untouchable(duties, id) <==> id !in Takes(duties[0]) && Untouchable(duties[1..], id)
  {
    hide Takes;
    assert duties == [duties[0]] + duties[1..];
    if Untouchable(duties, id) {
      forall i | 0 <= i < |duties[1..]|
        ensures id !in Takes(duties[1..][i])
      {
        assert duties[1..][i] == duties[i + 1];
      }
    }
    if id !in Takes(duties[0]) && Untouchable(duties[1..], id) {
      forall i | 0 <= i < |duties|
        ensures id !in Takes(duties[i])
      {
        if i > 0 { assert duties[i] == duties[1..][i - 1]; }
      }
    }
  }

  lemma {:induction false} WovenFirst(s: State, s1: State, t: State, duties: seq<Duty>, failed: set<string>, ev: Event,
                                      m: string)
    requires duties != [] && OfDifferentVips(duties) && Performs(ev, duties[0])
    requires forall x :: x != duties[0].Name() ==> Stable(s, s1, x)
    requires Accomplished(s, s1, duties[0], ev.RemoveVip? && RemovalFails(s, duties[0].Name(), ev.b))
    requires Woven(s1, t, duties[1..], failed, m)
    ensures Woven(s, t, duties, (if ev.RemoveVip? && RemovalFails(s, ev.name, ev.b) then {ev.name} else {}) + failed, m)
  {
    hide RemovedNames, DeadlineFor, RemovalFails, SameSched;
    var n, rest := duties[0].Name(), duties[1..];
    assert forall i :: 0 < i < |duties| ==> duties[i] == rest[i - 1];
    if m == n {
      assert forall i :: 0 <= i < |rest| ==> rest[i].Name() != m;
    } else {
      assert Stable(s, s1, m);
      if forall i :: 0 <= i < |duties| ==> duties[i].Name() != m {
        assert forall i :: 0 <= i < |rest| ==> rest[i].Name() != m;
      }
    }
  }
}
