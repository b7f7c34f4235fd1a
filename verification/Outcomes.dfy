/**
  What an operator sees, in terms of the configuration and of the check histories: when a VIP is
  healthy, which route it has, and what a result, a transition and a commit leave behind. The
  statements name the fields of the configuration and not the functions that compute with them.
 */
module Outcomes {
  import opened Config
  import opened Hysteresis
  import opened Policy
  import opened System
  import opened Safety
  import opened CommitSafety
  import opened Runs
  import opened Standby

  // ------------------------------------------------------------------
  // Routes in terms of the configuration
  // ------------------------------------------------------------------

  /** The prepend of a block, and what counts without one. */
  function PrependOf(a: Option<Announce>, otherwise: int): int {
    match a
    case Some(Announce(Some(p), _)) => p
    case _ => otherwise
  }

  function CommunitiesOf(a: Option<Announce>): seq<string> { if a.Some? then a.value.communities else [] }

  /** The attributes are exactly those of the announce block. */
  predicate Full(a: Attrs, r: Routing) {
    a == Attrs(PrependOf(r.announce, 0), CommunitiesOf(r.announce))
  }

  /** The prepends of both blocks add up, and the communities of both are merged. */
  ghost predicate Lowered(a: Attrs, r: Routing) {
    && a.prepend == PrependOf(r.announce, 0) + PrependOf(r.lower, 6) && a.prepend > PrependOf(r.announce, 0)
    && FirstSeen(a.communities, CommunitiesOf(r.announce) + CommunitiesOf(r.lower))
  }

  /** The route is the one that the health, the drain flag and the fail action call for. */
  ghost predicate Serves(r: Routing, health: Health, drained: bool, route: Option<Attrs>) {
    match health
    case Unknown => route == None
    case Healthy => route.Some? && if drained then Lowered(route.value, r) else Full(route.value, r)
    case Unhealthy => if r.failAction == OnFailLower then route.Some? && Lowered(route.value, r) else route == None
  }

  lemma {:induction false} WantedServes(r: Routing, health: Health, drained: bool)
    requires ValidRouting(r)
    ensures Serves(r, health, drained, Wanted(r, Due(health, drained, r)))
  {
    hide FirstSeen, Dedup;
    DedupIsFirstSeen(BaseAttrs(r).communities + LowerCommunities(r));
    assert BaseAttrs(r).communities == CommunitiesOf(r.announce) && LowerCommunities(r) == CommunitiesOf(r.lower);
  }

  lemma EntryServes(e: Entry, route: Option<Attrs>)
    requires EntryOk(e) && RouteOk(e, route) && !e.pending
    ensures Serves(e.cfg.routing, e.health, e.drained, route)
  {
    hide Serves, Wanted, Due, Combine, DistinctNames, Compiles, ValidRouting;
    assert ValidVip(e.cfg) && ValidRouting(e.cfg.routing);
    WantedServes(e.cfg.routing, e.health, e.drained);
  }

  // ------------------------------------------------------------------
  // Health in terms of the check histories
  // ------------------------------------------------------------------

  /** The checks of a VIP whose whole history says up. */
  ghost function UpChecks(t: State, n: string): set<string>
    requires Governed(t, n)
  {
    set c | c in t.visible[n] && var sc := t.scheds[t.visible[n][c]]; Verdict(sc.hist, sc.check.Rise(), sc.check.Fall())
  }

  /** Some check has risen once, or was seeded by a commit. */
  ghost predicate AnyReport(t: State, n: string)
    requires Governed(t, n)
  {
    exists c :: c in t.visible[n] && var sc := t.scheds[t.visible[n][c]];
      sc.seeded || RoseOnce(sc.hist, sc.check.Rise()) || Verdict(sc.hist, sc.check.Rise(), sc.check.Fall())
  }

  /** Every callback of the VIP's checks was delivered. */
  predicate AllDelivered(t: State, n: string)
    requires Governed(t, n)
  {
    forall c :: c in t.visible[n] ==> t.scheds[t.visible[n][c]].inflight.None?
  }

  /** Once everything is delivered the policy manager holds what the histories say. */
  lemma {:induction false} HistoriesHeld(t: State, n: string)
    requires Core(t) && n in t.vips && Governed(t, n) && AllDelivered(t, n)
    ensures t.vips[n].checks == Histories(t, n) && EntryOk(t.vips[n])
    ensures RouteOk(t.vips[n], RouteAt(t, t.vips[n].cfg.prefix))
  {
    hide VipOk, VisibleOk, EntryOk, RouteOk, IdsOk, QueueOk, RoutesOwned, Governs, HistoryHealth;
    assert VipOk(t, n);
    VipParts(t, n);
    var e := t.vips[n];
    forall c | c in t.visible[n]
      ensures HistoryHealth(t.scheds[t.visible[n][c]]) == e.checks[c]
    {
      VisibleHere(e, t.visible[n], t.scheds, t.running, c);
      KnownIsHistory(t.scheds[t.visible[n][c]], e.cfg, c);
    }
  }

  lemma {:induction false} HeldIsReported(t: State, n: string)
    requires Governed(t, n)
    ensures HealthySet(Histories(t, n)) == UpChecks(t, n)
    ensures NoneKnown(Histories(t, n)) <==> !AnyReport(t, n)
  {
    hide Verdict, RoseOnce;
    var h := Histories(t, n);
    if AnyReport(t, n) {
      var c :| c in t.visible[n] && var sc := t.scheds[t.visible[n][c]];
        sc.seeded || RoseOnce(sc.hist, sc.check.Rise()) || Verdict(sc.hist, sc.check.Rise(), sc.check.Fall());
      assert c in h && h[c] != Unknown;
    }
    if !NoneKnown(h) {
      var c :| c in h && h[c] != Unknown;
      assert c in t.visible[n];
    }
  }

  /** The health is the policy applied to the checks that are up; unknown only while nothing was reported. */
  ghost predicate Decides(policy: ChecksPolicy, checks: set<string>, up: set<string>, reported: bool, health: Health) {
    && (health == Unknown <==> !reported)
    && match policy
       case Unset => health == Healthy <==> checks <= up
       case All => health == Healthy <==> checks <= up
       case Any => health == Healthy <==> exists c :: c in checks && c in up
       case Expression(x) => health == Healthy <==> reported && Truth(x, up)
  }

  lemma {:induction false} CombineDecides(e: Entry)
    requires EntryOk(e)
    ensures Decides(e.cfg.checksPolicy, e.cfg.Checks().Keys, HealthySet(e.checks), !NoneKnown(e.checks), e.health)
  {
    hide Due, ValidVip, Holds, NoneKnown;
    var up := HealthySet(e.checks);
    HoldsDecides(e.cfg, up);
    assert up <= e.cfg.Checks().Keys;
    forall c | c in up
      ensures !NoneKnown(e.checks)
    {
      SomeKnown(e.checks, c);
    }
  }

  lemma SomeKnown(checks: map<string, Health>, c: string)
    requires c in HealthySet(checks)
    ensures !NoneKnown(checks)
  {
    assert checks[c] == Healthy;
  }

  lemma {:induction false} HoldsDecides(v: Vip, up: set<string>)
    ensures var checks, holds := v.Checks().Keys, Holds(Evaluator(v.checksPolicy, Names(v.CheckList())), up);
      && checks != {}
      && match v.checksPolicy
         case Unset => holds <==> checks <= up
         case All => holds <==> checks <= up
         case Any => holds <==> exists c :: c in checks && c in up
         case Expression(x) => up <= checks ==> (holds <==> Truth(x, up))
  {
    hide Truth;
    var names := Names(v.CheckList());
    ByNameIs(v.CheckList());
    assert names[0] in names && names[0] in v.Checks();
    assert up <= v.Checks().Keys ==> (set c | c in names && c in up) == up;
  }

  /**
    Over every run, once the callbacks of a VIP's checks are delivered: without a policy or under
    `all` the VIP is healthy exactly when the whole history of every governing check says up,
    under `any` when one does, under an expression when it is true of those that do; it is unknown
    exactly while no check ever rose or was seeded.
   */
  lemma {:induction false} HealthFollowsHistories(evs: seq<Event>, t: State, n: string)
    requires Reaches(EMPTY, evs, t) && n in t.vips
    ensures Governed(t, n)
    ensures AllDelivered(t, n) ==>
      var e := t.vips[n];
      Decides(e.cfg.checksPolicy, e.cfg.Checks().Keys, UpChecks(t, n), AnyReport(t, n), e.health)
  {
    hide Core, Reaches, Governed, AllDelivered, Decides, UpChecks, AnyReport, HealthySet, NoneKnown, Histories, EntryOk;
    RoutesFollowHistories(evs, t, n);
    EmptyIsCore();
    RunKeepsCore(EMPTY, evs, t);
    if AllDelivered(t, n) {
      HistoriesHeld(t, n);
      HeldIsReported(t, n);
      CombineDecides(t.vips[n]);
    }
  }

  /**
    Over every run, the route of a settled VIP: none while nothing is known or when it is unhealthy
    under `withdraw`; exactly the announce block when it is healthy and not drained; the prepends
    of both blocks together, strictly longer, with the merged communities when it is healthy and
    drained, or unhealthy under `lower_priority`.
   */
  lemma {:induction false} RouteServes(evs: seq<Event>, t: State, n: string)
    requires Reaches(EMPTY, evs, t) && n in t.vips && !t.vips[n].pending
    ensures var e := t.vips[n]; Serves(e.cfg.routing, e.health, e.drained, RouteAt(t, e.cfg.prefix))
  {
    hide Core, Reaches, EntryOk, RouteOk, Serves;
    EmptyIsCore();
    RunKeepsCore(EMPTY, evs, t);
    EntryOf(t, n);
    EntryServes(t.vips[n], RouteAt(t, t.vips[n].cfg.prefix));
  }

  lemma EntryOf(t: State, n: string)
    requires Core(t) && n in t.vips
    ensures EntryOk(t.vips[n]) && RouteOk(t.vips[n], RouteAt(t, t.vips[n].cfg.prefix))
  {
    hide VipsOk, IdsOk, QueueOk, RoutesOwned, EntryOk, RouteOk;
    EntryHere(t, n);
  }

  /**
    A check without thresholds of its own rises with the first success and falls with the third
    failure in a row; without an interval it is given twelve seconds to prove itself.
   */
  lemma {:induction false} PlainCheck(c: Check, hist: seq<bool>)
    requires c.rise == None && c.fall == None
    ensures c.interval == None ==> GRACE * Window(c) == 12_000_000_000
    ensures Verdict(hist + [true], c.Rise(), c.Fall()) && Verdict(hist + [true, false, false], c.Rise(), c.Fall())
    ensures !Verdict(hist + [false, false, false], c.Rise(), c.Fall())
  {
    hide Verdict;
    var up, down := hist + [true], hist + [false, false, false];
    assert hist + [true, false, false] == up + [false] + [false];
    AfterOneMore(hist, true, 1, 3);
    AfterOneMore(up, false, 1, 3);
    AfterOneMore(up + [false], false, 1, 3);
    assert down == hist + [false] + [false] + [false];
    AfterOneMore(hist, false, 1, 3);
    AfterOneMore(hist + [false], false, 1, 3);
    AfterOneMore(hist + [false] + [false], false, 1, 3);
    CountersAreCappedRuns(hist, 1, 3);
    UpIsVerdict(up, 1, 3);
    UpIsVerdict(up + [false] + [false], 1, 3);
    UpIsVerdict(down, 1, 3);
  }

  /** A VIP with one check that has no name knows it by its kind. */
  lemma UnnamedCheck(v: Vip)
    requires v.checks == [] && v.check.given == ""
    ensures v.Checks() == map[v.check.kind := v.check]
  {
    assert v.CheckList() == [v.check] && [v.check][..0] == [];
    assert ByName([v.check][..0]) == map[];
  }

  // ------------------------------------------------------------------
  // One delivered result
  // ------------------------------------------------------------------

  /** Every call is one that brings about the route that is called for. */
  ghost predicate CallsServe(e: Entry, calls: seq<Call>) {
    forall i :: 0 <= i < |calls| ==>
      match calls[i]
      case Withdraw(p) => p == e.cfg.prefix && Serves(e.cfg.routing, e.health, e.drained, None)
      case Originate(p, a) => p == e.cfg.prefix && Serves(e.cfg.routing, e.health, e.drained, Some(a))
  }

  lemma {:induction false} CallServes(e: Entry)
    requires EntryOk(e)
    ensures CallsServe(e, [CallFor(e.cfg, e.state)])
  {
    hide Serves, Due, Combine, DistinctNames, Compiles, ValidRouting;
    assert ValidVip(e.cfg) && ValidRouting(e.cfg.routing);
    WantedServes(e.cfg.routing, e.health, e.drained);
  }

  /**
    A result of a known check: the drain flag is what was read, the health stands, there is a call
    exactly when an operation was pending or the state changes, and the operation is pending
    afterwards only if its last attempt failed. Otherwise the route is the one called for.
   */
  lemma {:induction false} ResultSettles(e: Entry, route: Option<Attrs>, name: string, seen: bool, b: Bgp, b2: Bgp)
    requires EntryOk(e) && RouteOk(e, route) && name in e.checks
    ensures var f := OnResult(e, route, name, seen, b, b2);
      && f.e == e.(drained := (e.cfg.routing.drainFile != "" && seen), state := f.e.state, pending := f.e.pending)
      && (b2 == Done ==> !f.e.pending) && (f.e.pending ==> f.calls != [])
      && (!f.e.pending ==> Serves(e.cfg.routing, e.health, f.e.drained, f.route))
      && (f.calls == [] <==> !e.pending && f.e.state == e.state) && |f.calls| <= 2 && CallsServe(f.e, f.calls)
  {
    hide Serves, CallsServe, EntryOk, RouteOk, OnResult, CallFor;
    var f := OnResult(e, route, name, seen, b, b2);
    OnResultOk(e, route, name, seen, b, b2);
    ResultCalls(e, route, name, seen, b, b2);
    if !f.e.pending { EntryServes(f.e, f.route); }
    CallServes(f.e);
    CallsTwice(f.e, CallFor(f.e.cfg, f.e.state), f.calls);
  }

  lemma {:induction false} ResultCalls(e: Entry, route: Option<Attrs>, name: string, seen: bool, b: Bgp, b2: Bgp)
    requires EntryOk(e) && name in e.checks
    ensures var f := OnResult(e, route, name, seen, b, b2);
      && f.e == e.(drained := (e.cfg.routing.drainFile != "" && seen), state := f.e.state, pending := f.e.pending)
      && (b2 == Done ==> !f.e.pending) && (f.e.pending ==> f.calls != [])
      && (f.calls == [] <==> !e.pending && f.e.state == e.state) && |f.calls| <= 2
      && forall i :: 0 <= i < |f.calls| ==> f.calls[i] == CallFor(f.e.cfg, f.e.state)
  {
    hide Coherent, Evaluate, RouteAfter, CallFor;
  }

  lemma CallsTwice(e: Entry, call: Call, calls: seq<Call>)
    requires CallsServe(e, [call]) && forall i :: 0 <= i < |calls| ==> calls[i] == call
    ensures CallsServe(e, calls)
  {
    hide Serves;
    assert [call][0] == call;
  }

  /**
    From every state of the daemon: once the result of a visible check is delivered and the last
    BGP call it led to succeeded, nothing is pending for its VIP, the drain flag is what was read,
    and the route is the one called for. An operation that failed earlier has been repeated.
   */
  lemma {:induction false} DeliverySettles(s: State, id: Id, seen: bool, b: Bgp)
    requires Core(s) && Enabled(s, DeliverResult(id, seen, b, Done)) && s.scheds[id].inflight.value.live
    ensures var n, t := s.scheds[id].vip, Step(s, DeliverResult(id, seen, b, Done));
      && n in s.vips && n in t.vips && t.vips[n].cfg == s.vips[n].cfg && t.vips[n].health == s.vips[n].health
      && !t.vips[n].pending
      && (t.vips[n].drained <==> s.vips[n].cfg.routing.drainFile != "" && seen)
      && Serves(s.vips[n].cfg.routing, t.vips[n].health, t.vips[n].drained, RouteAt(t, s.vips[n].cfg.prefix))
  {
    hide Core, Serves, OnResult, EntryOk, RouteOk;
    var n, sc := s.scheds[id].vip, s.scheds[id];
    LiveIsVisible(s, id);
    EntryOf(s, n);
    var e := s.vips[n];
    ResultSettles(e, RouteAt(s, e.cfg.prefix), sc.Name(), seen, b, Done);
  }

  /** A scheduler that reports to the policy manager is listed, and its check is known there. */
  lemma {:induction false} LiveIsVisible(s: State, id: Id)
    requires Core(s) && id in s.scheds && s.scheds[id].inflight.Some? && s.scheds[id].inflight.value.live
    ensures var n := s.scheds[id].vip; n in s.vips && s.scheds[id].Name() in s.vips[n].checks
  {
    hide EntryOk, RouteOk, StagedOk, RoutesOwned, QueueOk;
    assert IdOk(s, id);
    var n := s.scheds[id].vip;
    assert VipOk(s, n);
  }

  /** The same over every run from startup. */
  lemma {:induction false} EveryDeliverySettles(evs: seq<Event>, s: State, id: Id, seen: bool, b: Bgp)
    requires Reaches(EMPTY, evs, s) && Enabled(s, DeliverResult(id, seen, b, Done)) && s.scheds[id].inflight.value.live
    ensures var n, t := s.scheds[id].vip, Step(s, DeliverResult(id, seen, b, Done));
      && n in t.vips && !t.vips[n].pending
      && (t.vips[n].drained <==> t.vips[n].cfg.routing.drainFile != "" && seen)
      && Serves(t.vips[n].cfg.routing, t.vips[n].health, t.vips[n].drained, RouteAt(t, t.vips[n].cfg.prefix))
  {
    hide Core, Serves, Reaches;
    EmptyIsCore();
    RunKeepsCore(EMPTY, evs, s);
    DeliverySettles(s, id, seen, b);
  }

  // ------------------------------------------------------------------
  // One transition
  // ------------------------------------------------------------------

  /**
    A transition of a known check. If the health of the VIP stands, only the check changes. If it
    changes, the drain flag is what was read; a new state makes one call, pending exactly if it
    failed, and the same state makes none.
   */
  lemma {:induction false} TransitionSettles(e: Entry, route: Option<Attrs>, name: string, healthy: bool, seen: bool,
                                             b: Bgp)
    requires EntryOk(e) && RouteOk(e, route) && name in e.checks
    ensures var f := OnTransition(e, route, name, healthy, seen, b);
      var checks := e.checks[name := if healthy then Healthy else Unhealthy];
      && (f.e.health == e.health ==> f == Effect(e.(checks := checks), route, []))
      && (f.e.health != e.health ==>
           && f.e == e.(checks := checks, health := f.e.health, drained := (e.cfg.routing.drainFile != "" && seen),
                        state := f.e.state, pending := f.e.pending)
           && (f.e.state == e.state ==> f.calls == [] && f.e.pending == e.pending)
           && (f.e.state != e.state ==> |f.calls| == 1 && CallsServe(f.e, f.calls) && (f.e.pending <==> b != Done)))
      && (!f.e.pending ==> Serves(e.cfg.routing, f.e.health, f.e.drained, f.route))
  {
    hide Serves, CallsServe, Coherent, Combine, Evaluate, RouteAttrs, RouteAfter;
    var f := OnTransition(e, route, name, healthy, seen, b);
    OnTransitionOk(e, route, name, healthy, seen, b);
    if !f.e.pending { EntryServes(f.e, f.route); }
    CallServes(f.e);
  }

  /** A name that is not known means the only check there is, and nothing if there are several. */
  lemma {:induction false} UnknownName(e: Entry, route: Option<Attrs>, name: string, healthy: bool, seen: bool, b: Bgp,
                                       b2: Bgp)
    requires name !in e.checks
    ensures |e.checks| != 1 ==>
      OnTransition(e, route, name, healthy, seen, b) == OnResult(e, route, name, seen, b, b2) == Effect(e, route, [])
    ensures forall only :: e.checks.Keys == {only} ==>
      && OnTransition(e, route, name, healthy, seen, b) == OnTransition(e, route, only, healthy, seen, b)
      && OnResult(e, route, name, seen, b, b2) == OnResult(e, route, only, seen, b, b2)
  {
    hide Heard, Retry, Reevaluate;
    forall only | e.checks.Keys == {only}
      ensures Target(e.checks, name) == Target(e.checks, only) == Some(only)
    {
      assert |e.checks| == |e.checks.Keys| == 1;
      assert only in e.checks;
    }
  }

  // ------------------------------------------------------------------
  // One commit
  // ------------------------------------------------------------------

  /**
    A commit that leaves a known check: the drain flag is what was read under the new definition;
    at most one call is made, and without one the route and what is pending stand. If the call
    succeeds nothing is pending, unless the VIP was withdrawn with the withdraw pending and stays so.
   */
  lemma {:induction false} CommitSettles(e: Entry, route: Option<Attrs>, cfg: Vip, seeds: map<string, Health>,
                                         seen: bool, b: Bgp)
    requires EntryOk(e) && RouteOk(e, route) && ValidVip(cfg) && Committable(e, cfg, seeds)
    requires !NoneKnown(Merged(e.checks, cfg, seeds))
    ensures var f := Commit(e, route, cfg, seeds, seen, b);
      && (f.e.drained <==> cfg.routing.drainFile != "" && seen) && |f.calls| <= 1 && CallsServe(f.e, f.calls)
      && (f.calls == [] ==> f.route == route && f.e.state == e.state && f.e.pending == e.pending)
      && (f.calls != [] ==> (f.e.pending <==> b != Done))
      && (f.calls == [] && f.e.pending ==> f.e.state == Withdrawn)
      && (!f.e.pending ==> Serves(cfg.routing, f.e.health, f.e.drained, f.route))
  {
    hide Serves, CallsServe, EntryOk, RouteOk, ValidVip, Commit, Committable, NoneKnown, CallFor;
    var f := Commit(e, route, cfg, seeds, seen, b);
    CommitOkIff(e, route, cfg, seeds, seen, b);
    CommitCalls(e, route, cfg, seeds, seen, b);
    if !f.e.pending { EntryServes(f.e, f.route); }
    CallServes(f.e);
    CallsTwice(f.e, CallFor(f.e.cfg, f.e.state), f.calls);
  }

  /**
    From every state of the daemon: the commit of a staged VIP whose call succeeds leaves the VIP
    under the new definition with the drain flag as read, and with the route called for unless a
    withdraw was pending and still is.
   */
  lemma {:induction false} StagedCommitSettles(s: State, n: string, seen: bool)
    requires Core(s) && n in s.staging && n in s.vips
    ensures var st, was := s.staging[n], s.vips[n];
      var u := StepCommit(s, n, seen, Done);
      && n in u.vips && u.vips[n].cfg == st.cfg && u.vips[n].health != Unknown
      && (u.vips[n].drained <==> st.cfg.routing.drainFile != "" && seen)
      && (u.vips[n].pending ==> was.pending && was.state == u.vips[n].state == Withdrawn)
      && (!u.vips[n].pending ==>
           Serves(st.cfg.routing, u.vips[n].health, u.vips[n].drained, RouteAt(u, st.cfg.prefix)))
  {
    hide Core, VipsOk, Commit, Committable, Switch, Fits, Seeds, StagedOk, ValidVip, EntryOk, RouteOk, Serves,
      NoneKnown, CallsServe, Enlist, Mark, Picked;
    var st, e := s.staging[n], s.vips[n];
    StagedAgrees(s, n);
    EntryOf(s, n);
    var seeds := Seeds(s.scheds, st.shadows);
    SwitchedIs(s, st.cfg, st.shadows, st.removed, seen, Done);
    CommitSettles(e, RouteAt(s, e.cfg.prefix), st.cfg, seeds, seen, Done);
    CommitKnown(e, RouteAt(s, e.cfg.prefix), st.cfg, seeds, seen, Done);
  }

  lemma CommitKnown(e: Entry, route: Option<Attrs>, cfg: Vip, seeds: map<string, Health>, seen: bool, b: Bgp)
    requires Committable(e, cfg, seeds) && !NoneKnown(Merged(e.checks, cfg, seeds))
    ensures Commit(e, route, cfg, seeds, seen, b).e.cfg == cfg
    ensures Commit(e, route, cfg, seeds, seen, b).e.health != Unknown
  {
    hide Committable, Evaluate, RouteAfter, CallFor, NoneKnown, Holds, RouteAttrs;
  }

  lemma {:induction false} StagedAgrees(s: State, n: string)
    requires Core(s) && n in s.staging && n in s.vips
    ensures var st := s.staging[n]; var seeds := Seeds(s.scheds, st.shadows);
      && st.cfg.name == n && s.vips[n].cfg.prefix == st.cfg.prefix && ValidVip(st.cfg)
      && Committable(s.vips[n], st.cfg, seeds) && !NoneKnown(Merged(s.vips[n].checks, st.cfg, seeds))
  {
    hide IdsOk, QueueOk, RoutesOwned, VipsOk, Fits, Seeds, StagedOk, ValidVip, EntryOk, RouteOk, NoneKnown, Committable;
    StagedHere(s, n);
    StagedFits(s, n);
    EntryHere(s, n);
    NeverRefused(s, s.staging[n].cfg, s.staging[n].shadows, s.staging[n].removed);
    FitsPrefix(s, s.staging[n].cfg, s.staging[n].shadows, s.staging[n].removed);
    SeedsKnown(s, n);
  }

  lemma {:induction false} CommitCalls(e: Entry, route: Option<Attrs>, cfg: Vip, seeds: map<string, Health>,
                                       seen: bool, b: Bgp)
    requires Committable(e, cfg, seeds) && !NoneKnown(Merged(e.checks, cfg, seeds))
    ensures var f := Commit(e, route, cfg, seeds, seen, b);
      && (f.e.drained <==> cfg.routing.drainFile != "" && seen) && |f.calls| <= 1
      && (f.calls == [] ==> f.route == route && f.e.state == e.state && f.e.pending == e.pending)
      && (f.calls != [] ==> (f.e.pending <==> b != Done))
      && (f.calls == [] && f.e.pending ==> f.e.state == Withdrawn)
      && forall i :: 0 <= i < |f.calls| ==> f.calls[i] == CallFor(f.e.cfg, f.e.state)
  {
    hide Committable, Evaluate, RouteAfter, CallFor, NoneKnown, Holds, RouteAttrs;
  }
}
