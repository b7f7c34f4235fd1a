/** Two runs of the daemon that end in a state from which a reload leaves a route without an owner, or with two. */
module Hazards {
  import opened Config
  import opened Hysteresis
  import opened Policy
  import opened System
  import opened Runs

  // ------------------------------------------------------------------
  // A daemon with one VIP and one check
  // ------------------------------------------------------------------

  const PLAIN := Routing(OnFailWithdraw, "", None, None)

  /** Rise and fall are 1: every result decides. */
  function Web(rest: int): Check { Check("web", "http", None, Some(1), Some(1), rest) }
  function Simple(name: string, rest: int): Vip { Vip(name, "p", Web(rest), [], Unset, PLAIN, false, "") }

  function Built(name: string, rest: int): Sched { Sched(name, Web(rest), (false, ""), [], false, false, None) }
  function Live(hist: seq<bool>): Sched { Sched("v", Web(0), (false, ""), hist, true, false, None) }

  /** The entry of the VIP. */
  function Held(st: VipState, h: Health, pending: bool): Entry {
    Entry(Simple("v", 0), Evaluator(Unset, ["web"]), st, h, map["web" := h], false, pending)
  }

  const FULL := Attrs(0, [])

  /** The VIP runs with this scheduler, entry and route, after these calls. */
  function With(sc: Sched, e: Entry, route: Option<Attrs>, log: seq<Call>): State {
    State(map[0 := sc], {}, multiset{}, map["v" := map["web" := 0]], map[0 := false], map["v" := e],
          if route.Some? then map["p" := route.value] else map[], log, map[], [], [])
  }

  lemma SimpleIs(name: string, rest: int)
    requires name != ""
    ensures Names(Simple(name, rest).CheckList()) == ["web"] && ValidVip(Simple(name, rest))
    ensures Simple(name, rest).Checks() == map["web" := Web(rest)]
  {
    assert Names(Simple(name, rest).CheckList()) == ["web"];
    assert [Web(rest)][..0] == [] && ByName([Web(rest)][..0]) == map[];
  }

  lemma Ups()
    ensures !Up([], 1, 1) && Up([true], 1, 1) && !Up([true, false], 1, 1)
  {
    assert [true] == [] + [true] && [true, false] == [true] + [false];
    AfterOneMore([], true, 1, 1);
    AfterOneMore([true], false, 1, 1);
  }

  // ------------------------------------------------------------------
  // Its events
  // ------------------------------------------------------------------

  lemma {:induction false} RunIs(sc: Sched, e: Entry, route: Option<Attrs>, log: seq<Call>, x: bool)
    requires sc.inflight.None?
    ensures Enabled(With(sc, e, route, log), Run(0, x))
      && Step(With(sc, e, route, log), Run(0, x)) == With(AfterRun(sc, x), e, route, log)
  {
    hide AfterRun;
  }

  lemma {:induction false} ResultIs(sc: Sched, e: Entry, route: Option<Attrs>, log: seq<Call>, b: Bgp, b2: Bgp)
    requires sc.inflight.Some? && sc.inflight.value.resultDue && sc.inflight.value.live && sc.vip == "v"
      && e.cfg.prefix == "p"
    requires OnResult(e, route, sc.Name(), false, b, b2) == Effect(e, route, [])
    ensures var s := With(sc, e, route, log); var ev := DeliverResult(0, false, b, b2);
      Enabled(s, ev) && Step(s, ev) == With(AfterResult(sc), e, route, log)
  {
    hide OnResult, AfterResult;
    var s := With(sc, e, route, log);
    assert RouteAt(s, "p") == route;
    assert PutRoute(s.routes, "p", route) == s.routes;
    assert s.log + [] == s.log;
  }

  lemma {:induction false} TransitionIs(sc: Sched, e: Entry, route: Option<Attrs>, log: seq<Call>, b: Bgp)
    requires sc.inflight.Some? && !sc.inflight.value.resultDue && sc.inflight.value.transition.Some? && sc.vip == "v"
      && e.cfg.prefix == "p"
    ensures var s := With(sc, e, route, log); var ev := DeliverTransition(0, false, b);
      var f := OnTransition(e, route, sc.Name(), sc.inflight.value.transition.value, false, b);
      Enabled(s, ev) && (f.e.cfg == e.cfg ==> Step(s, ev) == With(sc.(inflight := None), f.e, f.route, log + f.calls))
  {
    hide OnTransition;
    var s := With(sc, e, route, log);
    assert RouteAt(s, "p") == route;
    var f := OnTransition(e, route, sc.Name(), sc.inflight.value.transition.value, false, b);
    RoutePut(route, f.route);
  }

  lemma RoutePut(route: Option<Attrs>, next: Option<Attrs>)
    ensures var routes: map<string, Attrs> := if route.Some? then map["p" := route.value] else map[];
      PutRoute(routes, "p", next) == if next.Some? then map["p" := next.value] else map[]
  {
  }

  /** What the policy manager makes of a transition of the only check. */
  lemma {:induction false} TransitionHeard(st: VipState, h: Health, route: Option<Attrs>, healthy: bool, b: Bgp)
    requires (healthy && st == Withdrawn && h == Unknown && b == Done)
      || (!healthy && st == Announced && h == Healthy && b != Done)
    ensures OnTransition(Held(st, h, false), route, "web", healthy, false, b) ==
      if healthy then Effect(Held(Announced, Healthy, false), Some(FULL), [Originate("p", FULL)])
      else Effect(Held(Withdrawn, Unhealthy, true), RouteAfter(route, Withdraw("p"), b), [Withdraw("p")])
  {
    var h' := if healthy then Healthy else Unhealthy;
    var checks := map["web" := h']["web" := h'];
    assert map["web" := h]["web" := h'] == map["web" := h'];
    assert HealthySet(map["web" := h']) == if healthy then {"web"} else {};
    assert "web" in map["web" := h'] && "web" in ["web"];
    assert Combine(Evaluator(Unset, ["web"]), map["web" := h']) == h';
  }

  /** A result changes nothing while the drain file is absent and nothing is pending. */
  lemma ResultHeard(st: VipState, h: Health, route: Option<Attrs>)
    requires (st == Withdrawn && h == Unknown) || (st == Announced && h == Healthy)
    ensures OnResult(Held(st, h, false), route, "web", false, Done, Done) == Effect(Held(st, h, false), route, [])
  {
  }

  // ------------------------------------------------------------------
  // Up to the announcement
  // ------------------------------------------------------------------

  /** The VIP is configured and waits for its first result. */
  lemma {:induction false} Configured() returns (evs: seq<Event>)
    ensures Reaches(EMPTY, evs, With(Live([]), Held(Withdrawn, Unknown, false), None, []))
  {
    hide Reaches, Enabled, Step, With;
    var build, add := Build(map[0 := Built("v", 0)]), AddVip(Simple("v", 0), map["web" := 0], false);
    NothingReaches();
    FirstBuild();
    ReachesMore(EMPTY, [], EMPTY, build);
    FirstAdd();
    ReachesMore(EMPTY, [] + [build], Step(EMPTY, build), add);
    evs := [] + [build] + [add];
  }

  lemma FirstBuild()
    ensures var build := Build(map[0 := Built("v", 0)]);
      Enabled(EMPTY, build) && Step(EMPTY, build) == EMPTY.(scheds := map[0 := Built("v", 0)], built := {0})
  {
  }

  lemma {:induction false} FirstAdd()
    ensures var s1 := EMPTY.(scheds := map[0 := Built("v", 0)], built := {0});
      var add := AddVip(Simple("v", 0), map["web" := 0], false);
      Enabled(s1, add) && Benign(s1, add) && Step(s1, add) == With(Live([]), Held(Withdrawn, Unknown, false), None, [])
  {
    hide ValidVip, ByName, StepAdd;
    SimpleIs("v", 0);
    AddedIs(EMPTY.(scheds := map[0 := Built("v", 0)], built := {0}));
  }

  lemma NothingReaches()
    ensures Reaches(EMPTY, [], EMPTY)
  {
  }

  lemma OneId(id: Id)
    ensures Ids(map["web" := id]) == {id}
  {
    assert map["web" := id]["web"] == id;
  }

  lemma {:induction false} AddedIs(s1: State)
    requires s1 == EMPTY.(scheds := map[0 := Built("v", 0)], built := {0})
    ensures StepAdd(s1, Simple("v", 0), map["web" := 0], false) ==
      With(Live([]), Held(Withdrawn, Unknown, false), None, [])
  {
    hide ValidVip, ByName;
    OneId(0);
    SimpleIs("v", 0);
    var t := StepAdd(s1, Simple("v", 0), map["web" := 0], false);
    assert (map n | n in ["web"] :: Unknown) == map["web" := Unknown];
    assert t.scheds == map[0 := Live([])] && t.running == map[0 := false] && t.built == {};
  }

  /** Its check rises and the route is installed. */
  lemma {:induction false} Announces() returns (evs: seq<Event>)
    ensures Reaches(EMPTY, evs, With(Live([true]), Held(Announced, Healthy, false), Some(FULL), [Originate("p", FULL)]))
  {
    hide Reaches, OnResult, OnTransition, Up, With, Enabled, Step;
    Ups();
    var e := Held(Withdrawn, Unknown, false);
    evs := Configured();
    RunIs(Live([]), e, None, [], true);
    ReachesMore(EMPTY, evs, With(Live([]), e, None, []), Run(0, true));
    evs := evs + [Run(0, true)];
    var sc := AfterRun(Live([]), true);
    assert [] + [true] == [true];
    ResultHeard(Withdrawn, Unknown, None);
    ResultIs(sc, e, None, [], Done, Done);
    ReachesMore(EMPTY, evs, With(sc, e, None, []), DeliverResult(0, false, Done, Done));
    evs := evs + [DeliverResult(0, false, Done, Done)];
    TransitionHeard(Withdrawn, Unknown, None, true, Done);
    TransitionIs(AfterResult(sc), e, None, [], Done);
    ReachesMore(EMPTY, evs, With(AfterResult(sc), e, None, []), DeliverTransition(0, false, Done));
    evs := evs + [DeliverTransition(0, false, Done)];
    assert [] + [Originate("p", FULL)] == [Originate("p", FULL)];
  }

  // ------------------------------------------------------------------
  // The hazards
  // ------------------------------------------------------------------

  /** The check falls and the withdraw fails. */
  lemma {:induction false} FailsToWithdraw() returns (evs: seq<Event>, s: State)
    ensures Reaches(EMPTY, evs, s)
    ensures s ==
      With(Live([true, false]), Held(Withdrawn, Unhealthy, true), Some(FULL), [Originate("p", FULL)] + [Withdraw("p")])
  {
    hide Reaches, OnResult, OnTransition, Up, With, Enabled, Step;
    Ups();
    var e, r, log := Held(Announced, Healthy, false), Some(FULL), [Originate("p", FULL)];
    evs := Announces();
    RunIs(Live([true]), e, r, log, false);
    ReachesMore(EMPTY, evs, With(Live([true]), e, r, log), Run(0, false));
    evs := evs + [Run(0, false)];
    var sc := AfterRun(Live([true]), false);
    assert [true] + [false] == [true, false];
    ResultHeard(Announced, Healthy, r);
    ResultIs(sc, e, r, log, Done, Done);
    ReachesMore(EMPTY, evs, With(sc, e, r, log), DeliverResult(0, false, Done, Done));
    evs := evs + [DeliverResult(0, false, Done, Done)];
    TransitionHeard(Announced, Healthy, r, false, Kept);
    TransitionIs(AfterResult(sc), e, r, log, Kept);
    ReachesMore(EMPTY, evs, With(AfterResult(sc), e, r, log), DeliverTransition(0, false, Kept));
    evs := evs + [DeliverTransition(0, false, Kept)];
    s := With(Live([true, false]), Held(Withdrawn, Unhealthy, true), r, log + [Withdraw("p")]);
  }

  /**
    A run after which the VIP whose withdraw failed is removed: nothing is withdrawn, and its route
    is left without an owner.
   */
  lemma {:induction false} OrphanRoute(b: Bgp) returns (evs: seq<Event>, s: State)
    ensures Reaches(EMPTY, evs, s) && Enabled(s, RemoveVip("v", b)) && !Benign(s, RemoveVip("v", b))
    ensures var t := Step(s, RemoveVip("v", b));
      "v" !in t.vips && RouteAt(t, "p") == Some(FULL) && t.log == s.log
        && forall n :: n in t.vips ==> t.vips[n].cfg.prefix != "p"
  {
    hide Reaches;
    evs, s := FailsToWithdraw();
  }

  /**
    A run in which a VIP is announced, a reload cannot withdraw it, and the same reload has built
    the scheduler of another VIP on its prefix: adding that one gives the prefix two owners.
   */
  lemma {:induction false} SharedPrefix(seen: bool) returns (evs: seq<Event>, s: State, add: Event)
    ensures Reaches(EMPTY, evs, s) && add.AddVip? && Enabled(s, add) && !Benign(s, add)
    ensures "v" in s.vips && s.log != [] && s.log[|s.log| - 1] == Withdraw("p") && RouteAt(s, "p") == Some(FULL)
    ensures var t := Step(s, add);
      add.v.name in t.vips && add.v.name != "v" && t.vips["v"].cfg.prefix == t.vips[add.v.name].cfg.prefix
  {
    hide Reaches, Enabled, Step, With;
    evs := Announces();
    var s0 := With(Live([true]), Held(Announced, Healthy, false), Some(FULL), [Originate("p", FULL)]);
    var build := Build(map[1 := Built("w", 0)]);
    s := s0.(scheds := s0.scheds + map[1 := Built("w", 0)], built := s0.built + {1}, log := s0.log + [Withdraw("p")]);
    Stays(s0);
    ReachesMore(EMPTY, evs, s0, build);
    ReachesMore(EMPTY, evs + [build], Step(s0, build), RemoveVip("v", Kept));
    evs := evs + [build] + [RemoveVip("v", Kept)];
    add := AddVip(Simple("w", 0), map["web" := 1], seen);
    TwoOwners(s, seen);
  }

  lemma {:induction false} Stays(s0: State)
    requires s0 == With(Live([true]), Held(Announced, Healthy, false), Some(FULL), [Originate("p", FULL)])
    ensures var build, remove := Build(map[1 := Built("w", 0)]), RemoveVip("v", Kept);
      var s1 := s0.(scheds := s0.scheds + map[1 := Built("w", 0)], built := s0.built + {1});
      && Enabled(s0, build) && Step(s0, build) == s1 && Enabled(s1, remove) && Benign(s1, remove)
      && Step(s1, remove) == s1.(log := s0.log + [Withdraw("p")])
  {
    hide StepRemove, Quiet;
    var s1 := s0.(scheds := s0.scheds + map[1 := Built("w", 0)], built := s0.built + {1});
    StaysQuiet(s1);
    NotWithdrawn(s1);
  }

  lemma StaysQuiet(s: State)
    requires s.visible == map["v" := map["web" := 0]] && 0 in s.scheds && s.scheds[0] == Live([true])
    ensures Quiet(s, Ids(Visible(s, "v")))
  {
  }

  lemma NotWithdrawn(s: State)
    requires "v" in s.vips && s.vips["v"] == Held(Announced, Healthy, false)
    ensures StepRemove(s, "v", Kept) == s.(log := s.log + [Withdraw("p")])
  {
  }

  lemma {:induction false} TwoOwners(s: State, seen: bool)
    requires var s0 := With(Live([true]), Held(Announced, Healthy, false), Some(FULL), [Originate("p", FULL)]);
      s == s0.(scheds := s0.scheds + map[1 := Built("w", 0)], built := s0.built + {1}, log := s0.log + [Withdraw("p")])
    ensures var add := AddVip(Simple("w", 0), map["web" := 1], seen);
      && Enabled(s, add) && !Benign(s, add) && "v" in s.vips && s.log != [] && s.log[|s.log| - 1] == Withdraw("p")
         && RouteAt(s, "p") == Some(FULL)
      && var t := Step(s, add); "w" in t.vips && "v" in t.vips && t.vips["v"].cfg.prefix == t.vips["w"].cfg.prefix
  {
    hide ValidVip, ByName;
    SimpleIs("w", 0);
    assert s.vips["v"].cfg.prefix == "p";
  }
}
