/**
  The daemon as one transition system: schedulers, registry, policy manager, originated
  routes and the reloader's stagings. Every event is one critical section of the program;
  events of different schedulers and of the reloader interleave in any order.

  The registry is seen by check name here (`visible[vip][check]` is the listed scheduler);
  module `Registry` proves that its lists are such maps.
 */
module System {
  import opened Config
  import opened Hysteresis
  import opened Policy

  type Id = nat

  /** Callbacks captured by a finished run and not delivered yet: the result first, then the transition. */
  datatype Inflight = Inflight(live: bool, resultDue: bool, transition: Option<bool>)

  /**
    A scheduler. `live` tells whether its callbacks lead to the policy manager, `seeded` whether a
    commit seeded its check.
   */
  datatype Sched = Sched(vip: string, check: Check, guard: (bool, string), hist: seq<bool>,
                         live: bool, seeded: bool, inflight: Option<Inflight>)
  {
    function Name(): string { check.EffectiveName() }
    predicate IsUp() { Up(hist, check.Rise(), check.Fall()) }
    predicate WasUp() { EverUp(hist, check.Rise(), check.Fall()) }
    predicate HasVerdict() { Decided(hist, check.Rise(), check.Fall()) }
    predicate HadVerdict() { EverDecided(hist, check.Rise(), check.Fall()) }

    /** The health the policy manager should hold: unknown until the check first rose or was seeded. */
    function Known(): Health {
      if IsUp() then Healthy else if seeded || WasUp() then Unhealthy else Unknown
    }
  }

  datatype Staged = Staged(cfg: Vip, was: Vip, shadows: map<string, Id>, verdicts: set<string>,
                           removed: set<string>, at: nat, deadline: nat)

  datatype State = State(
    scheds: map<Id, Sched>, built: set<Id>, closed: multiset<Id>,
    visible: map<string, map<string, Id>>, running: map<Id, bool>,
    vips: map<string, Entry>, routes: map<string, Attrs>, log: seq<Call>,
    staging: map<string, Staged>, queue: seq<Id>, drained: seq<Id>)

  datatype Event =
    | Run(id: Id, success: bool)
    | DeliverResult(id: Id, seen: bool, b: Bgp, b2: Bgp)
    | DeliverTransition(id: Id, seen: bool, b: Bgp)
    | Build(news: map<Id, Sched>)
    | CloseBuilt(unused: set<Id>)
    | DropStaging
    | RemoveVip(name: string, b: Bgp)
    | AddVip(v: Vip, ids: map<string, Id>, seen: bool)
    | CommitNow(v: Vip, seen: bool, b: Bgp)
    | Stage(v: Vip, ids: map<string, Id>, at: nat)
    | DrainQueue
    | Report(seen: bool, b: Bgp)
    | Expire(name: string, now: nat, seen: bool, b: Bgp)

  // ------------------------------------------------------------------
  // Steps
  // ------------------------------------------------------------------

  function RouteAt(s: State, p: string): Option<Attrs> {
    if p in s.routes then Some(s.routes[p]) else None
  }

  function PutRoute(routes: map<string, Attrs>, p: string, r: Option<Attrs>): map<string, Attrs> {
    if r.Some? then routes[p := r.value] else routes - {p}
  }

  function Install(s: State, n: string, f: Effect): State {
    s.(vips := s.vips[n := f.e], routes := PutRoute(s.routes, f.e.cfg.prefix, f.route), log := s.log + f.calls)
  }

  function AfterRun(sc: Sched, success: bool): Sched {
    var next := sc.(hist := sc.hist + [success]);
    var t := if sc.live && next.IsUp() != sc.IsUp() then Some(next.IsUp()) else None;
    next.(inflight := Some(Inflight(sc.live, true, t)))
  }

  function AfterResult(sc: Sched): Sched
    requires sc.inflight.Some?
  {
    sc.(inflight := if sc.inflight.value.transition.None? then None else Some(sc.inflight.value.(resultDue := false)))
  }

  /** A visible scheduler's result reaches the policy manager. */
  function ToPolicy(s: State, sc: Sched, seen: bool, b: Bgp, b2: Bgp): State {
    if sc.vip !in s.vips then s else
    var e := s.vips[sc.vip];
    Install(s, sc.vip, OnResult(e, RouteAt(s, e.cfg.prefix), sc.Name(), seen, b, b2))
  }

  /** A shadow's result reaches the verdict queue once a threshold is reached. */
  function ToQueue(s: State, id: Id, sc: Sched): State {
    if sc.HasVerdict() && id !in s.queue then s.(queue := s.queue + [id]) else s
  }

  function StepResult(s: State, id: Id, seen: bool, b: Bgp, b2: Bgp): State
    requires id in s.scheds && s.scheds[id].inflight.Some?
  {
    var sc := s.scheds[id];
    var s1 := s.(scheds := s.scheds[id := AfterResult(sc)]);
    if sc.inflight.value.live then ToPolicy(s1, sc, seen, b, b2) else ToQueue(s1, id, sc)
  }

  function StepTransition(s: State, id: Id, seen: bool, b: Bgp): State
    requires id in s.scheds && s.scheds[id].inflight.Some? && s.scheds[id].inflight.value.transition.Some?
  {
    var sc := s.scheds[id];
    var s1 := s.(scheds := s.scheds[id := sc.(inflight := None)]);
    if sc.vip !in s.vips then s1 else
    var e := s.vips[sc.vip];
    Install(s1, sc.vip,
      OnTransition(e, RouteAt(s, e.cfg.prefix), sc.Name(), sc.inflight.value.transition.value, seen, b))
  }

  function ShadowIds(staging: map<string, Staged>): set<Id> {
    set n, c | n in staging && c in staging[n].shadows :: staging[n].shadows[c]
  }

  function StepDrop(s: State): State {
    var gone := ShadowIds(s.staging);
    s.(running := s.running - gone, closed := s.closed + multiset(gone), staging := map[], queue := [])
  }

  function Visible(s: State, n: string): map<string, Id> {
    if n in s.visible then s.visible[n] else map[]
  }

  function Ids(m: map<string, Id>): set<Id> { set c | c in m :: m[c] }

  /** A removal that has to withdraw a route and cannot: the VIP and its checks stay. */
  predicate RemovalFails(s: State, n: string, b: Bgp) {
    n in s.vips && s.vips[n].state != Withdrawn && b != Done
  }

  function StepRemove(s: State, n: string, b: Bgp): State
    requires n in s.vips
  {
    var e := s.vips[n];
    var withdraws := e.state != Withdrawn;
    var s1 := s.(log := s.log + if withdraws then [Withdraw(e.cfg.prefix)] else []);
    if withdraws && b != Done then s1 else
    var gone := Ids(Visible(s, n));
    s1.(vips := s.vips - {n}, visible := s.visible - {n}, running := s.running - gone,
        closed := s.closed + multiset(gone),
        routes := if withdraws then s.routes - {e.cfg.prefix} else s.routes)
  }

  function Enlist(scheds: map<Id, Sched>, ids: set<Id>, seeded: bool): map<Id, Sched> {
    map id | id in scheds :: if id in ids then scheds[id].(live := true, seeded := seeded) else scheds[id]
  }

  function Mark(running: map<Id, bool>, ids: set<Id>, shadow: bool): map<Id, bool> {
    map id | id in running.Keys + ids :: if id in ids then shadow else running[id]
  }

  function StepAdd(s: State, v: Vip, ids: map<string, Id>, seen: bool): State {
    s.(vips := s.vips[v.name := NewEntry(v, seen)], visible := s.visible[v.name := ids],
       running := Mark(s.running, Ids(ids), false), built := s.built - Ids(ids),
       scheds := Enlist(s.scheds, Ids(ids), false))
  }

  function RemovedNames(was: Vip, v: Vip): set<string> {
    was.Checks().Keys - v.Checks().Keys
  }

  function ChangedNames(was: Vip, v: Vip): set<string> {
    set c | c in v.Checks() && (c !in was.Checks() || was.Guard() != v.Guard() || was.Checks()[c] != v.Checks()[c])
  }

  /** Check `c` of `v` is new, redefined or under another guard. */
  predicate Differs(was: Vip, v: Vip, c: Check) {
    c.EffectiveName() !in was.Checks() || was.Guard() != v.Guard() || was.Checks()[c.EffectiveName()] != c
  }

  /** The checks of a list that must prove themselves, in config order. */
  function Proving(was: Vip, v: Vip, list: seq<Check>): seq<Check> {
    if list == [] then [] else
    var k := |list| - 1;
    Proving(was, v, list[..k]) + if Differs(was, v, list[k]) then [list[k]] else []
  }

  /** How long a check can take to decide: its larger threshold, at one probe per interval. */
  function Window(c: Check): int {
    (if c.Rise() > c.Fall() then c.Rise() else c.Fall()) * c.Interval()
  }

  /** The longest window of the list. */
  function MaxWindow(list: seq<Check>): nat {
    if list == [] then 0 else
    var before, last := MaxWindow(list[..|list| - 1]), Window(list[|list| - 1]);
    if last > before then last else before
  }

  const GRACE := 4

  /** When a staging of `v` over `was` is committed whatever its shadows say. */
  function DeadlineFor(at: nat, was: Vip, v: Vip): nat {
    at + GRACE * MaxWindow(Proving(was, v, v.CheckList()))
  }

  function Picked(m: map<string, Id>, names: set<string>): set<Id> {
    set c | c in m && c in names :: m[c]
  }

  /** Stop and close the visible schedulers of the given checks. */
  function Retire(s: State, n: string, names: set<string>): State {
    var gone := Picked(Visible(s, n), names);
    s.(visible := s.visible[n := Visible(s, n) - names], running := s.running - gone,
      closed := s.closed + multiset(gone))
  }

  function CommitPolicy(s: State, v: Vip, seeds: map<string, Health>, seen: bool, b: Bgp): State {
    if v.name in s.vips && Committable(s.vips[v.name], v, seeds) then
      var e := s.vips[v.name];
      Install(s, v.name, Commit(e, RouteAt(s, e.cfg.prefix), v, seeds, seen, b))
    else s
  }

  function StepStage(s: State, v: Vip, ids: map<string, Id>, at: nat): State
    requires v.name in s.vips
  {
    var was := s.vips[v.name].cfg;
    s.(staging := s.staging[v.name := Staged(v, was, ids, {}, RemovedNames(was, v), at, DeadlineFor(at, was, v))],
       running := Mark(s.running, Ids(ids), true), built := s.built - Ids(ids))
  }

  function Seeds(scheds: map<Id, Sched>, shadows: map<string, Id>): map<string, Health> {
    map c | c in shadows && shadows[c] in scheds :: if scheds[shadows[c]].IsUp() then Healthy else Unhealthy
  }

  /** Promote every shadow in place of the visible scheduler of the same check. */
  function Promote(s: State, n: string, shadows: map<string, Id>): State {
    s.(visible := s.visible[n := Visible(s, n) + shadows], running := Mark(s.running, Ids(shadows), false),
       scheds := Enlist(s.scheds, Ids(shadows), true))
  }

  /** Replace a VIP's definition: retire the removed and replaced checks, promote the shadows, commit. */
  function Switch(s: State, v: Vip, shadows: map<string, Id>, removed: set<string>, seen: bool, b: Bgp): State {
    CommitPolicy(Promote(Retire(s, v.name, removed + shadows.Keys), v.name, shadows), v, Seeds(s.scheds, shadows),
      seen, b)
  }

  /** An immediate change: checks were only dropped, or the policy changed. */
  function StepCommitNow(s: State, v: Vip, seen: bool, b: Bgp): State
    requires v.name in s.vips
  {
    Switch(s, v, map[], RemovedNames(s.vips[v.name].cfg, v), seen, b)
  }

  /** `commitLocked`; the final compare finds nothing, as no run fits inside the event. */
  function StepCommit(s: State, n: string, seen: bool, b: Bgp): State
    requires n in s.staging
  {
    var st := s.staging[n];
    Switch(s.(staging := s.staging - {n}), st.cfg, st.shadows, st.removed, seen, b)
  }

  /** The staging a drained verdict belongs to, if it was not superseded. */
  predicate Current(s: State, id: Id) {
    && id in s.scheds && s.scheds[id].vip in s.staging
    && var st := s.staging[s.scheds[id].vip];
       s.scheds[id].Name() in st.shadows && st.shadows[s.scheds[id].Name()] == id
  }

  function Noted(st: Staged, c: string): Staged { st.(verdicts := st.verdicts + {c}) }

  function StepReport(s: State, seen: bool, b: Bgp): State
    requires s.drained != []
  {
    var id := s.drained[0];
    var s1 := s.(drained := s.drained[1..]);
    if !Current(s, id) then s1 else
    var sc := s.scheds[id];
    var st := Noted(s.staging[sc.vip], sc.Name());
    var s2 := s1.(staging := s.staging[sc.vip := st]);
    if |st.verdicts| < |st.shadows| then s2 else StepCommit(s2, sc.vip, seen, b)
  }

  function Step(s: State, ev: Event): State
    requires Enabled(s, ev)
  {
    match ev
    case Run(id, success) => s.(scheds := s.scheds[id := AfterRun(s.scheds[id], success)])
    case DeliverResult(id, seen, b, b2) => StepResult(s, id, seen, b, b2)
    case DeliverTransition(id, seen, b) => StepTransition(s, id, seen, b)
    case Build(news) => s.(scheds := s.scheds + news, built := s.built + news.Keys)
    case CloseBuilt(ids) => s.(built := s.built - ids, closed := s.closed + multiset(ids))
    case DropStaging => StepDrop(s)
    case RemoveVip(n, b) => StepRemove(s, n, b)
    case AddVip(v, ids, seen) => StepAdd(s, v, ids, seen)
    case CommitNow(v, seen, b) => StepCommitNow(s, v, seen, b)
    case Stage(v, ids, at) => StepStage(s, v, ids, at)
    case DrainQueue => s.(drained := s.drained + s.queue, queue := [])
    case Report(seen, b) => StepReport(s, seen, b)
    case Expire(n, _, seen, b) => StepCommit(s, n, seen, b)
  }

  // ------------------------------------------------------------------
  // When an event can happen
  // ------------------------------------------------------------------

  predicate Quiet(s: State, ids: set<Id>) {
    forall id :: id in ids && id in s.scheds ==> s.scheds[id].inflight.None?
  }

  predicate IsNew(sc: Sched) {
    sc.hist == [] && !sc.live && !sc.seeded && sc.inflight.None?
  }

  /** Freshly built schedulers for the named checks of `v`, not yet handed to the registry. */
  predicate BuiltFor(s: State, v: Vip, ids: map<string, Id>) {
    forall c :: c in ids ==>
      && ids[c] in s.built && ids[c] in s.scheds
      && IsNew(s.scheds[ids[c]]) && Governs(s.scheds[ids[c]], v, c)
  }

  /** The scheduler was built from check `c` of definition `v`. */
  predicate Governs(sc: Sched, v: Vip, c: string) {
    sc.vip == v.name && sc.Name() == c && c in v.Checks() && sc.check == v.Checks()[c] && sc.guard == v.Guard()
  }

  /** A stopped scheduler is waited for, so its callbacks were delivered: that is what `Quiet` says. */
  predicate Enabled(s: State, ev: Event) {
    match ev
    case Run(id, _) => id in s.running && id in s.scheds && s.scheds[id].inflight.None?
    case DeliverResult(id, _, _, _) => id in s.scheds && s.scheds[id].inflight.Some?
      && s.scheds[id].inflight.value.resultDue
    case DeliverTransition(id, _, _) =>
      id in s.scheds && s.scheds[id].inflight.Some?
      && !s.scheds[id].inflight.value.resultDue && s.scheds[id].inflight.value.transition.Some?
    case Build(news) => news.Keys !! s.scheds.Keys && forall id :: id in news ==> IsNew(news[id])
    case CloseBuilt(ids) => ids <= s.built
    case DropStaging => Quiet(s, ShadowIds(s.staging))
    case RemoveVip(n, _) => n in s.vips && n !in s.staging && Quiet(s, Ids(Visible(s, n)))
    case AddVip(v, ids, _) =>
      v.name !in s.vips && ValidVip(v) && ids.Keys == v.Checks().Keys && BuiltFor(s, v, ids)
    case CommitNow(v, _, _) =>
      && v.name in s.vips && v.name !in s.staging && ValidVip(v)
      && var was := s.vips[v.name].cfg;
         && v.prefix == was.prefix && ChangedNames(was, v) == {}
         && Quiet(s, Picked(Visible(s, v.name), RemovedNames(was, v)))
    case Stage(v, ids, at) =>
      && v.name in s.vips && v.name !in s.staging && ValidVip(v)
      && var was := s.vips[v.name].cfg;
         && v.prefix == was.prefix && ids.Keys == ChangedNames(was, v) && ids != map[]
         && BuiltFor(s, v, ids)
    case DrainQueue => s.drained == []
    case Report(_, _) => s.drained != [] && (Completes(s) ==> CommitQuiet(s, s.scheds[s.drained[0]].vip))
    case Expire(n, now, _, _) => n in s.staging && now >= s.staging[n].deadline && CommitQuiet(s, n)
  }

  predicate CommitQuiet(s: State, n: string)
    requires n in s.staging
  {
    Quiet(s, Picked(Visible(s, n), s.staging[n].removed + s.staging[n].shadows.Keys))
  }

  /** The next drained verdict is the last one its staging waits for. */
  predicate Completes(s: State) {
    && s.drained != [] && Current(s, s.drained[0])
    && var sc := s.scheds[s.drained[0]];
       |Noted(s.staging[sc.vip], sc.Name()).verdicts| >= |s.staging[sc.vip].shadows|
  }
}
