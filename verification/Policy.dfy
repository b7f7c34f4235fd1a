/**
  What the policy manager computes for one VIP: the combined health of its checks,
  the routing state, the attributes of the route and the BGP call that installs it.
  The manager object itself is in module `PolicyManager`.
 */
module Policy {
  import opened Config

  datatype Health = Unknown | Healthy | Unhealthy
  datatype VipState = Withdrawn | Announced | Pessimized
  datatype Attrs = Attrs(prepend: int, communities: seq<string>)

  // ------------------------------------------------------------------
  // checks_policy
  // ------------------------------------------------------------------

  datatype Evaluator = Evaluator(policy: ChecksPolicy, names: seq<string>)

  predicate Holds(ev: Evaluator, healthy: set<string>) {
    match ev.policy
    case Unset => ev.names != [] && forall n :: n in ev.names ==> n in healthy
    case All => ev.names != [] && forall n :: n in ev.names ==> n in healthy
    case Any => exists n :: n in ev.names && n in healthy
    case Expression(e) => Truth(e, set n | n in ev.names && n in healthy)
  }

  function HealthySet(checks: map<string, Health>): set<string> {
    set n | n in checks && checks[n] == Healthy
  }

  predicate NoneKnown(checks: map<string, Health>) {
    forall n :: n in checks ==> checks[n] == Unknown
  }

  /** Unknown only while no check has reported; an unknown check counts as not healthy. */
  function Combine(ev: Evaluator, checks: map<string, Health>): Health {
    if NoneKnown(checks) then Unknown
    else if Holds(ev, HealthySet(checks)) then Healthy
    else Unhealthy
  }

  // ------------------------------------------------------------------
  // State and attributes
  // ------------------------------------------------------------------

  function Evaluate(healthy: bool, drained: bool, r: Routing): VipState {
    if healthy then (if drained then Pessimized else Announced)
    else if r.failAction.OnFailLower? then Pessimized
    else Withdrawn
  }

  const DEFAULT_LOWER_PREPEND := 6

  function BaseAttrs(r: Routing): Attrs {
    if r.announce.None? then Attrs(0, []) else
    Attrs(if r.announce.value.prepend.Some? then r.announce.value.prepend.value else 0, r.announce.value.communities)
  }

  function LowerPrepend(r: Routing): int {
    if r.lower.Some? && r.lower.value.prepend.Some? then r.lower.value.prepend.value else DEFAULT_LOWER_PREPEND
  }

  function LowerCommunities(r: Routing): seq<string> {
    if r.lower.Some? then r.lower.value.communities else []
  }

  /** The list without the later copies of any element. */
  function Dedup(s: seq<string>): seq<string> {
    if s == [] then [] else
    var rest := Dedup(s[..|s| - 1]);
    if s[|s| - 1] in rest then rest else rest + [s[|s| - 1]]
  }

  function RouteAttrs(r: Routing, st: VipState): Attrs {
    match st
    case Withdrawn => Attrs(0, [])
    case Announced => BaseAttrs(r)
    case Pessimized =>
      var base := BaseAttrs(r);
      Attrs(base.prepend + LowerPrepend(r), Dedup(base.communities + LowerCommunities(r)))
  }

  /** The route a VIP in the given state should have. */
  function Wanted(r: Routing, st: VipState): Option<Attrs> {
    if st == Withdrawn then None else Some(RouteAttrs(r, st))
  }

  // ------------------------------------------------------------------
  // BGP calls
  // ------------------------------------------------------------------

  /**
    Outcome of one originator call: done, failed with the old route kept, or failed after the old
    route was deleted.
   */
  datatype Bgp = Done | Kept | Dropped

  datatype Call = Originate(prefix: string, attrs: Attrs) | Withdraw(prefix: string)

  function CallFor(cfg: Vip, st: VipState): Call {
    if st == Withdrawn then Withdraw(cfg.prefix) else Originate(cfg.prefix, RouteAttrs(cfg.routing, st))
  }

  /** The route at the call's prefix afterwards. */
  function RouteAfter(route: Option<Attrs>, call: Call, b: Bgp): Option<Attrs> {
    match (call, b)
    case (Originate(_, a), Done) => Some(a)
    case (Originate(_, _), Dropped) => None
    case (Withdraw(_), Done) => None
    case (_, _) => route
  }

  // ------------------------------------------------------------------
  // One VIP
  // ------------------------------------------------------------------

  datatype Entry = Entry(cfg: Vip, eval: Evaluator, state: VipState, health: Health,
                         checks: map<string, Health>, drained: bool, pending: bool)

  /** An entry after an operation, the route at its prefix, and the BGP calls the operation made. */
  datatype Effect = Effect(e: Entry, route: Option<Attrs>, calls: seq<Call>)

  predicate FilePresent(cfg: Vip, seen: bool) {
    cfg.routing.drainFile != "" && seen
  }

  /** `newVIPEntry`: withdrawn, nothing known; an expression that does not compile falls back to `all`. */
  function NewEntry(cfg: Vip, seen: bool): Entry {
    var names := Names(cfg.CheckList());
    Entry(cfg, Evaluator(if Compiles(cfg.checksPolicy, names) then cfg.checksPolicy else All, names),
          Withdrawn, Unknown, map n | n in names :: Unknown, FilePresent(cfg, seen), false)
  }

  /** `transitionStateLocked`. */
  function Transition(e: Entry, route: Option<Attrs>, st: VipState, b: Bgp): Effect {
    if st == e.state then Effect(e, route, []) else
    var call := CallFor(e.cfg, st);
    Effect(e.(state := st, pending := b != Done), RouteAfter(route, call, b), [call])
  }

  /** The routing state that the health and the recorded drain flag call for. */
  function Due(health: Health, drained: bool, r: Routing): VipState {
    if health == Unknown then Withdrawn else Evaluate(health == Healthy, drained, r)
  }

  /** Move to the state that the health and the drain flag call for. */
  function Follow(e: Entry, route: Option<Attrs>, b: Bgp): Effect {
    Transition(e, route, Due(e.health, e.drained, e.cfg.routing), b)
  }

  /** The check a callback is about: the named one, or the only one when the name is not known. */
  function Target(checks: map<string, Health>, name: string): Option<string> {
    if name in checks then Some(name)
    else if |checks| == 1 then
      OnlyOne(checks);
      var n :| n in checks && checks.Keys == {n};
      Some(n)
    else None
  }

  lemma OnlyOne(checks: map<string, Health>)
    requires |checks| == 1
    ensures exists n :: n in checks && checks.Keys == {n}
  {
    assert checks.Keys != {};
    var x :| x in checks;
    assert checks.Keys == {x} + (checks.Keys - {x});
    assert |checks.Keys - {x}| == 0;
  }

  /** `OnHealthTransition`. */
  function OnTransition(e: Entry, route: Option<Attrs>, name: string, healthy: bool, seen: bool, b: Bgp): Effect {
    match Target(e.checks, name)
    case None => Effect(e, route, [])
    case Some(n) => Heard(e, route, n, if healthy then Healthy else Unhealthy, seen, b)
  }

  /** A check changed its health. */
  function Heard(e: Entry, route: Option<Attrs>, n: string, health: Health, seen: bool, b: Bgp): Effect {
    var e1 := e.(checks := e.checks[n := health]);
    var h := Combine(e.eval, e1.checks);
    if h == e.health then Effect(e1, route, [])
    else Follow(e1.(health := h, drained := FilePresent(e.cfg, seen)), route, b)
  }

  /** The first half of `OnCheckResult`: record the drain file and follow it. */
  function Reevaluate(e: Entry, route: Option<Attrs>, seen: bool, b: Bgp): Effect {
    var e1 := e.(drained := FilePresent(e.cfg, seen));
    if e.health == Unknown then Effect(e1, route, []) else Follow(e1, route, b)
  }

  /** The second half of `OnCheckResult`: retry a BGP operation that failed. */
  function Retry(f: Effect, b: Bgp): Effect {
    if !f.e.pending then f else
    var call := CallFor(f.e.cfg, f.e.state);
    Effect(f.e.(pending := b != Done), RouteAfter(f.route, call, b), f.calls + [call])
  }

  function OnResult(e: Entry, route: Option<Attrs>, name: string, seen: bool, b: Bgp, b2: Bgp): Effect {
    if Target(e.checks, name).None? then Effect(e, route, [])
    else Retry(Reevaluate(e, route, seen, b), b2)
  }

  /** Check states after a commit: a seed if there is one, else the running state. */
  function Merged(checks: map<string, Health>, cfg: Vip, seeds: map<string, Health>): map<string, Health> {
    map n | n in Names(cfg.CheckList()) && (n in seeds || n in checks) :: if n in seeds then seeds[n] else checks[n]
  }

  predicate Committable(e: Entry, cfg: Vip, seeds: map<string, Health>) {
    && e.cfg.prefix == cfg.prefix
    && (forall n :: n in Names(cfg.CheckList()) ==> n in seeds || n in e.checks)
    && Compiles(cfg.checksPolicy, Names(cfg.CheckList()))
  }

  /** The entry under the new definition, before its routing state is looked at. */
  function Prepared(e: Entry, cfg: Vip, seeds: map<string, Health>, seen: bool): Entry {
    var checks := Merged(e.checks, cfg, seeds);
    var eval := Evaluator(cfg.checksPolicy, Names(cfg.CheckList()));
    var h := Combine(eval, checks);
    Entry(cfg, eval, e.state, h, checks, if h == Unknown then e.drained else FilePresent(cfg, seen), e.pending)
  }

  /** `CommitVIP` on a registered VIP whose new definition it accepts. */
  function Commit(e: Entry, route: Option<Attrs>, cfg: Vip, seeds: map<string, Health>, seen: bool, b: Bgp): Effect
    requires Committable(e, cfg, seeds)
  {
    var p := Prepared(e, cfg, seeds, seen);
    if p.health == Unknown then Effect(p, route, []) else Recommit(p, e.cfg.routing, route, b)
  }

  /** The end of `CommitVIP`: a new state, or new attributes in the same state, or a retry. */
  function Recommit(e: Entry, was: Routing, route: Option<Attrs>, b: Bgp): Effect {
    var st := Due(e.health, e.drained, e.cfg.routing);
    if st != e.state then Follow(e, route, b)
    else if st != Withdrawn && (e.pending || RouteAttrs(was, st) != RouteAttrs(e.cfg.routing, st)) then
      var call := CallFor(e.cfg, st);
      Effect(e.(pending := b != Done), RouteAfter(route, call, b), [call])
    else Effect(e, route, [])
  }

  // ------------------------------------------------------------------
  // What every operation keeps
  // ------------------------------------------------------------------

  /** The check states belong to the definition and the health is their combination. */
  ghost predicate Coherent(cfg: Vip, eval: Evaluator, checks: map<string, Health>, health: Health) {
    && ValidVip(cfg)
    && eval == Evaluator(cfg.checksPolicy, Names(cfg.CheckList()))
    && checks.Keys == cfg.Checks().Keys
    && health == Combine(eval, checks)
  }

  ghost predicate EntryOk(e: Entry) {
    Coherent(e.cfg, e.eval, e.checks, e.health) && e.state == Due(e.health, e.drained, e.cfg.routing)
  }

  /** Unless an operation is pending, the installed route is the one the state asks for. */
  predicate RouteOk(e: Entry, route: Option<Attrs>) {
    e.pending || route == Wanted(e.cfg.routing, e.state)
  }

  ghost predicate EffectOk(f: Effect) {
    EntryOk(f.e) && RouteOk(f.e, f.route)
  }

  lemma FollowOk(e: Entry, route: Option<Attrs>, b: Bgp)
    requires RouteOk(e, route) || e.state != Due(e.health, e.drained, e.cfg.routing)
    ensures var f := Follow(e, route, b);
      RouteOk(f.e, f.route) && f.e == e.(state := Due(e.health, e.drained, e.cfg.routing), pending := f.e.pending)
  {
  }

  lemma RecommitOk(e: Entry, was: Routing, route: Option<Attrs>, b: Bgp)
    requires e.pending || route == Wanted(was, e.state)
    ensures var f := Recommit(e, was, route, b);
      var due := Due(e.health, e.drained, e.cfg.routing);
      && RouteOk(f.e, f.route) && f.e == e.(state := due, pending := f.e.pending)
      && (due != Withdrawn ==> f.calls == [] || f.calls == [Originate(e.cfg.prefix, RouteAttrs(e.cfg.routing, due))])
      && (due != Withdrawn && b == Done ==> f.route == Wanted(e.cfg.routing, due))
  {
  }

  lemma {:induction false} RetryOk(f: Effect, b: Bgp)
    requires EffectOk(f)
    ensures EffectOk(Retry(f, b)) && Retry(f, b).e == f.e.(pending := Retry(f, b).e.pending)
  {
  }

  lemma {:induction false} NewEntryOk(cfg: Vip, seen: bool)
    requires ValidVip(cfg)
    ensures EntryOk(NewEntry(cfg, seen)) && RouteOk(NewEntry(cfg, seen), None)
  {
    ByNameIs(cfg.CheckList());
  }

  lemma {:induction false} HeardOk(e: Entry, route: Option<Attrs>, n: string, health: Health, seen: bool, b: Bgp)
    requires EntryOk(e) && RouteOk(e, route) && n in e.checks
    ensures var f := Heard(e, route, n, health, seen, b);
      EffectOk(f) && f.e.cfg == e.cfg && f.e.checks == e.checks[n := health]
  {
    hide ValidVip, Combine, Follow, Wanted, Names;
    var e1 := e.(checks := e.checks[n := health]);
    assert e1.checks.Keys == e.checks.Keys;
    var h := Combine(e.eval, e1.checks);
    if h != e.health {
      FollowOk(e1.(health := h, drained := FilePresent(e.cfg, seen)), route, b);
    }
  }

  lemma {:induction false} OnTransitionOk(e: Entry, route: Option<Attrs>, name: string, healthy: bool, seen: bool,
                                          b: Bgp)
    requires EntryOk(e) && RouteOk(e, route)
    ensures var f := OnTransition(e, route, name, healthy, seen, b);
      && EffectOk(f) && f.e.cfg == e.cfg
      && (name in e.checks ==> f.e.checks == e.checks[name := if healthy then Healthy else Unhealthy])
  {
    hide EntryOk, RouteOk, Heard;
    var t := Target(e.checks, name);
    if t.Some? {
      HeardOk(e, route, t.value, if healthy then Healthy else Unhealthy, seen, b);
    }
  }

  lemma {:induction false} OnResultOk(e: Entry, route: Option<Attrs>, name: string, seen: bool, b: Bgp, b2: Bgp)
    requires EntryOk(e) && RouteOk(e, route)
    ensures var f := OnResult(e, route, name, seen, b, b2);
      EffectOk(f) && f.e.cfg == e.cfg && f.e.checks == e.checks
  {
    hide Coherent, Follow, RouteAfter, CallFor, Retry, Wanted, Target;
    var f := Reevaluate(e, route, seen, b);
    FollowOk(e.(drained := FilePresent(e.cfg, seen)), route, b);
    assert EffectOk(f) && f.e.cfg == e.cfg && f.e.checks == e.checks;
    RetryOk(f, b2);
  }

  lemma PreparedOk(e: Entry, cfg: Vip, seeds: map<string, Health>, seen: bool)
    requires ValidVip(cfg) && Committable(e, cfg, seeds)
    ensures var p := Prepared(e, cfg, seeds, seen); Coherent(p.cfg, p.eval, p.checks, p.health)
    ensures Prepared(e, cfg, seeds, seen).health == Unknown <==> NoneKnown(Merged(e.checks, cfg, seeds))
  {
    ByNameIs(cfg.CheckList());
    assert Merged(e.checks, cfg, seeds).Keys == cfg.Checks().Keys;
  }

  /**
    A commit keeps the state in line with the health, except in one case that the caller can
    see coming: no remaining check is known and the VIP is not withdrawn. `CommitVIP` then
    returns before it evaluates the state, and the old route stays.
   */
  lemma {:induction false} CommitOkIff(e: Entry, route: Option<Attrs>, cfg: Vip, seeds: map<string, Health>,
                                       seen: bool, b: Bgp)
    requires EntryOk(e) && RouteOk(e, route) && ValidVip(cfg) && Committable(e, cfg, seeds)
    ensures var f := Commit(e, route, cfg, seeds, seen, b);
      && f.e.cfg == cfg && f.e.checks == Merged(e.checks, cfg, seeds)
      && (EffectOk(f) <==> !(NoneKnown(Merged(e.checks, cfg, seeds)) && e.state != Withdrawn))
  {
    hide ValidVip, Recommit;
    PreparedOk(e, cfg, seeds, seen);
    var p := Prepared(e, cfg, seeds, seen);
    if p.health != Unknown {
      RecommitOk(p, e.cfg.routing, route, b);
    }
  }

  /** The branch that leaves a route behind: nothing known remains, so neither the state nor the route is looked at. */
  lemma UnknownCommit(e: Entry, route: Option<Attrs>, cfg: Vip, seeds: map<string, Health>, seen: bool, b: Bgp)
    requires Committable(e, cfg, seeds) && NoneKnown(Merged(e.checks, cfg, seeds))
    ensures var f := Commit(e, route, cfg, seeds, seen, b);
      f.e.health == Unknown && f.e.state == e.state && f.route == route && f.calls == []
  {
    hide Committable, Recommit, Holds;
  }

  /** The stale route, concretely: dropping the only known check of an announced VIP leaves it announced. */
  lemma {:induction false} CommitLeavesStaleRoute() returns (e: Entry, cfg: Vip)
    ensures EntryOk(e) && ValidVip(cfg) && Committable(e, cfg, map[])
    ensures forall seen, b, route :: var f := Commit(e, route, cfg, map[], seen, b);
      f.e.health == Unknown && f.e.state == Announced && f.route == route && f.calls == []
  {
    hide EntryOk, ValidVip, Commit;
    var r := Routing(OnFailWithdraw, "", None, None);
    var a := Check("a", "", None, None, None, 0);
    var c := Check("c", "", None, None, None, 0);
    var was := Vip("v", "p", a, [a, c], Any, r, false, "");
    cfg := Vip("v", "p", a, [c], Any, r, false, "");
    assert Names(was.CheckList()) == ["a", "c"] && Names(cfg.CheckList()) == ["c"];
    assert ValidVip(cfg) by { ValidPlain(cfg); }
    assert ValidVip(was) by { ValidPlain(was); }
    e := AnyEntry(was);
    forall seen, b, route
      ensures var f := Commit(e, route, cfg, map[], seen, b);
        f.e.health == Unknown && f.e.state == Announced && f.route == route && f.calls == []
    {
      UnknownCommit(e, route, cfg, map[], seen, b);
    }
  }

  lemma ValidPlain(v: Vip)
    requires v.name != "" && DistinctNames(v.CheckList()) && !v.checksPolicy.Expression?
      && v.routing == Routing(OnFailWithdraw, "", None, None)
    requires forall c :: c in v.CheckList() ==> c.rise == None && c.fall == None
    ensures ValidVip(v)
  {
  }

  /** An announced VIP whose policy is `any`, with check `a` healthy and check `c` unknown. */
  lemma {:induction false} AnyEntry(was: Vip) returns (e: Entry)
    requires ValidVip(was) && Names(was.CheckList()) == ["a", "c"] && was.checksPolicy == Any
      && was.routing == Routing(OnFailWithdraw, "", None, None)
    ensures EntryOk(e) && e.cfg == was && e.state == Announced && e.checks == map["a" := Healthy, "c" := Unknown]
  {
    hide ValidVip;
    var checks := map["a" := Healthy, "c" := Unknown];
    e := Entry(was, Evaluator(Any, ["a", "c"]), Announced, Healthy, checks, false, false);
    ByNameIs(was.CheckList());
    assert "a" in e.eval.names && "c" in e.eval.names && "a" in HealthySet(checks);
    assert checks.Keys == was.Checks().Keys;
  }

  /** Negation-free policies are monotone in the set of healthy checks. */
  lemma {:induction false} TruthMonotone(x: Expr, small: set<string>, large: set<string>)
    requires NegationFree(x) && small <= large && Truth(x, small)
    ensures Truth(x, large)
  {
    match x
    case And(l, r) => TruthMonotone(l, small, large); TruthMonotone(r, small, large);
    case Or(l, r) =>
      if Truth(l, small) { TruthMonotone(l, small, large); } else { TruthMonotone(r, small, large); }
    case _ =>
  }

  predicate Monotone(p: ChecksPolicy) {
    p.Expression? ==> NegationFree(p.e)
  }

  lemma {:induction false} HoldsMonotone(ev: Evaluator, small: set<string>, large: set<string>)
    requires Monotone(ev.policy) && Holds(ev, small)
    requires forall n :: n in ev.names && n in small ==> n in large
    ensures Holds(ev, large)
  {
    if ev.policy.Expression? {
      TruthMonotone(ev.policy.e, set n | n in ev.names && n in small, set n | n in ev.names && n in large);
    }
  }

  /** The conjunction of all names. */
  function Conjunction(names: seq<string>): Expr {
    if names == [] then Lit(true) else And(Name(names[0]), Conjunction(names[1..]))
  }

  function Disjunction(names: seq<string>): Expr {
    if names == [] then Lit(false) else Or(Name(names[0]), Disjunction(names[1..]))
  }

  lemma {:induction false} NamesTruth(names: seq<string>, healthy: set<string>)
    ensures Truth(Conjunction(names), healthy) <==> forall n :: n in names ==> n in healthy
    ensures Truth(Disjunction(names), healthy) <==> exists n :: n in names && n in healthy
  {
    if names != [] {
      NamesTruth(names[1..], healthy);
      assert names == [names[0]] + names[1..];
    }
  }

  /** `all`, and no policy, mean the conjunction of the check names, and `any` their disjunction. */
  lemma {:induction false} PoliciesAreExpressions(names: seq<string>, checks: map<string, Health>)
    requires names != []
    ensures Combine(Evaluator(All, names), checks) == Combine(Evaluator(Expression(Conjunction(names)), names), checks)
    ensures Combine(Evaluator(Unset, names), checks) == Combine(Evaluator(All, names), checks)
    ensures Combine(Evaluator(Any, names), checks) == Combine(Evaluator(Expression(Disjunction(names)), names), checks)
  {
    hide Truth;
    var up := HealthySet(checks);
    NamesTruth(names, set n | n in names && n in up);
  }

  /** The expression, or with `sign` false its negation, with negations on names only. */
  function Normal(x: Expr, sign: bool): Expr {
    match x
    case Lit(b) => Lit(b == sign)
    case Name(n) => if sign then Name(n) else Not(Name(n))
    case Not(e) => Normal(e, !sign)
    case And(l, r) => if sign then And(Normal(l, sign), Normal(r, sign)) else Or(Normal(l, sign), Normal(r, sign))
    case Or(l, r) => if sign then Or(Normal(l, sign), Normal(r, sign)) else And(Normal(l, sign), Normal(r, sign))
  }

  predicate IsNormal(x: Expr) {
    match x
    case Not(e) => e.Name?
    case And(l, r) => IsNormal(l) && IsNormal(r)
    case Or(l, r) => IsNormal(l) && IsNormal(r)
    case _ => true
  }

  /** Pushing every negation down to the names preserves the meaning of an expression. */
  lemma {:induction false} NormalMeans(x: Expr, sign: bool, healthy: set<string>)
    ensures IsNormal(Normal(x, sign)) && (Truth(Normal(x, sign), healthy) <==> (Truth(x, healthy) <==> sign))
  {
    match x
    case Lit(_) =>
    case Name(_) =>
    case Not(e) => NormalMeans(e, !sign, healthy);
    case And(l, r) => NormalMeans(l, sign, healthy); NormalMeans(r, sign, healthy);
    case Or(l, r) => NormalMeans(l, sign, healthy); NormalMeans(r, sign, healthy);
  }

  /**
    Make-before-break at the commit: same check names, same negation-free policy, the VIP was
    healthy and no healthy check is seeded unhealthy. The commit then issues no withdraw,
    and the VIP stays healthy and routed.
   */
  lemma {:induction false} CommitKeepsRoute(e: Entry, route: Option<Attrs>, cfg: Vip, seeds: map<string, Health>,
                                            seen: bool, b: Bgp)
    requires EntryOk(e) && RouteOk(e, route) && ValidVip(cfg) && Committable(e, cfg, seeds)
    requires e.health == Healthy
    requires cfg.checksPolicy == e.cfg.checksPolicy && Monotone(cfg.checksPolicy)
    requires Names(cfg.CheckList()) == Names(e.cfg.CheckList())
    requires forall n :: n in seeds ==> seeds[n] != Unknown
    requires forall n :: n in seeds && n in e.checks && e.checks[n] == Healthy ==> seeds[n] == Healthy
    ensures var f := Commit(e, route, cfg, seeds, seen, b);
      && f.e.health == Healthy && f.e.state != Withdrawn
      && (forall c :: c in f.calls ==> c.Originate?)
      && (b == Done ==> f.route == Wanted(cfg.routing, f.e.state))
  {
    hide ValidVip, RouteAttrs, Compiles, Holds;
    PreparedOk(e, cfg, seeds, seen);
    var p := Prepared(e, cfg, seeds, seen);
    StaysHealthy(e, cfg, seeds);
    assert p.eval == e.eval && p.health == Healthy;
    RecommitOk(p, e.cfg.routing, route, b);
  }

  lemma {:induction false} StaysHealthy(e: Entry, cfg: Vip, seeds: map<string, Health>)
    requires EntryOk(e) && Committable(e, cfg, seeds)
    requires e.health == Healthy && Monotone(e.eval.policy)
    requires Names(cfg.CheckList()) == Names(e.cfg.CheckList())
    requires forall n :: n in seeds ==> seeds[n] != Unknown
    requires forall n :: n in seeds && n in e.checks && e.checks[n] == Healthy ==> seeds[n] == Healthy
    ensures Combine(e.eval, Merged(e.checks, cfg, seeds)) == Healthy
  {
    hide Combine, ValidVip, Monotone, Due, Compiles;
    ByNameIs(e.cfg.CheckList());
    CombineMonotone(e.eval, e.checks, Merged(e.checks, cfg, seeds));
  }

  lemma {:induction false} CombineMonotone(ev: Evaluator, before: map<string, Health>, after: map<string, Health>)
    requires Monotone(ev.policy) && Combine(ev, before) == Healthy
    requires before.Keys == after.Keys
    requires forall n :: n in before && before[n] == Healthy ==> after[n] == Healthy
    requires forall n :: n in before && before[n] != Unknown ==> after[n] != Unknown
    ensures Combine(ev, after) == Healthy
  {
    var n :| n in before && before[n] != Unknown;
    assert after[n] != Unknown;
    HoldsMonotone(ev, HealthySet(before), HealthySet(after));
  }
}
