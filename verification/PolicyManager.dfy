/**
  The policy manager object with the originator it drives: its VIP entries, the config order and
  the BGP calls it makes. Every operation is proved against the functions of module `Policy`, down
  to the route that is originated in the end.
 */
module PolicyManager {
  import opened Config
  import opened Policy
  import opened Rib

  // ------------------------------------------------------------------
  // Loops over check names
  // ------------------------------------------------------------------

  function Trues(healthy: map<string, bool>): set<string> {
    set n | n in healthy && healthy[n]
  }

  /** `ChecksEvaluator.Eval`; a name without an entry counts as unhealthy. */
  method Eval(ev: Evaluator, healthy: map<string, bool>) returns (b: bool)
    ensures b == Holds(ev, Trues(healthy))
    ensures ev.policy.Unset? || ev.policy.All? ==>
      (b <==> ev.names != [] && forall n :: n in ev.names ==> n in healthy && healthy[n])
    ensures ev.policy.Any? ==> (b <==> exists n :: n in ev.names && n in healthy && healthy[n])
  {
    if !ev.policy.Expression? {
      var all, anyOk := true, false;
      for i := 0 to |ev.names|
        invariant all <==> forall k :: 0 <= k < i ==> ev.names[k] in Trues(healthy)
        invariant anyOk <==> exists k :: 0 <= k < i && ev.names[k] in Trues(healthy)
      {
        if ev.names[i] in healthy && healthy[ev.names[i]] {
          anyOk := true;
        } else {
          all := false;
        }
      }
      if ev.policy.Any? {
        return anyOk;
      }
      return all && |ev.names| > 0;
    }
    var env: set<string> := {};
    for i := 0 to |ev.names|
      invariant forall n :: n in env <==> n in ev.names[..i] && n in Trues(healthy)
    {
      assert ev.names[..i + 1] == ev.names[..i] + [ev.names[i]];
      if ev.names[i] in healthy && healthy[ev.names[i]] {
        env := env + {ev.names[i]};
      }
    }
    assert ev.names[..|ev.names|] == ev.names;
    assert env == set n | n in ev.names && n in Trues(healthy);
    b := Truth(ev.policy.e, env);
  }

  /** `combineHealth`, folding over the check states in any order. */
  method CombineHealth(ev: Evaluator, checks: map<string, Health>) returns (h: Health)
    ensures h == Combine(ev, checks)
    ensures h == Unknown <==> forall n :: n in checks ==> checks[n] == Unknown
    ensures ev.policy.Unset? || ev.policy.All? ==>
      (h == Healthy <==> ev.names != [] && forall n :: n in ev.names ==> n in checks && checks[n] == Healthy)
    ensures ev.policy.Any? ==> (h == Healthy <==> exists n :: n in ev.names && n in checks && checks[n] == Healthy)
  {
    hide Holds;
    var anyKnown := false;
    var healthy: map<string, bool> := map[];
    var todo := checks.Keys;
    while todo != {}
      invariant todo <= checks.Keys
      invariant healthy.Keys == checks.Keys - todo
      invariant forall n :: n in healthy ==> healthy[n] == (checks[n] == Healthy)
      invariant anyKnown <==> exists n :: n in healthy && checks[n] != Unknown
      decreases |todo|
    {
      var n :| n in todo;
      if checks[n] != Unknown {
        anyKnown := true;
      }
      healthy := healthy[n := checks[n] == Healthy];
      todo := todo - {n};
    }
    assert Trues(healthy) == HealthySet(checks);
    if !anyKnown {
      assert ev.names != [] ==> ev.names[0] in ev.names;
      return Unknown;
    }
    var b := Eval(ev, healthy);
    h := if b then Healthy else Unhealthy;
  }

  /** The check a callback is about. */
  method FindCheck(checks: map<string, Health>, name: string) returns (t: Option<string>)
    ensures t == Target(checks, name)
    ensures t.Some? ==> t.value in checks
  {
    if name in checks {
      return Some(name);
    }
    if |checks| == 1 {
      OnlyOne(checks);
      var n :| n in checks && checks.Keys == {n};
      return Some(n);
    }
    return None;
  }

  lemma NamesOfChecks(list: seq<Check>)
    ensures (map n | n in Names(list) :: Unknown) == map c | c in list :: c.EffectiveName() := Unknown
  {
    forall n
      ensures n in Names(list) <==> exists c :: c in list && c.EffectiveName() == n
    {
      if c :| c in list && c.EffectiveName() == n {
        var i :| 0 <= i < |list| && list[i] == c;
        assert Names(list)[i] == n;
      }
      if n in Names(list) {
        var i :| 0 <= i < |list| && Names(list)[i] == n;
        assert list[i] in list;
      }
    }
  }

  /** The entry a VIP starts from, its check states filled in a loop. */
  method NewVipEntry(v: Vip, seen: bool) returns (e: Entry)
    ensures e == NewEntry(v, seen)
    ensures e.cfg == v && e.state == Withdrawn && e.health == Unknown && !e.pending
    ensures e.drained <==> v.routing.drainFile != "" && seen
    ensures e.checks == map c | c in v.CheckList() :: c.EffectiveName() := Unknown
    ensures v.checksPolicy.Expression? && FreeNames(v.checksPolicy.e) - e.checks.Keys != {} ==> e.eval.policy == All
    ensures !v.checksPolicy.Expression? || FreeNames(v.checksPolicy.e) <= e.checks.Keys ==>
      e.eval.policy == v.checksPolicy
  {
    var checks: map<string, Health> := map[];
    var names: seq<string> := [];
    var list := v.CheckList();
    for i := 0 to |list|
      invariant names == Names(list)[..i]
      invariant forall n :: n in checks <==> n in names
      invariant forall n :: n in checks ==> checks[n] == Unknown
    {
      checks := checks[list[i].EffectiveName() := Unknown];
      names := names + [list[i].EffectiveName()];
    }
    assert names == Names(list);
    var policy := if Compiles(v.checksPolicy, names) then v.checksPolicy else All;
    e := Entry(v, Evaluator(policy, names), Withdrawn, Unknown, checks, v.routing.drainFile != "" && seen, false);
    assert checks == map n | n in names :: Unknown;
    NamesOfChecks(list);
  }

  /** The check states of a commit: a seed where there is one, else the running state, else it is refused. */
  method NextChecks(checks: map<string, Health>, cfg: Vip, seeds: map<string, Health>)
    returns (ok: bool, next: map<string, Health>, names: seq<string>)
    ensures ok <==> forall n :: n in Names(cfg.CheckList()) ==> n in seeds || n in checks
    ensures ok ==> next == Merged(checks, cfg, seeds) && names == Names(cfg.CheckList())
    ensures ok ==> next.Keys == (set n | n in names)
    ensures ok ==> forall n :: n in next ==>
      if n in seeds then next[n] == seeds[n] else n in checks && next[n] == checks[n]
  {
    next, names := map[], [];
    var list := cfg.CheckList();
    for i := 0 to |list|
      invariant names == Names(list)[..i]
      invariant next.Keys == set n | n in names
      invariant forall n :: n in names ==> n in seeds || n in checks
      invariant forall n :: n in next ==>
        (n in seeds || n in checks) && next[n] == if n in seeds then seeds[n] else checks[n]
    {
      var name := list[i].EffectiveName();
      assert name == Names(list)[i];
      names := names + [name];
      if name in seeds {
        next := next[name := seeds[name]];
      } else if name in checks {
        next := next[name := checks[name]];
      } else {
        return false, next, names;
      }
    }
    assert names == Names(list);
    ok := true;
  }

  // ------------------------------------------------------------------
  // The manager
  // ------------------------------------------------------------------

  function RemoveName(order: seq<string>, n: string): seq<string> {
    if order == [] then []
    else if order[0] == n then order[1..]
    else [order[0]] + RemoveName(order[1..], n)
  }

  predicate NoRepeats(order: seq<string>) {
    forall i, j :: 0 <= i < j < |order| ==> order[i] != order[j]
  }

  lemma {:induction false} RemoveNameIs(order: seq<string>, n: string)
    requires NoRepeats(order)
    ensures NoRepeats(RemoveName(order, n)) && forall m :: m in RemoveName(order, n) <==> m in order && m != n
  {
    if order != [] {
      var rest := order[1..];
      assert order == [order[0]] + rest;
      RemoveNameIs(rest, n);
      forall m | m in rest
        ensures m != order[0]
      {
        var i :| 0 <= i < |rest| && rest[i] == m;
        assert order[i + 1] == m;
      }
      if order[0] != n {
        var kept, all := RemoveName(rest, n), RemoveName(order, n);
        forall i, j | 0 <= i < j < |all|
          ensures all[i] != all[j]
        {
          assert all[j] == kept[j - 1] && kept[j - 1] in rest;
        }
      }
    }
  }

  /** The index loop of a removal. */
  method DropName(order: seq<string>, n: string) returns (rest: seq<string>)
    ensures rest == RemoveName(order, n)
  {
    var i := 0;
    while i < |order| && order[i] != n
      invariant 0 <= i <= |order|
      invariant RemoveName(order, n) == order[..i] + RemoveName(order[i..], n)
    {
      assert order[i..][1..] == order[i + 1..] && order[..i + 1] == order[..i] + [order[i]];
      i := i + 1;
    }
    rest := order;
    if i < |order| {
      assert order[i..][1..] == order[i + 1..];
      rest := order[..i] + order[i + 1..];
    } else {
      assert order[..i] + [] == order;
    }
  }

  // ------------------------------------------------------------------
  // The manager
  // ------------------------------------------------------------------

  /** The server hands out a UUID that is not in use. */
  predicate Unused(server: map<Uuid, Path>, w: Weather) { w.adds.Added? ==> w.adds.id !in server }

  /** Two answers in a row, each with a UUID of its own. */
  predicate BothUnused(server: map<Uuid, Path>, w: Weather, w2: Weather) {
    Unused(server, w) && Unused(server, w2) && (w.adds.Added? && w2.adds.Added? ==> w.adds.id != w2.adds.id)
  }

  class Manager {
    const bgp: Originator
    var vips: map<string, Entry>
    /** VIP names in config order. */
    var order: seq<string>
    /** The calls to the originator so far. */
    var calls: seq<Call>

    ghost predicate Valid()
      reads this, bgp
    {
      && NoRepeats(order) && (forall n :: n in order <==> n in vips)
      && (forall n :: n in vips ==> vips[n].cfg.name == n) && bgp.Valid()
    }

    /** The route at a prefix. */
    ghost function Route(p: string): Option<Attrs>
      requires bgp.Valid()
      reads this, bgp
    {
      RouteIn(bgp.Routes(), p)
    }

    /** These calls were made, the route at the prefix is now this, and every other route stands. */
    twostate predicate Drove(p: string, route: Option<Attrs>, made: seq<Call>)
      requires old(bgp.Valid()) && bgp.Valid()
      reads this, bgp
    {
      calls == old(calls) + made && Route(p) == route && forall q :: q != p ==> Route(q) == old(Route(q))
    }

    /** Entry, calls and route of `n` are what an operation made of them; every other entry and route stands. */
    twostate predicate Became(n: string, f: Effect)
      requires old(bgp.Valid()) && bgp.Valid()
      reads this, bgp
    {
      vips == old(vips)[n := f.e] && order == old(order) && Drove(f.e.cfg.prefix, f.route, f.calls)
    }

    constructor (bgp: Originator)
      requires bgp.Valid()
      ensures Valid() && vips == map[] && order == [] && calls == [] && this.bgp == bgp
    {
      this.bgp := bgp;
      vips, order, calls := map[], [], [];
    }

    /** `applyBGP`: one call to the originator. */
    method ApplyBgp(cfg: Vip, st: VipState, w: Weather) returns (b: Bgp)
      requires bgp.Valid() && Unused(bgp.server, w)
      modifies this`calls, bgp`server, bgp`installed
      ensures bgp.Valid()
        && Drove(cfg.prefix, RouteAfter(old(Route(cfg.prefix)), CallFor(cfg, st), b), [CallFor(cfg, st)])
      ensures forall id :: id in bgp.server ==> id in old(bgp.server) || w.adds == Added(id)
    {
      calls := calls + [CallFor(cfg, st)];
      if st == Withdrawn {
        var ok := bgp.Withdraw(cfg.prefix, w);
        b := if ok then Done else Kept;
      } else {
        var ok;
        ok, b := bgp.Upsert(cfg.prefix, RouteAttrs(cfg.routing, st), w);
      }
    }

    /** `transitionStateLocked`, on the entry that is to be stored. */
    method TransitionState(e: Entry, st: VipState, w: Weather) returns (next: Entry, ghost b: Bgp)
      requires bgp.Valid() && Unused(bgp.server, w)
      modifies this`calls, bgp`server, bgp`installed
      ensures bgp.Valid()
      ensures var f := Transition(e, old(Route(e.cfg.prefix)), st, b);
        next == f.e && next.cfg == e.cfg && Drove(e.cfg.prefix, f.route, f.calls)
      ensures forall id :: id in bgp.server ==> id in old(bgp.server) || w.adds == Added(id)
    {
      hide RouteAfter, CallFor;
      if st == e.state {
        return e, Done;
      }
      var answer := ApplyBgp(e.cfg, st, w);
      b := answer;
      next := e.(state := st, pending := answer != Done);
    }

    /** `AddVIP`: a registered name is left alone. */
    method AddVip(v: Vip, seen: bool)
      requires Valid()
      modifies this`vips, this`order
      ensures Valid()
      ensures v.name in old(vips) ==> vips == old(vips) && order == old(order)
      ensures v.name !in old(vips) ==> vips == old(vips)[v.name := NewEntry(v, seen)] && order == old(order) + [v.name]
    {
      if v.name in vips {
        return;
      }
      order := order + [v.name];
      var e := NewVipEntry(v, seen);
      vips := vips[v.name := e];
    }

    /** `RemoveVIP`: withdraw what is not withdrawn, and forget the VIP unless that fails. */
    method RemoveVip(n: string, w: Weather) returns (ok: bool)
      requires Valid()
      modifies this`vips, this`order, this`calls, bgp`server, bgp`installed
      ensures Valid()
      ensures n in old(vips) && old(vips)[n].state != Withdrawn ==>
        && (ok <==> w.usable && w.deletes)
        && Drove(old(vips)[n].cfg.prefix,
           if ok then None else old(Route(vips[n].cfg.prefix)), [Call.Withdraw(old(vips)[n].cfg.prefix)])
      ensures n !in old(vips) || old(vips)[n].state == Withdrawn ==>
        ok && calls == old(calls) && bgp.server == old(bgp.server) && bgp.installed == old(bgp.installed)
      ensures if ok then vips == old(vips) - {n} && order == RemoveName(old(order), n)
              else vips == old(vips) && order == old(order)
    {
      if n !in vips {
        RemoveAbsent(order, n);
        return true;
      }
      if vips[n].state != Withdrawn {
        calls := calls + [Call.Withdraw(vips[n].cfg.prefix)];
        var done := bgp.Withdraw(vips[n].cfg.prefix, w);
        if !done {
          return false;
        }
      }
      RemoveNameIs(order, n);
      vips := vips - {n};
      order := DropName(order, n);
      ok := true;
    }

    /** A check of the entry changed its health. */
    method Hear(e: Entry, n: string, healthy: bool, seen: bool, w: Weather) returns (next: Entry, ghost b: Bgp)
      requires bgp.Valid() && Unused(bgp.server, w)
      modifies this`calls, bgp`server, bgp`installed
      ensures bgp.Valid()
      ensures var f := Heard(e, old(Route(e.cfg.prefix)), n, if healthy then Healthy else Unhealthy, seen, b);
        next == f.e && next.cfg == e.cfg && Drove(e.cfg.prefix, f.route, f.calls)
    {
      hide Combine, Transition;
      next, b := e.(checks := e.checks[n := if healthy then Healthy else Unhealthy]), Done;
      var combined := CombineHealth(next.eval, next.checks);
      KnownCombines(next.eval, next.checks, n);
      if combined == next.health {
        return;
      }
      next := next.(health := combined, drained := e.cfg.routing.drainFile != "" && seen);
      next, b := TransitionState(next, Evaluate(combined == Healthy, next.drained, next.cfg.routing), w);
    }

    /** `OnHealthTransition`. */
    method OnHealthTransition(n: string, check: string, healthy: bool, seen: bool, w: Weather) returns (ghost b: Bgp)
      requires Valid() && Unused(bgp.server, w)
      modifies this`vips, this`calls, bgp`server, bgp`installed
      ensures Valid()
      ensures n !in old(vips) ==>
        vips == old(vips) && calls == old(calls) && bgp.server == old(bgp.server) && bgp.installed == old(bgp.installed)
      ensures n in old(vips) ==>
        Became(n, OnTransition(old(vips)[n], old(Route(vips[n].cfg.prefix)), check, healthy, seen, b))
    {
      hide Heard, Target, NoRepeats, RouteIn, Exact;
      b := Done;
      if n !in vips {
        return;
      }
      var t := FindCheck(vips[n].checks, check);
      if t.None? {
        assert vips[n := vips[n]] == vips && calls + [] == calls;
        return;
      }
      ghost var e0, r := vips[n], Route(vips[n].cfg.prefix);
      var e;
      e, b := Hear(vips[n], t.value, healthy, seen, w);
      ghost var f := OnTransition(e0, r, check, healthy, seen, b);
      assert f == Heard(e0, r, t.value, if healthy then Healthy else Unhealthy, seen, b);
      assert e == f.e && Drove(f.e.cfg.prefix, f.route, f.calls);
      vips := vips[n := e];
    }

    /** A check of the entry reported: follow the drain file. */
    method FollowDrain(e: Entry, seen: bool, w: Weather) returns (next: Entry, ghost b: Bgp)
      requires bgp.Valid() && Unused(bgp.server, w)
      modifies this`calls, bgp`server, bgp`installed
      ensures bgp.Valid()
      ensures var f := Reevaluate(e, old(Route(e.cfg.prefix)), seen, b);
        next == f.e && next.cfg == e.cfg && Drove(e.cfg.prefix, f.route, f.calls)
      ensures forall id :: id in bgp.server ==> id in old(bgp.server) || w.adds == Added(id)
    {
      hide RouteAfter, CallFor;
      next, b := e.(drained := e.cfg.routing.drainFile != "" && seen), Done;
      if next.health != Unknown {
        var st := Evaluate(next.health == Healthy, next.drained, next.cfg.routing);
        if st != next.state {
          next, b := TransitionState(next, st, w);
        }
      }
    }

    /** Retry a BGP operation that failed. */
    method RetryPending(e: Entry, w: Weather) returns (next: Entry, ghost b: Bgp)
      requires bgp.Valid() && Unused(bgp.server, w)
      modifies this`calls, bgp`server, bgp`installed
      ensures bgp.Valid()
      ensures var f := Retry(Effect(e, old(Route(e.cfg.prefix)), []), b);
        next == f.e && next.cfg == e.cfg && Drove(e.cfg.prefix, f.route, f.calls)
    {
      hide RouteAfter, CallFor;
      next, b := e, Done;
      if e.pending {
        var answer := ApplyBgp(e.cfg, e.state, w);
        b := answer;
        if answer == Done {
          next := e.(pending := false);
        }
      }
    }

    /** A check of the entry reported: follow the drain file, then retry what failed. */
    method FollowAndRetry(e: Entry, seen: bool, w: Weather, w2: Weather)
      returns (next: Entry, ghost b: Bgp, ghost b2: Bgp)
      requires bgp.Valid() && BothUnused(bgp.server, w, w2)
      modifies this`calls, bgp`server, bgp`installed
      ensures bgp.Valid()
      ensures var f := Retry(Reevaluate(e, old(Route(e.cfg.prefix)), seen, b), b2);
        next == f.e && next.cfg == e.cfg && Drove(e.cfg.prefix, f.route, f.calls)
    {
      hide Reevaluate, Retry;
      next, b := FollowDrain(e, seen, w);
      ghost var f := Reevaluate(e, old(Route(e.cfg.prefix)), seen, b);
      ghost var mid := calls;
      next, b2 := RetryPending(next, w2);
      RetryAppends(f, b2);
      ghost var g := Retry(Effect(f.e, f.route, []), b2);
      assert calls == mid + g.calls && old(calls) + f.calls + g.calls == old(calls) + (f.calls + g.calls);
    }

    /** `OnCheckResult`: follow the drain file, then retry what failed. */
    method OnCheckResult(n: string, check: string, seen: bool, w: Weather, w2: Weather)
      returns (ghost b: Bgp, ghost b2: Bgp)
      requires Valid() && BothUnused(bgp.server, w, w2)
      modifies this`vips, this`calls, bgp`server, bgp`installed
      ensures Valid()
      ensures n !in old(vips) ==>
        vips == old(vips) && calls == old(calls) && bgp.server == old(bgp.server) && bgp.installed == old(bgp.installed)
      ensures n in old(vips) ==> Became(n, OnResult(old(vips)[n], old(Route(vips[n].cfg.prefix)), check, seen, b, b2))
    {
      hide Reevaluate, Retry, Target, NoRepeats, RouteIn, Exact;
      b, b2 := Done, Done;
      if n !in vips {
        return;
      }
      var t := FindCheck(vips[n].checks, check);
      if t.None? {
        assert vips[n := vips[n]] == vips && calls + [] == calls;
        return;
      }
      ghost var e0, r := vips[n], Route(vips[n].cfg.prefix);
      var e;
      e, b, b2 := FollowAndRetry(vips[n], seen, w, w2);
      ghost var f := OnResult(e0, r, check, seen, b, b2);
      assert f == Retry(Reevaluate(e0, r, seen, b), b2);
      assert e == f.e && Drove(f.e.cfg.prefix, f.route, f.calls);
      vips := vips[n := e];
    }

    /** The end of a commit: a new state, or new attributes in the same state, or a retry. */
    method Reoriginate(e: Entry, was: Routing, w: Weather) returns (next: Entry, ghost b: Bgp)
      requires bgp.Valid() && Unused(bgp.server, w) && e.health != Unknown
      modifies this`calls, bgp`server, bgp`installed
      ensures bgp.Valid()
      ensures var f := Recommit(e, was, old(Route(e.cfg.prefix)), b);
        next == f.e && next.cfg == e.cfg && Drove(e.cfg.prefix, f.route, f.calls)
    {
      hide RouteAttrs, RouteAfter, CallFor;
      next, b := e, Done;
      var st := Evaluate(e.health == Healthy, e.drained, e.cfg.routing);
      if st != e.state {
        next, b := TransitionState(e, st, w);
      } else if e.state != Withdrawn && (e.pending || RouteAttrs(was, e.state) != RouteAttrs(e.cfg.routing, e.state)) {
        var answer := ApplyBgp(e.cfg, e.state, w);
        b := answer;
        next := e.(pending := answer != Done);
      }
    }

    /** The entry under a new definition, unless that is refused. */
    method SwitchEntry(e: Entry, cfg: Vip, seeds: map<string, Health>, seen: bool, w: Weather)
      returns (ok: bool, next: Entry, ghost b: Bgp)
      requires bgp.Valid() && Unused(bgp.server, w)
      modifies this`calls, bgp`server, bgp`installed
      ensures bgp.Valid() && (ok <==> Committable(e, cfg, seeds))
      ensures !ok ==> calls == old(calls) && bgp.server == old(bgp.server) && bgp.installed == old(bgp.installed)
      ensures ok ==>
        var f := Commit(e, old(Route(e.cfg.prefix)), cfg, seeds, seen, b);
        next == f.e && next.cfg == cfg && Drove(cfg.prefix, f.route, f.calls)
    {
      hide Combine, Recommit, Merged, Names, FreeNames, RouteIn, Exact;
      next, b := e, Done;
      if e.cfg.prefix != cfg.prefix {
        return false, next, b;
      }
      var merged, checks, names := NextChecks(e.checks, cfg, seeds);
      if !merged || !Compiles(cfg.checksPolicy, names) {
        return false, next, b;
      }
      ok := true;
      var eval := Evaluator(cfg.checksPolicy, names);
      var health := CombineHealth(eval, checks);
      next := e.(cfg := cfg, eval := eval, checks := checks, health := health);
      if health != Unknown {
        next := next.(drained := cfg.routing.drainFile != "" && seen);
        next, b := Reoriginate(next, e.cfg.routing, w);
      }
    }

    /** `CommitVIP`: refused without a trace, or the entry switched to its new definition. */
    method CommitVip(cfg: Vip, seeds: map<string, Health>, seen: bool, w: Weather) returns (ok: bool, ghost b: Bgp)
      requires Valid() && Unused(bgp.server, w)
      modifies this`vips, this`calls, bgp`server, bgp`installed
      ensures Valid()
      ensures ok <==> cfg.name in old(vips) && Committable(old(vips)[cfg.name], cfg, seeds)
      ensures !ok ==>
        vips == old(vips) && calls == old(calls) && bgp.server == old(bgp.server) && bgp.installed == old(bgp.installed)
      ensures ok ==>
        Became(cfg.name, Commit(old(vips)[cfg.name], old(Route(vips[cfg.name].cfg.prefix)), cfg, seeds, seen, b))
    {
      hide Commit, Committable, NoRepeats;
      b := Done;
      if cfg.name !in vips {
        return false, b;
      }
      var e;
      ok, e, b := SwitchEntry(vips[cfg.name], cfg, seeds, seen, w);
      if ok {
        vips := vips[cfg.name := e];
      }
    }
  }

  lemma RetryAppends(f: Effect, b: Bgp)
    ensures var g := Retry(Effect(f.e, f.route, []), b); Retry(f, b) == Effect(g.e, g.route, f.calls + g.calls)
  {
    hide RouteAfter, CallFor;
    assert f.calls + [] == f.calls;
  }

  lemma KnownCombines(ev: Evaluator, checks: map<string, Health>, n: string)
    requires n in checks && checks[n] != Unknown
    ensures Combine(ev, checks) != Unknown
  {
    hide Holds;
  }

  lemma {:induction false} RemoveAbsent(order: seq<string>, n: string)
    requires n !in order
    ensures RemoveName(order, n) == order
  {
    if order != [] { RemoveAbsent(order[1..], n); }
  }
}
