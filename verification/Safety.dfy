/**
  The invariant of the daemon, and the events that only one scheduler takes part in: check runs
  and the delivery of their callbacks.
 */
module Safety {
  import opened Config
  import opened Hysteresis
  import opened Policy
  import opened System

  // ------------------------------------------------------------------
  // The invariant
  // ------------------------------------------------------------------

  /** The policy holds `h` for the check of a live scheduler: its current health, or a transition to it is under way. */
  predicate Told(sc: Sched, h: Health) {
    && sc.live
    && if sc.inflight.Some? && sc.inflight.value.transition.Some?
       then sc.inflight.value.live && sc.inflight.value.transition.value == sc.IsUp() && sc.WasUp()
       else h == sc.Known()
  }

  predicate VisibleOk(e: Entry, vis: map<string, Id>, scheds: map<Id, Sched>, running: map<Id, bool>) {
    && vis.Keys == e.checks.Keys
    && forall c :: c in vis ==> VisibleAt(e, vis, scheds, running, c)
  }

  predicate VisibleAt(e: Entry, vis: map<string, Id>, scheds: map<Id, Sched>, running: map<Id, bool>, c: string) {
    && c in vis && c in e.checks && vis[c] in scheds && vis[c] in running && !running[vis[c]]
    && Governs(scheds[vis[c]], e.cfg, c) && Told(scheds[vis[c]], e.checks[c])
  }

  /** A staging waits for the changed checks of a definition that has not taken over yet. */
  ghost predicate StagedOk(e: Entry, st: Staged, scheds: map<Id, Sched>, running: map<Id, bool>) {
    && st.was == e.cfg && st.cfg.name == e.cfg.name && st.cfg.prefix == e.cfg.prefix && ValidVip(st.cfg)
    && st.shadows.Keys == ChangedNames(st.was, st.cfg) && st.removed == RemovedNames(st.was, st.cfg)
    && st.verdicts < st.shadows.Keys && st.deadline == DeadlineFor(st.at, st.was, st.cfg)
    && forall c :: c in st.shadows ==> ShadowOk(st, c, st.shadows[c], scheds, running)
  }

  predicate ShadowOk(st: Staged, c: string, id: Id, scheds: map<Id, Sched>, running: map<Id, bool>) {
    && id in scheds && id in running && running[id]
    && Governs(scheds[id], st.cfg, c) && !scheds[id].live
    && (scheds[id].inflight.Some? ==> !scheds[id].inflight.value.live && scheds[id].inflight.value.transition.None?)
    && (c in st.verdicts ==> scheds[id].HadVerdict())
  }

  ghost predicate VipOk(s: State, n: string)
    requires n in s.vips
  {
    var e := s.vips[n];
    && e.cfg.name == n && EntryOk(e) && RouteOk(e, RouteAt(s, e.cfg.prefix))
    && n in s.visible && VisibleOk(e, s.visible[n], s.scheds, s.running)
    && (n in s.staging ==> StagedOk(e, s.staging[n], s.scheds, s.running))
  }

  /** The scheduler is listed under its VIP and check. */
  predicate Listed(s: State, id: Id)
    requires id in s.scheds
  {
    var sc := s.scheds[id];
    sc.vip in s.visible && sc.Name() in s.visible[sc.vip] && s.visible[sc.vip][sc.Name()] == id
  }

  /** Every scheduler is in exactly one place: built, running visible, running as a shadow, or closed (once). */
  predicate IdOk(s: State, id: Id)
    requires id in s.scheds
  {
    && s.closed[id] <= 1
    && (id in s.built ==> id !in s.running && s.closed[id] == 0)
    && (id in s.running ==> s.closed[id] == 0)
    && (id in s.built || id in s.running || s.closed[id] == 1)
    && (id in s.running && !s.running[id] ==> Listed(s, id))
    && (id in s.running && s.running[id] ==> Current(s, id) && !s.scheds[id].live)
    && InflightOk(s.scheds[id], id, s.running)
  }

  /** Only a running scheduler has callbacks to deliver, and only a visible one has them for the policy manager. */
  predicate InflightOk(sc: Sched, id: Id, running: map<Id, bool>) {
    sc.inflight.Some? ==>
      id in running && (sc.inflight.value.live ==> !running[id])
        && (sc.inflight.value.transition.Some? ==> sc.inflight.value.live)
  }

  predicate NoStrays(s: State) {
    && s.built <= s.scheds.Keys && s.running.Keys <= s.scheds.Keys
    && (forall id :: id in s.closed ==> id in s.scheds)
  }

  /** No route without a VIP that owns its prefix, and no prefix with two owners. */
  ghost predicate RoutesOwned(vips: map<string, Entry>, routes: map<string, Attrs>) {
    && (forall p :: p in routes ==> exists n :: n in vips && vips[n].cfg.prefix == p)
    && (forall m, n :: m in vips && n in vips && m != n ==> vips[m].cfg.prefix != vips[n].cfg.prefix)
  }

  ghost predicate VipsOk(s: State) {
    s.visible.Keys == s.vips.Keys && s.staging.Keys <= s.vips.Keys && forall n :: n in s.vips ==> VipOk(s, n)
  }

  predicate IdsOk(s: State) {
    NoStrays(s) && forall id :: id in s.scheds ==> IdOk(s, id)
  }

  ghost predicate QueueOk(s: State) {
    forall id :: id in s.queue || id in s.drained ==> id in s.scheds && s.scheds[id].HadVerdict()
  }

  ghost predicate Core(s: State) {
    VipsOk(s) && IdsOk(s) && RoutesOwned(s.vips, s.routes) && QueueOk(s)
  }

  // ------------------------------------------------------------------
  // Framing: an event about one VIP keeps the others
  // ------------------------------------------------------------------

  /** The schedulers of VIP `n` are the same in both states and registered alike. */
  predicate SameScheds(s: State, t: State, n: string) {
    forall id :: id in s.scheds && s.scheds[id].vip == n ==>
      && id in t.scheds && t.scheds[id] == s.scheds[id]
      && (id in s.running <==> id in t.running)
      && (id in s.running ==> t.running[id] == s.running[id])
  }

  predicate SameVip(s: State, t: State, n: string) {
    && n in s.vips && n in t.vips && s.vips[n] == t.vips[n]
    && n in s.visible && n in t.visible && s.visible[n] == t.visible[n]
    && (n in s.staging <==> n in t.staging)
    && (n in s.staging ==> s.staging[n] == t.staging[n])
    && RouteAt(s, s.vips[n].cfg.prefix) == RouteAt(t, s.vips[n].cfg.prefix)
    && SameScheds(s, t, n)
  }

  lemma {:induction false} FrameVip(s: State, t: State, n: string)
    requires SameVip(s, t, n) && VipOk(s, n)
    ensures VipOk(t, n)
  {
    var e := s.vips[n];
    forall c | c in s.visible[n]
      ensures VisibleAt(e, s.visible[n], t.scheds, t.running, c)
    {
      assert VisibleAt(e, s.visible[n], s.scheds, s.running, c);
    }
    if n in s.staging {
      var st := s.staging[n];
      forall c | c in st.shadows
        ensures ShadowOk(st, c, st.shadows[c], t.scheds, t.running)
      {
        assert ShadowOk(st, c, st.shadows[c], s.scheds, s.running);
      }
    }
  }

  // ------------------------------------------------------------------
  // Check runs and callbacks
  // ------------------------------------------------------------------

  /** The events of one scheduler change its own record only. */
  predicate OnlySched(s: State, t: State, id: Id) {
    && id in s.scheds && t.scheds.Keys == s.scheds.Keys
    && (forall x :: x in s.scheds && x != id ==> t.scheds[x] == s.scheds[x])
    && t.scheds[id] == s.scheds[id].(hist := t.scheds[id].hist, inflight := t.scheds[id].inflight)
    && (s.scheds[id].HadVerdict() ==> t.scheds[id].HadVerdict())
    && InflightOk(t.scheds[id], id, s.running)
    && t.running == s.running && t.built == s.built && t.closed == s.closed
    && t.visible == s.visible && t.staging == s.staging
  }

  lemma {:induction false} SchedKeepsIds(s: State, t: State, id: Id)
    requires IdsOk(s) && OnlySched(s, t, id)
    ensures IdsOk(t)
  {
    hide EverDecided, Decided;
    forall x | x in t.scheds
      ensures IdOk(t, x)
    {
      assert IdOk(s, x);
    }
  }

  lemma {:induction false} SchedKeepsQueue(s: State, t: State, id: Id)
    requires QueueOk(s) && OnlySched(s, t, id) && t.drained == s.drained
    requires t.queue == s.queue || (t.queue == s.queue + [id] && t.scheds[id].HadVerdict())
    ensures QueueOk(t)
  {
    forall x | x in t.queue || x in t.drained
      ensures x in t.scheds && t.scheds[x].HadVerdict()
    {
      assert x == id || x in s.queue || x in s.drained;
    }
  }

  lemma {:induction false} RunSched(s: State, id: Id, success: bool)
    requires IdsOk(s) && Enabled(s, Run(id, success))
    ensures OnlySched(s, Step(s, Run(id, success)), id)
  {
    hide Listed, Current, NoStrays, After, EverUp, EverDecided, Decided, Up;
    var sc := s.scheds[id];
    AfterOneMore(sc.hist, success, sc.check.Rise(), sc.check.Fall());
    assert IdOk(s, id);
  }

  lemma {:induction false} KeepsRun(s: State, id: Id, success: bool)
    requires Core(s) && Enabled(s, Run(id, success))
    ensures Core(Step(s, Run(id, success)))
  {
    hide VipsOk, IdsOk, QueueOk, RoutesOwned, OnlySched, AfterRun;
    var t := Step(s, Run(id, success));
    RunSched(s, id, success);
    SchedKeepsIds(s, t, id);
    SchedKeepsQueue(s, t, id);
    RunTold(s.scheds[id], success);
    SchedKeepsVips(s, t, id);
  }

  /** The scheduler moved on without losing what the policy was told, and a shadow still tells it nothing. */
  ghost predicate MovedOn(sc: Sched, next: Sched) {
    && (forall h :: Told(sc, h) ==> Told(next, h))
    && (!sc.live && next.inflight.Some? ==> !next.inflight.value.live && next.inflight.value.transition.None?)
  }

  lemma {:induction false} SchedKeepsVips(s: State, t: State, id: Id)
    requires VipsOk(s) && OnlySched(s, t, id) && t.vips == s.vips && t.routes == s.routes
    requires MovedOn(s.scheds[id], t.scheds[id])
    ensures VipsOk(t)
  {
    hide VipOk, MovedOn, InflightOk, EverDecided;
    forall n | n in t.vips
      ensures VipOk(t, n)
    {
      if n != s.scheds[id].vip { FrameVip(s, t, n); } else { SchedOwn(s, t, n, id); }
    }
  }

  lemma {:induction false} SchedOwn(s: State, t: State, n: string, id: Id)
    requires n in s.vips && VipOk(s, n) && OnlySched(s, t, id) && t.vips == s.vips && t.routes == s.routes
    requires MovedOn(s.scheds[id], t.scheds[id])
    ensures VipOk(t, n)
  {
    hide EntryOk, RouteOk, Told, ChangedNames, RemovedNames, ValidVip, EverDecided, InflightOk;
    var e := s.vips[n];
    forall c | c in s.visible[n]
      ensures VisibleAt(e, s.visible[n], t.scheds, t.running, c)
    {
      assert VisibleAt(e, s.visible[n], s.scheds, s.running, c);
    }
    if n in s.staging {
      var st := s.staging[n];
      forall c | c in st.shadows
        ensures ShadowOk(st, c, st.shadows[c], t.scheds, t.running)
      {
        assert ShadowOk(st, c, st.shadows[c], s.scheds, s.running);
      }
    }
  }

  /** A run either leaves the health alone or puts the transition to the new one under way. */
  lemma {:induction false} RunTold(sc: Sched, success: bool)
    requires sc.inflight.None?
    ensures MovedOn(sc, AfterRun(sc, success))
  {
    hide After, EverUp, EverDecided, Next;
    var rise, fall := sc.check.Rise(), sc.check.Fall();
    AfterOneMore(sc.hist, success, rise, fall);
    if sc.IsUp() { UpIsEverUp(sc.hist, rise, fall); }
  }

  /** A VIP whose entry an operation on its own prefix replaced; `scheds` may differ in the schedulers of `n` only. */
  ghost predicate OnlyEntry(s: State, t: State, n: string, f: Effect) {
    && n in s.vips && f.e.cfg == s.vips[n].cfg
    && t.vips == s.vips[n := f.e] && t.routes == PutRoute(s.routes, f.e.cfg.prefix, f.route)
    && t.visible == s.visible && t.staging == s.staging && t.running == s.running
    && (forall m :: m != n ==> SameScheds(s, t, m))
  }

  lemma {:induction false} InstallKeepsOwned(s: State, n: string, f: Effect)
    requires RoutesOwned(s.vips, s.routes) && n in s.vips && f.e.cfg.prefix == s.vips[n].cfg.prefix
    ensures RoutesOwned(s.vips[n := f.e], PutRoute(s.routes, f.e.cfg.prefix, f.route))
  {
    var vips, routes := s.vips[n := f.e], PutRoute(s.routes, f.e.cfg.prefix, f.route);
    forall p | p in routes
      ensures exists m :: m in vips && vips[m].cfg.prefix == p
    {
      if p == f.e.cfg.prefix {
        assert n in vips;
      } else {
        var m :| m in s.vips && s.vips[m].cfg.prefix == p;
        assert m in vips;
      }
    }
  }

  lemma {:induction false} EntryKeepsVips(s: State, t: State, n: string, f: Effect)
    requires VipsOk(s) && RoutesOwned(s.vips, s.routes) && OnlyEntry(s, t, n, f)
    requires VipOk(t, n)
    ensures VipsOk(t)
  {
    hide VipOk, SameVip, RoutesOwned;
    forall m | m in t.vips && m != n
      ensures VipOk(t, m)
    {
      assert VipOk(s, m);
      EntryFrame(s, t, n, f, m);
      FrameVip(s, t, m);
    }
  }

  lemma {:induction false} EntryFrame(s: State, t: State, n: string, f: Effect, m: string)
    requires RoutesOwned(s.vips, s.routes) && OnlyEntry(s, t, n, f)
    requires m in s.vips && m != n && m in s.visible
    ensures SameVip(s, t, m)
  {
    hide SameScheds;
    assert s.vips[m].cfg.prefix != f.e.cfg.prefix;
  }

  /** Delivering to the policy manager keeps the VIP's own part of the invariant when the callback is accounted for. */
  lemma {:induction false} EntryOwn(s: State, t: State, n: string, id: Id, f: Effect)
    requires n in s.vips && VipOk(s, n) && OnlyEntry(s, t, n, f) && OnlySched(s, t, id) && EffectOk(f)
    requires s.scheds[id].vip == n && s.scheds[id].Name() in s.visible[n] && s.visible[n][s.scheds[id].Name()] == id
    requires f.e.checks.Keys == s.vips[n].checks.Keys
    requires forall c :: c in f.e.checks && c != s.scheds[id].Name() ==> f.e.checks[c] == s.vips[n].checks[c]
    requires Told(t.scheds[id], f.e.checks[s.scheds[id].Name()])
    ensures VipOk(t, n)
  {
    hide EntryOk, RouteOk, Told, StagedOk, EverDecided, SameScheds;
    var e := s.vips[n];
    forall c | c in s.visible[n]
      ensures VisibleAt(f.e, s.visible[n], t.scheds, t.running, c)
    {
      assert VisibleAt(e, s.visible[n], s.scheds, s.running, c);
    }
    assert !s.running[id] by { assert VisibleAt(e, s.visible[n], s.scheds, s.running, s.scheds[id].Name()); }
    if n in s.staging {
      StagedSame(e, f.e, s.staging[n], s.scheds, s.running, t.scheds, t.running);
    }
  }

  lemma {:induction false} StagedSame(e: Entry, e': Entry, st: Staged, scheds: map<Id, Sched>, running: map<Id, bool>,
                                      scheds': map<Id, Sched>, running': map<Id, bool>)
    requires StagedOk(e, st, scheds, running) && e'.cfg == e.cfg
    requires forall id :: id in scheds && id in running && running[id] ==>
      id in scheds' && scheds'[id] == scheds[id] && id in running' && running'[id]
    ensures StagedOk(e', st, scheds', running')
  {
    hide ValidVip, ChangedNames, RemovedNames, Governs, EverDecided;
    forall c | c in st.shadows
      ensures ShadowOk(st, c, st.shadows[c], scheds', running')
    {
      assert ShadowOk(st, c, st.shadows[c], scheds, running);
    }
  }

  /** Where a scheduler with a callback for the policy manager stands. */
  lemma {:induction false} CallerIsVisible(s: State, id: Id)
    requires VipsOk(s) && IdsOk(s) && id in s.scheds && s.scheds[id].inflight.Some? && s.scheds[id].inflight.value.live
    ensures var n, c := s.scheds[id].vip, s.scheds[id].Name();
      && n in s.vips && n in s.visible && c in s.visible[n] && s.visible[n][c] == id
      && VipOk(s, n) && VisibleAt(s.vips[n], s.visible[n], s.scheds, s.running, c)
  {
    hide EntryOk, RouteOk, StagedOk, Told, NoStrays, Current;
    assert IdOk(s, id);
    assert VipOk(s, s.scheds[id].vip);
  }

  /** A callback delivered to the policy manager, in general. */
  lemma {:induction false} Delivered(s: State, t: State, id: Id, sc: Sched, f: Effect)
    requires VipsOk(s) && IdsOk(s) && RoutesOwned(s.vips, s.routes)
    requires id in s.scheds && s.scheds[id].inflight.Some? && s.scheds[id].inflight.value.live
    requires sc == s.scheds[id].(inflight := sc.inflight) && InflightOk(sc, id, s.running)
    requires s.scheds[id].vip in s.vips && t == Install(s.(scheds := s.scheds[id := sc]), sc.vip, f)
    requires EffectOk(f) && f.e.cfg == s.vips[sc.vip].cfg
    requires f.e.checks.Keys == s.vips[sc.vip].checks.Keys
    requires forall c :: c in f.e.checks && c != sc.Name() ==> f.e.checks[c] == s.vips[sc.vip].checks[c]
    requires sc.Name() in f.e.checks ==> Told(sc, f.e.checks[sc.Name()])
    ensures VipsOk(t) && IdsOk(t) && RoutesOwned(t.vips, t.routes) && OnlySched(s, t, id)
  {
    hide VipsOk, IdsOk, RoutesOwned, VipOk, EffectOk, Told, EverDecided, Governs;
    CallerIsVisible(s, id);
    assert OnlySched(s, t, id);
    assert OnlyEntry(s, t, sc.vip, f);
    SchedKeepsIds(s, t, id);
    InstallKeepsOwned(s, sc.vip, f);
    EntryOwn(s, t, sc.vip, id, f);
    EntryKeepsVips(s, t, sc.vip, f);
  }

  lemma {:induction false} KeepsTransition(s: State, id: Id, seen: bool, b: Bgp)
    requires Core(s) && Enabled(s, DeliverTransition(id, seen, b))
    ensures Core(Step(s, DeliverTransition(id, seen, b)))
  {
    hide VipsOk, IdsOk, RoutesOwned, QueueOk, OnlySched, Combine, EntryOk, RouteOk, OnTransition, StagedOk, Governs,
      EverUp, Up, EverDecided;
    var t := Step(s, DeliverTransition(id, seen, b));
    var sc := s.scheds[id];
    assert sc.inflight.value.live by { InflightAt(s, id); }
    CallerIsVisible(s, id);
    var e := s.vips[sc.vip];
    var f := OnTransition(e, RouteAt(s, e.cfg.prefix), sc.Name(), sc.inflight.value.transition.value, seen, b);
    OnTransitionOk(e, RouteAt(s, e.cfg.prefix), sc.Name(), sc.inflight.value.transition.value, seen, b);
    Delivered(s, t, id, sc.(inflight := None), f);
    SchedKeepsQueue(s, t, id);
  }

  /** A shadow's result reaches the verdict queue at most. */
  lemma {:induction false} ShadowReported(s: State, t: State, id: Id)
    requires VipsOk(s) && IdsOk(s) && id in s.scheds && s.scheds[id].inflight.Some?
    requires t == s.(scheds := s.scheds[id := AfterResult(s.scheds[id])], queue := t.queue)
    requires MovedOn(s.scheds[id], AfterResult(s.scheds[id]))
    ensures VipsOk(t) && IdsOk(t) && OnlySched(s, t, id)
  {
    hide VipsOk, IdsOk, MovedOn, EverDecided;
    InflightAt(s, id);
    SchedKeepsIds(s, t, id);
    SchedKeepsVips(s, t, id);
  }

  lemma VerdictIsHad(sc: Sched)
    ensures sc.HasVerdict() ==> sc.HadVerdict()
  {
  }

  lemma InflightAt(s: State, id: Id)
    requires IdsOk(s) && id in s.scheds
    ensures InflightOk(s.scheds[id], id, s.running)
  {
    assert IdOk(s, id);
  }

  lemma {:induction false} KeepsResult(s: State, id: Id, seen: bool, b: Bgp, b2: Bgp)
    requires Core(s) && Enabled(s, DeliverResult(id, seen, b, b2))
    ensures Core(Step(s, DeliverResult(id, seen, b, b2)))
  {
    hide VipsOk, IdsOk, RoutesOwned, QueueOk, ToPolicy, ToQueue, AfterResult, InflightOk;
    var sc := s.scheds[id];
    InflightAt(s, id);
    if sc.inflight.value.live {
      ResultToPolicy(s, id, seen, b, b2);
    } else {
      ResultToQueue(s, id);
    }
  }

  lemma {:induction false} ResultToPolicy(s: State, id: Id, seen: bool, b: Bgp, b2: Bgp)
    requires VipsOk(s) && IdsOk(s) && RoutesOwned(s.vips, s.routes) && QueueOk(s)
    requires id in s.scheds && s.scheds[id].inflight.Some? && s.scheds[id].inflight.value.live
    ensures var sc := s.scheds[id]; Core(ToPolicy(s.(scheds := s.scheds[id := AfterResult(sc)]), sc, seen, b, b2))
  {
    hide VipsOk, IdsOk, RoutesOwned, QueueOk, OnlySched, Combine, EntryOk, RouteOk, OnResult, StagedOk, Governs,
      EverUp, Up, EverDecided, PutRoute;
    var sc := s.scheds[id];
    var s1 := s.(scheds := s.scheds[id := AfterResult(sc)]);
    var t := ToPolicy(s1, sc, seen, b, b2);
    InflightAt(s, id);
    CallerIsVisible(s, id);
    var e := s.vips[sc.vip];
    var f := OnResult(e, RouteAt(s, e.cfg.prefix), sc.Name(), seen, b, b2);
    OnResultOk(e, RouteAt(s, e.cfg.prefix), sc.Name(), seen, b, b2);
    Delivered(s, t, id, AfterResult(sc), f);
    SchedKeepsQueue(s, t, id);
  }

  lemma {:induction false} ResultToQueue(s: State, id: Id)
    requires VipsOk(s) && IdsOk(s) && RoutesOwned(s.vips, s.routes) && QueueOk(s)
    requires id in s.scheds && s.scheds[id].inflight.Some? && !s.scheds[id].inflight.value.live
    ensures var sc := s.scheds[id]; Core(ToQueue(s.(scheds := s.scheds[id := AfterResult(sc)]), id, sc))
  {
    hide VipsOk, IdsOk, RoutesOwned, QueueOk, OnlySched, EverUp, Up, EverDecided, Decided;
    var sc := s.scheds[id];
    var t := ToQueue(s.(scheds := s.scheds[id := AfterResult(sc)]), id, sc);
    InflightAt(s, id);
    assert MovedOn(sc, AfterResult(sc));
    VerdictIsHad(sc);
    ShadowReported(s, t, id);
    SchedKeepsQueue(s, t, id);
  }
}
