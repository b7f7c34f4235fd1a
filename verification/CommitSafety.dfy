/** Switching a VIP to a new definition, at once or after its shadows proved it, keeps the invariant. */
module CommitSafety {
  import opened Config
  import opened Hysteresis
  import opened Policy
  import opened System
  import opened Safety
  import opened ReloadSafety

  predicate ReadyShadow(s: State, v: Vip, c: string, id: Id) {
    && id in s.scheds && id in s.running && s.running[id] && Governs(s.scheds[id], v, c) && !s.scheds[id].live
    && (s.scheds[id].inflight.Some? ==>
       !s.scheds[id].inflight.value.live && s.scheds[id].inflight.value.transition.None?)
  }

  /** The new definition differs from the running one exactly by the shadows, the removed checks and the policy. */
  predicate Fits(s: State, v: Vip, shadows: map<string, Id>, removed: set<string>) {
    && v.name in s.vips && v.name == s.vips[v.name].cfg.name && v.prefix == s.vips[v.name].cfg.prefix
    && shadows.Keys == ChangedNames(s.vips[v.name].cfg, v) && removed == RemovedNames(s.vips[v.name].cfg, v)
    && (forall c :: c in shadows ==> ReadyShadow(s, v, c, shadows[c]))
  }

  /** The shadows are all there are of the VIP, and what is to be stopped has been waited for. */
  predicate Alone(s: State, v: Vip, shadows: map<string, Id>, removed: set<string>) {
    && (forall id :: id in s.scheds && id in s.running && s.running[id] && s.scheds[id].vip == v.name ==>
       id in Ids(shadows))
    && Quiet(s, Picked(Visible(s, v.name), removed + shadows.Keys))
  }

  ghost function Switched(s: State, v: Vip, shadows: map<string, Id>, removed: set<string>, seen: bool, b: Bgp): State {
    Switch(s.(staging := s.staging - {v.name}), v, shadows, removed, seen, b)
  }

  ghost function SwitchEffect(s: State, v: Vip, shadows: map<string, Id>, seen: bool, b: Bgp): Effect
    requires v.name in s.vips && Committable(s.vips[v.name], v, Seeds(s.scheds, shadows))
  {
    Commit(s.vips[v.name], RouteAt(s, s.vips[v.name].cfg.prefix), v, Seeds(s.scheds, shadows), seen, b)
  }

  /** `CommitVIP` never refuses a definition the reloader hands it. */
  lemma {:induction false} NeverRefused(s: State, v: Vip, shadows: map<string, Id>, removed: set<string>)
    requires Fits(s, v, shadows, removed) && ValidVip(v) && EntryOk(s.vips[v.name])
    ensures Committable(s.vips[v.name], v, Seeds(s.scheds, shadows))
    ensures Seeds(s.scheds, shadows).Keys == shadows.Keys
  {
    hide Holds, Evaluate, Governs;
    ByNameIs(v.CheckList());
    assert forall c :: c in shadows ==> ReadyShadow(s, v, c, shadows[c]);
  }

  /** The immediate commit whose remaining checks are all unknown while the VIP is announced. */
  predicate KeepsKnown(s: State, v: Vip, shadows: map<string, Id>)
    requires v.name in s.vips
  {
    s.vips[v.name].state == Withdrawn || !NoneKnown(Merged(s.vips[v.name].checks, v, Seeds(s.scheds, shadows)))
  }

  /** The state after the switch, part by part. */
  lemma {:induction false} SwitchedIs(s: State, v: Vip, shadows: map<string, Id>, removed: set<string>, seen: bool,
                                      b: Bgp)
    requires v.name in s.vips && Committable(s.vips[v.name], v, Seeds(s.scheds, shadows))
    ensures var t := Switched(s, v, shadows, removed, seen, b);
      var f := SwitchEffect(s, v, shadows, seen, b);
      var gone := Picked(Visible(s, v.name), removed + shadows.Keys);
      t == s.(staging := s.staging - {v.name}, visible :=
        s.visible[v.name := Visible(s, v.name) - (removed + shadows.Keys) + shadows],
              running := Mark(s.running - gone, Ids(shadows), false), closed := s.closed + multiset(gone),
              scheds := Enlist(s.scheds, Ids(shadows), true),
              vips := s.vips[v.name := f.e], routes := PutRoute(s.routes, f.e.cfg.prefix, f.route),
                log := s.log + f.calls)
  {
    hide Commit, Seeds, Enlist, Mark, Picked, Committable;
    var n := v.name;
    var s1 := s.(staging := s.staging - {n});
    var s2 := Retire(s1, n, removed + shadows.Keys);
    assert s2.visible[n] == Visible(s, n) - (removed + shadows.Keys);
    var s3 := Promote(s2, n, shadows);
    assert s3.visible == s.visible[n := Visible(s, n) - (removed + shadows.Keys) + shadows];
  }

  lemma {:induction false} NamesAfter(was: Vip, v: Vip, vis: map<string, Id>, shadows: map<string, Id>,
                                      removed: set<string>)
    requires vis.Keys == was.Checks().Keys
    requires shadows.Keys == ChangedNames(was, v) && removed == RemovedNames(was, v)
    ensures (vis - (removed + shadows.Keys) + shadows).Keys == v.Checks().Keys
  {
  }

  lemma {:induction false} SwitchOwn(s: State, v: Vip, shadows: map<string, Id>, removed: set<string>, seen: bool,
                                     b: Bgp)
    requires v.name in s.vips && VipOk(s, v.name) && Fits(s, v, shadows, removed) && ValidVip(v)
    requires Committable(s.vips[v.name], v, Seeds(s.scheds, shadows)) && KeepsKnown(s, v, shadows)
    ensures VipOk(Switched(s, v, shadows, removed, seen, b), v.name)
  {
    hide Commit, EntryOk, RouteOk, StagedOk, VisibleAt, ChangedNames, RemovedNames, ValidVip, Committable, NoneKnown,
      Switched, Enlist, Mark, Picked, ReadyShadow;
    var n := v.name;
    var e := s.vips[n];
    var t := Switched(s, v, shadows, removed, seen, b);
    var f := SwitchEffect(s, v, shadows, seen, b);
    SwitchedIs(s, v, shadows, removed, seen, b);
    CommitOkIff(e, RouteAt(s, e.cfg.prefix), v, Seeds(s.scheds, shadows), seen, b);
    KeysOk(e); KeysOk(f.e);
    NamesAfter(e.cfg, v, s.visible[n], shadows, removed);
    forall c | c in t.visible[n]
      ensures VisibleAt(f.e, t.visible[n], t.scheds, t.running, c)
    {
      assert VisibleAt(e, s.visible[n], s.scheds, s.running, c) || c in shadows;
      SwitchedCheck(s, v, shadows, removed, f.e, c);
    }
    assert n !in t.staging;
    VipOkIntro(t, n);
  }

  lemma KeysOk(e: Entry)
    requires EntryOk(e)
    ensures e.checks.Keys == e.cfg.Checks().Keys
  {
    hide Combine, Evaluate;
  }

  lemma {:induction false} SwitchedCheck(s: State, v: Vip, shadows: map<string, Id>, removed: set<string>, e': Entry,
                                         c: string)
    requires v.name in s.vips && v.name in s.visible && Fits(s, v, shadows, removed)
    requires VisibleOk(s.vips[v.name], s.visible[v.name], s.scheds, s.running)
    requires e'.cfg == v && e'.checks == Merged(s.vips[v.name].checks, v, Seeds(s.scheds, shadows)) && c in e'.checks
    requires c in v.Checks() && c in s.visible[v.name] - (removed + shadows.Keys) + shadows
    ensures VisibleAt(e', s.visible[v.name] - (removed + shadows.Keys) + shadows,
                      Enlist(s.scheds, Ids(shadows), true),
                      Mark(s.running - Picked(s.visible[v.name], removed + shadows.Keys), Ids(shadows), false), c)
  {
    hide EverUp, Up, Told, Governs, ChangedNames, RemovedNames, VisibleOk;
    var e := s.vips[v.name];
    if c in shadows {
      assert ReadyShadow(s, v, c, shadows[c]);
      assert shadows[c] in Ids(shadows);
      SeedTold(s.scheds[shadows[c]], v, c);
    } else {
      assert VisibleAt(e, s.visible[v.name], s.scheds, s.running,
        c) by { VisibleHere(e, s.visible[v.name], s.scheds, s.running, c); }
      KeptCheck(s, v, shadows, removed, c);
    }
  }

  /** A promoted shadow is known to the policy by its seed. */
  lemma SeedTold(sc: Sched, v: Vip, c: string)
    requires Governs(sc, v, c) && (sc.inflight.Some? ==> sc.inflight.value.transition.None?)
    ensures var sc' := sc.(live := true, seeded := true);
      Governs(sc', v, c) && Told(sc', if sc.IsUp() then Healthy else Unhealthy)
  {
    hide EverUp, Up;
  }

  lemma VisibleHere(e: Entry, vis: map<string, Id>, scheds: map<Id, Sched>, running: map<Id, bool>, c: string)
    requires VisibleOk(e, vis, scheds, running) && c in vis
    ensures VisibleAt(e, vis, scheds, running, c)
  {
  }

  /**
    A check the change leaves alone: its scheduler keeps running, visible, and is governed by the
    new definition too.
   */
  lemma {:induction false} KeptCheck(s: State, v: Vip, shadows: map<string, Id>, removed: set<string>, c: string)
    requires v.name in s.vips && v.name in s.visible && Fits(s, v, shadows, removed)
    requires VisibleOk(s.vips[v.name], s.visible[v.name], s.scheds, s.running)
    requires c in s.visible[v.name] && c in v.Checks() && c !in shadows
    ensures var id := s.visible[v.name][c];
      id !in Ids(shadows) && id !in Picked(s.visible[v.name], removed + shadows.Keys) && Governs(s.scheds[id], v, c)
  {
    hide EverUp, Up, Told;
    var vis := s.visible[v.name];
    assert VisibleAt(s.vips[v.name], vis, s.scheds, s.running, c);
    forall d | d in shadows
      ensures shadows[d] != vis[c]
    {
      assert ReadyShadow(s, v, d, shadows[d]);
    }
    forall d | d in vis && d in removed + shadows.Keys
      ensures vis[d] != vis[c]
    {
      assert VisibleAt(s.vips[v.name], vis, s.scheds, s.running, d);
    }
  }

  // ------------------------------------------------------------------
  // The other VIPs and the schedulers
  // ------------------------------------------------------------------

  /** What the switch stops belongs to the VIP and was visible. */
  lemma {:induction false} RetiredRun(s: State, n: string, names: set<string>)
    requires VipsOk(s) && n in s.vips
    ensures forall id :: id in Picked(Visible(s, n), names) ==>
      id in s.scheds && id in s.running && !s.running[id] && s.scheds[id].vip == n && s.scheds[id].Name() in names
  {
    hide EntryOk, RouteOk, StagedOk, Told;
    assert VipOk(s, n);
    forall id | id in Picked(Visible(s, n), names)
      ensures id in s.scheds && id in s.running && !s.running[id] && s.scheds[id].vip == n
        && s.scheds[id].Name() in names
    {
      var c :| c in s.visible[n] && c in names && s.visible[n][c] == id;
      assert VisibleAt(s.vips[n], s.visible[n], s.scheds, s.running, c);
    }
  }

  lemma {:induction false} ShadowsOwn(s: State, v: Vip, shadows: map<string, Id>, removed: set<string>)
    requires Fits(s, v, shadows, removed)
    ensures forall id :: id in Ids(shadows) ==>
      && id in s.scheds && id in s.running && s.running[id] && s.scheds[id].vip == v.name
      && s.scheds[id].Name() in shadows && shadows[s.scheds[id].Name()] == id
      && (s.scheds[id].inflight.Some? ==>
         !s.scheds[id].inflight.value.live && s.scheds[id].inflight.value.transition.None?)
  {
    forall id | id in Ids(shadows)
      ensures id in s.scheds && id in s.running && s.running[id] && s.scheds[id].vip == v.name
      ensures s.scheds[id].Name() in shadows && shadows[s.scheds[id].Name()] == id
      ensures s.scheds[id].inflight.Some? ==>
        !s.scheds[id].inflight.value.live && s.scheds[id].inflight.value.transition.None?
    {
      var c :| c in shadows && shadows[c] == id;
      assert ReadyShadow(s, v, c, id);
    }
  }

  lemma {:induction false} SwitchFrame(s: State, v: Vip, shadows: map<string, Id>, removed: set<string>, seen: bool,
                                       b: Bgp, m: string)
    requires v.name in s.vips && VipsOk(s) && RoutesOwned(s.vips, s.routes) && Fits(s, v, shadows, removed)
    requires Committable(s.vips[v.name], v, Seeds(s.scheds, shadows))
    requires m in s.vips && m != v.name && m in s.visible
    ensures SameVip(s, Switched(s, v, shadows, removed, seen, b), m)
  {
    hide VipsOk, RoutesOwned, Commit, Committable, Seeds, Switched, Fits, SameScheds, Mark, Enlist, Picked, Ids,
      Visible;
    SwitchedIs(s, v, shadows, removed, seen, b);
    var e := s.vips[v.name];
    CommitCfg(e, RouteAt(s, e.cfg.prefix), v, Seeds(s.scheds, shadows), seen, b);
    RetiredRun(s, v.name, removed + shadows.Keys);
    ShadowsOwn(s, v, shadows, removed);
    assert v.prefix == e.cfg.prefix by { FitsPrefix(s, v, shadows, removed); }
    PrefixesDiffer(s, m, v.name);
    var t := Switched(s, v, shadows, removed, seen, b);
    SwitchKeepsScheds(s, t, v.name, Picked(Visible(s, v.name), removed + shadows.Keys), Ids(shadows), m);
  }

  lemma {:induction false} SwitchKeepsScheds(s: State, t: State, n: string, gone: set<Id>, ids: set<Id>, m: string)
    requires m != n && t.running == Mark(s.running - gone, ids, false) && t.scheds == Enlist(s.scheds, ids, true)
    requires forall id :: id in gone || id in ids ==> id in s.scheds && s.scheds[id].vip == n
    ensures SameScheds(s, t, m)
  {
  }

  lemma FitsPrefix(s: State, v: Vip, shadows: map<string, Id>, removed: set<string>)
    requires Fits(s, v, shadows, removed)
    ensures v.prefix == s.vips[v.name].cfg.prefix
  {
  }

  lemma CommitCfg(e: Entry, route: Option<Attrs>, v: Vip, seeds: map<string, Health>, seen: bool, b: Bgp)
    requires Committable(e, v, seeds)
    ensures Commit(e, route, v, seeds, seen, b).e.cfg == v
  {
    hide Committable, Combine, Due;
  }

  lemma {:induction false} SwitchVips(s: State, v: Vip, shadows: map<string, Id>, removed: set<string>, seen: bool,
                                      b: Bgp)
    requires v.name in s.vips && VipsOk(s) && RoutesOwned(s.vips, s.routes) && Fits(s, v, shadows, removed)
      && ValidVip(v)
    requires Committable(s.vips[v.name], v, Seeds(s.scheds, shadows)) && KeepsKnown(s, v, shadows)
    ensures VipsOk(Switched(s, v, shadows, removed, seen, b))
  {
    hide VipOk, RoutesOwned, Commit, Committable, Seeds, Switched, Fits, KeepsKnown, Mark, Enlist, Picked, ValidVip;
    var t := Switched(s, v, shadows, removed, seen, b);
    SwitchedIs(s, v, shadows, removed, seen, b);
    forall m | m in t.vips
      ensures VipOk(t, m)
    {
      assert VipOk(s, m);
      if m == v.name {
        SwitchOwn(s, v, shadows, removed, seen, b);
      } else {
        SwitchFrame(s, v, shadows, removed, seen, b, m);
        FrameVip(s, t, m);
      }
    }
  }

  lemma {:induction false} SwitchIds(s: State, v: Vip, shadows: map<string, Id>, removed: set<string>, seen: bool,
                                     b: Bgp)
    requires v.name in s.vips && VipsOk(s) && IdsOk(s) && Fits(s, v, shadows, removed) && Alone(s, v, shadows, removed)
    requires Committable(s.vips[v.name], v, Seeds(s.scheds, shadows))
    ensures IdsOk(Switched(s, v, shadows, removed, seen, b))
  {
    hide VipsOk, Commit, Committable, Seeds, Switched, SwitchEffect, Fits, IdOk, Listed, NoStrays, Mark, Picked, Ids,
      Alone, Visible, PutRoute;
    var t := Switched(s, v, shadows, removed, seen, b);
    SwitchedIs(s, v, shadows, removed, seen, b);
    RetiredRun(s, v.name, removed + shadows.Keys);
    ShadowsOwn(s, v, shadows, removed);
    VisibleKeys(s);
    forall id | id in t.scheds
      ensures IdOk(t, id)
    {
      assert id in s.scheds && IdOk(s, id);
      SwitchId(s, t, v, shadows, removed, id);
    }
    SwitchStrays(s, t, v, shadows, removed);
  }

  lemma {:induction false} SwitchStrays(s: State, t: State, v: Vip, shadows: map<string, Id>, removed: set<string>)
    requires NoStrays(s) && t.built == s.built && t.scheds.Keys == s.scheds.Keys
    requires t.running == Mark(s.running - Picked(Visible(s, v.name), removed + shadows.Keys), Ids(shadows), false)
    requires t.closed == s.closed + multiset(Picked(Visible(s, v.name), removed + shadows.Keys))
    requires forall id :: id in Picked(Visible(s, v.name), removed + shadows.Keys) || id in Ids(shadows) ==>
      id in s.scheds
    ensures NoStrays(t)
  {
    hide Picked, Ids, Visible;
    assert forall id :: id in t.closed ==> id in s.closed || id in Picked(Visible(s, v.name), removed + shadows.Keys);
  }

  /** One scheduler across the switch: retired and closed, promoted, or as before. */
  lemma {:induction false} SwitchId(s: State, t: State, v: Vip, shadows: map<string, Id>, removed: set<string>, id: Id)
    requires id in s.scheds && IdOk(s, id) && v.name in s.visible && Alone(s, v, shadows, removed)
    requires id in Picked(Visible(s, v.name), removed + shadows.Keys) ==>
      id in s.running && !s.running[id]
    requires id in Ids(shadows) ==>
      && id in s.running && s.running[id] && s.scheds[id].vip == v.name
      && s.scheds[id].Name() in shadows && shadows[s.scheds[id].Name()] == id
      && (s.scheds[id].inflight.Some? ==>
         !s.scheds[id].inflight.value.live && s.scheds[id].inflight.value.transition.None?)
    requires t.staging == s.staging - {v.name} && t.built == s.built
    requires t.visible == s.visible[v.name := Visible(s, v.name) - (removed + shadows.Keys) + shadows]
    requires t.running == Mark(s.running - Picked(Visible(s, v.name), removed + shadows.Keys), Ids(shadows), false)
    requires t.closed == s.closed + multiset(Picked(Visible(s, v.name), removed + shadows.Keys))
    requires t.scheds == Enlist(s.scheds, Ids(shadows), true)
    ensures id in t.scheds && IdOk(t, id)
  {
    var gone := Picked(Visible(s, v.name), removed + shadows.Keys);
    if id in s.running && !s.running[id] && s.scheds[id].vip == v.name && id !in gone {
      var c := s.scheds[id].Name();
      assert Listed(s, id) && c !in removed + shadows.Keys;
    }
  }

  // ------------------------------------------------------------------
  // The events
  // ------------------------------------------------------------------

  lemma {:induction false} KeepsSwitchIff(s: State, v: Vip, shadows: map<string, Id>, removed: set<string>, seen: bool,
                                          b: Bgp)
    requires v.name in s.vips && Core(s) && Fits(s, v, shadows, removed) && Alone(s, v, shadows, removed) && ValidVip(v)
    ensures Core(Switched(s, v, shadows, removed, seen, b)) <==> KeepsKnown(s, v, shadows)
  {
    hide VipsOk, IdsOk, RoutesOwned, QueueOk, Commit, Committable, Switched, Fits, Alone, KeepsKnown, Mark, Enlist,
      Picked, ValidVip, Seeds;
    var t := Switched(s, v, shadows, removed, seen, b);
    var e := s.vips[v.name];
    assert VipOk(s, v.name) by { VipHere(s, v.name); }
    EntryHere(s, v.name);
    NeverRefused(s, v, shadows, removed);
    SwitchedIs(s, v, shadows, removed, seen, b);
    SwitchIds(s, v, shadows, removed, seen, b);
    assert QueueOk(t) by { EnlistedSame(s.scheds, Ids(shadows)); QueueSame(s, t); }
    CommitCfg(e, RouteAt(s, e.cfg.prefix), v, Seeds(s.scheds, shadows), seen, b);
    FitsPrefix(s, v, shadows, removed);
    InstallKeepsOwned(s, v.name, SwitchEffect(s, v, shadows, seen, b));
    if KeepsKnown(s, v, shadows) {
      SwitchVips(s, v, shadows, removed, seen, b);
    } else {
      SwitchBreaks(s, t, v, shadows, removed, seen, b);
      if VipsOk(t) { EntryHere(t, v.name); }
    }
  }

  lemma EnlistedSame(scheds: map<Id, Sched>, ids: set<Id>)
    ensures var after := Enlist(scheds, ids, true);
      forall id :: id in scheds ==>
        id in after && after[id].hist == scheds[id].hist && after[id].check == scheds[id].check
  {
  }

  lemma VipHere(s: State, n: string)
    requires VipsOk(s) && n in s.vips
    ensures VipOk(s, n)
  {
    hide VipOk;
  }

  lemma EntryHere(s: State, n: string)
    requires VipsOk(s) && n in s.vips
    ensures EntryOk(s.vips[n]) && RouteOk(s.vips[n], RouteAt(s, s.vips[n].cfg.prefix))
  {
    hide EntryOk, RouteOk, VisibleOk, StagedOk;
    assert VipOk(s, n);
  }

  /** A commit over unknown checks of an announced VIP leaves the state behind the health. */
  lemma {:induction false} SwitchBreaks(s: State, t: State, v: Vip, shadows: map<string, Id>, removed: set<string>,
                                        seen: bool, b: Bgp)
    requires v.name in s.vips && EntryOk(s.vips[v.name])
      && RouteOk(s.vips[v.name], RouteAt(s, s.vips[v.name].cfg.prefix))
    requires ValidVip(v) && Committable(s.vips[v.name], v, Seeds(s.scheds, shadows)) && !KeepsKnown(s, v, shadows)
    requires t == Switched(s, v, shadows, removed, seen, b)
    ensures v.name in t.vips
      && !(EntryOk(t.vips[v.name]) && RouteOk(t.vips[v.name], RouteAt(t, t.vips[v.name].cfg.prefix)))
  {
    hide Commit, EntryOk, Committable, Switched, Mark, Enlist, Picked, ValidVip, Seeds, RouteOk, NoneKnown;
    var e := s.vips[v.name];
    SwitchedIs(s, v, shadows, removed, seen, b);
    CommitOkIff(e, RouteAt(s, e.cfg.prefix), v, Seeds(s.scheds, shadows), seen, b);
  }

  lemma {:induction false} KeepsCommitNowIff(s: State, v: Vip, seen: bool, b: Bgp)
    requires Core(s) && Enabled(s, CommitNow(v, seen, b))
    ensures Core(Step(s, CommitNow(v, seen, b))) <==> KeepsKnown(s, v, map[])
  {
    hide VipsOk, IdsOk, RoutesOwned, QueueOk, Switch, KeepsKnown, Quiet, ChangedNames, RemovedNames, ValidVip;
    var removed := RemovedNames(s.vips[v.name].cfg, v);
    assert s.staging - {v.name} == s.staging;
    NameHere(s, v.name);
    var none: map<string, Id> := map[];
    assert removed + none.Keys == removed;
    assert Alone(s, v, none, removed) by { NoShadows(s, v.name); }
    KeepsSwitchIff(s, v, none, removed, seen, b);
  }

  lemma NameHere(s: State, n: string)
    requires VipsOk(s) && n in s.vips
    ensures s.vips[n].cfg.name == n
  {
    hide EntryOk, RouteOk, VisibleOk, StagedOk;
    assert VipOk(s, n);
  }

  lemma NoShadows(s: State, n: string)
    requires IdsOk(s) && n !in s.staging
    ensures forall id :: id in s.scheds && id in s.running && s.scheds[id].vip == n ==> !s.running[id]
  {
    forall id | id in s.scheds && id in s.running && s.scheds[id].vip == n
      ensures !s.running[id]
    {
      assert IdOk(s, id);
    }
  }

  lemma {:induction false} KeepsCommit(s: State, n: string, seen: bool, b: Bgp)
    requires Core(s) && n in s.staging && CommitQuiet(s, n)
    ensures Core(StepCommit(s, n, seen, b))
  {
    hide VipsOk, IdsOk, RoutesOwned, QueueOk, Switch, KeepsKnown, Quiet, ValidVip, Fits, StagedOk;
    var st := s.staging[n];
    StagedHere(s, n);
    StagedFits(s, n);
    assert Alone(s, st.cfg, st.shadows, st.removed) by { OnlyShadows(s, n); }
    SeedsKnown(s, n);
    KeepsSwitchIff(s, st.cfg, st.shadows, st.removed, seen, b);
  }

  lemma {:induction false} StagedHere(s: State, n: string)
    requires VipsOk(s) && n in s.staging
    ensures n in s.vips && StagedOk(s.vips[n], s.staging[n], s.scheds, s.running)
    ensures s.staging[n].cfg.name == n && s.vips[n].cfg.name == n && ValidVip(s.staging[n].cfg)
  {
    hide EntryOk, RouteOk, VisibleOk, ValidVip, ChangedNames, RemovedNames, ShadowOk;
    assert VipOk(s, n);
  }

  lemma {:induction false} StagedFits(s: State, n: string)
    requires n in s.staging && n in s.vips && StagedOk(s.vips[n], s.staging[n], s.scheds, s.running)
    requires s.staging[n].cfg.name == n && s.vips[n].cfg.name == n
    ensures Fits(s, s.staging[n].cfg, s.staging[n].shadows, s.staging[n].removed)
  {
    hide ValidVip, ChangedNames, RemovedNames, Governs, EverDecided, DeadlineFor;
    var st := s.staging[n];
    forall c | c in st.shadows
      ensures ReadyShadow(s, st.cfg, c, st.shadows[c])
    {
      assert ShadowOk(st, c, st.shadows[c], s.scheds, s.running);
    }
  }

  lemma OnlyShadows(s: State, n: string)
    requires IdsOk(s) && n in s.staging
    ensures forall id :: id in s.scheds && id in s.running && s.running[id] && s.scheds[id].vip == n ==>
      id in Ids(s.staging[n].shadows)
  {
    forall id | id in s.scheds && id in s.running && s.running[id] && s.scheds[id].vip == n
      ensures id in Ids(s.staging[n].shadows)
    {
      assert IdOk(s, id);
    }
  }

  /** A staged commit always has a known check: it has at least one shadow, and every shadow is seeded. */
  lemma {:induction false} SeedsKnown(s: State, n: string)
    requires n in s.staging && n in s.vips && StagedOk(s.vips[n], s.staging[n], s.scheds, s.running)
    requires s.staging[n].cfg.name == n
    ensures !NoneKnown(Merged(s.vips[n].checks, s.staging[n].cfg, Seeds(s.scheds, s.staging[n].shadows)))
    ensures KeepsKnown(s, s.staging[n].cfg, s.staging[n].shadows)
  {
    hide ValidVip, RemovedNames, EverDecided, DeadlineFor, Up;
    var st := s.staging[n];
    var c :| c in st.shadows;
    assert ShadowOk(st, c, st.shadows[c], s.scheds, s.running);
    ByNameIs(st.cfg.CheckList());
    var seeds := Seeds(s.scheds, st.shadows);
    assert c in seeds && seeds[c] != Unknown;
    assert c in Merged(s.vips[n].checks, st.cfg, seeds);
  }

  lemma {:induction false} KeepsExpire(s: State, n: string, now: nat, seen: bool, b: Bgp)
    requires Core(s) && Enabled(s, Expire(n, now, seen, b))
    ensures Core(Step(s, Expire(n, now, seen, b)))
  {
    hide Core, StepCommit;
    KeepsCommit(s, n, seen, b);
  }

  lemma {:induction false} Popped(s: State)
    requires Core(s) && s.drained != []
    ensures Core(s.(drained := s.drained[1..]))
  {
    hide VipsOk, IdsOk, RoutesOwned;
    var t := s.(drained := s.drained[1..]);
    VipsSame(s, t);
    IdsSame(s, t);
  }

  /** A staging that notes one more verdict and still waits. */
  lemma {:induction false} KeepsNoted(s: State, id: Id)
    requires Core(s) && Current(s, id) && s.scheds[id].HadVerdict()
    requires var st := s.staging[s.scheds[id].vip]; |Noted(st, s.scheds[id].Name()).verdicts| < |st.shadows|
    ensures Core(s.(staging := s.staging[s.scheds[id].vip := Noted(s.staging[s.scheds[id].vip], s.scheds[id].Name())]))
  {
    hide VipsOk, IdsOk, RoutesOwned, QueueOk, EverDecided;
    var n := s.scheds[id].vip;
    var t := s.(staging := s.staging[n := Noted(s.staging[n], s.scheds[id].Name())]);
    NotedVips(s, t, id);
    NotedIds(s, t, id);
    QueueSame(s, t);
  }

  lemma {:induction false} NotedVips(s: State, t: State, id: Id)
    requires VipsOk(s) && Current(s, id) && s.scheds[id].HadVerdict()
    requires var st := s.staging[s.scheds[id].vip]; |Noted(st, s.scheds[id].Name()).verdicts| < |st.shadows|
    requires t == s.(staging := s.staging[s.scheds[id].vip := Noted(s.staging[s.scheds[id].vip], s.scheds[id].Name())])
    ensures VipsOk(t)
  {
    hide VipOk, EverDecided, StagedOk;
    var n := s.scheds[id].vip;
    forall m | m in t.vips
      ensures VipOk(t, m)
    {
      assert VipOk(s, m);
      if m == n {
        StagedHere(s, n);
        NotedStaged(s.vips[n], s.staging[n], s.scheds, s.running, s.scheds[id].Name());
        NotedOwn(s, t, n);
      } else {
        FrameVip(s, t, m);
      }
    }
  }

  lemma NotedOwn(s: State, t: State, n: string)
    requires n in s.vips && VipOk(s, n) && t == s.(staging := t.staging) && n in t.staging
    requires StagedOk(s.vips[n], t.staging[n], s.scheds, s.running)
    ensures VipOk(t, n)
  {
    hide EntryOk, RouteOk, VisibleOk, StagedOk;
  }

  lemma {:induction false} NotedStaged(e: Entry, st: Staged, scheds: map<Id, Sched>, running: map<Id, bool>, c: string)
    requires StagedOk(e, st, scheds, running) && c in st.shadows && st.shadows[c] in scheds
      && scheds[st.shadows[c]].HadVerdict()
    requires |Noted(st, c).verdicts| < |st.shadows|
    ensures StagedOk(e, Noted(st, c), scheds, running)
  {
    hide EverDecided, ValidVip, ChangedNames, RemovedNames, Governs, DeadlineFor;
    var st' := Noted(st, c);
    assert st'.verdicts <= st'.shadows.Keys;
    assert st'.verdicts != st'.shadows.Keys;
    forall d | d in st.shadows
      ensures ShadowOk(st', d, st.shadows[d], scheds, running)
    {
      assert ShadowOk(st, d, st.shadows[d], scheds, running);
    }
  }

  lemma {:induction false} NotedIds(s: State, t: State, id: Id)
    requires IdsOk(s) && Current(s, id)
    requires t == s.(staging := s.staging[s.scheds[id].vip := Noted(s.staging[s.scheds[id].vip], s.scheds[id].Name())])
    ensures IdsOk(t)
  {
    forall x | x in t.scheds
      ensures IdOk(t, x)
    {
      assert IdOk(s, x);
    }
  }

  lemma {:induction false} KeepsReport(s: State, seen: bool, b: Bgp)
    requires Core(s) && Enabled(s, Report(seen, b))
    ensures Core(Step(s, Report(seen, b)))
  {
    hide Core, Switch, EverDecided;
    var id := s.drained[0];
    var s1 := s.(drained := s.drained[1..]);
    Popped(s);
    if Current(s, id) {
      var n := s.scheds[id].vip;
      var st := Noted(s.staging[n], s.scheds[id].Name());
      var s2 := s1.(staging := s.staging[n := st]);
      if |st.verdicts| < |st.shadows| {
        assert s.scheds[id].HadVerdict() by { DrainedVerdict(s, id); }
        KeepsNoted(s1, id);
      } else {
        assert s2.staging - {n} == s1.staging - {n};
        assert StepCommit(s2, n, seen, b) == StepCommit(s1, n, seen, b);
        KeepsCommit(s1, n, seen, b);
      }
    }
  }

  lemma DrainedVerdict(s: State, id: Id)
    requires Core(s) && id in s.drained
    ensures id in s.scheds && s.scheds[id].HadVerdict()
  {
    hide VipsOk, IdsOk, RoutesOwned, EverDecided;
  }
}
