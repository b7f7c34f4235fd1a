/** The events of the reloader keep the invariant of module `Safety`. */
module ReloadSafety {
  import opened Config
  import opened Hysteresis
  import opened Policy
  import opened System
  import opened Safety

  // ------------------------------------------------------------------
  // Building, closing, staging
  // ------------------------------------------------------------------

  lemma {:induction false} VisibleSame(e: Entry, vis: map<string, Id>, scheds: map<Id, Sched>, running: map<Id, bool>,
                                       scheds': map<Id, Sched>, running': map<Id, bool>)
    requires VisibleOk(e, vis, scheds, running)
    requires forall id :: id in scheds && id in running && !running[id] ==>
      id in scheds' && scheds'[id] == scheds[id] && id in running' && !running'[id]
    ensures VisibleOk(e, vis, scheds', running')
  {
    hide Told, Governs;
    forall c | c in vis
      ensures VisibleAt(e, vis, scheds', running', c)
    {
      assert VisibleAt(e, vis, scheds, running, c);
    }
  }

  /** Nothing changed that a VIP depends on. */
  lemma {:induction false} VipsSame(s: State, t: State)
    requires VipsOk(s) && t.vips == s.vips && t.visible == s.visible && t.staging == s.staging
    requires t.routes == s.routes && t.running == s.running
    requires forall id :: id in s.scheds ==> id in t.scheds && t.scheds[id] == s.scheds[id]
    ensures VipsOk(t)
  {
    hide VipOk;
    forall n | n in t.vips
      ensures VipOk(t, n)
    {
      FrameVip(s, t, n);
    }
  }

  lemma {:induction false} KeepsBuild(s: State, news: map<Id, Sched>)
    requires Core(s) && Enabled(s, Build(news))
    ensures Core(Step(s, Build(news)))
  {
    hide VipsOk, IdsOk, RoutesOwned;
    VipsSame(s, Step(s, Build(news)));
    BuildIds(s, news);
  }

  lemma {:induction false} BuildIds(s: State, news: map<Id, Sched>)
    requires IdsOk(s) && Enabled(s, Build(news))
    ensures IdsOk(Step(s, Build(news)))
  {
    var t := Step(s, Build(news));
    forall id | id in t.scheds
      ensures IdOk(t, id)
    {
      if id in s.scheds { assert IdOk(s, id); } else { assert id in news; }
    }
  }

  lemma {:induction false} KeepsClose(s: State, unused: set<Id>)
    requires Core(s) && Enabled(s, CloseBuilt(unused))
    ensures Core(Step(s, CloseBuilt(unused)))
  {
    hide VipsOk, IdsOk, RoutesOwned;
    VipsSame(s, Step(s, CloseBuilt(unused)));
    CloseIds(s, unused);
  }

  lemma {:induction false} CloseIds(s: State, unused: set<Id>)
    requires IdsOk(s) && Enabled(s, CloseBuilt(unused))
    ensures IdsOk(Step(s, CloseBuilt(unused)))
  {
    var t := Step(s, CloseBuilt(unused));
    forall id | id in t.scheds
      ensures IdOk(t, id)
    {
      assert IdOk(s, id);
    }
  }

  lemma {:induction false} KeepsDrain(s: State)
    requires Core(s) && Enabled(s, DrainQueue)
    ensures Core(Step(s, DrainQueue))
  {
    hide VipsOk, IdsOk, RoutesOwned;
    var t := Step(s, DrainQueue);
    VipsSame(s, t);
    IdsSame(s, t);
  }

  lemma {:induction false} IdsSame(s: State, t: State)
    requires IdsOk(s)
    requires t.scheds == s.scheds && t.running == s.running && t.built == s.built && t.closed == s.closed
    requires t.visible == s.visible && t.staging == s.staging
    ensures IdsOk(t)
  {
    forall id | id in t.scheds
      ensures IdOk(t, id)
    {
      assert IdOk(s, id);
    }
  }

  lemma {:induction false} KeepsDrop(s: State)
    requires Core(s) && Enabled(s, DropStaging)
    ensures Core(Step(s, DropStaging))
    ensures var t := Step(s, DropStaging);
      && t.staging == map[] && t.queue == [] && t.vips == s.vips && t.visible == s.visible && t.routes == s.routes
      && (forall id :: id in t.running ==> !t.running[id])
      && (forall n, c :: n in s.staging && c in s.staging[n].shadows ==> t.closed[s.staging[n].shadows[c]] == 1)
  {
    hide VipsOk, IdsOk, RoutesOwned;
    var t := Step(s, DropStaging);
    DropVips(s);
    DropIds(s);
    DropEnds(s);
  }

  /** Nothing runs in shadow any more, and what did was closed. */
  lemma {:induction false} DropEnds(s: State)
    requires VipsOk(s) && IdsOk(s) && IdsOk(StepDrop(s))
    ensures var t := StepDrop(s);
      && (forall id :: id in t.running ==> !t.running[id])
      && (forall n, c :: n in s.staging && c in s.staging[n].shadows ==> t.closed[s.staging[n].shadows[c]] == 1)
  {
    hide VipsOk, InflightOk, Listed;
    var t := StepDrop(s);
    forall id | id in t.running
      ensures !t.running[id]
    {
      assert IdOk(s, id);
      assert s.running[id] ==> id in ShadowIds(s.staging);
    }
    forall n, c | n in s.staging && c in s.staging[n].shadows
      ensures t.closed[s.staging[n].shadows[c]] == 1
    {
      var id := s.staging[n].shadows[c];
      assert id in ShadowIds(s.staging);
      ShadowsRun(s, id);
      assert IdOk(s, id);
    }
  }

  lemma {:induction false} ShadowsRun(s: State, id: Id)
    requires VipsOk(s) && id in ShadowIds(s.staging)
    ensures id in s.scheds && id in s.running && s.running[id]
  {
    hide EntryOk, RouteOk, VisibleOk, Governs, ValidVip;
    var n, c :| n in s.staging && c in s.staging[n].shadows && s.staging[n].shadows[c] == id;
    assert VipOk(s, n);
    assert ShadowOk(s.staging[n], c, id, s.scheds, s.running);
  }

  lemma {:induction false} DropVips(s: State)
    requires VipsOk(s)
    ensures VipsOk(StepDrop(s))
  {
    hide EntryOk, RouteOk, VisibleOk, StagedOk;
    var t := StepDrop(s);
    forall id | id in s.running && !s.running[id]
      ensures id in t.running && !t.running[id]
    {
      if id in ShadowIds(s.staging) { ShadowsRun(s, id); }
    }
    forall n | n in t.vips
      ensures VipOk(t, n)
    {
      assert VipOk(s, n);
      VisibleSame(s.vips[n], s.visible[n], s.scheds, s.running, t.scheds, t.running);
    }
  }

  lemma {:induction false} DropId(s: State, id: Id)
    requires VipsOk(s) && Enabled(s, DropStaging) && id in s.scheds && IdOk(s, id)
    ensures IdOk(StepDrop(s), id)
  {
    hide VipsOk;
    if id in ShadowIds(s.staging) { ShadowsRun(s, id); }
    if id in s.running && s.running[id] { assert id in ShadowIds(s.staging); }
  }

  lemma {:induction false} DropIds(s: State)
    requires VipsOk(s) && IdsOk(s) && Enabled(s, DropStaging)
    ensures IdsOk(StepDrop(s))
  {
    hide VipsOk;
    var t := StepDrop(s);
    forall id | id in t.scheds
      ensures IdOk(t, id)
    {
      DropId(s, id);
    }
    forall id | id in t.closed
      ensures id in t.scheds
    {
      if id in ShadowIds(s.staging) { ShadowsRun(s, id); }
    }
  }

  // ------------------------------------------------------------------
  // Removing and adding a VIP
  // ------------------------------------------------------------------

  /**
    `RemoveVIP` withdraws nothing from a VIP it holds as withdrawn. That leaves an orphan
    behind exactly when an earlier withdraw failed and the route is still installed.
   */
  predicate LeavesNoOrphan(s: State, n: string)
    requires n in s.vips
  {
    s.vips[n].state == Withdrawn ==> s.vips[n].cfg.prefix !in s.routes
  }

  predicate Removable(s: State, n: string) {
    n in s.vips && n !in s.staging && Quiet(s, Ids(Visible(s, n)))
  }

  lemma {:induction false} KeepsRemoveIff(s: State, n: string, b: Bgp)
    requires Core(s) && Enabled(s, RemoveVip(n, b))
    ensures Core(Step(s, RemoveVip(n, b))) <==> LeavesNoOrphan(s, n)
  {
    hide VipsOk, IdsOk, RoutesOwned, QueueOk;
    var t := Step(s, RemoveVip(n, b));
    assert QueueOk(t) by { QueueSame(s, t); }
    if RemovalFails(s, n, b) {
      VipsSame(s, t);
      IdsSame(s, t);
    } else {
      RemoveVips(s, n, b);
      RemoveIds(s, n, b);
    }
    RemoveOwned(s, n, b);
  }

  lemma QueueSame(s: State, t: State)
    requires QueueOk(s) && t.queue == s.queue && t.drained == s.drained
    requires forall id :: id in s.scheds ==>
      id in t.scheds && t.scheds[id].hist == s.scheds[id].hist && t.scheds[id].check == s.scheds[id].check
    ensures QueueOk(t)
  {
    hide EverDecided;
  }

  lemma {:induction false} RemoveOwned(s: State, n: string, b: Bgp)
    requires RoutesOwned(s.vips, s.routes) && n in s.vips
    ensures var t := StepRemove(s, n, b); RoutesOwned(t.vips, t.routes) <==> LeavesNoOrphan(s, n)
  {
    var t := StepRemove(s, n, b);
    var p := s.vips[n].cfg.prefix;
    if RemovalFails(s, n, b) {
    } else if LeavesNoOrphan(s, n) {
      forall q | q in t.routes
        ensures exists m :: m in t.vips && t.vips[m].cfg.prefix == q
      {
        var m :| m in s.vips && s.vips[m].cfg.prefix == q;
        assert m in t.vips;
      }
    } else {
      assert p in t.routes;
      assert !exists m :: m in t.vips && t.vips[m].cfg.prefix == p;
    }
  }

  /** The visible schedulers of `n`: what is stopped when the VIP goes. */
  lemma {:induction false} VisibleRun(s: State, n: string)
    requires VipsOk(s) && n in s.vips
    ensures forall id :: id in Ids(Visible(s, n)) ==>
      id in s.scheds && id in s.running && !s.running[id] && s.scheds[id].vip == n
  {
    hide EntryOk, RouteOk, StagedOk, Told;
    assert VipOk(s, n);
    forall id | id in Ids(Visible(s, n))
      ensures id in s.scheds && id in s.running && !s.running[id] && s.scheds[id].vip == n
    {
      var c :| c in s.visible[n] && s.visible[n][c] == id;
      assert VisibleAt(s.vips[n], s.visible[n], s.scheds, s.running, c);
    }
  }

  lemma {:induction false} RemoveVips(s: State, n: string, b: Bgp)
    requires VipsOk(s) && RoutesOwned(s.vips, s.routes) && Removable(s, n) && !RemovalFails(s, n, b)
    ensures VipsOk(StepRemove(s, n, b))
  {
    hide VipOk, RoutesOwned;
    var t := StepRemove(s, n, b);
    forall m | m in t.vips
      ensures VipOk(t, m)
    {
      assert VipOk(s, m);
      RemoveFrame(s, n, b, m);
      FrameVip(s, t, m);
    }
  }

  lemma {:induction false} RemoveFrame(s: State, n: string, b: Bgp, m: string)
    requires VipsOk(s) && RoutesOwned(s.vips, s.routes) && Removable(s, n) && !RemovalFails(s, n, b)
    requires m in s.vips && m != n
    ensures SameVip(s, StepRemove(s, n, b), m)
  {
    hide VipsOk, RoutesOwned, Quiet;
    VisibleKeys(s);
    VisibleRun(s, n);
    PrefixesDiffer(s, m, n);
  }

  lemma PrefixesDiffer(s: State, m: string, n: string)
    requires RoutesOwned(s.vips, s.routes) && m in s.vips && n in s.vips && m != n
    ensures s.vips[m].cfg.prefix != s.vips[n].cfg.prefix
  {
  }

  lemma {:induction false} RemoveIds(s: State, n: string, b: Bgp)
    requires VipsOk(s) && IdsOk(s) && Removable(s, n) && !RemovalFails(s, n, b)
    ensures IdsOk(StepRemove(s, n, b))
  {
    hide VipsOk;
    var t := StepRemove(s, n, b);
    VisibleRun(s, n);
    forall id | id in t.scheds
      ensures IdOk(t, id)
    {
      RemoveId(s, n, b, id);
    }
    assert forall id :: id in t.closed ==> id in s.closed || id in Ids(Visible(s, n));
  }

  lemma {:induction false} RemoveId(s: State, n: string, b: Bgp, id: Id)
    requires VipsOk(s) && Removable(s, n) && !RemovalFails(s, n, b)
    requires id in s.scheds && IdOk(s, id)
    ensures IdOk(StepRemove(s, n, b), id)
  {
    hide VipsOk;
    VisibleRun(s, n);
    if id in s.running && !s.running[id] && s.scheds[id].vip == n {
      assert id in Ids(Visible(s, n));
    }
  }

  /**
    The prefix of an added VIP is free. The guard of the reloader is keyed by name and does not see
    a prefix that a kept VIP still owns.
   */
  predicate PrefixFree(s: State, v: Vip) {
    forall n :: n in s.vips ==> s.vips[n].cfg.prefix != v.prefix
  }

  lemma {:induction false} BuiltIs(s: State, v: Vip, ids: map<string, Id>)
    requires BuiltFor(s, v, ids)
    ensures forall id :: id in Ids(ids) ==> HandedOver(s, v, ids, id)
  {
    forall id | id in Ids(ids)
      ensures HandedOver(s, v, ids, id)
    {
      var c :| c in ids && ids[c] == id;
      assert Governs(s.scheds[id], v, c);
    }
  }

  lemma {:induction false} BuiltNotRunning(s: State, ids: map<string, Id>)
    requires IdsOk(s) && Ids(ids) <= s.built
    ensures forall id :: id in Ids(ids) ==> id !in s.running
  {
    forall id | id in Ids(ids)
      ensures id !in s.running
    {
      assert IdOk(s, id);
    }
  }

  lemma {:induction false} KeepsAddIff(s: State, v: Vip, ids: map<string, Id>, seen: bool)
    requires Core(s) && Enabled(s, AddVip(v, ids, seen))
    ensures Core(Step(s, AddVip(v, ids, seen))) <==> PrefixFree(s, v)
  {
    hide VipsOk, IdsOk, RoutesOwned, QueueOk, NewEntry, PrefixFree, BuiltFor, ValidVip;
    var t := Step(s, AddVip(v, ids, seen));
    assert QueueOk(t) by { QueueSame(s, t); }
    AddIds(s, v, ids, seen);
    AddOwned(s, v, ids, seen);
    if PrefixFree(s, v) {
      AddVips(s, v, ids, seen);
    }
  }

  lemma {:induction false} AddOwned(s: State, v: Vip, ids: map<string, Id>, seen: bool)
    requires RoutesOwned(s.vips, s.routes) && v.name !in s.vips
    ensures var t := StepAdd(s, v, ids, seen); RoutesOwned(t.vips, t.routes) <==> PrefixFree(s, v)
  {
    var t := StepAdd(s, v, ids, seen);
    assert t.vips[v.name].cfg == v;
    forall q | q in t.routes
      ensures exists m :: m in t.vips && t.vips[m].cfg.prefix == q
    {
      var m :| m in s.vips && s.vips[m].cfg.prefix == q;
      assert m in t.vips && t.vips[m] == s.vips[m];
    }
    forall n | n in s.vips
      ensures t.vips[n] == s.vips[n]
    {
    }
    if RoutesOwned(t.vips, t.routes) {
      forall n | n in s.vips
        ensures s.vips[n].cfg.prefix != v.prefix
      {
        assert n in t.vips && v.name in t.vips && t.vips[n].cfg.prefix != t.vips[v.name].cfg.prefix;
      }
    }
  }

  lemma {:induction false} AddVips(s: State, v: Vip, ids: map<string, Id>, seen: bool)
    requires VipsOk(s) && IdsOk(s) && RoutesOwned(s.vips, s.routes) && Enabled(s, AddVip(v, ids, seen))
      && PrefixFree(s, v)
    ensures VipsOk(StepAdd(s, v, ids, seen))
  {
    hide VipOk, IdsOk, RoutesOwned;
    var t := StepAdd(s, v, ids, seen);
    forall m | m in t.vips
      ensures VipOk(t, m)
    {
      if m == v.name {
        AddOwn(s, v, ids, seen);
      } else {
        assert VipOk(s, m);
        AddFrame(s, v, ids, seen, m);
        FrameVip(s, t, m);
      }
    }
  }

  lemma {:induction false} AddFrame(s: State, v: Vip, ids: map<string, Id>, seen: bool, m: string)
    requires Enabled(s, AddVip(v, ids, seen)) && m in s.vips && m in s.visible && m != v.name
    ensures SameVip(s, StepAdd(s, v, ids, seen), m)
  {
    hide NewEntry, ValidVip, IsNew, BuiltFor;
    BuiltIs(s, v, ids);
  }

  lemma {:induction false} AddOwn(s: State, v: Vip, ids: map<string, Id>, seen: bool)
    requires VipsOk(s) && RoutesOwned(s.vips, s.routes) && Enabled(s, AddVip(v, ids, seen)) && PrefixFree(s, v)
    ensures VipOk(StepAdd(s, v, ids, seen), v.name)
  {
    hide VipOk, EntryOk, NewEntry, RouteOk, Told;
    var t := StepAdd(s, v, ids, seen);
    NewEntryOk(v, seen);
    NewEntryIs(v, seen);
    assert v.prefix !in s.routes;
    var e := t.vips[v.name];
    assert VisibleOk(e, ids, t.scheds, t.running) by {
      forall c | c in ids
        ensures VisibleAt(e, ids, t.scheds, t.running, c)
      {
        assert IsNew(s.scheds[ids[c]]) && Governs(s.scheds[ids[c]], v, c);
        NewIsUnknown(t.scheds[ids[c]]);
      }
    }
    assert v.name !in t.staging;
    VipOkIntro(t, v.name);
  }

  lemma NewEntryIs(v: Vip, seen: bool)
    requires ValidVip(v)
    ensures var e := NewEntry(v, seen);
      e.cfg == v && e.checks.Keys == v.Checks().Keys && forall c :: c in e.checks ==> e.checks[c] == Unknown
  {
    ByNameIs(v.CheckList());
  }

  lemma NewIsUnknown(sc: Sched)
    requires sc.hist == [] && sc.live && !sc.seeded && sc.inflight.None?
    ensures Told(sc, Unknown)
  {
  }

  lemma VipOkIntro(t: State, n: string)
    requires n in t.vips && t.vips[n].cfg.name == n && EntryOk(t.vips[n])
      && RouteOk(t.vips[n], RouteAt(t, t.vips[n].cfg.prefix))
    requires n in t.visible && VisibleOk(t.vips[n], t.visible[n], t.scheds, t.running)
    requires n in t.staging ==> StagedOk(t.vips[n], t.staging[n], t.scheds, t.running)
    ensures VipOk(t, n)
  {
    hide EntryOk, RouteOk, VisibleOk, StagedOk;
  }

  lemma {:induction false} AddIds(s: State, v: Vip, ids: map<string, Id>, seen: bool)
    requires VipsOk(s) && IdsOk(s) && Enabled(s, AddVip(v, ids, seen))
    ensures IdsOk(StepAdd(s, v, ids, seen))
  {
    hide VipsOk, NewEntry, ValidVip, BuiltFor;
    var t := StepAdd(s, v, ids, seen);
    BuiltIs(s, v, ids);
    assert v.name !in s.visible by { VisibleKeys(s); }
    forall id | id in t.scheds
      ensures IdOk(t, id)
    {
      AddId(s, v, ids, seen, id);
    }
  }

  lemma VisibleKeys(s: State)
    requires VipsOk(s)
    ensures s.visible.Keys == s.vips.Keys && s.staging.Keys <= s.vips.Keys
  {
    hide VipOk;
  }

  lemma {:induction false} AddId(s: State, v: Vip, ids: map<string, Id>, seen: bool, id: Id)
    requires v.name !in s.visible && id in s.scheds && IdOk(s, id)
    requires id in Ids(ids) ==> HandedOver(s, v, ids, id)
    ensures IdOk(StepAdd(s, v, ids, seen), id)
  {
    hide NewEntry;
  }

  predicate HandedOver(s: State, v: Vip, ids: map<string, Id>, id: Id) {
    && id in s.scheds && id in s.built && s.scheds[id].vip == v.name && IsNew(s.scheds[id])
    && s.scheds[id].Name() in ids && ids[s.scheds[id].Name()] == id
  }

  // ------------------------------------------------------------------
  // Staging a changed VIP
  // ------------------------------------------------------------------

  lemma {:induction false} KeepsStage(s: State, v: Vip, ids: map<string, Id>, at: nat)
    requires Core(s) && Enabled(s, Stage(v, ids, at))
    ensures Core(Step(s, Stage(v, ids, at)))
  {
    hide VipsOk, IdsOk, RoutesOwned, QueueOk;
    var t := Step(s, Stage(v, ids, at));
    assert QueueOk(t) by { QueueSame(s, t); }
    StageVips(s, v, ids, at);
    StageIds(s, v, ids, at);
  }

  lemma {:induction false} StageVips(s: State, v: Vip, ids: map<string, Id>, at: nat)
    requires VipsOk(s) && IdsOk(s) && Enabled(s, Stage(v, ids, at))
    ensures VipsOk(StepStage(s, v, ids, at))
  {
    hide VipOk, IdsOk, ChangedNames, RemovedNames, ValidVip, BuiltFor;
    var t := StepStage(s, v, ids, at);
    BuiltIs(s, v, ids);
    BuiltNotRunning(s, ids);
    forall m | m in t.vips
      ensures VipOk(t, m)
    {
      assert VipOk(s, m);
      if m == v.name {
        StageOwn(s, v, ids, at);
      } else {
        FrameVip(s, t, m);
      }
    }
  }

  lemma {:induction false} StageOwn(s: State, v: Vip, ids: map<string, Id>, at: nat)
    requires Enabled(s, Stage(v, ids, at)) && v.name in s.vips && VipOk(s, v.name)
    requires forall id :: id in Ids(ids) ==> id !in s.running
    ensures VipOk(StepStage(s, v, ids, at), v.name)
  {
    hide EntryOk, RouteOk, VisibleOk, ChangedNames, RemovedNames, ValidVip, DeadlineFor, EverDecided;
    var t := StepStage(s, v, ids, at);
    var e := s.vips[v.name];
    VisibleSame(e, s.visible[v.name], s.scheds, s.running, t.scheds, t.running);
    var st := t.staging[v.name];
    forall c | c in ids
      ensures ShadowOk(st, c, ids[c], t.scheds, t.running)
    {
      assert ids[c] in Ids(ids);
      assert Governs(s.scheds[ids[c]], v, c);
    }
    assert st.verdicts < ids.Keys;
  }

  lemma {:induction false} StageIds(s: State, v: Vip, ids: map<string, Id>, at: nat)
    requires IdsOk(s) && Enabled(s, Stage(v, ids, at))
    ensures IdsOk(StepStage(s, v, ids, at))
  {
    hide ChangedNames, RemovedNames, ValidVip, BuiltFor;
    var t := StepStage(s, v, ids, at);
    BuiltIs(s, v, ids);
    forall id | id in t.scheds
      ensures IdOk(t, id)
    {
      StageId(s, v, ids, at, id);
    }
  }

  lemma {:induction false} StageId(s: State, v: Vip, ids: map<string, Id>, at: nat, id: Id)
    requires v.name in s.vips && v.name !in s.staging && id in s.scheds && IdOk(s, id)
    requires id in Ids(ids) ==> HandedOver(s, v, ids, id)
    ensures IdOk(StepStage(s, v, ids, at), id)
  {
    hide RemovedNames;
  }
}
