/**
  The objects together: registry, policy manager with its originator, and the reloader's records.
  The steps of a reload, performed on the objects in the order of the program, refine the events
  of module `System`.
 */
module Program {
  import opened Config
  import opened Hysteresis
  import opened Policy
  import opened System
  import opened Registry
  import opened Rib
  import opened PolicyManager
  import CommitSafety

  function HandleOf(id: Id, sc: Sched): Handle { Handle(id, sc.vip, sc.Name()) }

  /** The listed schedulers by VIP and check. */
  function Listed(visible: map<string, seq<Handle>>): map<string, map<string, Id>> {
    map v | v in visible :: Numbers(visible[v])
  }

  function Numbers(list: seq<Handle>): map<string, Id> { map c | c in Listing(list) :: Listing(list)[c].id }

  function NumberSet(list: seq<Handle>): set<Id> { set h | h in list :: h.id }

  /** The running schedulers with their shadow mark. */
  function Marked(running: map<Handle, bool>, scheds: map<Id, Sched>): map<Id, bool> {
    map id | id in scheds && HandleOf(id, scheds[id]) in running :: running[HandleOf(id, scheds[id])]
  }

  predicate Known(scheds: map<Id, Sched>, h: Handle) { h.id in scheds && h == HandleOf(h.id, scheds[h.id]) }

  /** Every handle the registry holds belongs to a known scheduler. */
  ghost predicate AllKnown(scheds: map<Id, Sched>, visible: map<string, seq<Handle>>, running: map<Handle, bool>) {
    && (forall h :: h in running ==> Known(scheds, h)) && (forall h :: IsListed(visible, h) ==> Known(scheds, h))
  }

  // ------------------------------------------------------------------
  // Lists and maps
  // ------------------------------------------------------------------

  /** Lists that are nowhere empty are determined by what they hold. */
  lemma SameLists(a: map<string, seq<Handle>>, b: map<string, seq<Handle>>)
    requires WellListed(a) && WellListed(b) && forall v :: At(a, v) == At(b, v)
    ensures a == b
  {
    forall v
      ensures v in a <==> v in b
      ensures v in a && v in b ==> a[v] == b[v]
    {
      assert At(a, v) == At(b, v);
    }
  }

  lemma {:induction false} NumbersAre(list: seq<Handle>)
    requires OneEach(list)
    ensures System.Ids(Numbers(list)) == NumberSet(list)
    ensures forall c :: c in Numbers(list) <==> exists h :: h in list && h.name == c
    ensures forall h :: h in list ==> h.name in Numbers(list) && Numbers(list)[h.name] == h.id
  {
    hide Listing, OneEach;
    ListingIs(list);
    forall id | id in NumberSet(list)
      ensures id in System.Ids(Numbers(list))
    {
      var h :| h in list && h.id == id;
      assert h.name in Numbers(list) && Numbers(list)[h.name] == id;
    }
    forall c | c in Numbers(list)
      ensures exists h :: h in list && h.name == c
    {
      assert Listing(list)[c] in list && Listing(list)[c].name == c;
    }
  }

  /** A VIP's list is gone. */
  lemma {:induction false} ListGone(a: map<string, seq<Handle>>, b: map<string, seq<Handle>>, n: string)
    requires WellListed(a) && WellListed(b) && n !in b && forall v :: v != n ==> At(b, v) == At(a, v)
    ensures Listed(b) == Listed(a) - {n}
  {
    hide Numbers, OneEach;
    forall v
      ensures v in b <==> v in a && v != n
      ensures v in b ==> v in a && a[v] == b[v]
    {
      assert v != n ==> At(b, v) == At(a, v);
    }
  }

  /** The schedulers of a list no longer run. */
  lemma {:induction false} ListStopped(scheds: map<Id, Sched>, visible: map<string, seq<Handle>>,
                                       running: map<Handle, bool>, after: map<Handle, bool>, n: string)
    requires WellListed(visible) && AllKnown(scheds, visible, running)
      && after == map h | h in running && h !in At(visible, n) :: running[h]
    ensures Marked(after, scheds) == Marked(running, scheds) - NumberSet(At(visible, n))
  {
    hide OneEach;
    var list := At(visible, n);
    forall id | id in scheds
      ensures HandleOf(id, scheds[id]) in list <==> id in NumberSet(list)
    {
      if id in NumberSet(list) {
        var h :| h in list && h.id == id;
        WellAt(visible, n);
        assert Known(scheds, h);
      }
    }
  }

  class Program {
    const reg: Registry
    const pol: Manager
    var scheds: map<Id, Sched>
    var built: set<Id>
    var closed: multiset<Id>
    var staging: map<string, Staged>
    var queue: seq<Id>
    var drained: seq<Id>

    ghost predicate Valid()
      reads this, reg, pol, pol.bgp
    {
      reg.Valid() && reg.started && pol.Valid() && AllKnown(scheds, reg.visible, reg.running)
    }

    /** The state of the system the objects make up. */
    ghost function Abs(): State
      requires Valid()
      reads this, reg, pol, pol.bgp
    {
      State(scheds, built, closed, Listed(reg.visible), Marked(reg.running, scheds), pol.vips, pol.bgp.Routes(),
        pol.calls, staging, queue, drained)
    }

    constructor (reg: Registry, pol: Manager)
      requires reg.Valid() && reg.started && reg.visible == map[] && reg.running == map[] && pol.Valid()
      ensures Valid() && this.reg == reg && this.pol == pol
      ensures Abs() == State(map[], {}, multiset{}, map[], map[], pol.vips, pol.bgp.Routes(), pol.calls, map[], [], [])
    {
      this.reg, this.pol := reg, pol;
      scheds, built, closed, staging, queue, drained := map[], {}, multiset{}, map[], [], [];
    }

    /** Register the schedulers of a list, in order. */
    method Register(list: seq<Handle>, n: string)
      requires reg.Valid() && reg.started && n !in reg.visible && OneEach(list)
      requires forall h :: h in list ==> h.vip == n && h !in reg.running
      modifies reg
      ensures reg.Valid() && reg.started && At(reg.visible, n) == list && Elsewhere(old(reg.visible), reg.visible, n)
      ensures reg.running == Started(old(reg.running), list)
    {
      hide WellListed, IsListed, Listing, OneEach, Elsewhere;
      SelfElsewhere(reg.visible, n);
      for i := 0 to |list|
        invariant reg.Valid() && reg.started && At(reg.visible, n) == list[..i]
          && Elsewhere(old(reg.visible), reg.visible, n)
        invariant reg.running == Started(old(reg.running), list[..i])
      {
        NotYetListed(list, i);
        StartedOneMore(old(reg.running), list, i);
        ghost var before := reg.visible;
        reg.Add(list[i]);
        MoreElsewhere(old(reg.visible), before, reg.visible, n);
      }
      assert list[..|list|] == list;
    }

    /**
      One VIP of the removal loop: stop its schedulers, let the policy manager withdraw and forget
      it, and close them; or, if the withdraw fails, register them again.
     */
    method RemoveVip(n: string, w: Weather) returns (ok: bool)
      requires Valid() && n in pol.vips
      modifies this`closed, reg, pol`vips, pol`order, pol`calls, pol.bgp`server, pol.bgp`installed
      ensures Valid()
      ensures ok <==> !RemovalFails(old(Abs()), n, if w.usable && w.deletes then Done else Kept)
      ensures Abs() == StepRemove(old(Abs()), n, if w.usable && w.deletes then Done else Kept)
    {
      hide WellListed, AllKnown, OneEach, Marked, NoRepeats, IsListed, Listed, StepRemove, RoutesOf, Exact, Elsewhere,
        Started, RouteIn;
      ghost var s0, b := Abs(), if w.usable && w.deletes then Done else Kept;
      var list := At(reg.visible, n);
      ghost var visible0, running0 := reg.visible, reg.running;
      WellAt(visible0, n);
      reg.RemoveVip(n);
      StoppedIs(scheds, visible0, running0, reg.visible, reg.running, n);
      ok := pol.RemoveVip(n, w);
      ghost var p := s0.vips[n].cfg.prefix;
      if s0.vips[n].state != Withdrawn {
        forall q | q != p
          ensures RouteIn(pol.bgp.Routes(), q) == RouteIn(s0.routes, q)
        {
          assert pol.Route(q) == RouteIn(s0.routes, q);
        }
      }
      if !ok {
        RunningAgain(visible0, running0, list, n);
        ghost var gone := reg.visible;
        Register(list, n);
        ListedAgain(visible0, gone, reg.visible, list, n);
        RoutesStand(s0.routes, pol.bgp.Routes(), p);
        RemovalKept(s0, n, b);
      } else {
        closed := closed + multiset(NumberSet(list));
        RoutesGo(s0.routes, pol.bgp.Routes(), p, s0.vips[n].state != Withdrawn);
        RemovalDone(s0, n, b, NumberSet(list), pol.bgp.Routes());
      }
    }

    /**
      One VIP of the addition loop: register it with the policy manager, give its schedulers the
      policy callbacks and run them.
     */
    method AddVip(v: Vip, ids: map<string, Id>, seen: bool)
      requires Valid() && v.name !in pol.vips && v.name !in reg.visible && DistinctNames(v.CheckList())
        && ids.Keys == v.Checks().Keys
      requires BuiltFor(Abs(), v, ids) && forall id :: id in System.Ids(ids) ==> id !in Abs().running
      modifies this`scheds, this`built, reg, pol`vips, pol`order
      ensures Valid() && Abs() == StepAdd(old(Abs()), v, ids, seen)
    {
      hide WellListed, AllKnown, OneEach, NoRepeats, IsListed, Listed, Marked, RoutesOf, Exact, Elsewhere, Started,
        BuiltFor, NewEntry, ByName, Enlist;
      ghost var s0, visible0, running0 := Abs(), reg.visible, reg.running;
      pol.AddVip(v, seen);
      var list := Handles(v, ids);
      HandlesAre(s0, v, ids);
      NotRunning(scheds, running0, list, System.Ids(ids));
      scheds := Enlist(scheds, System.Ids(ids), false);
      built := built - System.Ids(ids);
      Register(list, v.name);
      AddedIs(s0.scheds, visible0, running0, reg.visible, reg.running, v, ids, list);
    }

    /** Start the shadows of a staged change. */
    method RunShadows(ids: map<string, Id>)
      requires Valid() && (forall c :: c in ids ==> ids[c] in scheds && scheds[ids[c]].Name() == c)
      requires forall id :: id in System.Ids(ids) ==> id !in Abs().running
      modifies reg`running
      ensures Valid() && reg.visible == old(reg.visible)
      ensures Marked(reg.running, scheds) == Mark(old(Marked(reg.running, scheds)), System.Ids(ids), true)
    {
      hide WellListed, AllKnown, OneEach, NoRepeats, IsListed, Listed, Marked, RoutesOf, Exact;
      ghost var run0 := Marked(reg.running, scheds);
      var todo := ids.Keys;
      ghost var done: map<string, Id> := map[];
      MarkedNone(run0);
      while todo != {}
        invariant Valid() && reg.visible == old(reg.visible)
          && Marked(reg.running, scheds) == Mark(run0, System.Ids(done), true)
        invariant (forall c :: c in todo ==> c in ids && c !in done)
          && (forall c :: c in ids ==> c in todo || c in done)
          && (forall c :: c in done ==> c in ids && done[c] == ids[c])
        decreases |todo|
      {
        var c :| c in todo;
        var h := HandleOf(ids[c], scheds[ids[c]]);
        NotYetMarked(scheds, reg.running, run0, ids, done, c);
        ShadowAdded(scheds, reg.visible, reg.running, h, run0, done, c);
        reg.AddShadow(h);
        done := done[c := ids[c]];
        todo := todo - {c};
      }
      assert done == ids;
    }

    /** A change that needs staging: its record is stored and its shadows start. */
    method StageVip(v: Vip, ids: map<string, Id>, at: nat, st: Staged)
      requires Valid() && v.name in pol.vips && BuiltFor(Abs(), v, ids)
        && forall id :: id in System.Ids(ids) ==> id !in Abs().running
      requires var was := pol.vips[v.name].cfg;
        st == Staged(v, was, ids, {}, RemovedNames(was, v), at, DeadlineFor(at, was, v))
      modifies this`staging, this`built, reg`running
      ensures Valid() && Abs() == StepStage(old(Abs()), v, ids, at)
    {
      hide WellListed, AllKnown, OneEach, NoRepeats, IsListed, Listed, Marked, RoutesOf, Exact, RemovedNames,
        DeadlineFor, BuiltFor, Mark;
      BuiltNames(Abs(), v, ids);
      staging := staging[v.name := st];
      built := built - System.Ids(ids);
      RunShadows(ids);
    }

    /** `findVisible`: the listed scheduler of a check. */
    method FindVisible(n: string, c: string) returns (h: Option<Handle>)
      requires reg.Valid()
      ensures h.Some? ==> h.value in At(reg.visible, n) && h.value.name == c
      ensures h.None? <==> c !in Numbers(At(reg.visible, n))
    {
      hide Numbers, WellListed, OneEach, IsListed;
      WellAt(reg.visible, n);
      var list := At(reg.visible, n);
      NumbersAre(list);
      h := None;
      for i := 0 to |list|
        invariant h.None? && forall k :: 0 <= k < i ==> list[k].name != c
      {
        if list[i].name == c {
          assert list[i] in list;
          return Some(list[i]);
        }
      }
    }

    /** Stop and close the visible scheduler of a check that goes, if there is one. */
    method RetireCheck(n: string, c: string, ghost vis0: map<string, seq<Handle>>, ghost run0: map<Id, bool>,
                       ghost closed0: multiset<Id>, ghost done: set<string>)
      requires Valid() && c !in done && Apart0(scheds, Numbers(At(vis0, n)))
      requires Retired(vis0, run0, closed0, reg.visible, Marked(reg.running, scheds), closed, n, done, map[])
      modifies this`closed, reg
      ensures Valid()
        && Retired(vis0, run0, closed0, reg.visible, Marked(reg.running, scheds), closed, n, done + {c}, map[])
    {
      hide Numbers, WellListed, OneEach, IsListed, AllKnown, Marked, Retired, NoRepeats, Exact, RoutesOf, Apart0, Known;
      var h := FindVisible(n, c);
      if h.Some? {
        ghost var vis, running := reg.visible, reg.running;
        ListedKnown(scheds, vis, running, n, h.value);
        reg.Remove(h.value);
        RetiredOne(scheds, vis0, run0, closed0, vis, running, closed, reg.visible, reg.running, n, done, h.value);
        closed := closed + multiset{h.value.id};
      } else {
        RetiredSkip(vis0, run0, closed0, reg.visible, Marked(reg.running, scheds), closed, n, done, c);
      }
    }

    /** Stop and close the visible schedulers of the checks that go. */
    method RetireChecks(n: string, names: set<string>)
      requires Valid()
      modifies this`closed, reg
      ensures Valid()
        && Retired(old(reg.visible), old(Marked(reg.running, scheds)), old(closed), reg.visible,
        Marked(reg.running, scheds), closed, n, names, map[])
    {
      hide Numbers, WellListed, OneEach, IsListed, AllKnown, Marked, Retired, NoRepeats, Exact, RoutesOf, Apart0, Known;
      ghost var vis0, run0, closed0 := reg.visible, Marked(reg.running, scheds), closed;
      var todo := names;
      ghost var done: set<string> := {};
      NumbersApart(scheds, vis0, reg.running, n);
      RetiredNone(vis0, run0, closed0, n);
      while todo != {}
        invariant Valid()
          && Retired(vis0, run0, closed0, reg.visible, Marked(reg.running, scheds), closed, n, done, map[])
        invariant names == todo + done && todo !! done
        decreases |todo|
      {
        var c :| c in todo;
        RetireCheck(n, c, vis0, run0, closed0, done);
        done := done + {c};
        todo := todo - {c};
      }
      assert done == names;
    }

    /** Promote one shadow in the place of the scheduler of its check, which is closed. */
    method PromoteShadow(n: string, c: string, id: Id, ghost vis0: map<string, seq<Handle>>, ghost run0: map<Id, bool>,
                         ghost closed0: multiset<Id>,
                         ghost names: set<string>, ghost done: map<string, Id>)
      requires Valid() && id in scheds && scheds[id].vip == n && scheds[id].Name() == c && c !in names && c !in done
      requires id in run0 && run0[id] && (forall x :: x in done ==> done[x] in scheds && scheds[done[x]].Name() == x)
      requires Apart0(scheds, Numbers(At(vis0, n)))
        && (forall x :: x in Numbers(At(vis0, n)) ==> Numbers(At(vis0, n))[x] in run0 && !run0[Numbers(At(vis0, n))[x]])
      requires Retired(vis0, run0, closed0, reg.visible, Marked(reg.running, scheds), closed, n, names + done.Keys,
        done)
      modifies this`closed, reg
      ensures Valid()
      ensures Retired(vis0, run0, closed0, reg.visible, Marked(reg.running, scheds), closed, n,
        names + done.Keys + {c}, done[c := id])
    {
      hide Numbers, WellListed, OneEach, IsListed, AllKnown, Marked, Retired, NoRepeats, Exact, RoutesOf, Apart0,
        Listing;
      var h := HandleOf(id, scheds[id]);
      ghost var vis, running := reg.visible, reg.running;
      StillShadow(scheds, running, vis0, run0, closed0, vis, closed, n, names, done, c, id);
      var replaced := reg.Promote(h);
      ListedAt(vis, n, c, replaced);
      PromotedOne(scheds, vis0, run0, closed0, vis, running, closed, reg.visible, reg.running, n, names, done, h,
        replaced);
      if replaced.Some? {
        closed := closed + multiset{replaced.value.id};
      }
    }

    /** Promote every shadow of a staging. */
    method PromoteAll(n: string, shadows: map<string, Id>, ghost vis0: map<string, seq<Handle>>,
                      ghost run0: map<Id, bool>, ghost closed0: multiset<Id>, ghost names: set<string>)
      requires Valid() && names !! shadows.Keys
      requires forall c :: c in shadows ==>
        shadows[c] in scheds && scheds[shadows[c]].vip == n && scheds[shadows[c]].Name() == c && shadows[c] in run0
        && run0[shadows[c]]
      requires Apart0(scheds, Numbers(At(vis0, n)))
        && (forall x :: x in Numbers(At(vis0, n)) ==> Numbers(At(vis0, n))[x] in run0 && !run0[Numbers(At(vis0, n))[x]])
      requires Retired(vis0, run0, closed0, reg.visible, Marked(reg.running, scheds), closed, n, names, map[])
      modifies this`closed, reg
      ensures Valid()
        && Retired(vis0, run0, closed0, reg.visible, Marked(reg.running, scheds), closed, n, names + shadows.Keys,
        shadows)
    {
      hide Numbers, WellListed, OneEach, IsListed, AllKnown, Marked, Retired, NoRepeats, Exact, RoutesOf, Apart0,
        Known, Halfway, Waiting;
      var todo := shadows.Keys;
      ghost var done: map<string, Id> := map[];
      AreWaiting(scheds, run0, n, shadows);
      assert names + done.Keys == names;
      while todo != {}
        invariant Valid()
          && Retired(vis0, run0, closed0, reg.visible, Marked(reg.running, scheds), closed, n, names + done.Keys, done)
        invariant Halfway(shadows, todo, done)
        decreases |todo|
      {
        var c :| c in todo;
        OneFurther(scheds, run0, n, shadows, todo, done, c, names);
        PromoteShadow(n, c, shadows[c], vis0, run0, closed0, names, done);
        done := done[c := shadows[c]];
        todo := todo - {c};
      }
      NothingLeft(shadows, done);
    }

    /**
      The registry's half of a commit: the checks that go are stopped and closed, then the shadows
      take their places.
     */
    method Replace(n: string, shadows: map<string, Id>, removed: set<string>)
      requires Valid() && removed !! shadows.Keys
      requires forall c :: c in shadows ==>
        shadows[c] in scheds && scheds[shadows[c]].vip == n && scheds[shadows[c]].Name() == c
      requires forall c :: c in shadows ==>
        shadows[c] in Marked(reg.running, scheds) && Marked(reg.running, scheds)[shadows[c]]
      modifies this`closed, reg
      ensures Valid()
      ensures Retired(old(reg.visible), old(Marked(reg.running, scheds)), old(closed), reg.visible,
        Marked(reg.running, scheds), closed, n, removed + shadows.Keys, shadows)
    {
      hide Numbers, WellListed, OneEach, IsListed, AllKnown, Marked, Retired, NoRepeats, Exact, RoutesOf, Apart0,
        Known, Listed;
      ghost var vis0, run0, closed0 := reg.visible, Marked(reg.running, scheds), closed;
      NumbersApart(scheds, vis0, reg.running, n);
      VisibleMarks(scheds, vis0, reg.running, n);
      RetireChecks(n, removed);
      PromoteAll(n, shadows, vis0, run0, closed0, removed);
    }

    /** The policy manager's half of a commit. */
    method CommitEntry(v: Vip, seeds: map<string, Health>, seen: bool, w: Weather) returns (ghost b: Bgp)
      requires pol.Valid() && v.name in pol.vips && Unused(pol.bgp.server, w) && Committable(pol.vips[v.name], v, seeds)
      modifies pol`vips, pol`calls, pol.bgp`server, pol.bgp`installed
      ensures pol.Valid()
      ensures var e := old(pol.vips)[v.name]; var routes := old(pol.bgp.Routes());
        var f := Commit(e, RouteIn(routes, e.cfg.prefix), v, seeds, seen, b);
        pol.vips == old(pol.vips)[v.name := f.e] && pol.calls == old(pol.calls) + f.calls
          && pol.bgp.Routes() == PutRoute(routes, f.e.cfg.prefix, f.route)
    {
      hide Commit, Committable, NoRepeats, Exact, RoutesOf, RouteIn, PutRoute;
      ghost var e, routes := pol.vips[v.name], pol.bgp.Routes();
      assert pol.Route(e.cfg.prefix) == RouteIn(routes, e.cfg.prefix);
      var ok;
      ok, b := pol.CommitVip(v, seeds, seen, w);
      ghost var f := Commit(e, RouteIn(routes, e.cfg.prefix), v, seeds, seen, b);
      assert pol.Route(f.e.cfg.prefix) == f.route;
      forall q | q != f.e.cfg.prefix
        ensures RouteIn(pol.bgp.Routes(), q) == RouteIn(routes, q)
      {
        assert pol.Route(q) == old(pol.Route(q));
      }
      RoutesPut(routes, pol.bgp.Routes(), f.e.cfg.prefix, f.route);
    }

    /**
      `commitLocked`, and an immediate commit when there are no shadows: stop and close the checks
      that go, promote the shadows, commit with their health as seeds, and give them the policy
      callbacks.
     */
    method CommitVip(v: Vip, shadows: map<string, Id>, removed: set<string>, seen: bool, w: Weather)
      returns (ghost b: Bgp)
      requires Valid() && v.name in pol.vips && Unused(pol.bgp.server, w) && removed !! shadows.Keys
        && Numbers(At(reg.visible, v.name)) - removed + shadows != map[]
      requires forall c :: c in shadows ==>
        shadows[c] in scheds && scheds[shadows[c]].vip == v.name && scheds[shadows[c]].Name() == c
      requires forall c :: c in shadows ==> shadows[c] in Abs().running && Abs().running[shadows[c]]
      requires Committable(pol.vips[v.name], v, Seeds(scheds, shadows))
      modifies this`scheds, this`closed, this`staging, reg, pol`vips, pol`calls, pol.bgp`server, pol.bgp`installed
      ensures Valid() && Abs() == CommitSafety.Switched(old(Abs()), v, shadows, removed, seen, b)
    {
      hide Numbers, WellListed, OneEach, IsListed, AllKnown, Marked, Retired, NoRepeats, Exact, RoutesOf, Apart0,
        Known, Listed, Commit, Committable, Seeds, Enlist, CommitSafety.Switched, RouteIn, RouteAt, PutRoute, Elsewhere;
      ghost var s0, vis0, run0, closed0 := Abs(), reg.visible, Marked(reg.running, scheds), closed;
      var n := v.name;
      staging := staging - {n};
      Replace(n, shadows, removed);
      b := CommitEntry(v, Seeds(scheds, shadows), seen, w);
      SameRoute(s0, s0.vips[n].cfg.prefix);
      SwitchIs(s0, vis0, reg.visible, Marked(reg.running, scheds), closed, v, shadows, removed, seen, b);
      SetCallbacks(System.Ids(shadows));
    }

    /** The promoted schedulers report to the policy manager from now on. */
    method SetCallbacks(ids: set<Id>)
      requires Valid()
      modifies this`scheds
      ensures Valid() && scheds == Enlist(old(scheds), ids, true)
        && Marked(reg.running, scheds) == old(Marked(reg.running, scheds))
    {
      hide AllKnown, Marked, WellListed, IsListed, NoRepeats, Exact, Enlist;
      EnlistKeeps(scheds, ids, true);
      SameMarks(scheds, Enlist(scheds, ids, true), reg.visible, reg.running);
      scheds := Enlist(scheds, ids, true);
    }

    /** A scheduler's record changes; what the registry knows of it does not. */
    method Record(id: Id, sc: Sched)
      requires Valid() && id in scheds && sc.vip == scheds[id].vip && sc.check == scheds[id].check
      modifies this`scheds
      ensures Valid() && scheds == old(scheds)[id := sc]
        && Marked(reg.running, scheds) == old(Marked(reg.running, scheds))
    {
      hide AllKnown, Marked, WellListed, IsListed, NoRepeats, Exact;
      SameMarks(scheds, scheds[id := sc], reg.visible, reg.running);
      scheds := scheds[id := sc];
    }

    /** The transition a run captured reaches the policy manager. */
    method DeliverTransition(id: Id, seen: bool, w: Weather) returns (ghost b: Bgp)
      requires Valid() && Unused(pol.bgp.server, w) && id in scheds && scheds[id].inflight.Some?
        && scheds[id].inflight.value.transition.Some?
      modifies this`scheds, pol`vips, pol`calls, pol.bgp`server, pol.bgp`installed
      ensures Valid() && Abs() == StepTransition(old(Abs()), id, seen, b)
    {
      hide OnTransition, NoRepeats, Exact, RoutesOf, RouteIn, RouteAt, PutRoute, AllKnown, Marked, Listed, WellListed,
        IsListed;
      ghost var s0, routes := Abs(), pol.bgp.Routes();
      var sc := scheds[id];
      Record(id, sc.(inflight := None));
      b := pol.OnHealthTransition(sc.vip, sc.Name(), sc.inflight.value.transition.value, seen, w);
      if sc.vip in s0.vips {
        ghost var e := s0.vips[sc.vip];
        SameRoute(s0, e.cfg.prefix);
        ghost var f :=
          OnTransition(e, RouteAt(s0, e.cfg.prefix), sc.Name(), sc.inflight.value.transition.value, seen, b);
        assert pol.Route(f.e.cfg.prefix) == f.route;
        forall q | q != f.e.cfg.prefix
          ensures RouteIn(pol.bgp.Routes(), q) == RouteIn(routes, q)
        {
          assert pol.Route(q) == old(pol.Route(q));
        }
        RoutesPut(routes, pol.bgp.Routes(), f.e.cfg.prefix, f.route);
      }
    }

    /** The result a run captured reaches the policy manager, or, from a shadow, the verdict queue. */
    method DeliverResult(id: Id, seen: bool, w: Weather, w2: Weather) returns (ghost b: Bgp, ghost b2: Bgp)
      requires Valid() && BothUnused(pol.bgp.server, w, w2) && id in scheds && scheds[id].inflight.Some?
      modifies this`scheds, this`queue, pol`vips, pol`calls, pol.bgp`server, pol.bgp`installed
      ensures Valid() && Abs() == StepResult(old(Abs()), id, seen, b, b2)
    {
      hide OnResult, NoRepeats, Exact, RoutesOf, RouteIn, RouteAt, PutRoute, AllKnown, Marked, Listed, WellListed,
        IsListed, Decided;
      ghost var s0, routes := Abs(), pol.bgp.Routes();
      var sc := scheds[id];
      b, b2 := Done, Done;
      Record(id, AfterResult(sc));
      if sc.inflight.value.live {
        b, b2 := pol.OnCheckResult(sc.vip, sc.Name(), seen, w, w2);
        if sc.vip in s0.vips {
          ghost var e := s0.vips[sc.vip];
          SameRoute(s0.(scheds := scheds), e.cfg.prefix);
          ghost var f := OnResult(e, RouteIn(routes, e.cfg.prefix), sc.Name(), seen, b, b2);
          assert pol.Route(f.e.cfg.prefix) == f.route;
          forall q | q != f.e.cfg.prefix
            ensures RouteIn(pol.bgp.Routes(), q) == RouteIn(routes, q)
          {
            assert pol.Route(q) == old(pol.Route(q));
          }
          RoutesPut(routes, pol.bgp.Routes(), f.e.cfg.prefix, f.route);
        }
      } else if sc.HasVerdict() && id !in queue {
        queue := queue + [id];
      }
    }

    /** Stop and close one shadow. */
    method StopShadow(id: Id)
      requires Valid() && id in scheds && id in Abs().running && Abs().running[id]
      modifies this`closed, reg
      ensures Valid() && reg.visible == old(reg.visible) && closed == old(closed) + multiset{id}
      ensures Marked(reg.running, scheds) == old(Marked(reg.running, scheds)) - {id}
    {
      hide AllKnown, Marked, WellListed, IsListed, NoRepeats, Exact, Listed, Without, RoutesOf;
      ghost var vis, running := reg.visible, reg.running;
      var h := HandleOf(id, scheds[id]);
      ShadowHandle(scheds, running, id);
      reg.Remove(h);
      Unlisted(scheds, vis, running, reg.visible, h);
      MarkedWithout(scheds, running, h);
      closed := closed + multiset{id};
    }

    /** `dropStagingLocked`: stop and close every shadow, forget the stagings and empty the verdict queue. */
    method DropStaging()
      requires Valid()
        && forall id :: id in ShadowIds(staging) ==> id in scheds && id in Abs().running && Abs().running[id]
      modifies this`closed, this`staging, this`queue, reg
      ensures Valid() && Abs() == StepDrop(old(Abs()))
    {
      hide AllKnown, Marked, WellListed, IsListed, NoRepeats, Exact, Listed, RoutesOf, ShadowIds;
      StopShadows(ShadowIds(staging));
      staging, queue := map[], [];
    }

    /** Stop and close shadows, in any order. */
    method StopShadows(ids: set<Id>)
      requires Valid()
        && forall id :: id in ids ==>
        id in scheds && id in Marked(reg.running, scheds) && Marked(reg.running, scheds)[id]
      modifies this`closed, reg
      ensures Valid() && reg.visible == old(reg.visible)
      ensures Marked(reg.running, scheds) == old(Marked(reg.running, scheds)) - ids
        && closed == old(closed) + multiset(ids)
    {
      hide AllKnown, Marked, WellListed, IsListed, NoRepeats, Exact, Listed, RoutesOf, Dropping, Shadowed;
      ghost var run0, closed0 := Marked(reg.running, scheds), closed;
      var todo := ids;
      NoneDropped(run0, closed0, ids);
      AreShadowed(scheds, run0, ids);
      while todo != {}
        invariant Valid() && reg.visible == old(reg.visible)
        invariant Dropping(run0, closed0, Marked(reg.running, scheds), closed, ids, todo)
        decreases |todo|
      {
        var id :| id in todo;
        OneDropped(scheds, run0, closed0, Marked(reg.running, scheds), closed, ids, todo, id);
        StopShadow(id);
        todo := todo - {id};
      }
      AllDropped(run0, closed0, Marked(reg.running, scheds), closed, ids);
    }
  }

  /** The lists of all other VIPs are the same. */
  ghost predicate Elsewhere(a: map<string, seq<Handle>>, b: map<string, seq<Handle>>, n: string) {
    forall v :: v != n ==> At(b, v) == At(a, v)
  }

  lemma SelfElsewhere(a: map<string, seq<Handle>>, n: string)
    ensures Elsewhere(a, a, n)
  {
  }

  lemma MoreElsewhere(a: map<string, seq<Handle>>, b: map<string, seq<Handle>>, c: map<string, seq<Handle>>, n: string)
    requires Elsewhere(a, b, n) && forall v :: v != n ==> At(c, v) == At(b, v)
    ensures Elsewhere(a, c, n)
  {
  }

  /** The running schedulers with those of a list started. */
  function Started(running: map<Handle, bool>, list: seq<Handle>): map<Handle, bool> {
    if list == [] then running else Started(running, list[..|list| - 1])[list[|list| - 1] := false]
  }

  lemma {:induction false} StartedOneMore(running: map<Handle, bool>, list: seq<Handle>, i: nat)
    requires i < |list| && OneEach(list) && forall h :: h in list ==> h !in running
    ensures Started(running, list[..i + 1]) == Started(running, list[..i])[list[i] := false]
    ensures list[..i + 1] == list[..i] + [list[i]] && list[i] !in Started(running, list[..i]) && list[i] in list
  {
    assert list[..i + 1][..i] == list[..i];
    StartedIs(running, list[..i]);
    assert list[i] in list;
  }

  lemma {:induction false} StartedIs(running: map<Handle, bool>, list: seq<Handle>)
    ensures forall h :: h in Started(running, list) <==> h in running || h in list
    ensures forall h :: h in Started(running, list) ==>
      Started(running, list)[h] == if h in list then false else running[h]
  {
    if list != [] {
      var k := |list| - 1;
      StartedIs(running, list[..k]);
      assert list == list[..k] + [list[k]];
    }
  }

  /** The registry's half of a removal. */
  lemma {:induction false} StoppedIs(scheds: map<Id, Sched>, visible: map<string, seq<Handle>>,
                                     running: map<Handle, bool>,
                                     visible': map<string, seq<Handle>>, running': map<Handle, bool>, n: string)
    requires AllKnown(scheds, visible, running) && WellListed(visible) && WellListed(visible') && n !in visible'
    requires (forall v :: v != n ==> At(visible', v) == At(visible, v))
      && running' == map h | h in running && h !in At(visible, n) :: running[h]
    ensures AllKnown(scheds, visible', running') && Elsewhere(visible, visible', n)
    ensures Listed(visible') == Listed(visible) - {n} && Marked(running', scheds) ==
      Marked(running, scheds) - NumberSet(At(visible, n))
    ensures System.Ids(if n in Listed(visible) then Listed(visible)[n] else map[]) == NumberSet(At(visible, n))
  {
    hide AllKnown, WellListed, Marked, Numbers;
    ListStopped(scheds, visible, running, running', n);
    ListGone(visible, visible', n);
    StillKnown(scheds, visible, running, visible', running', n);
    WellAt(visible, n);
    NumbersAre(At(visible, n));
    NoNumbers();
  }

  lemma NoNumbers()
    ensures Numbers([]) == map[]
  {
  }

  lemma {:induction false} ListedAgain(a: map<string, seq<Handle>>, gone: map<string, seq<Handle>>,
                                       b: map<string, seq<Handle>>, list: seq<Handle>, n: string)
    requires WellListed(a) && WellListed(b) && Elsewhere(a, gone, n) && Elsewhere(gone, b, n)
      && At(a, n) == list == At(b, n)
    ensures a == b
  {
    hide WellListed;
    forall v
      ensures At(a, v) == At(b, v)
    {
      if v != n { assert At(gone, v) == At(a, v) && At(b, v) == At(gone, v); }
    }
    SameLists(a, b);
  }

  lemma RoutesStand(a: map<string, Attrs>, b: map<string, Attrs>, p: string)
    requires RouteIn(b, p) == RouteIn(a, p) && forall q :: q != p ==> RouteIn(b, q) == RouteIn(a, q)
    ensures b == a
  {
    forall q
      ensures RouteIn(a, q) == RouteIn(b, q) && (q in a <==> q in b) && (q in a ==> a[q] == b[q])
    {
      assert q != p ==> RouteIn(b, q) == RouteIn(a, q);
    }
  }

  lemma RoutesGo(a: map<string, Attrs>, b: map<string, Attrs>, p: string, withdrawn: bool)
    requires if withdrawn then RouteIn(b, p) == None
      && forall q :: q != p ==> RouteIn(b, q) == RouteIn(a, q) else b == a
    ensures b == if withdrawn then a - {p} else a
  {
    if withdrawn {
      forall q
        ensures (q in b <==> q in a && q != p) && (q in b ==> a[q] == b[q])
      {
        assert q != p ==> RouteIn(b, q) == RouteIn(a, q);
      }
    }
  }

  lemma RemovalKept(s: State, n: string, b: Bgp)
    requires RemovalFails(s, n, b)
    ensures StepRemove(s, n, b) == s.(log := s.log + [Withdraw(s.vips[n].cfg.prefix)])
  {
  }

  lemma RemovalDone(s: State, n: string, b: Bgp, gone: set<Id>, routes: map<string, Attrs>)
    requires n in s.vips && !RemovalFails(s, n, b) && gone == System.Ids(Visible(s, n))
    requires routes == if s.vips[n].state != Withdrawn then s.routes - {s.vips[n].cfg.prefix} else s.routes
    ensures StepRemove(s, n, b) ==
      s.(vips := s.vips - {n}, visible := s.visible - {n}, running := s.running - gone,
      closed := s.closed + multiset(gone),
      routes := routes, log := s.log + if s.vips[n].state != Withdrawn then [Withdraw(s.vips[n].cfg.prefix)] else [])
  {
    hide System.Ids;
  }

  // ------------------------------------------------------------------
  // Additions and stagings
  // ------------------------------------------------------------------

  /** The handles of a VIP's new schedulers, in config order. */
  function Handles(v: Vip, ids: map<string, Id>): seq<Handle>
    requires ids.Keys == v.Checks().Keys
  {
    var list := v.CheckList();
    ByNameIs(list);
    seq(|list|, i requires 0 <= i < |list| => Named(v, ids, Names(list)[i]))
  }

  function Named(v: Vip, ids: map<string, Id>, c: string): Handle { Handle(if c in ids then ids[c] else 0, v.name, c) }

  lemma BuiltNames(s: State, v: Vip, ids: map<string, Id>)
    requires BuiltFor(s, v, ids)
    ensures forall c :: c in ids ==>
      ids[c] in s.scheds && s.scheds[ids[c]].Name() == c && s.scheds[ids[c]].vip == v.name
  {
    hide IsNew, ByName;
  }

  lemma {:induction false} HandlesAre(s: State, v: Vip, ids: map<string, Id>)
    requires DistinctNames(v.CheckList()) && ids.Keys == v.Checks().Keys && BuiltFor(s, v, ids)
    ensures var list := Handles(v, ids);
      && OneEach(list) && list != []
         && (forall h :: h in list ==> h.vip == v.name && h.name in ids && h.id == ids[h.name] && Known(s.scheds, h))
      && (forall c :: c in ids ==> exists h :: h in list && h.name == c)
  {
    hide BuiltFor, Handles, Named, ByName, OneEach, DistinctNames;
    BuiltNames(s, v, ids);
    HandleAt(v, ids);
    var list := Handles(v, ids);
    forall c | c in ids
      ensures exists h :: h in list && h.name == c
    {
      var i := HandleFor(v, ids, c);
      assert list[i] in list;
    }
    forall h | h in list
      ensures h.vip == v.name && h.name in ids && h.id == ids[h.name] && Known(s.scheds, h)
    {
      var i :| 0 <= i < |list| && list[i] == h;
    }
  }

  lemma {:induction false} HandleAt(v: Vip, ids: map<string, Id>)
    requires DistinctNames(v.CheckList()) && ids.Keys == v.Checks().Keys
    ensures var list := Handles(v, ids);
      && OneEach(list) && list != []
         && forall i :: 0 <= i < |list| ==>
         list[i].vip == v.name && list[i].name in ids && list[i].id == ids[list[i].name]
  {
    hide ByName;
    var list, checks := Handles(v, ids), v.CheckList();
    ByNameIs(checks);
    forall i | 0 <= i < |list|
      ensures list[i].name in ids && list[i] == Named(v, ids, checks[i].EffectiveName())
    {
      assert Names(checks)[i] in v.Checks();
    }
  }

  lemma {:induction false} HandleFor(v: Vip, ids: map<string, Id>, c: string) returns (i: nat)
    requires ids.Keys == v.Checks().Keys && c in ids
    ensures i < |Handles(v, ids)| && Handles(v, ids)[i].name == c
  {
    hide ByName;
    ByNameIs(v.CheckList());
    i :| 0 <= i < |v.CheckList()| && Names(v.CheckList())[i] == c;
  }

  lemma NotRunning(scheds: map<Id, Sched>, running: map<Handle, bool>, list: seq<Handle>, ids: set<Id>)
    requires (forall h :: h in list ==> Known(scheds, h) && h.id in ids)
      && forall id :: id in ids ==> id !in Marked(running, scheds)
    ensures forall h :: h in list ==> h !in running
  {
  }

  lemma {:induction false} EnlistKeeps(scheds: map<Id, Sched>, ids: set<Id>, seeded: bool)
    ensures Enlist(scheds, ids, seeded).Keys == scheds.Keys
    ensures forall id :: id in scheds ==> HandleOf(id, Enlist(scheds, ids, seeded)[id]) == HandleOf(id, scheds[id])
  {
  }

  lemma {:induction false} SameMarks(scheds: map<Id, Sched>, scheds': map<Id, Sched>,
                                     visible: map<string, seq<Handle>>, running: map<Handle, bool>)
    requires scheds'.Keys == scheds.Keys
      && forall id :: id in scheds ==> HandleOf(id, scheds'[id]) == HandleOf(id, scheds[id])
    ensures Marked(running, scheds') == Marked(running, scheds)
      && (AllKnown(scheds, visible, running) <==> AllKnown(scheds', visible, running))
  {
  }

  /** The registry's half of an addition. */
  lemma {:induction false} AddedIs(scheds: map<Id, Sched>, visible: map<string, seq<Handle>>,
                                   running: map<Handle, bool>,
                                   visible': map<string, seq<Handle>>, running': map<Handle, bool>, v: Vip,
                                   ids: map<string, Id>, list: seq<Handle>)
    requires AllKnown(scheds, visible, running) && WellListed(visible) && WellListed(visible') && v.name !in visible
    requires Elsewhere(visible, visible', v.name) && At(visible', v.name) == list && running' == Started(running, list)
    requires OneEach(list) && list != []
      && (forall h :: h in list ==> h.vip == v.name && h.name in ids && h.id == ids[h.name] && Known(scheds, h))
    requires forall c :: c in ids ==> exists h :: h in list && h.name == c
    ensures AllKnown(Enlist(scheds, System.Ids(ids), false), visible', running')
    ensures Listed(visible') == Listed(visible)[v.name := ids]
    ensures Marked(running', Enlist(scheds, System.Ids(ids), false)) ==
      Mark(Marked(running, scheds), System.Ids(ids), false)
  {
    hide WellListed, OneEach, Started, Listed, Numbers, Enlist;
    EnlistKeeps(scheds, System.Ids(ids), false);
    SameMarks(scheds, Enlist(scheds, System.Ids(ids), false), visible', running');
    ListPut(visible, visible', v.name);
    NumbersFiled(list, ids);
    AddedKnown(scheds, visible, running, visible', running', v.name, list);
    StartedMarks(scheds, running, list, ids);
  }

  lemma {:induction false} ListPut(a: map<string, seq<Handle>>, b: map<string, seq<Handle>>, n: string)
    requires WellListed(a) && WellListed(b) && Elsewhere(a, b, n) && At(b, n) != []
    ensures Listed(b) == Listed(a)[n := Numbers(At(b, n))]
  {
    hide Numbers, OneEach;
    forall v
      ensures v in b <==> v in a || v == n
      ensures v in b && v != n ==> v in a && a[v] == b[v]
    {
      assert v != n ==> At(b, v) == At(a, v);
    }
  }

  lemma {:induction false} NumbersFiled(list: seq<Handle>, ids: map<string, Id>)
    requires OneEach(list) && (forall h :: h in list ==> h.name in ids && h.id == ids[h.name])
      && forall c :: c in ids ==> exists h :: h in list && h.name == c
    ensures Numbers(list) == ids && NumberSet(list) == System.Ids(ids)
  {
    hide Numbers, OneEach;
    NumbersAre(list);
    forall c | c in ids
      ensures c in Numbers(list) && Numbers(list)[c] == ids[c]
    {
      var h :| h in list && h.name == c;
    }
  }

  lemma {:induction false} AddedKnown(scheds: map<Id, Sched>, visible: map<string, seq<Handle>>,
                                      running: map<Handle, bool>,
                                      visible': map<string, seq<Handle>>, running': map<Handle, bool>, n: string,
                                      list: seq<Handle>)
    requires AllKnown(scheds, visible, running) && Elsewhere(visible, visible', n) && At(visible', n) == list
      && running' == Started(running, list)
    requires forall h :: h in list ==> Known(scheds, h)
    ensures AllKnown(scheds, visible', running')
  {
    hide Started, Known;
    StartedIs(running, list);
    forall h | IsListed(visible', h)
      ensures Known(scheds, h)
    {
      if h.vip != n {
        assert At(visible', h.vip) == At(visible, h.vip);
        assert IsListed(visible, h);
      }
    }
  }

  lemma {:induction false} StartedMarks(scheds: map<Id, Sched>, running: map<Handle, bool>, list: seq<Handle>,
                                        ids: map<string, Id>)
    requires (forall h :: h in list ==> Known(scheds, h)) && NumberSet(list) == System.Ids(ids)
    ensures Marked(Started(running, list), scheds) == Mark(Marked(running, scheds), System.Ids(ids), false)
  {
    hide Started, System.Ids;
    StartedIs(running, list);
    var run := Started(running, list);
    forall id
      ensures id in Marked(run, scheds) <==> id in Marked(running, scheds) || id in NumberSet(list)
      ensures id in Marked(run, scheds) ==>
        Marked(run, scheds)[id] == if id in NumberSet(list) then false else Marked(running, scheds)[id]
    {
      if id in NumberSet(list) {
        var h :| h in list && h.id == id;
        assert Known(scheds, h);
      } else if id in scheds {
        assert HandleOf(id, scheds[id]) !in list;
      }
    }
  }

  lemma MarkedNone(run: map<Id, bool>)
    ensures Mark(run, System.Ids(map[]), true) == run
  {
  }

  lemma {:induction false} NotYetMarked(scheds: map<Id, Sched>, running: map<Handle, bool>, run0: map<Id, bool>,
                                        ids: map<string, Id>, done: map<string, Id>, c: string)
    requires (forall x :: x in ids ==> ids[x] in scheds && scheds[ids[x]].Name() == x)
      && (forall id :: id in System.Ids(ids) ==> id !in run0)
    requires c in ids && c !in done && (forall x :: x in done ==> x in ids && done[x] == ids[x])
    requires Marked(running, scheds) == Mark(run0, System.Ids(done), true)
    ensures HandleOf(ids[c], scheds[ids[c]]) !in running
  {
    var id := ids[c];
    assert id in System.Ids(ids);
    forall x | x in done
      ensures done[x] != id
    {
      assert scheds[ids[x]].Name() == x;
    }
    assert id !in Marked(running, scheds);
  }

  lemma {:induction false} ShadowAdded(scheds: map<Id, Sched>, visible: map<string, seq<Handle>>,
                                       running: map<Handle, bool>, h: Handle, run0: map<Id, bool>,
                                       done: map<string, Id>, c: string)
    requires AllKnown(scheds, visible, running) && Known(scheds, h) && c !in done
      && Marked(running, scheds) == Mark(run0, System.Ids(done), true)
    ensures AllKnown(scheds, visible, running[h := true])
    ensures Marked(running[h := true], scheds) == Mark(run0, System.Ids(done[c := h.id]), true)
  {
    hide Mark, Marked, System.Ids, IsListed;
    IdsPut(done, c, h.id);
    MarkedPut(scheds, running, h, true);
    MarkPut(run0, System.Ids(done), h.id, true);
  }

  lemma MarkedPut(scheds: map<Id, Sched>, running: map<Handle, bool>, h: Handle, shadow: bool)
    requires Known(scheds, h)
    ensures Marked(running[h := shadow], scheds) == Marked(running, scheds)[h.id := shadow]
  {
  }

  lemma MarkPut(run: map<Id, bool>, ids: set<Id>, id: Id, shadow: bool)
    ensures Mark(run, ids + {id}, shadow) == Mark(run, ids, shadow)[id := shadow]
  {
  }

  lemma IdsPut(m: map<string, Id>, c: string, id: Id)
    requires c !in m
    ensures System.Ids(m[c := id]) == System.Ids(m) + {id}
  {
    forall x | x in System.Ids(m) + {id}
      ensures x in System.Ids(m[c := id])
    {
      if x in System.Ids(m) {
        var k :| k in m && m[k] == x;
        assert k in m[c := id] && m[c := id][k] == x;
      } else {
        assert c in m[c := id] && m[c := id][c] == x;
      }
    }
  }

  // ------------------------------------------------------------------
  // Commits
  // ------------------------------------------------------------------

  /**
    From lists, marks and closed schedulers of the beginning, those of the given checks of `n` have
    been retired and the promoted ones stand in their places.
   */
  ghost predicate Retired(vis0: map<string, seq<Handle>>, run0: map<Id, bool>, closed0: multiset<Id>,
                          vis: map<string, seq<Handle>>, run: map<Id, bool>, closed: multiset<Id>, n: string,
                          names: set<string>, promoted: map<string, Id>) {
    var gone := Picked(Numbers(At(vis0, n)), names);
    && Elsewhere(vis0, vis, n) && Numbers(At(vis, n)) == Numbers(At(vis0, n)) - names + promoted
    && run == Mark(run0 - gone, System.Ids(promoted), false) && closed == closed0 + multiset(gone)
  }

  lemma RetiredNone(vis: map<string, seq<Handle>>, run: map<Id, bool>, closed: multiset<Id>, n: string)
    ensures Retired(vis, run, closed, vis, run, closed, n, {}, map[])
  {
    hide Numbers, Mark;
    var none: set<Id> := {};
    var m := Numbers(At(vis, n));
    assert Picked(m, {}) == none && m - {} == m && m + map[] == m;
    assert run - none == run && closed + multiset(none) == closed;
    MarkNone(run);
    SelfElsewhere(vis, n);
  }

  lemma MarkNone(run: map<Id, bool>)
    ensures System.Ids(map[]) == {} && Mark(run, {}, false) == run
  {
  }

  lemma {:induction false} RetiredSkip(vis0: map<string, seq<Handle>>, run0: map<Id, bool>, closed0: multiset<Id>,
                                       vis: map<string, seq<Handle>>, run: map<Id, bool>, closed: multiset<Id>,
                                       n: string, done: set<string>, c: string)
    requires Retired(vis0, run0, closed0, vis, run, closed, n, done, map[]) && c !in Numbers(At(vis, n)) && c !in done
    ensures Retired(vis0, run0, closed0, vis, run, closed, n, done + {c}, map[])
  {
    hide Numbers, Elsewhere;
    var m := Numbers(At(vis0, n));
    assert c !in m;
    assert m - (done + {c}) == m - done && Picked(m, done + {c}) == Picked(m, done);
  }

  lemma ListedKnown(scheds: map<Id, Sched>, vis: map<string, seq<Handle>>, running: map<Handle, bool>, n: string,
                    h: Handle)
    requires AllKnown(scheds, vis, running) && WellListed(vis) && h in At(vis, n)
    ensures Known(scheds, h) && h.vip == n && OneEach(At(vis, n))
    ensures forall x :: x in At(vis, n) ==> Known(scheds, x)
  {
    hide OneEach;
    WellAt(vis, n);
  }

  lemma {:induction false} NumbersWithout(list: seq<Handle>, h: Handle)
    requires OneEach(list) && h in list
    ensures Numbers(Without(list, h)) == Numbers(list) - {h.name} && h.name in Numbers(list)
      && Numbers(list)[h.name] == h.id
  {
    hide Numbers, OneEach, Without;
    WithoutKeeps(list, h);
    NumbersAre(list);
    NumbersAre(Without(list, h));
    SameName(list, h);
    forall c
      ensures c in Numbers(Without(list, h)) <==> c in Numbers(list) && c != h.name
      ensures c in Numbers(Without(list, h)) ==> Numbers(Without(list, h))[c] == Numbers(list)[c]
    {
      if c in Numbers(Without(list, h)) {
        var x :| x in Without(list, h) && x.name == c;
      }
      if c in Numbers(list) && c != h.name {
        var x :| x in list && x.name == c;
        assert x in Without(list, h);
      }
    }
  }

  lemma SameName(list: seq<Handle>, h: Handle)
    requires OneEach(list) && h in list
    ensures forall x :: x in list && x.name == h.name ==> x == h
  {
  }

  lemma MarkedWithout(scheds: map<Id, Sched>, running: map<Handle, bool>, h: Handle)
    requires Known(scheds, h)
    ensures Marked(running - {h}, scheds) == Marked(running, scheds) - {h.id}
  {
  }

  /** One more check is retired. */
  lemma {:induction false} RetiredOne(scheds: map<Id, Sched>, vis0: map<string, seq<Handle>>, run0: map<Id, bool>,
                                      closed0: multiset<Id>,
                                      vis: map<string, seq<Handle>>, running: map<Handle, bool>, closed: multiset<Id>,
                                      vis': map<string, seq<Handle>>, running': map<Handle, bool>, n: string,
                                      done: set<string>, h: Handle)
    requires Retired(vis0, run0, closed0, vis, Marked(running, scheds), closed, n, done, map[]) && h in At(vis, n)
      && OneEach(At(vis, n)) && h.vip == n
    requires Known(scheds, h) && h.name !in done && (forall x :: x in At(vis, n) ==> Known(scheds, x))
      && AllKnown(scheds, vis, running) && WellListed(vis')
    requires (forall v :: v != n ==> At(vis', v) == At(vis, v)) && At(vis', n) == Without(At(vis, n), h)
      && running' == running - {h}
    requires Apart0(scheds, Numbers(At(vis0, n)))
    ensures Retired(vis0, run0, closed0, vis', Marked(running', scheds), closed + multiset{h.id}, n, done + {h.name},
      map[])
    ensures AllKnown(scheds, vis', running')
  {
    hide Numbers, OneEach, Without, Marked, Mark, WellListed, Elsewhere;
    var m := Numbers(At(vis0, n));
    MoreElsewhere(vis0, vis, vis', n);
    NumbersWithout(At(vis, n), h);
    MarkedWithout(scheds, running, h);
    assert h.name in m && m[h.name] == h.id;
    PickedPut(scheds, m, done, h.name);
    assert m - done - {h.name} == m - (done + {h.name});
    var none: map<string, Id> := map[];
    assert m - (done + {h.name}) + none == m - (done + {h.name}) && m - done + none == m - done;
    MarkMinus(run0, Picked(m, done), h.id);
    LessKnown(scheds, vis, running, vis', running', n, h);
  }

  /** Schedulers of different checks are different. */
  predicate Apart0(scheds: map<Id, Sched>, m: map<string, Id>) {
    forall c :: c in m ==> m[c] in scheds && scheds[m[c]].Name() == c
  }

  lemma {:induction false} PickedPut(scheds: map<Id, Sched>, m: map<string, Id>, done: set<string>, c: string)
    requires Apart0(scheds, m) && c in m && c !in done
    ensures Picked(m, done + {c}) == Picked(m, done) + {m[c]} && m[c] !in Picked(m, done)
    ensures multiset(Picked(m, done + {c})) == multiset(Picked(m, done)) + multiset{m[c]}
  {
    forall id | id in Picked(m, done)
      ensures id != m[c]
    {
      var d :| d in m && d in done && m[d] == id;
      assert scheds[m[d]].Name() == d && scheds[m[c]].Name() == c;
    }
    assert Picked(m, done + {c}) == Picked(m, done) + {m[c]};
  }

  lemma MarkMinus(run: map<Id, bool>, gone: set<Id>, id: Id)
    ensures Mark(run - gone, System.Ids(map[]), false) - {id} == Mark(run - (gone + {id}), System.Ids(map[]), false)
  {
  }

  lemma {:induction false} LessKnown(scheds: map<Id, Sched>, vis: map<string, seq<Handle>>, running: map<Handle, bool>,
                                     vis': map<string, seq<Handle>>, running': map<Handle, bool>, n: string, h: Handle)
    requires AllKnown(scheds, vis, running) && OneEach(At(vis, n))
      && (forall v :: v != n ==> At(vis', v) == At(vis, v)) && At(vis', n) == Without(At(vis, n), h)
      && running' == running - {h}
    ensures AllKnown(scheds, vis', running')
  {
    hide Known, Without, OneEach;
    WithoutKeeps(At(vis, n), h);
    forall x | IsListed(vis', x)
      ensures Known(scheds, x)
    {
      assert x.vip != n ==> At(vis', x.vip) == At(vis, x.vip);
      assert x in At(vis', x.vip);
      assert IsListed(vis, x);
    }
  }

  lemma {:induction false} NumbersApart(scheds: map<Id, Sched>, vis: map<string, seq<Handle>>,
                                        running: map<Handle, bool>, n: string)
    requires AllKnown(scheds, vis, running) && WellListed(vis)
    ensures Apart0(scheds, Numbers(At(vis, n)))
  {
    hide Numbers, WellListed, OneEach;
    WellAt(vis, n);
    var list := At(vis, n);
    NumbersAre(list);
    forall c | c in Numbers(list)
      ensures Numbers(list)[c] in scheds && scheds[Numbers(list)[c]].Name() == c
    {
      var h :| h in list && h.name == c;
      assert Known(scheds, h);
    }
  }

  lemma ListedAt(vis: map<string, seq<Handle>>, n: string, c: string, h: Option<Handle>)
    requires WellListed(vis) && h == if c in Listing(At(vis, n)) then Some(Listing(At(vis, n))[c]) else None
    ensures h.Some? <==> c in Numbers(At(vis, n))
    ensures h.Some? ==> h.value in At(vis, n) && Numbers(At(vis, n))[c] == h.value.id
  {
    hide Listing, OneEach;
    WellAt(vis, n);
    ListingIs(At(vis, n));
  }

  /** A shadow whose turn has not come is still one. */
  lemma {:induction false} StillShadow(scheds: map<Id, Sched>, running: map<Handle, bool>,
                                       vis0: map<string, seq<Handle>>, run0: map<Id, bool>, closed0: multiset<Id>,
                                       vis: map<string, seq<Handle>>, closed: multiset<Id>, n: string,
                                       names: set<string>, done: map<string, Id>, c: string, id: Id)
    requires id in scheds && scheds[id].Name() == c && c !in done && id in run0 && run0[id]
      && (forall x :: x in done ==> done[x] in scheds && scheds[done[x]].Name() == x)
    requires forall x :: x in Numbers(At(vis0, n)) ==> Numbers(At(vis0, n))[x] in run0 && !run0[Numbers(At(vis0, n))[x]]
    requires Retired(vis0, run0, closed0, vis, Marked(running, scheds), closed, n, names + done.Keys, done)
    ensures HandleOf(id, scheds[id]) in running && running[HandleOf(id, scheds[id])]
  {
    hide Numbers, Elsewhere;
    assert id !in Picked(Numbers(At(vis0, n)), names + done.Keys) && id !in System.Ids(done);
    assert id in Marked(running, scheds) && Marked(running, scheds)[id];
  }

  lemma NumbersPut(list: seq<Handle>, next: seq<Handle>, h: Handle)
    requires Listing(next) == Listing(list)[h.name := h]
    ensures Numbers(next) == Numbers(list)[h.name := h.id]
  {
    hide Listing;
  }

  /** One more shadow is promoted. */
  lemma {:induction false} PromotedOne(scheds: map<Id, Sched>, vis0: map<string, seq<Handle>>, run0: map<Id, bool>,
                                       closed0: multiset<Id>,
                                       vis: map<string, seq<Handle>>, running: map<Handle, bool>, closed: multiset<Id>,
                                       vis': map<string, seq<Handle>>, running': map<Handle, bool>, n: string,
                                       names: set<string>, done: map<string, Id>,
                                       h: Handle, replaced: Option<Handle>)
    requires Retired(vis0, run0, closed0, vis, Marked(running, scheds), closed, n, names + done.Keys, done)
      && AllKnown(scheds, vis, running) && WellListed(vis) && WellListed(vis')
    requires Known(scheds, h) && h.vip == n && h.name !in names && h.name !in done
      && Apart0(scheds, Numbers(At(vis0, n)))
    requires h.id in run0 && run0[h.id]
      && (forall x :: x in Numbers(At(vis0, n)) ==> Numbers(At(vis0, n))[x] in run0 && !run0[Numbers(At(vis0, n))[x]])
    requires forall x :: x in done ==> done[x] in scheds && scheds[done[x]].Name() == x
    requires (forall v :: v != n ==> At(vis', v) == At(vis, v))
      && Listing(At(vis', n)) == Listing(At(vis, n))[h.name := h]
    requires replaced.Some? <==> h.name in Numbers(At(vis, n))
    requires replaced.Some? ==> replaced.value in At(vis, n) && Numbers(At(vis, n))[h.name] == replaced.value.id
    requires running' == (if replaced.Some? then running - {replaced.value} else running)[h := false]
    ensures AllKnown(scheds, vis', running')
    ensures Retired(vis0, run0, closed0, vis', Marked(running', scheds),
      if replaced.Some? then closed + multiset{replaced.value.id} else closed,
                    n, names + done.Keys + {h.name}, done[h.name := h.id])
  {
    hide Numbers, Listing, Marked, Mark, WellListed, Elsewhere, OneEach, System.Ids, Picked, Apart0;
    var m, c, all := Numbers(At(vis0, n)), h.name, names + done.Keys;
    MoreElsewhere(vis0, vis, vis', n);
    NumbersPut(At(vis, n), At(vis', n), h);
    assert c in m <==> replaced.Some?;
    assert m - all + done == Numbers(At(vis, n));
    assert (m - all + done)[c := h.id] == m - (all + {c}) + done[c := h.id];
    PromotedKnown(scheds, vis, running, vis', running', n, h);
    IdsPut(done, c, h.id);
    if replaced.Some? {
      ListedKnown(scheds, vis, running, n, replaced.value);
      PickedPut(scheds, m, all, c);
      MarkedWithout(scheds, running, replaced.value);
      MarkedPut(scheds, running - {replaced.value}, h, false);
      assert m[c] == replaced.value.id;
      NotPromoted(scheds, m, done, c);
      ReplacedMarks(run0, Picked(m, all), System.Ids(done), m[c], h.id);
    } else {
      NothingPicked(m, all, c);
      MarkedPut(scheds, running, h, false);
      MarkPut(run0 - Picked(m, all), System.Ids(done), h.id, false);
    }
  }

  lemma {:induction false} NotPromoted(scheds: map<Id, Sched>, m: map<string, Id>, done: map<string, Id>, c: string)
    requires Apart0(scheds, m) && c in m && c !in done
      && forall x :: x in done ==> done[x] in scheds && scheds[done[x]].Name() == x
    ensures m[c] !in System.Ids(done)
  {
    forall x | x in done
      ensures done[x] != m[c]
    {
      assert scheds[done[x]].Name() == x && scheds[m[c]].Name() == c;
    }
  }

  lemma NothingPicked(m: map<string, Id>, names: set<string>, c: string)
    requires c !in m
    ensures Picked(m, names + {c}) == Picked(m, names)
  {
  }

  /** Stopping the replaced scheduler and marking the promoted one. */
  lemma {:induction false} ReplacedMarks(run0: map<Id, bool>, gone: set<Id>, ids: set<Id>, was: Id, id: Id)
    requires was in run0 && !run0[was] && id in run0 && run0[id] && was !in ids
    ensures (Mark(run0 - gone, ids, false) - {was})[id := false] == Mark(run0 - (gone + {was}), ids + {id}, false)
  {
  }

  lemma {:induction false} PromotedKnown(scheds: map<Id, Sched>, vis: map<string, seq<Handle>>,
                                         running: map<Handle, bool>,
                                         vis': map<string, seq<Handle>>, running': map<Handle, bool>, n: string,
                                         h: Handle)
    requires AllKnown(scheds, vis, running) && WellListed(vis) && WellListed(vis') && Known(scheds, h)
    requires (forall v :: v != n ==> At(vis', v) == At(vis, v))
      && Listing(At(vis', n)) == Listing(At(vis, n))[h.name := h]
    requires forall x :: x in running' ==> x in running || x == h
    ensures AllKnown(scheds, vis', running')
  {
    hide Known, Listing, OneEach;
    WellAt(vis, n);
    WellAt(vis', n);
    ListingIs(At(vis, n));
    ListingIs(At(vis', n));
    forall x | IsListed(vis', x)
      ensures Known(scheds, x)
    {
      if x.vip != n {
        assert At(vis', x.vip) == At(vis, x.vip);
        assert IsListed(vis, x);
      } else {
        assert x in At(vis', n) && Listing(At(vis', n))[x.name] == x;
      }
    }
  }

  predicate Halfway(shadows: map<string, Id>, todo: set<string>, done: map<string, Id>) {
    && (forall c :: c in todo ==> c in shadows && c !in done) && (forall c :: c in shadows ==> c in todo || c in done)
    && (forall c :: c in done ==> c in shadows && done[c] == shadows[c])
  }

  /** The shadows of a VIP's checks run. */
  ghost predicate Waiting(scheds: map<Id, Sched>, run: map<Id, bool>, n: string, shadows: map<string, Id>) {
    forall c :: c in shadows ==>
      shadows[c] in scheds && scheds[shadows[c]].vip == n && scheds[shadows[c]].Name() == c && shadows[c] in run
      && run[shadows[c]]
  }

  lemma AreWaiting(scheds: map<Id, Sched>, run: map<Id, bool>, n: string, shadows: map<string, Id>)
    requires forall c :: c in shadows ==>
      shadows[c] in scheds && scheds[shadows[c]].vip == n && scheds[shadows[c]].Name() == c && shadows[c] in run
      && run[shadows[c]]
    ensures Waiting(scheds, run, n, shadows) && Halfway(shadows, shadows.Keys, map[])
  {
  }

  lemma {:induction false} OneFurther(scheds: map<Id, Sched>, run: map<Id, bool>, n: string, shadows: map<string, Id>,
                                      todo: set<string>, done: map<string, Id>, c: string, names: set<string>)
    requires Halfway(shadows, todo, done) && c in todo && Waiting(scheds, run, n, shadows) && names !! shadows.Keys
    ensures c in shadows && c !in done && c !in names && Halfway(shadows, todo - {c}, done[c := shadows[c]])
    ensures shadows[c] in scheds && scheds[shadows[c]].vip == n && scheds[shadows[c]].Name() == c && shadows[c] in run
      && run[shadows[c]]
    ensures forall x :: x in done ==> done[x] in scheds && scheds[done[x]].Name() == x
    ensures names + done.Keys + {c} == names + done[c := shadows[c]].Keys
  {
  }

  lemma NothingLeft(shadows: map<string, Id>, done: map<string, Id>)
    requires Halfway(shadows, {}, done)
    ensures done == shadows
  {
  }

  /** Listed schedulers run, and not in shadow. */
  lemma {:induction false} VisibleMarks(scheds: map<Id, Sched>, vis: map<string, seq<Handle>>,
                                        running: map<Handle, bool>, n: string)
    requires AllKnown(scheds, vis, running) && WellListed(vis)
      && forall h :: IsListed(vis, h) <==> h in running && !running[h]
    ensures forall x :: x in Numbers(At(vis, n)) ==>
      Numbers(At(vis, n))[x] in Marked(running, scheds) && !Marked(running, scheds)[Numbers(At(vis, n))[x]]
  {
    hide Numbers, WellListed, OneEach;
    WellAt(vis, n);
    NumbersAre(At(vis, n));
    forall x | x in Numbers(At(vis, n))
      ensures Numbers(At(vis, n))[x] in Marked(running, scheds) && !Marked(running, scheds)[Numbers(At(vis, n))[x]]
    {
      var h :| h in At(vis, n) && h.name == x;
      assert Known(scheds, h) && IsListed(vis, h);
    }
  }

  lemma RoutesPut(a: map<string, Attrs>, b: map<string, Attrs>, p: string, route: Option<Attrs>)
    requires RouteIn(b, p) == route && forall q :: q != p ==> RouteIn(b, q) == RouteIn(a, q)
    ensures b == PutRoute(a, p, route)
  {
    forall q
      ensures (q in b <==> q in PutRoute(a, p, route)) && (q in b ==> b[q] == PutRoute(a, p, route)[q])
    {
      assert q != p ==> RouteIn(b, q) == RouteIn(a, q);
    }
  }

  lemma {:induction false} SwitchIs(s0: State, vis0: map<string, seq<Handle>>, vis: map<string, seq<Handle>>,
                                    run: map<Id, bool>, closed: multiset<Id>,
                                    v: Vip, shadows: map<string, Id>, removed: set<string>, seen: bool, b: Bgp)
    requires v.name in s0.vips && Committable(s0.vips[v.name], v, Seeds(s0.scheds, shadows))
      && s0.visible == Listed(vis0)
    requires WellListed(vis0) && WellListed(vis) && Numbers(At(vis0, v.name)) - removed + shadows != map[]
      && removed !! shadows.Keys
    requires Retired(vis0, s0.running, s0.closed, vis, run, closed, v.name, removed + shadows.Keys, shadows)
    ensures var f :=
      Commit(s0.vips[v.name], RouteAt(s0, s0.vips[v.name].cfg.prefix), v, Seeds(s0.scheds, shadows), seen, b);
      CommitSafety.Switched(s0, v, shadows, removed, seen, b) ==
        s0.(staging := s0.staging - {v.name}, visible := Listed(vis), running := run, closed := closed,
        scheds := Enlist(s0.scheds, System.Ids(shadows), true), vips := s0.vips[v.name := f.e],
          routes := PutRoute(s0.routes, f.e.cfg.prefix, f.route), log := s0.log + f.calls)
  {
    hide Numbers, WellListed, Commit, Committable, Seeds, Enlist, CommitSafety.Switched, Mark, PutRoute, Listed;
    CommitSafety.SwitchedIs(s0, v, shadows, removed, seen, b);
    var m := Numbers(At(vis0, v.name));
    VisibleIs(s0, vis0, v.name);
    assert m - (removed + shadows.Keys) + shadows == m - removed + shadows;
    NonEmpty(At(vis, v.name));
    ListPut(vis0, vis, v.name);
  }

  lemma SameRoute(s: State, p: string)
    ensures RouteAt(s, p) == RouteIn(s.routes, p)
  {
  }

  lemma VisibleIs(s: State, vis: map<string, seq<Handle>>, n: string)
    requires s.visible == Listed(vis)
    ensures Visible(s, n) == Numbers(At(vis, n))
  {
    hide Numbers;
    NoNumbers();
  }

  lemma NonEmpty(list: seq<Handle>)
    requires Numbers(list) != map[]
    ensures list != []
  {
    NoNumbers();
  }

  // ------------------------------------------------------------------
  // Dropping shadows
  // ------------------------------------------------------------------

  /** All shadows but those still to do are stopped and closed. */
  ghost predicate Dropping(run0: map<Id, bool>, closed0: multiset<Id>, run: map<Id, bool>, closed: multiset<Id>,
                           ids: set<Id>, todo: set<Id>) {
    todo <= ids && run == run0 - (ids - todo) && closed == closed0 + multiset(ids - todo)
  }

  ghost predicate Shadowed(scheds: map<Id, Sched>, run: map<Id, bool>, ids: set<Id>) {
    forall id :: id in ids ==> id in scheds && id in run && run[id]
  }

  lemma AreShadowed(scheds: map<Id, Sched>, run: map<Id, bool>, ids: set<Id>)
    requires forall id :: id in ids ==> id in scheds && id in run && run[id]
    ensures Shadowed(scheds, run, ids)
  {
  }

  lemma NoneDropped(run: map<Id, bool>, closed: multiset<Id>, ids: set<Id>)
    ensures Dropping(run, closed, run, closed, ids, ids)
  {
    assert ids - ids == {};
  }

  lemma {:induction false} OneDropped(scheds: map<Id, Sched>, run0: map<Id, bool>, closed0: multiset<Id>,
                                      run: map<Id, bool>, closed: multiset<Id>, ids: set<Id>, todo: set<Id>, id: Id)
    requires Dropping(run0, closed0, run, closed, ids, todo) && id in todo && Shadowed(scheds, run0, ids)
    ensures id in scheds && id in run && run[id]
      && Dropping(run0, closed0, run - {id}, closed + multiset{id}, ids, todo - {id})
  {
    assert ids - (todo - {id}) == (ids - todo) + {id};
    assert multiset(ids - todo + {id}) == multiset(ids - todo) + multiset{id};
  }

  lemma AllDropped(run0: map<Id, bool>, closed0: multiset<Id>, run: map<Id, bool>, closed: multiset<Id>, ids: set<Id>)
    requires Dropping(run0, closed0, run, closed, ids, {})
    ensures run == run0 - ids && closed == closed0 + multiset(ids)
  {
    assert ids - {} == ids;
  }

  lemma ShadowHandle(scheds: map<Id, Sched>, running: map<Handle, bool>, id: Id)
    requires id in scheds && id in Marked(running, scheds) && Marked(running, scheds)[id]
    ensures HandleOf(id, scheds[id]) in running && running[HandleOf(id, scheds[id])]
      && Known(scheds, HandleOf(id, scheds[id]))
  {
  }

  /** Removing a scheduler that is not listed leaves the lists alone. */
  lemma {:induction false} Unlisted(scheds: map<Id, Sched>, vis: map<string, seq<Handle>>, running: map<Handle, bool>,
                                    vis': map<string, seq<Handle>>, h: Handle)
    requires AllKnown(scheds, vis, running) && WellListed(vis) && WellListed(vis')
      && (forall x :: IsListed(vis, x) <==> x in running && !running[x]) && h in running && running[h]
    requires (forall v :: v != h.vip ==> At(vis', v) == At(vis, v)) && At(vis', h.vip) == Without(At(vis, h.vip), h)
    ensures vis' == vis && AllKnown(scheds, vis', running - {h})
  {
    hide WellListed, Without;
    assert !IsListed(vis, h) && h !in At(vis, h.vip);
    WithoutNone(At(vis, h.vip), h);
    forall v
      ensures At(vis', v) == At(vis, v)
    {
    }
    SameLists(vis', vis);
  }

  lemma NotYetListed(list: seq<Handle>, i: nat)
    requires OneEach(list) && i < |list|
    ensures list[i].name !in Listing(list[..i]) && list[i] !in list[..i]
  {
    hide Listing;
    ListingIs(list[..i]);
  }

  lemma {:induction false} StillKnown(scheds: map<Id, Sched>, visible: map<string, seq<Handle>>,
                                      running: map<Handle, bool>,
                                      visible': map<string, seq<Handle>>, running': map<Handle, bool>, n: string)
    requires AllKnown(scheds, visible, running) && WellListed(visible) && WellListed(visible')
    requires (forall v :: v != n ==> At(visible', v) == At(visible, v)) && n !in visible'
      && forall h :: h in running' ==> h in running
    ensures AllKnown(scheds, visible', running')
  {
    forall h | IsListed(visible', h)
      ensures Known(scheds, h)
    {
      assert At(visible', h.vip) == At(visible, h.vip);
      assert IsListed(visible, h);
    }
  }

  lemma {:induction false} RunningAgain(visible: map<string, seq<Handle>>, running: map<Handle, bool>,
                                        list: seq<Handle>, n: string)
    requires WellListed(visible) && list == At(visible, n)
      && forall h :: IsListed(visible, h) <==> h in running && !running[h]
    ensures Started(map h | h in running && h !in list :: running[h], list) == running
  {
    hide Started;
    WellAt(visible, n);
    StartedIs(map h | h in running && h !in list :: running[h], list);
  }
}
