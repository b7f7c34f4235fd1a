/**
  The object program as a whole refines module `System`: whatever events it is driven through, the
  state its objects make up is the one the system reaches by those events, with the answers the
  BGP server gave. So what `Runs` proves of every run holds of the objects.
 */
module Refinement {
  import opened Config
  import opened Policy
  import opened System
  import opened Safety
  import opened ReloadSafety
  import opened CommitSafety
  import opened Runs
  import opened Staging
  import opened Outcomes
  import Registry
  import opened Rib
  import opened PolicyManager
  import Objects = Program

  /** The event as it went: with the answers of the BGP server in place of the announced ones. */
  function Answered(ev: Event, b: Bgp, b2: Bgp): Event {
    match ev
    case DeliverResult(id, seen, _, _) => DeliverResult(id, seen, b, b2)
    case DeliverTransition(id, seen, _) => DeliverTransition(id, seen, b)
    case RemoveVip(n, _) => RemoveVip(n, b)
    case CommitNow(v, seen, _) => CommitNow(v, seen, b)
    case Report(seen, _) => Report(seen, b)
    case Expire(n, now, seen, _) => Expire(n, now, seen, b)
    case _ => ev
  }

  /** Whether an event can happen and is harmless does not depend on the answers. */
  lemma AnsweredEnabled(s: State, ev: Event, b: Bgp, b2: Bgp)
    requires Enabled(s, ev)
    ensures Enabled(s, Answered(ev, b, b2)) && (Benign(s, Answered(ev, b, b2)) <==> Benign(s, ev))
  {
    hide Quiet, ValidVip, BuiltFor, ChangedNames, RemovedNames, IsNew, CommitQuiet, Completes, LeavesNoOrphan,
      PrefixFree, KeepsKnown, Visible, Picked, System.Ids, ShadowIds;
  }

  /** What a withdraw is answered. */
  function WithdrawIn(w: Weather): Bgp { if w.usable && w.deletes then Done else Kept }

  // ------------------------------------------------------------------
  // What the operations rely on
  // ------------------------------------------------------------------

  /** Schedulers that wait to be handed out do not run. */
  lemma {:induction false} BuiltRest(s: State, v: Vip, ids: map<string, Id>)
    requires Core(s) && BuiltFor(s, v, ids)
    ensures forall id :: id in System.Ids(ids) ==> id !in s.running
  {
    hide VipsOk, RoutesOwned, QueueOk, NoStrays;
    forall id | id in System.Ids(ids)
      ensures id !in s.running
    {
      assert IdOk(s, id);
    }
  }

  /** The shadows of the stagings run as such. */
  lemma {:induction false} AllShadowsRun(s: State)
    requires Core(s)
    ensures forall id :: id in ShadowIds(s.staging) ==> id in s.scheds && id in s.running && s.running[id]
  {
    hide VipsOk, IdsOk, RoutesOwned, QueueOk, ShadowIds;
    forall id | id in ShadowIds(s.staging)
      ensures id in s.scheds && id in s.running && s.running[id]
    {
      ShadowsRun(s, id);
    }
  }

  /** A definition that fits is committed: the checks that go and the shadows are apart, and something is left. */
  lemma {:induction false} FitsRuns(s: State, v: Vip, shadows: map<string, Id>, removed: set<string>)
    requires Core(s) && Fits(s, v, shadows, removed) && ValidVip(v)
    ensures v.name in s.vips && removed !! shadows.Keys && Visible(s, v.name) - removed + shadows != map[]
    ensures forall c :: c in shadows ==>
      shadows[c] in s.scheds && s.scheds[shadows[c]].vip == v.name && s.scheds[shadows[c]].Name() == c
    ensures forall c :: c in shadows ==> shadows[c] in s.running && s.running[shadows[c]]
    ensures Committable(s.vips[v.name], v, Seeds(s.scheds, shadows))
  {
    hide VipsOk, IdsOk, RoutesOwned, QueueOk, Committable, ValidVip, Seeds, RemovedNames, ChangedNames, Visible,
      EntryOk, RouteOk, VisibleOk;
    var was, vis := s.vips[v.name].cfg, Visible(s, v.name);
    assert vis.Keys == was.Checks().Keys && EntryOk(s.vips[v.name]) by { VisibleKeys(s, v.name); }
    NeverRefused(s, v, shadows, removed);
    assert removed !! shadows.Keys by { ApartNames(was, v); }
    NamesAfter(was, v, vis, shadows, removed);
    assert vis - (removed + shadows.Keys) + shadows == vis - removed + shadows;
    HasCheck(v);
    assert forall c :: c in shadows ==> ReadyShadow(s, v, c, shadows[c]);
  }

  lemma VisibleKeys(s: State, n: string)
    requires VipsOk(s) && n in s.vips
    ensures Visible(s, n).Keys == s.vips[n].cfg.Checks().Keys && EntryOk(s.vips[n])
  {
    hide VipOk, EntryOk, RouteOk, VisibleOk;
    assert VipOk(s, n);
    VipParts(s, n);
    KeysOk(s.vips[n]);
  }

  lemma ApartNames(was: Vip, v: Vip)
    ensures RemovedNames(was, v) !! ChangedNames(was, v)
  {
  }

  lemma HasCheck(v: Vip)
    ensures v.CheckList()[0].EffectiveName() in v.Checks()
  {
    ByNameIs(v.CheckList());
    assert Names(v.CheckList())[0] == v.CheckList()[0].EffectiveName();
  }

  /** An immediate change fits without shadows. */
  lemma {:induction false} NowFits(s: State, v: Vip)
    requires Core(s) && v.name in s.vips && v.prefix == s.vips[v.name].cfg.prefix
      && ChangedNames(s.vips[v.name].cfg, v) == {}
    ensures Fits(s, v, map[], RemovedNames(s.vips[v.name].cfg, v))
  {
    hide VipsOk, IdsOk, RoutesOwned, QueueOk, ChangedNames, RemovedNames;
    NameHere(s, v.name);
  }

  /** The VIP is redefined on its prefix without a check to prove, and no staging of it waits. */
  predicate AtOnce(s: State, v: Vip) {
    && v.name in s.vips && v.name !in s.staging && ValidVip(v)
    && v.prefix == s.vips[v.name].cfg.prefix && ChangedNames(s.vips[v.name].cfg, v) == {}
  }

  /** Without a staging there is none to forget. */
  lemma NotStaged(s: State, v: Vip, seen: bool)
    requires v.name in s.vips && v.name !in s.staging
    ensures forall b ::
      Switched(s, v, map[], RemovedNames(s.vips[v.name].cfg, v), seen, b) == StepCommitNow(s, v, seen, b)
  {
    hide Switch, RemovedNames;
    assert s.(staging := s.staging - {v.name}) == s;
  }

  class Node {
    const prog: Objects.Program
    /** What happened so far. */
    ghost var trace: seq<Event>

    /** The objects are where the system's run leads. */
    ghost predicate Sound()
      reads this, prog, prog.reg, prog.pol, prog.pol.bgp
    {
      prog.Valid() && Reaches(EMPTY, trace, prog.Abs())
    }

    /** Nothing is registered yet. */
    constructor (asn: nat, peers: seq<nat>)
      ensures Sound() && trace == [] && prog.Abs() == EMPTY
    {
      var bgp := new Originator(asn, peers);
      var pol := new Manager(bgp);
      var reg := new Registry.Registry();
      reg.Start();
      prog := new Objects.Program(reg, pol);
      trace := [];
    }

    /** Commit a definition that fits. */
    method Commit(v: Vip, shadows: map<string, Id>, removed: set<string>, seen: bool, w: Weather) returns (ghost b: Bgp)
      requires prog.Valid() && Core(prog.Abs()) && Fits(prog.Abs(), v, shadows, removed) && ValidVip(v)
        && Unused(prog.pol.bgp.server, w)
      modifies prog, prog.reg, prog.pol, prog.pol.bgp
      ensures prog.Valid() && prog.Abs() == Switched(old(prog.Abs()), v, shadows, removed, seen, b)
    {
      hide Core, Fits, Switched, Committable, Seeds, ValidVip, Objects.AllKnown, Objects.Listed, Objects.Marked,
        Objects.Numbers, Registry.WellListed, Visible, Exact, NoRepeats, RoutesOf;
      FitsRuns(prog.Abs(), v, shadows, removed);
      Objects.VisibleIs(prog.Abs(), prog.reg.visible, v.name);
      b := prog.CommitVip(v, shadows, removed, seen, w);
    }

    /** `commitLocked` of one staged VIP. */
    method CommitStaged(n: string, seen: bool, w: Weather) returns (ghost b: Bgp)
      requires prog.Valid() && Core(prog.Abs()) && n in prog.staging && Unused(prog.pol.bgp.server, w)
      modifies prog, prog.reg, prog.pol, prog.pol.bgp
      ensures prog.Valid() && prog.Abs() == StepCommit(old(prog.Abs()), n, seen, b)
    {
      hide Core, Fits, Switch, StagedOk, ValidVip, Objects.Program.Valid, Objects.Program.Abs;
      RecordsAre(prog);
      StagingFits(prog.Abs(), n);
      var st := prog.staging[n];
      b := Commit(st.cfg, st.shadows, st.removed, seen, w);
    }

    /** An immediate change: nothing to prove. */
    method CommitAtOnce(v: Vip, seen: bool, w: Weather) returns (ghost b: Bgp)
      requires prog.Valid() && Core(prog.Abs()) && AtOnce(prog.Abs(), v) && Unused(prog.pol.bgp.server, w)
      modifies prog, prog.reg, prog.pol, prog.pol.bgp
      ensures prog.Valid() && prog.Abs() == StepCommitNow(old(prog.Abs()), v, seen, b)
    {
      hide Core, Fits, Switched, StepCommitNow, ValidVip, RemovedNames, ChangedNames, Quiet,
        Objects.Program.Valid, Objects.Program.Abs;
      ghost var s := prog.Abs();
      NowFits(s, v);
      VipsAre(prog);
      NotStaged(s, v, seen);
      b := Commit(v, map[], RemovedNames(prog.pol.vips[v.name].cfg, v), seen, w);
    }

    /** One drained verdict: ignored if superseded, noted, or the last one its staging waited for. */
    method Consume(seen: bool, w: Weather) returns (ghost b: Bgp)
      requires prog.Valid() && Core(prog.Abs()) && prog.drained != [] && Unused(prog.pol.bgp.server, w)
      modifies prog, prog.reg, prog.pol, prog.pol.bgp
      ensures prog.Valid() && prog.Abs() == StepReport(old(prog.Abs()), seen, b)
    {
      hide Core, StepCommit, Objects.AllKnown, Objects.Listed, Objects.Marked, Registry.WellListed, Exact, NoRepeats,
        RoutesOf;
      b := Done;
      ghost var s := prog.Abs();
      Popped(s);
      var id := prog.drained[0];
      prog.drained := prog.drained[1..];
      if id in prog.scheds {
        var n, c := prog.scheds[id].vip, prog.scheds[id].Name();
        if n in prog.staging && c in prog.staging[n].shadows && prog.staging[n].shadows[c] == id {
          var st := Noted(prog.staging[n], c);
          if |st.verdicts| < |st.shadows| {
            prog.staging := prog.staging[n := st];
          } else {
            b := CommitStaged(n, seen, w);
            NotedAnyway(s.(drained := s.drained[1..]), n, st, seen, b);
          }
        }
      }
    }

    /** New schedulers are built. */
    method Build(news: map<Id, Sched>)
      requires prog.Valid() && Enabled(prog.Abs(), Event.Build(news))
      modifies prog
      ensures prog.Valid() && prog.Abs() == Step(old(prog.Abs()), Event.Build(news))
    {
      hide IsNew, Objects.AllKnown, Objects.Listed, Objects.Marked, Registry.WellListed, Exact, NoRepeats, RoutesOf;
      MoreKnown(prog.scheds, news, prog.reg.visible, prog.reg.running);
      prog.scheds := prog.scheds + news;
      prog.built := prog.built + news.Keys;
    }

    /** Schedulers that were built in vain are closed. */
    method CloseUnused(ids: set<Id>)
      requires prog.Valid() && Enabled(prog.Abs(), CloseBuilt(ids))
      modifies prog
      ensures prog.Valid() && prog.Abs() == Step(old(prog.Abs()), CloseBuilt(ids))
    {
      hide Objects.AllKnown, Objects.Listed, Objects.Marked, Registry.WellListed, Exact, NoRepeats, RoutesOf;
      prog.built := prog.built - ids;
      prog.closed := prog.closed + multiset(ids);
    }

    /** `dropStagingLocked`. */
    method Drop()
      requires prog.Valid() && Core(prog.Abs())
      modifies prog, prog.reg, prog.pol, prog.pol.bgp
      ensures prog.Valid() && prog.Abs() == StepDrop(old(prog.Abs()))
    {
      hide Core, StepDrop, ShadowIds, Objects.AllKnown, Objects.Listed, Objects.Marked, Registry.WellListed, Exact,
        NoRepeats, RoutesOf;
      AllShadowsRun(prog.Abs());
      prog.DropStaging();
    }

    /** One VIP of the removal loop. */
    method Remove(n: string, w: Weather) returns (ok: bool)
      requires prog.Valid() && n in prog.Abs().vips
      modifies prog, prog.reg, prog.pol, prog.pol.bgp
      ensures prog.Valid() && prog.Abs() == StepRemove(old(prog.Abs()), n, WithdrawIn(w))
      ensures ok <==> !RemovalFails(old(prog.Abs()), n, WithdrawIn(w))
    {
      hide StepRemove, RemovalFails, Objects.AllKnown, Objects.Listed, Objects.Marked, Registry.WellListed, Exact,
        NoRepeats, RoutesOf;
      ok := prog.RemoveVip(n, w);
    }

    /** One VIP of the addition loop. */
    method Add(v: Vip, ids: map<string, Id>, seen: bool)
      requires prog.Valid() && Core(prog.Abs()) && Enabled(prog.Abs(), AddVip(v, ids, seen))
      modifies prog, prog.reg, prog.pol, prog.pol.bgp
      ensures prog.Valid() && prog.Abs() == StepAdd(old(prog.Abs()), v, ids, seen)
    {
      hide Core, StepAdd, ValidVip, BuiltFor, System.Ids, Objects.AllKnown, Objects.Listed, Objects.Marked,
        Registry.WellListed, Exact, NoRepeats, RoutesOf;
      BuiltRest(prog.Abs(), v, ids);
      FreshName(prog.Abs(), prog.reg.visible, v);
      prog.AddVip(v, ids, seen);
    }

    /** A change that needs staging, with the record made for it. */
    method StageChange(v: Vip, ids: map<string, Id>, at: nat, st: Staged)
      requires prog.Valid() && Core(prog.Abs()) && Enabled(prog.Abs(), Stage(v, ids, at))
      requires var was := prog.Abs().vips[v.name].cfg;
        st == Staged(v, was, ids, {}, RemovedNames(was, v), at, DeadlineFor(at, was, v))
      modifies prog, prog.reg, prog.pol, prog.pol.bgp
      ensures prog.Valid() && prog.Abs() == StepStage(old(prog.Abs()), v, ids, at)
    {
      hide Core, StepStage, ValidVip, BuiltFor, System.Ids, RemovedNames, ChangedNames, DeadlineFor, Objects.AllKnown,
        Objects.Listed, Objects.Marked, Registry.WellListed, Exact, NoRepeats, RoutesOf;
      BuiltRest(prog.Abs(), v, ids);
      prog.StageVip(v, ids, at, st);
    }

    /** The queue is taken. */
    method Drain()
      requires prog.Valid() && Enabled(prog.Abs(), DrainQueue)
      modifies prog
      ensures prog.Valid() && prog.Abs() == Step(old(prog.Abs()), DrainQueue)
    {
      hide Objects.AllKnown, Objects.Listed, Objects.Marked, Registry.WellListed, Exact, NoRepeats, RoutesOf;
      prog.drained, prog.queue := prog.drained + prog.queue, [];
    }

    /** The same weather, in which the server hands out an unused UUID. */
    method Meet(w: Weather) returns (r: Weather)
      ensures Unused(prog.pol.bgp.server, r) && WithdrawIn(r) == WithdrawIn(w)
    {
      r := w;
      if w.adds.Added? {
        UnusedUuid(prog.pol.bgp.server.Keys);
        var id: Uuid :| id !in prog.pol.bgp.server;
        r := w.(adds := Added(id));
      }
    }

    /** Several events were performed at once. */
    ghost method Note(evs: seq<Event>, was: State)
      requires prog.Valid() && Reaches(EMPTY, trace, was) && Reaches(was, evs, prog.Abs())
      modifies this`trace
      ensures Sound() && trace == old(trace) + evs
    {
      hide Reaches, Objects.Program.Valid, Objects.Program.Abs;
      ReachesConcat(EMPTY, trace, was, evs, prog.Abs());
      trace := trace + evs;
    }

    /** A check runs, or a callback is delivered. */
    method PerformCheck(ev: Event, w: Weather, w2: Weather) returns (ghost b: Bgp, ghost b2: Bgp)
      requires prog.Valid() && Enabled(prog.Abs(), ev) && BothUnused(prog.pol.bgp.server, w, w2)
        && (ev.Run? || ev.DeliverResult? || ev.DeliverTransition?)
      modifies prog, prog.reg, prog.pol, prog.pol.bgp
      ensures prog.Valid() && Enabled(old(prog.Abs()), Answered(ev, b, b2))
        && prog.Abs() == Step(old(prog.Abs()), Answered(ev, b, b2))
    {
      hide Core, StepResult, StepTransition, StepCommit, StepReport, StepDrop, StepRemove, StepAdd, StepStage,
        StepCommitNow,
        ValidVip, ChangedNames, RemovedNames, BuiltFor, Quiet, ShadowIds, System.Ids, Picked, IsNew, CommitQuiet,
          Completes, DeadlineFor, AfterRun, Visible,
        Objects.AllKnown, Objects.Listed, Objects.Marked, Registry.WellListed, Exact, NoRepeats, RoutesOf;
      b, b2 := Done, Done;
      match ev {
        case Run(id, success) =>
          RunKeeps(prog.scheds[id], success);
          prog.Record(id, AfterRun(prog.scheds[id], success));
        case DeliverResult(id, seen, _, _) => b, b2 := prog.DeliverResult(id, seen, w, w2);
        case DeliverTransition(id, seen, _) => b := prog.DeliverTransition(id, seen, w);
      }
    }

    /** Perform one event on the objects. */
    method Perform(ev: Event, w: Weather, w2: Weather) returns (ghost b: Bgp, ghost b2: Bgp)
      requires prog.Valid() && Core(prog.Abs()) && Enabled(prog.Abs(), ev) && BothUnused(prog.pol.bgp.server, w, w2)
      modifies prog, prog.reg, prog.pol, prog.pol.bgp
      ensures prog.Valid() && Enabled(old(prog.Abs()), Answered(ev, b, b2))
        && prog.Abs() == Step(old(prog.Abs()), Answered(ev, b, b2))
    {
      hide Core, StepResult, StepTransition, StepCommit, StepReport, StepDrop, StepRemove, StepAdd, StepStage,
        StepCommitNow,
        ValidVip, ChangedNames, RemovedNames, BuiltFor, Quiet, ShadowIds, System.Ids, Picked, IsNew, CommitQuiet,
          Completes, DeadlineFor, AfterRun, Visible,
        Objects.Program.Valid, Objects.Program.Abs, WithdrawIn;
      b, b2 := Done, Done;
      match ev {
        case Build(news) => Build(news);
        case CloseBuilt(ids) => CloseUnused(ids);
        case DropStaging => Drop();
        case RemoveVip(n, _) =>
          var ok := Remove(n, w);
          b := WithdrawIn(w);
        case AddVip(v, ids, seen) => Add(v, ids, seen);
        case CommitNow(v, seen, _) => b := CommitAtOnce(v, seen, w);
        case Stage(v, ids, at) =>
          VipsAre(prog);
          var was := prog.pol.vips[v.name].cfg;
          StageChange(v, ids, at, Staged(v, was, ids, {}, RemovedNames(was, v), at, DeadlineFor(at, was, v)));
        case DrainQueue => Drain();
        case Report(seen, _) =>
          RecordsAre(prog);
          b := Consume(seen, w);
        case Expire(n, _, seen, _) =>
          RecordsAre(prog);
          b := CommitStaged(n, seen, w);
        case _ => b, b2 := PerformCheck(ev, w, w2);
      }
    }

    /** One more event, harmless by itself: the objects still are where the run leads. */
    method Act(ev: Event, w: Weather, w2: Weather)
      requires Sound() && Enabled(prog.Abs(), ev) && Benign(prog.Abs(), ev) && BothUnused(prog.pol.bgp.server, w, w2)
      modifies this, prog, prog.reg, prog.pol, prog.pol.bgp
      ensures Sound()
      ensures exists b, b2 ::
        trace == old(trace) + [Answered(ev, b, b2)] && Enabled(old(prog.Abs()), Answered(ev, b, b2))
        && prog.Abs() == Step(old(prog.Abs()), Answered(ev, b, b2))
    {
      hide Core, Step, Enabled, Benign, Reaches, Objects.Program.Valid, Objects.Program.Abs;
      ghost var s := prog.Abs();
      EmptyIsCore();
      RunKeepsCore(EMPTY, trace, s);
      ghost var b, b2;
      b, b2 := Perform(ev, w, w2);
      AnsweredEnabled(s, ev, b, b2);
      ReachesMore(EMPTY, trace, s, Answered(ev, b, b2));
      trace := trace + [Answered(ev, b, b2)];
    }
  }

  /**
    Of the objects at any time: once nothing is pending and nothing undelivered for a VIP, the
    originator holds exactly the route its check histories call for, and the registry lists
    exactly the schedulers of the definition the policy manager holds.
   */
  lemma {:induction false} ObjectsFollowHistories(node: Node, n: string)
    requires node.Sound() && n in node.prog.pol.vips
    ensures Governed(node.prog.Abs(), n)
    ensures Settled(node.prog.Abs(), n) ==>
      node.prog.pol.Route(node.prog.pol.vips[n].cfg.prefix) == ExpectedRoute(node.prog.Abs(), n)
    ensures Objects.Numbers(Registry.At(node.prog.reg.visible, n)).Keys == node.prog.pol.vips[n].cfg.Checks().Keys
  {
    hide Reaches, VipsOk, Visible, Governed, Settled, ExpectedRoute, Objects.AllKnown, Objects.Listed, Objects.Marked,
      Objects.Numbers, Registry.WellListed, Exact, NoRepeats, RoutesOf;
    var s := node.prog.Abs();
    EmptyIsCore();
    RunKeepsCore(EMPTY, node.trace, s);
    RoutesFollowHistories(node.trace, s, n);
    Objects.SameRoute(s, s.vips[n].cfg.prefix);
    Objects.VisibleIs(s, node.prog.reg.visible, n);
    VisibleKeys(s, n);
  }

  /**
    Of the objects at any time: a VIP with nothing pending has the route its health, drain flag and
    configuration call for, and the BGP server holds exactly the path that spells it, or none.
   */
  lemma {:induction false} WireServes(node: Node, n: string)
    requires node.Sound() && n in node.prog.pol.vips && !node.prog.pol.vips[n].pending
    ensures var pol := node.prog.pol; var e := pol.vips[n]; var bgp := pol.bgp;
      && Serves(e.cfg.routing, e.health, e.drained, pol.Route(e.cfg.prefix))
      && (forall id :: id in bgp.server && bgp.server[id].prefix == e.cfg.prefix ==>
           && pol.Route(e.cfg.prefix).Some? && bgp.installed[e.cfg.prefix] == id
           && Spells(bgp.server[id], bgp.asn, bgp.asn in bgp.peers, e.cfg.prefix, pol.Route(e.cfg.prefix).value))
      && (pol.Route(e.cfg.prefix).Some? ==> exists id :: id in bgp.server && bgp.server[id].prefix == e.cfg.prefix)
  {
    hide Reaches, Serves, Spells, Objects.AllKnown, Objects.Listed, Objects.Marked, Registry.WellListed, NoRepeats,
      PathFor;
    var s, pol := node.prog.Abs(), node.prog.pol;
    var e, bgp := pol.vips[n], pol.bgp;
    RouteServes(node.trace, s, n);
    Objects.SameRoute(s, e.cfg.prefix);
    forall id | id in bgp.server && bgp.server[id].prefix == e.cfg.prefix
      ensures Spells(bgp.server[id], bgp.asn, bgp.asn in bgp.peers, e.cfg.prefix, bgp.server[id].attrs)
    {
      PathSpells(bgp.asn, bgp.asn in bgp.peers, e.cfg.prefix, bgp.server[id].attrs);
    }
  }

  lemma {:induction false} StagingFits(s: State, n: string)
    requires Core(s) && n in s.staging
    ensures Fits(s, s.staging[n].cfg, s.staging[n].shadows, s.staging[n].removed) && ValidVip(s.staging[n].cfg)
      && s.staging[n].cfg.name == n
  {
    hide VipsOk, IdsOk, RoutesOwned, QueueOk, Fits, ValidVip, StagedOk;
    StagedHere(s, n);
    StagedFits(s, n);
  }

  /** More schedulers that do not run. */
  lemma {:induction false} MoreKnown(scheds: map<Id, Sched>, news: map<Id, Sched>,
                                     visible: map<string, seq<Registry.Handle>>, running: map<Registry.Handle, bool>)
    requires Objects.AllKnown(scheds, visible, running) && news.Keys !! scheds.Keys
    ensures Objects.AllKnown(scheds + news, visible, running)
      && Objects.Marked(running, scheds + news) == Objects.Marked(running, scheds)
  {
    assert forall h :: Objects.Known(scheds, h) ==> Objects.Known(scheds + news, h);
    forall id | id in news
      ensures Objects.HandleOf(id, news[id]) !in running
    {
      assert !Objects.Known(scheds, Objects.HandleOf(id, news[id]));
    }
  }

  lemma RunKeeps(sc: Sched, success: bool)
    ensures AfterRun(sc, success).vip == sc.vip && AfterRun(sc, success).check == sc.check
  {
  }

  /** The records are part of the state. */
  lemma RecordsAre(prog: Objects.Program)
    requires prog.Valid()
    ensures prog.staging == prog.Abs().staging && prog.drained == prog.Abs().drained && prog.queue == prog.Abs().queue
  {
    hide Objects.AllKnown, Objects.Listed, Objects.Marked, Registry.WellListed, Exact, NoRepeats, RoutesOf;
  }

  lemma VipsAre(prog: Objects.Program)
    requires prog.Valid()
    ensures prog.pol.vips == prog.Abs().vips
  {
    hide Objects.AllKnown, Objects.Listed, Objects.Marked, Registry.WellListed, Exact, NoRepeats, RoutesOf;
  }

  lemma {:induction false} UnusedUuid(ids: set<Uuid>)
    ensures exists id: Uuid :: id !in ids
  {
    var id := Beyond(ids);
    assert id !in ids;
  }

  lemma {:induction false} Beyond(ids: set<Uuid>) returns (id: Uuid)
    ensures forall x :: x in ids ==> x < id
    decreases |ids|
  {
    if ids == {} {
      id := 0;
    } else {
      var x :| x in ids;
      var y := Beyond(ids - {x});
      id := if x < y then y else x + 1;
      assert forall z :: z in ids ==> z == x || z in ids - {x};
    }
  }

  lemma FreshName(s: State, visible: map<string, seq<Registry.Handle>>, v: Vip)
    requires Core(s) && s.visible == Objects.Listed(visible) && v.name !in s.vips && ValidVip(v)
    ensures v.name !in visible && DistinctNames(v.CheckList())
  {
    hide IdsOk, RoutesOwned, QueueOk, VipOk, Objects.Numbers;
  }
}
