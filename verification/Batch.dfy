/**
  A batch of reloader events about different VIPs. Each event touches its own VIP only, so a
  batch that is ready event by event in the state it starts from runs to its end, and its
  outcome can be read off VIP by VIP.
 */
module Batch {
  import opened Config
  import opened Policy
  import opened System
  import opened Safety
  import opened ReloadSafety
  import opened CommitSafety
  import opened Runs

  /** The definition that governs a VIP, and its staging. */
  function Def(s: State, n: string): Option<Vip> { if n in s.vips then Some(s.vips[n].cfg) else None }
  function StagedAt(s: State, n: string): Option<Staged> { if n in s.staging then Some(s.staging[n]) else None }

  /** The event is about VIP `n`. */
  predicate About(s: State, ev: Event, n: string) {
    match ev
    case RemoveVip(m, _) => m == n
    case AddVip(v, _, _) => v.name == n
    case CommitNow(v, _, _) => v.name == n
    case Stage(v, _, _) => v.name == n
    case CloseBuilt(unused) => forall id :: id in unused && id in s.scheds ==> s.scheds[id].vip == n
    case _ => false
  }

  /** Nothing about VIP `m` differs between the two states. */
  predicate Apart(s: State, t: State, m: string) {
    && SameScheds(s, t, m)
    && SameBuilt(s, t, m)
    && Def(s, m) == Def(t, m) && StagedAt(s, m) == StagedAt(t, m)
    && (m in s.vips ==> m in s.visible ==> SameVip(s, t, m))
  }

  lemma {:induction false} Others(s: State, ev: Event, n: string, m: string)
    requires Core(s) && Enabled(s, ev) && About(s, ev, n) && m != n
    ensures Apart(s, Step(s, ev), m)
  {
    hide Core, SameVip, ValidVip, Quiet, BuiltFor;
    var t := Step(s, ev);
    match ev
    case RemoveVip(_, b) =>
      assert Removable(s, n);
      OthersRemove(s, n, b, m);
    case AddVip(v, ids, seen) => OthersAdd(s, v, ids, seen, m);
    case CommitNow(v, seen, b) => OthersNow(s, v, seen, b, m);
    case Stage(v, ids, at) => OthersStage(s, v, ids, at, m);
    case CloseBuilt(unused) => OthersClose(s, unused, n, m);
  }

  predicate SameBuilt(s: State, t: State, m: string) {
    forall id :: id in s.scheds && s.scheds[id].vip == m ==> (id in s.built <==> id in t.built)
  }

  lemma ApartKnown(s: State, t: State, m: string)
    requires SameVip(s, t, m) && SameBuilt(s, t, m)
    ensures Apart(s, t, m)
  {
    hide SameScheds;
  }

  lemma ApartUnknown(s: State, t: State, m: string)
    requires m !in s.vips && m !in t.vips && SameScheds(s, t, m) && SameBuilt(s, t, m)
      && StagedAt(s, m) == StagedAt(t, m)
    ensures Apart(s, t, m)
  {
    hide SameScheds, SameVip;
  }

  lemma {:induction false} OthersRemove(s: State, n: string, b: Bgp, m: string)
    requires Core(s) && Removable(s, n) && m != n
    ensures Apart(s, StepRemove(s, n, b), m)
  {
    hide VipsOk, IdsOk, QueueOk, RoutesOwned, Quiet, SameVip, Apart, SameScheds;
    var t := StepRemove(s, n, b);
    VisibleKeys(s);
    RemoveScheds(s, n, b, m);
    if m !in s.vips {
      ApartUnknown(s, t, m);
    } else {
      if RemovalFails(s, n, b) { SameButLog(s, t, m); } else { RemoveFrame(s, n, b, m); }
      ApartKnown(s, t, m);
    }
  }

  lemma {:induction false} RemoveScheds(s: State, n: string, b: Bgp, m: string)
    requires VipsOk(s) && n in s.vips && m != n
    ensures SameScheds(s, StepRemove(s, n, b), m)
  {
    hide VipsOk, Visible;
    VisibleRun(s, n);
  }

  lemma SameButLog(s: State, t: State, m: string)
    requires t == s.(log := t.log) && m in s.vips && m in s.visible
    ensures SameVip(s, t, m)
  {
  }

  lemma {:induction false} OthersAdd(s: State, v: Vip, ids: map<string, Id>, seen: bool, m: string)
    requires Core(s) && Enabled(s, AddVip(v, ids, seen)) && m != v.name
    ensures Apart(s, StepAdd(s, v, ids, seen), m)
  {
    hide VipsOk, IdsOk, QueueOk, RoutesOwned, ValidVip, NewEntry, BuiltFor, IsNew, SameVip, Apart, SameScheds,
      SameBuilt;
    var t := StepAdd(s, v, ids, seen);
    VisibleKeys(s);
    AddScheds(s, v, ids, seen, m);
    if m !in s.vips {
      ApartUnknown(s, t, m);
    } else {
      AddFrame(s, v, ids, seen, m);
      ApartKnown(s, t, m);
    }
  }

  lemma {:induction false} AddScheds(s: State, v: Vip, ids: map<string, Id>, seen: bool, m: string)
    requires BuiltFor(s, v, ids) && m != v.name
    ensures SameScheds(s, StepAdd(s, v, ids, seen), m) && SameBuilt(s, StepAdd(s, v, ids, seen), m)
  {
    hide BuiltFor, NewEntry, IsNew;
    BuiltIs(s, v, ids);
  }

  lemma {:induction false} OthersStage(s: State, v: Vip, ids: map<string, Id>, at: nat, m: string)
    requires Core(s) && Enabled(s, Stage(v, ids, at)) && m != v.name
    ensures Apart(s, StepStage(s, v, ids, at), m)
  {
    hide VipsOk, IdsOk, QueueOk, RoutesOwned, ValidVip, BuiltFor, IsNew, ChangedNames, RemovedNames, DeadlineFor;
    BuiltIs(s, v, ids);
  }

  lemma {:induction false} OthersClose(s: State, unused: set<Id>, n: string, m: string)
    requires Enabled(s, CloseBuilt(unused)) && About(s, CloseBuilt(unused), n) && m != n
    ensures Apart(s, Step(s, CloseBuilt(unused)), m)
  {
  }

  /** The facts about an immediate commit that the switch lemmas ask for. */
  lemma {:induction false} NowFits(s: State, v: Vip, seen: bool, b: Bgp)
    requires Core(s) && Enabled(s, CommitNow(v, seen, b))
    ensures var removed := RemovedNames(s.vips[v.name].cfg, v); var none: map<string, Id> := map[];
      && VipsOk(s) && RoutesOwned(s.vips, s.routes) && Fits(s, v, none, removed)
      && Committable(s.vips[v.name], v, Seeds(s.scheds, none))
      && s.(staging := s.staging - {v.name}) == s && Step(s, CommitNow(v, seen, b)) ==
         Switched(s, v, none, removed, seen, b)
  {
    hide VipsOk, IdsOk, QueueOk, RoutesOwned, Switch, Quiet, ValidVip, Committable, ChangedNames, RemovedNames,
      EntryOk, RouteOk;
    var removed := RemovedNames(s.vips[v.name].cfg, v);
    var none: map<string, Id> := map[];
    assert s.staging - {v.name} == s.staging;
    NameHere(s, v.name);
    EntryHere(s, v.name);
    assert Fits(s, v, none, removed);
    NeverRefused(s, v, none, removed);
  }

  lemma {:induction false} OthersNow(s: State, v: Vip, seen: bool, b: Bgp, m: string)
    requires Core(s) && Enabled(s, CommitNow(v, seen, b)) && m != v.name
    ensures Apart(s, StepCommitNow(s, v, seen, b), m)
  {
    hide Core, VipsOk, RoutesOwned, Switch, Quiet, ValidVip, Committable, ChangedNames, RemovedNames, Commit, Fits,
      Switched, Seeds, StepCommitNow, SameVip, Apart, SameScheds, SameBuilt;
    var t := StepCommitNow(s, v, seen, b);
    NowFits(s, v, seen, b);
    var removed := RemovedNames(s.vips[v.name].cfg, v);
    var none: map<string, Id> := map[];
    SwitchedIs(s, v, none, removed, seen, b);
    SwitchScheds(s, v, removed, seen, b, m);
    VisibleKeys(s);
    if m !in s.vips {
      ApartUnknown(s, t, m);
    } else {
      SwitchFrame(s, v, none, removed, seen, b, m);
      ApartKnown(s, t, m);
    }
  }

  lemma {:induction false} SwitchScheds(s: State, v: Vip, removed: set<string>, seen: bool, b: Bgp, m: string)
    requires VipsOk(s) && v.name in s.vips && m != v.name && Committable(s.vips[v.name], v, Seeds(s.scheds, map[]))
    ensures var t := Switched(s, v, map[], removed, seen, b); SameScheds(s, t, m) && SameBuilt(s, t, m)
  {
    hide VipsOk, Committable, Seeds, Switched, Commit, Visible;
    var none: map<string, Id> := map[];
    SwitchedIs(s, v, none, removed, seen, b);
    RetiredRun(s, v.name, removed + none.Keys);
  }

  // ------------------------------------------------------------------
  // The outcome for the VIP itself
  // ------------------------------------------------------------------

  function DefAfter(s: State, ev: Event, n: string): Option<Vip> {
    match ev
    case RemoveVip(_, b) => if RemovalFails(s, n, b) then Def(s, n) else None
    case AddVip(v, _, _) => Some(v)
    case CommitNow(v, _, _) => Some(v)
    case _ => Def(s, n)
  }

  function StagedAfter(s: State, ev: Event, n: string): Option<Staged> {
    match ev
    case Stage(v, ids, at) =>
      if n in s.vips
        then Some(Staged(v, s.vips[n].cfg, ids, {}, RemovedNames(s.vips[n].cfg, v), at,
        DeadlineFor(at, s.vips[n].cfg, v))) else None
    case _ => StagedAt(s, n)
  }

  /** The built schedulers an event takes over. */
  function Taken(ev: Event): set<Id> {
    match ev
    case AddVip(_, ids, _) => Ids(ids)
    case Stage(_, ids, _) => Ids(ids)
    case CloseBuilt(unused) => unused
    case _ => {}
  }

  lemma {:induction false} Own(s: State, ev: Event, n: string)
    requires Core(s) && Enabled(s, ev) && About(s, ev, n)
    ensures var t := Step(s, ev);
      Def(t, n) == DefAfter(s, ev, n) && StagedAt(t, n) == StagedAfter(s, ev, n) && t.built == s.built - Taken(ev)
  {
    hide Core, ValidVip, Quiet, BuiltFor, RemovedNames, ChangedNames, Switch, DeadlineFor, Ids,
      StepRemove, StepAdd, StepStage, StepCommitNow, RemovalFails, Visible, Picked;
    match ev
    case RemoveVip(_, b) => OwnRemove(s, n, b);
    case AddVip(v, ids, seen) => OwnAdd(s, v, ids, seen);
    case CommitNow(v, seen, b) => OwnNow(s, v, seen, b);
    case Stage(v, ids, at) => OwnStage(s, v, ids, at);
    case CloseBuilt(_) =>
  }

  lemma OwnRemove(s: State, n: string, b: Bgp)
    requires n in s.vips
    ensures var t := StepRemove(s, n, b);
      Def(t, n) == (if RemovalFails(s, n, b) then Def(s, n) else None) && t.staging == s.staging && t.built == s.built
  {
    hide Ids, Visible;
  }

  lemma OwnAdd(s: State, v: Vip, ids: map<string, Id>, seen: bool)
    ensures var t := StepAdd(s, v, ids, seen);
      Def(t, v.name) == Some(v) && t.staging == s.staging && t.built == s.built - Ids(ids)
  {
    hide Ids, Mark, Enlist, Names;
  }

  lemma OwnStage(s: State, v: Vip, ids: map<string, Id>, at: nat)
    requires v.name in s.vips
    ensures var t := StepStage(s, v, ids, at);
      && Def(t, v.name) == Def(s, v.name) && t.built == s.built - Ids(ids)
      && StagedAt(t, v.name) ==
         Some(Staged(v, s.vips[v.name].cfg, ids, {}, RemovedNames(s.vips[v.name].cfg, v), at,
         DeadlineFor(at, s.vips[v.name].cfg, v)))
  {
    hide Ids, Mark, RemovedNames, DeadlineFor;
  }

  lemma {:induction false} OwnNow(s: State, v: Vip, seen: bool, b: Bgp)
    requires Core(s) && Enabled(s, CommitNow(v, seen, b))
    ensures var t := Step(s, CommitNow(v, seen, b));
      v.name in t.vips && t.vips[v.name].cfg == v && t.staging == s.staging && t.built == s.built
  {
    hide Core, VipsOk, RoutesOwned, Switch, Quiet, ValidVip, Committable, ChangedNames, RemovedNames, Commit, Fits,
      Switched, Seeds, StepCommitNow;
    NowFits(s, v, seen, b);
    var none: map<string, Id> := map[];
    SwitchedIs(s, v, none, RemovedNames(s.vips[v.name].cfg, v), seen, b);
    var e := s.vips[v.name];
    CommitCfg(e, RouteAt(s, e.cfg.prefix), v, Seeds(s.scheds, none), seen, b);
  }

  predicate Ready(s: State, ev: Event) {
    Enabled(s, ev) && Benign(s, ev)
  }

  /** An event that is ready stays ready while only other VIPs change; an addition also needs its prefix left alone. */
  lemma {:induction false} StaysReady(s: State, t: State, ev: Event, n: string)
    requires Core(s) && Core(t) && Ready(s, ev) && About(s, ev, n) && Apart(s, t, n)
    requires ev.AddVip? ==> PrefixFree(t, ev.v)
    ensures Ready(t, ev) && About(t, ev, n)
    ensures DefAfter(t, ev, n) == DefAfter(s, ev, n) && StagedAfter(t, ev, n) == StagedAfter(s, ev, n)
  {
    hide Core, SameVip, ValidVip, Quiet, BuiltFor, RemovedNames, ChangedNames, DeadlineFor, KeepsKnown, LeavesNoOrphan,
      PrefixFree;
    if n in s.vips { assert SameVip(s, t, n) by { InVisible(s, n); } }
    match ev
    case RemoveVip(_, b) => ReadyRemove(s, t, n, b);
    case AddVip(v, ids, seen) => ReadyBuilt(s, t, v, ids);
    case CommitNow(v, seen, b) => ReadyNow(s, t, v, seen, b);
    case Stage(v, ids, at) =>
      ReadyBuilt(s, t, v, ids);
      ReadyStage(s, t, n);
    case CloseBuilt(unused) => ReadyClose(s, t, unused, n);
  }

  lemma InVisible(s: State, n: string)
    requires Core(s) && n in s.vips
    ensures n in s.visible
  {
    hide VipOk, IdsOk, QueueOk, RoutesOwned;
  }

  lemma {:induction false} ReadyRemove(s: State, t: State, n: string, b: Bgp)
    requires Core(s) && Ready(s, RemoveVip(n, b)) && SameVip(s, t, n)
    ensures Ready(t, RemoveVip(n, b)) && RemovalFails(t, n, b) == RemovalFails(s, n, b)
  {
    hide VipsOk, IdsOk, QueueOk, RoutesOwned;
    VisibleRun(s, n);
  }

  lemma {:induction false} ReadyBuilt(s: State, t: State, v: Vip, ids: map<string, Id>)
    requires BuiltFor(s, v, ids) && SameScheds(s, t, v.name) && SameBuilt(s, t, v.name)
    ensures BuiltFor(t, v, ids)
  {
    hide IsNew;
    forall c | c in ids
      ensures ids[c] in t.built && ids[c] in t.scheds && IsNew(t.scheds[ids[c]]) && Governs(t.scheds[ids[c]], v, c)
    {
      assert Governs(s.scheds[ids[c]], v, c);
    }
  }

  lemma ReadyStage(s: State, t: State, n: string)
    requires SameVip(s, t, n)
    ensures n in t.vips && t.vips[n] == s.vips[n] && (n in t.staging <==> n in s.staging)
  {
  }

  lemma {:induction false} ReadyNow(s: State, t: State, v: Vip, seen: bool, b: Bgp)
    requires Core(s) && Ready(s, CommitNow(v, seen, b)) && SameVip(s, t, v.name)
    ensures Ready(t, CommitNow(v, seen, b))
  {
    hide VipsOk, IdsOk, QueueOk, RoutesOwned, ValidVip, ChangedNames, RemovedNames, KeepsKnown, SameScheds;
    QuietStays(s, t, v.name, RemovedNames(s.vips[v.name].cfg, v));
    KnownStays(s, t, v);
  }

  lemma {:induction false} QuietStays(s: State, t: State, n: string, names: set<string>)
    requires VipsOk(s) && SameVip(s, t, n) && Quiet(s, Picked(Visible(s, n), names))
    ensures Quiet(t, Picked(Visible(t, n), names))
  {
    hide VipsOk;
    RetiredRun(s, n, names);
  }

  lemma KnownStays(s: State, t: State, v: Vip)
    requires v.name in s.vips && v.name in t.vips && s.vips[v.name] == t.vips[v.name]
    ensures KeepsKnown(s, v, map[]) == KeepsKnown(t, v, map[])
  {
    hide Merged, NoneKnown;
    var none: map<string, Id> := map[];
    assert Seeds(s.scheds, none) == Seeds(t.scheds, none);
  }

  lemma {:induction false} ReadyClose(s: State, t: State, unused: set<Id>, n: string)
    requires Core(s) && Ready(s, CloseBuilt(unused)) && About(s, CloseBuilt(unused), n) && SameScheds(s, t, n)
      && SameBuilt(s, t, n)
    ensures Ready(t, CloseBuilt(unused)) && About(t, CloseBuilt(unused), n)
  {
    hide VipsOk, QueueOk, RoutesOwned;
    assert NoStrays(s);
  }

  // ------------------------------------------------------------------
  // The whole batch
  // ------------------------------------------------------------------

  /** Event `i` is about VIP `names[i]`, and these are pairwise different. */
  predicate IsBatch(s: State, evs: seq<Event>, names: seq<string>) {
    && |evs| == |names|
    && (forall i :: 0 <= i < |evs| ==> About(s, evs[i], names[i]))
    && (forall i, j :: 0 <= i < j < |names| ==> names[i] != names[j])
  }

  /** No two VIPs of the batch are added on the same prefix. */
  predicate NewPrefixes(evs: seq<Event>) {
    forall i, j :: 0 <= i < j < |evs| && evs[i].AddVip? && evs[j].AddVip? ==> evs[i].v.prefix != evs[j].v.prefix
  }

  predicate AllReady(s: State, evs: seq<Event>) {
    forall i :: 0 <= i < |evs| ==> Ready(s, evs[i])
  }

  ghost predicate Runnable(s: State, evs: seq<Event>)
    decreases |evs|
  {
    evs == [] || (Ready(s, evs[0]) && Runnable(Step(s, evs[0]), evs[1..]))
  }

  ghost function Play(s: State, evs: seq<Event>): State
    requires Runnable(s, evs)
    decreases |evs|
  {
    if evs == [] then s else Play(Step(s, evs[0]), evs[1..])
  }

  /** The state after the events, if they can happen. */
  ghost function Played(s: State, evs: seq<Event>): State { if Runnable(s, evs) then Play(s, evs) else s }

  lemma {:induction false} PlayReaches(s: State, evs: seq<Event>)
    requires Runnable(s, evs)
    ensures Reaches(s, evs, Play(s, evs))
    decreases |evs|
  {
    hide Step, Enabled, Benign;
    if evs != [] {
      PlayReaches(Step(s, evs[0]), evs[1..]);
    }
  }

  lemma {:induction false} PlayConcat(s: State, a: seq<Event>, b: seq<Event>)
    requires Runnable(s, a) && Runnable(Play(s, a), b)
    ensures Runnable(s, a + b) && Play(s, a + b) == Play(Play(s, a), b)
    decreases |a|
  {
    hide Step, Enabled, Benign;
    if a == [] {
      assert a + b == b;
    } else {
      assert (a + b)[0] == a[0] && (a + b)[1..] == a[1..] + b;
      PlayConcat(Step(s, a[0]), a[1..], b);
    }
  }

  lemma {:induction false} PlaySplit(s: State, a: seq<Event>, b: seq<Event>)
    requires Runnable(s, a + b)
    ensures Runnable(s, a) && Runnable(Play(s, a), b) && Play(s, a + b) == Play(Play(s, a), b)
    decreases |a|
  {
    hide Step, Enabled, Benign;
    if a == [] {
      assert a + b == b;
    } else {
      assert (a + b)[0] == a[0] && (a + b)[1..] == a[1..] + b;
      PlaySplit(Step(s, a[0]), a[1..], b);
    }
  }

  lemma {:induction false} PlayStep(s: State, evs: seq<Event>, i: nat)
    requires Runnable(s, evs) && i < |evs|
    ensures Runnable(s, evs[..i]) && Ready(Play(s, evs[..i]), evs[i])
    ensures Runnable(s, evs[..i + 1]) && Play(s, evs[..i + 1]) == Step(Play(s, evs[..i]), evs[i])
  {
    hide Step, Enabled, Benign;
    assert evs == evs[..i] + evs[i..];
    PlaySplit(s, evs[..i], evs[i..]);
    var t := Play(s, evs[..i]);
    PlayOne(t, evs[i]);
    PlayConcat(s, evs[..i], [evs[i]]);
    assert evs[..i + 1] == evs[..i] + [evs[i]];
  }

  lemma PlayOne(s: State, ev: Event)
    requires Ready(s, ev)
    ensures Runnable(s, [ev]) && Play(s, [ev]) == Step(s, ev)
  {
    hide Step, Enabled, Benign;
    assert [ev][1..] == [];
    assert Runnable(Step(s, ev), []) && Play(Step(s, ev), []) == Step(s, ev);
  }

  lemma PlayNone(s: State, evs: seq<Event>)
    ensures Runnable(s, evs[..0]) && Play(s, evs[..0]) == s
  {
  }

  /** What the batch does to VIP `m`. */
  predicate Outcome(s: State, t: State, evs: seq<Event>, names: seq<string>, m: string)
    requires |evs| == |names|
  {
    && (m !in names ==> Apart(s, t, m))
    && (forall i :: 0 <= i < |names| && names[i] == m ==>
      Def(t, m) == DefAfter(s, evs[i], m) && StagedAt(t, m) == StagedAfter(s, evs[i], m))
  }

  lemma ApartSelf(s: State, m: string)
    ensures Apart(s, s, m)
  {
  }

  lemma NoEvents(s: State, evs: seq<Event>, names: seq<string>, m: string)
    requires evs == [] && names == []
    ensures Outcome(s, s, evs, names, m)
  {
    hide SameScheds, SameVip, SameBuilt;
    ApartSelf(s, m);
  }

  lemma ApartTrans(s: State, s1: State, t: State, m: string)
    requires Apart(s, s1, m) && Apart(s1, t, m)
    ensures Apart(s, t, m)
  {
  }

  lemma {:induction false} FirstStep(s: State, ev: Event, n: string)
    requires Core(s) && Ready(s, ev) && About(s, ev, n)
    ensures var t := Step(s, ev);
      && Core(t) && (forall m :: m != n ==> Apart(s, t, m))
      && Def(t, n) == DefAfter(s, ev, n) && StagedAt(t, n) == StagedAfter(s, ev, n) && t.built == s.built - Taken(ev)
      && (forall id :: id in t.built ==> SameSched(s, t, id))
  {
    hide Core, Enabled, Benign, Apart, About, Def, DefAfter, StagedAt, StagedAfter, Step, Taken, SameSched;
    StepKeepsIff(s, ev);
    Own(s, ev, n);
    forall id | id in Step(s, ev).built
      ensures SameSched(s, Step(s, ev), id)
    {
      BuiltUntouched(s, ev, n, id);
    }
    forall m | m != n
      ensures Apart(s, Step(s, ev), m)
    {
      Others(s, ev, n, m);
    }
  }

  /** A prefix that is free stays free when another VIP changes. */
  lemma {:induction false} StillFree(s: State, ev: Event, n: string, add: Event)
    requires Core(s) && Ready(s, ev) && About(s, ev, n) && add.AddVip? && PrefixFree(s, add.v)
    requires ev.AddVip? ==> ev.v.prefix != add.v.prefix
    ensures PrefixFree(Step(s, ev), add.v)
  {
    hide Core, Step, ValidVip, BuiltFor, Quiet, ChangedNames, RemovedNames, SameScheds, SameVip, SameBuilt,
      DeadlineFor, KeepsKnown;
    var t := Step(s, ev);
    FirstStep(s, ev, n);
    forall m | m in t.vips
      ensures t.vips[m].cfg.prefix != add.v.prefix
    {
      if m != n { assert Apart(s, t, m); }
    }
  }

  lemma ReadyFree(s: State, add: Event)
    requires Ready(s, add) && add.AddVip?
    ensures PrefixFree(s, add.v)
  {
    hide PrefixFree, BuiltFor, ValidVip;
  }

  lemma {:induction false} BatchOutcome(s: State, s1: State, t: State, evs: seq<Event>, names: seq<string>, m: string)
    requires |evs| == |names| && evs != [] && (forall i, j :: 0 <= i < j < |names| ==> names[i] != names[j])
    requires m != names[0] ==> Apart(s, s1, m)
    requires m == names[0] ==> Def(s1, m) == DefAfter(s, evs[0], m) && StagedAt(s1, m) == StagedAfter(s, evs[0], m)
    requires forall i :: 0 < i < |evs| ==>
      DefAfter(s1, evs[i], names[i]) == DefAfter(s, evs[i], names[i])
        && StagedAfter(s1, evs[i], names[i]) == StagedAfter(s, evs[i], names[i])
    requires Outcome(s1, t, evs[1..], names[1..], m)
    ensures Outcome(s, t, evs, names, m)
  {
    hide DefAfter, StagedAfter, SameScheds, SameVip, SameBuilt;
    assert forall i :: 0 < i < |names| ==> names[i] == names[1..][i - 1] && evs[i] == evs[1..][i - 1];
    assert names == [names[0]] + names[1..];
    if m !in names {
      ApartTrans(s, s1, t, m);
    } else if m == names[0] {
      assert m !in names[1..];
    }
  }

  predicate Untaken(evs: seq<Event>, id: Id) {
    forall i :: 0 <= i < |evs| ==> id !in Taken(evs[i])
  }

  lemma UntakenSplit(evs: seq<Event>, id: Id)
    requires evs != []
    ensures Untaken(evs, id) <==> id !in Taken(evs[0]) && Untaken(evs[1..], id)
  {
    hide Taken;
    assert evs == [evs[0]] + evs[1..];
    if Untaken(evs, id) {
      forall i | 0 <= i < |evs[1..]|
        ensures id !in Taken(evs[1..][i])
      {
        assert evs[1..][i] == evs[i + 1];
      }
    }
    if id !in Taken(evs[0]) && Untaken(evs[1..], id) {
      forall i | 0 <= i < |evs|
        ensures id !in Taken(evs[i])
      {
        if i > 0 { assert evs[i] == evs[1..][i - 1]; }
      }
    }
  }

  lemma BuiltKnown(s: State, evs: seq<Event>)
    requires Core(s) && evs == []
    ensures forall id :: id in s.built ==> SameSched(s, s, id)
    ensures forall id :: Untaken(evs, id)
  {
    hide VipsOk, QueueOk, RoutesOwned, IdOk;
    assert NoStrays(s);
  }

  predicate SameSched(s: State, t: State, id: Id) {
    id in s.scheds && id in t.scheds && s.scheds[id] == t.scheds[id]
  }

  /** Schedulers that wait to be handed over are not touched. */
  lemma {:induction false} BuiltUntouched(s: State, ev: Event, n: string, id: Id)
    requires Core(s) && Enabled(s, ev) && About(s, ev, n) && id in s.built && id !in Taken(ev)
    ensures SameSched(s, Step(s, ev), id)
  {
    hide VipsOk, QueueOk, RoutesOwned, IdOk, StepCommitNow, ValidVip, Quiet, BuiltFor, RemovedNames, ChangedNames,
      DeadlineFor, NewEntry, Visible, Mark;
    assert NoStrays(s);
    match ev
    case CommitNow(v, seen, b) => NowUntouched(s, v, seen, b, id);
    case _ =>
  }

  lemma {:induction false} NowUntouched(s: State, v: Vip, seen: bool, b: Bgp, id: Id)
    requires Core(s) && Enabled(s, CommitNow(v, seen, b)) && id in s.scheds
    ensures SameSched(s, Step(s, CommitNow(v, seen, b)), id)
  {
    hide Core, VipsOk, RoutesOwned, Switch, Quiet, ValidVip, Committable, ChangedNames, RemovedNames, Commit, Fits,
      Switched, Seeds, StepCommitNow;
    NowFits(s, v, seen, b);
    var none: map<string, Id> := map[];
    SwitchedIs(s, v, none, RemovedNames(s.vips[v.name].cfg, v), seen, b);
  }

  /** A batch ready in its first state runs through, and every VIP ends as its own event alone would leave it. */
  lemma {:induction false} BatchRuns(s: State, evs: seq<Event>, names: seq<string>)
    requires Core(s) && IsBatch(s, evs, names) && AllReady(s, evs) && NewPrefixes(evs)
    ensures Runnable(s, evs) && Core(Play(s, evs))
    ensures forall m :: Outcome(s, Play(s, evs), evs, names, m)
    ensures forall id :: id in Play(s, evs).built <==> id in s.built && Untaken(evs, id)
    ensures forall id :: id in Play(s, evs).built ==> SameSched(s, Play(s, evs), id)
    decreases |evs|
  {
    hide Core, Enabled, Benign, About, Apart, DefAfter, StagedAfter, Step, Outcome, Def, StagedAt, Taken, Untaken;
    if evs == [] {
      forall m
        ensures Outcome(s, s, evs, names, m)
      {
        NoEvents(s, evs, names, m);
      }
      BuiltKnown(s, evs);
    } else {
      var ev, rest, n, others := evs[0], evs[1..], names[0], names[1..];
      assert Ready(s, ev) && About(s, ev, n);
      FirstStep(s, ev, n);
      var s1 := Step(s, ev);
      forall i | 0 <= i < |rest|
        ensures Ready(s1, rest[i]) && About(s1, rest[i], others[i])
        ensures DefAfter(s1, rest[i], others[i]) == DefAfter(s, rest[i], others[i])
        ensures StagedAfter(s1, rest[i], others[i]) == StagedAfter(s, rest[i], others[i])
      {
        assert rest[i] == evs[i + 1] && others[i] == names[i + 1] && names[0] != names[i + 1];
        if rest[i].AddVip? { ReadyFree(s, rest[i]); StillFree(s, ev, n, rest[i]); }
        StaysReady(s, s1, rest[i], others[i]);
      }
      BatchRuns(s1, rest, others);
      forall id
        ensures Untaken(evs, id) <==> id !in Taken(ev) && Untaken(rest, id)
      {
        UntakenSplit(evs, id);
      }
      forall m
        ensures Outcome(s, Play(s, evs), evs, names, m)
      {
        assert Outcome(s1, Play(s1, rest), rest, others, m);
        BatchOutcome(s, s1, Play(s1, rest), evs, names, m);
      }
    }
  }
}
