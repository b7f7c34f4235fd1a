/**
  A reload whose build fails: the jobs before the failure returned their schedulers, the rejection
  closes them, and meanwhile checks run and deliver. What remains is what those alone would leave.
 */
module Rejection {
  import opened Config
  import opened Policy
  import opened System
  import opened Safety
  import opened Runs
  import opened Batch
  import opened Weave
  import opened Course

  /** The asides of a run, without the reload's own events. */
  function Asides(evs: seq<Event>): seq<Event> {
    if evs == [] then [] else (if IsAside(evs[0]) then [evs[0]] else []) + Asides(evs[1..])
  }

  lemma {:induction false} AsidesAre(evs: seq<Event>)
    ensures forall i :: 0 <= i < |Asides(evs)| ==> IsAside(Asides(evs)[i])
  {
    hide IsAside;
    if evs != [] { AsidesAre(evs[1..]); }
  }

  /**
    The schedulers of the jobs that succeeded are registered nowhere: they are built, then closed
    one job after the other.
   */
  function CloseDuties(batches: seq<map<Id, Sched>>): seq<Duty> {
    seq(|batches|, i requires 0 <= i < |batches| => Discards("", batches[i].Keys))
  }

  function OpenOnly(batches: seq<map<Id, Sched>>): seq<Duty> {
    seq(|batches|, i requires 0 <= i < |batches| => Opens(batches[i]))
  }

  /** State `b` is state `a` with new schedulers beside it that no one knows of. */
  predicate Beside(a: State, b: State) {
    && b == a.(scheds := b.scheds, built := b.built, closed := b.closed)
    && (forall id :: id in a.scheds ==> id in b.scheds && b.scheds[id] == a.scheds[id] && b.closed[id] == a.closed[id])
    && (forall id :: id in b.scheds && id !in a.scheds ==> IsNew(b.scheds[id]) && id !in b.running)
  }

  /** How many times each of the new schedulers was closed. */
  predicate Ledger(a: State, b: State) {
    && (forall id :: id in b.built ==> id in b.scheds && id !in a.scheds)
    && (forall id :: id in b.scheds && id !in a.scheds ==> b.closed[id] == if id in b.built then 0 else 1)
  }

  // ------------------------------------------------------------------
  // Asides do not notice
  // ------------------------------------------------------------------

  lemma {:induction false} AsideBeside(a: State, b: State, ev: Event)
    requires Beside(a, b) && Core(a) && IsAside(ev) && Enabled(b, ev)
    ensures Enabled(a, ev) && Beside(Step(a, ev), Step(b, ev))
    ensures Step(b, ev).built == b.built && Step(b, ev).closed == b.closed && Step(b, ev).scheds.Keys == b.scheds.Keys
      && Step(a, ev).scheds.Keys == a.scheds.Keys
  {
    hide Core, Beside, StepResult, StepTransition, AfterRun;
    match ev
    case Run(id, success) =>
      KnownHere(a, b, id);
      SchedBeside(a, b, id, AfterRun(b.scheds[id], success));
    case DeliverResult(id, seen, r, r2) =>
      KnownHere(a, b, id);
      ResultBeside(a, b, id, seen, r, r2);
    case DeliverTransition(id, seen, r) =>
      KnownHere(a, b, id);
      TransitionBeside(a, b, id, seen, r);
    case DrainQueue => DrainBeside(a, b);
    case _ =>
  }

  /** A scheduler that runs or has something to deliver is not one of the new ones. */
  lemma {:induction false} KnownHere(a: State, b: State, id: Id)
    requires Beside(a, b) && Core(a) && id in b.scheds && (id in b.running || b.scheds[id].inflight.Some?)
    ensures id in a.scheds && a.scheds[id] == b.scheds[id] && a.running == b.running && a.drained == b.drained
  {
    hide VipsOk, QueueOk, RoutesOwned, IdOk;
    assert NoStrays(a);
  }

  lemma {:induction false} SchedBeside(a: State, b: State, id: Id, sc: Sched)
    requires Beside(a, b) && id in a.scheds
    ensures Beside(a.(scheds := a.scheds[id := sc]), b.(scheds := b.scheds[id := sc]))
  {
    hide IsNew;
  }

  lemma {:induction false} DrainBeside(a: State, b: State)
    requires Beside(a, b)
    ensures a.drained == b.drained && a.queue == b.queue
    ensures Beside(a.(drained := a.drained + a.queue, queue := []), b.(drained := b.drained + b.queue, queue := []))
  {
    hide IsNew;
  }

  lemma {:induction false} ResultBeside(a: State, b: State, id: Id, seen: bool, r: Bgp, r2: Bgp)
    requires Beside(a, b) && id in a.scheds && id in b.scheds && a.scheds[id] == b.scheds[id]
      && a.scheds[id].inflight.Some?
    ensures var t, u := StepResult(a, id, seen, r, r2), StepResult(b, id, seen, r, r2);
      Beside(t, u) && u.built == b.built && u.closed == b.closed && u.scheds.Keys == b.scheds.Keys
        && t.scheds.Keys == a.scheds.Keys
  {
    hide Beside, ToPolicy, ToQueue, AfterResult;
    var sc := a.scheds[id];
    var a1, b1 := a.(scheds := a.scheds[id := AfterResult(sc)]), b.(scheds := b.scheds[id := AfterResult(sc)]);
    SchedBeside(a, b, id, AfterResult(sc));
    BesideParts(a1, b1);
    PolicyBeside(a1, b1, sc, seen, r, r2);
    QueueBeside(a1, b1, id, sc);
    PolicyGrows(a1, sc, seen, r, r2);
    QueueGrows(a1, id, sc);
    PolicyKeeps(a1, sc, seen, r, r2);
    BesideMoves(a1, b1, ToPolicy(a1, sc, seen, r, r2), ToPolicy(b1, sc, seen, r, r2));
    BesideMoves(a1, b1, ToQueue(a1, id, sc), ToQueue(b1, id, sc));
  }

  lemma BesideParts(a: State, b: State)
    requires Beside(a, b)
    ensures b == a.(scheds := b.scheds, built := b.built, closed := b.closed)
  {
    hide IsNew;
  }

  lemma PolicyKeeps(s: State, sc: Sched, seen: bool, r: Bgp, r2: Bgp)
    ensures ToPolicy(s, sc, seen, r, r2).running == s.running
  {
    hide OnResult, PutRoute, RouteAt;
  }

  /** A change that leaves the schedulers alone keeps the two states beside each other. */
  lemma {:induction false} BesideMoves(a: State, b: State, a': State, b': State)
    requires Beside(a, b) && b' == a'.(scheds := b.scheds, built := b.built, closed := b.closed)
    requires a'.scheds == a.scheds && a'.running == a.running && a'.closed == a.closed
    ensures Beside(a', b')
  {
    hide IsNew;
  }

  lemma {:induction false} TransitionBeside(a: State, b: State, id: Id, seen: bool, r: Bgp)
    requires Beside(a, b) && id in a.scheds && id in b.scheds && a.scheds[id] == b.scheds[id]
      && a.scheds[id].inflight.Some? && a.scheds[id].inflight.value.transition.Some?
    ensures var t, u := StepTransition(a, id, seen, r), StepTransition(b, id, seen, r);
      Beside(t, u) && u.built == b.built && u.closed == b.closed && u.scheds.Keys == b.scheds.Keys
        && t.scheds.Keys == a.scheds.Keys
  {
    hide Beside, OnTransition, PutRoute;
    var sc := a.scheds[id];
    var a1, b1 := a.(scheds := a.scheds[id := sc.(inflight := None)]),
      b.(scheds := b.scheds[id := sc.(inflight := None)]);
    SchedBeside(a, b, id, sc.(inflight := None));
    BesideParts(a1, b1);
    BesideMoves(a1, b1, StepTransition(a, id, seen, r), StepTransition(b, id, seen, r));
  }

  lemma {:induction false} PolicyBeside(a: State, b: State, sc: Sched, seen: bool, r: Bgp, r2: Bgp)
    requires b == a.(scheds := b.scheds, built := b.built, closed := b.closed)
    ensures ToPolicy(b, sc, seen, r, r2) ==
      ToPolicy(a, sc, seen, r, r2).(scheds := b.scheds, built := b.built, closed := b.closed)
  {
    hide OnResult, PutRoute;
  }

  lemma QueueBeside(a: State, b: State, id: Id, sc: Sched)
    requires b == a.(scheds := b.scheds, built := b.built, closed := b.closed)
    ensures ToQueue(b, id, sc) == ToQueue(a, id, sc).(scheds := b.scheds, built := b.built, closed := b.closed)
  {
    hide Hysteresis.Decided;
  }

  // ------------------------------------------------------------------
  // Building and closing
  // ------------------------------------------------------------------

  /** What is built and not yet closed: the batches opened, or the batches still to be closed. */
  ghost predicate Waiting(b: State, batches: seq<map<Id, Sched>>) {
    forall id :: id in b.built <==> Supplying(batches, id)
  }

  predicate Disjoint(batches: seq<map<Id, Sched>>) {
    forall i, j :: 0 <= i < j < |batches| ==> batches[i].Keys !! batches[j].Keys
  }

  /** The closing half. */
  lemma {:induction false} Closing(a: State, b: State, batches: seq<map<Id, Sched>>, evs: seq<Event>)
    requires Core(a) && Core(b) && Beside(a, b) && Ledger(a, b) && Waiting(b, batches) && Disjoint(batches)
    requires Follows(evs, CloseDuties(batches)) && GoesOn(b, evs)
    ensures Runnable(b, evs) && Runnable(a, Asides(evs)) && Core(Play(b, evs)) && Core(Play(a, Asides(evs)))
    ensures Beside(Play(a, Asides(evs)), Play(b, evs)) && Ledger(Play(a, Asides(evs)), Play(b, evs))
      && Play(b, evs).built == {}
    decreases |evs|
  {
    hide Core, Enabled, Benign, Step, Beside, Ledger, Waiting, Awaited;
    if evs == [] {
      assert b.built == {} by { NoneWaiting(b); }
    } else {
      var ev, rest := evs[0], evs[1..];
      var duties := CloseDuties(batches);
      if IsAside(ev) {
        AsideBoth(a, b, batches, ev);
        Closing(Step(a, ev), Step(b, ev), batches, rest);
        AsidesFirst(a, evs);
      } else {
        assert duties[0] == Discards("", batches[0].Keys) && duties[1..] == CloseDuties(batches[1..]);
        CloseFirst(a, b, batches, ev);
        assert Disjoint(batches[1..]);
        Closing(a, Step(b, ev), batches[1..], rest);
        assert Asides(evs) == Asides(rest);
      }
    }
  }

  lemma NoneWaiting(b: State)
    requires Waiting(b, [])
    ensures b.built == {}
  {
    forall id ensures id !in b.built { assert !Supplying([], id); }
  }

  lemma {:induction false} AsideBoth(a: State, b: State, batches: seq<map<Id, Sched>>, ev: Event)
    requires Core(a) && Core(b) && Beside(a, b) && Ledger(a, b) && Waiting(b, batches) && IsAside(ev) && Awaited(b, ev)
    ensures Ready(a, ev) && Ready(b, ev) && Core(Step(a, ev)) && Core(Step(b, ev))
    ensures Beside(Step(a, ev), Step(b, ev)) && Ledger(Step(a, ev), Step(b, ev)) && Waiting(Step(b, ev), batches)
  {
    hide Core, Enabled, Step, Beside, Supplying;
    AsideCan(b, ev);
    AsideBeside(a, b, ev);
    StepKeepsIff(a, ev);
    StepKeepsIff(b, ev);
  }

  lemma {:induction false} AsidesFirst(a: State, evs: seq<Event>)
    requires evs != [] && IsAside(evs[0]) && Ready(a, evs[0]) && Runnable(Step(a, evs[0]), Asides(evs[1..]))
    ensures Runnable(a, Asides(evs)) && Play(a, Asides(evs)) == Play(Step(a, evs[0]), Asides(evs[1..]))
  {
    hide Enabled, Benign, Step;
    assert Asides(evs)[0] == evs[0] && Asides(evs)[1..] == Asides(evs[1..]);
  }

  lemma {:induction false} CloseFirst(a: State, b: State, batches: seq<map<Id, Sched>>, ev: Event)
    requires Core(b) && Beside(a, b) && Ledger(a, b) && Waiting(b, batches) && batches != [] && Disjoint(batches)
      && ev == CloseBuilt(batches[0].Keys)
    ensures Ready(b, ev) && Core(Step(b, ev)) && Beside(a, Step(b, ev)) && Ledger(a, Step(b, ev))
      && Waiting(Step(b, ev), batches[1..])
  {
    hide Core, IsNew, Supplying;
    forall id
      ensures Supplying(batches, id) <==> id in batches[0] || Supplying(batches[1..], id)
      ensures id in batches[0] ==> !Supplying(batches[1..], id)
    {
      SupplyingSplit(batches, id);
      if id in batches[0] { SupplyingOnce(batches, id); }
    }
    StepKeepsIff(b, ev);
  }

  lemma SupplyingOnce(batches: seq<map<Id, Sched>>, id: Id)
    requires batches != [] && Disjoint(batches) && id in batches[0]
    ensures !Supplying(batches[1..], id)
  {
    forall i | 0 <= i < |batches[1..]|
      ensures id !in batches[1..][i]
    {
      assert batches[0].Keys !! batches[i + 1].Keys;
    }
  }

  /** The building half, with `k` batches built so far, and the closing half after it. */
  lemma {:induction false} Rejecting(a: State, b: State, batches: seq<map<Id, Sched>>, k: nat, evs: seq<Event>)
    requires Core(a) && Core(b) && Beside(a, b) && Ledger(a, b) && k <= |batches| && Waiting(b, batches[..k])
      && Disjoint(batches)
    requires forall i :: k <= i < |batches| ==> FreshBatch(b, batches[i])
    requires Follows(evs, OpenOnly(batches[k..]) + CloseDuties(batches)) && GoesOn(b, evs)
    ensures Runnable(b, evs) && Runnable(a, Asides(evs)) && Core(Play(b, evs)) && Core(Play(a, Asides(evs)))
    ensures Beside(Play(a, Asides(evs)), Play(b, evs)) && Ledger(Play(a, Asides(evs)), Play(b, evs))
      && Play(b, evs).built == {}
    decreases |evs|
  {
    hide Core, Enabled, Benign, Step, Beside, Ledger, Waiting, Awaited, FreshBatch, CloseDuties, Disjoint;
    var duties := OpenOnly(batches[k..]) + CloseDuties(batches);
    if k == |batches| {
      assert duties == CloseDuties(batches) && batches[..k] == batches;
      Closing(a, b, batches, evs);
    } else {
      assert duties[0] == Opens(batches[k]) && duties[1..] == OpenOnly(batches[k + 1..]) + CloseDuties(batches);
      var ev, rest := evs[0], evs[1..];
      if IsAside(ev) {
        AsideBoth(a, b, batches[..k], ev);
        forall i | k <= i < |batches|
          ensures FreshBatch(Step(b, ev), batches[i])
        {
          FreshAside(b, batches[i], ev);
        }
        Rejecting(Step(a, ev), Step(b, ev), batches, k, rest);
        AsidesFirst(a, evs);
      } else {
        OpenFirst(a, b, batches, k, ev);
        Rejecting(a, Step(b, ev), batches, k + 1, rest);
        assert Asides(evs) == Asides(rest);
      }
    }
  }

  lemma {:induction false} FreshAside(b: State, batch: map<Id, Sched>, ev: Event)
    requires FreshBatch(b, batch) && IsAside(ev) && Enabled(b, ev)
    ensures FreshBatch(Step(b, ev), batch)
  {
    hide Step, Enabled, IsNew;
    AsideScheds(b, ev);
  }

  lemma {:induction false} OpenFirst(a: State, b: State, batches: seq<map<Id, Sched>>, k: nat, ev: Event)
    requires Core(b) && Beside(a, b) && Ledger(a, b) && k < |batches| && Waiting(b, batches[..k]) && Disjoint(batches)
      && ev == Build(batches[k])
    requires forall i :: k <= i < |batches| ==> FreshBatch(b, batches[i])
    ensures Ready(b, ev) && Core(Step(b, ev)) && Beside(a, Step(b, ev)) && Ledger(a, Step(b, ev))
      && Waiting(Step(b, ev), batches[..k + 1])
    ensures forall i :: k < i < |batches| ==> FreshBatch(Step(b, ev), batches[i])
  {
    hide VipsOk, QueueOk, RoutesOwned, IdOk, IsNew, Supplying;
    assert FreshBatch(b, batches[k]) && NoStrays(b);
    StepKeepsIff(b, ev);
    forall id
      ensures Supplying(batches[..k + 1], id) <==> Supplying(batches[..k], id) || id in batches[k]
    {
      SupplyingLast(batches, k, id);
    }
    forall i | k < i < |batches|
      ensures FreshBatch(Step(b, ev), batches[i])
    {
      assert FreshBatch(b, batches[i]) && batches[k].Keys !! batches[i].Keys;
    }
  }

  lemma SupplyingLast(batches: seq<map<Id, Sched>>, k: nat, id: Id)
    requires k < |batches|
    ensures Supplying(batches[..k + 1], id) <==> Supplying(batches[..k], id) || id in batches[k]
  {
    if Supplying(batches[..k], id) {
      var i :| 0 <= i < k && id in batches[..k][i];
      assert id in batches[..k + 1][i];
    }
    if id in batches[k] { assert id in batches[..k + 1][k]; }
    if Supplying(batches[..k + 1], id) && id !in batches[k] {
      var i :| 0 <= i < k + 1 && id in batches[..k + 1][i];
      assert id in batches[..k][i];
    }
  }

  /** The same policy, registry, routes, stagings and queues; the only new schedulers never ran and were closed once. */
  predicate Untouched(s: State, t: State) {
    && t.vips == s.vips && t.routes == s.routes && t.log == s.log && t.visible == s.visible && t.running == s.running
    && t.staging == s.staging && t.queue == s.queue && t.drained == s.drained && t.built == {}
    && (forall id :: id in s.scheds ==> id in t.scheds && t.scheds[id] == s.scheds[id] && t.closed[id] == s.closed[id])
    && (forall id :: id in t.scheds && id !in s.scheds ==> IsNew(t.scheds[id]) && t.closed[id] == 1)
  }

  /**
    However many jobs had returned schedulers and whatever interleaved: what remains is what the
    asides alone would leave.
   */
  lemma {:induction false} RejectedRuns(s: State, batches: seq<map<Id, Sched>>, evs: seq<Event>)
    requires Core(s) && s.built == {} && Unused(s, batches) && Follows(evs, OpenOnly(batches) + CloseDuties(batches))
      && GoesOn(s, evs)
    ensures Runnable(s, evs) && Core(Play(s, evs)) && Runnable(s, Asides(evs)) && Core(Play(s, Asides(evs)))
    ensures Untouched(Play(s, Asides(evs)), Play(s, evs))
  {
    hide Core, Follows, GoesOn, Runnable, Play, FreshBatch, IsNew;
    assert batches[0..] == batches && batches[..0] == [];
    assert Waiting(s, []) by { assert forall id :: !Supplying([], id); }
    Rejecting(s, s, batches, 0, evs);
  }
}
