/**
  The handover of one check, step by step. While `commitLocked` seeds the policy from a shadow,
  commits, attaches the policy callbacks and compares once more, the shadow keeps running and
  delivering; every interleaving is considered.
 */
module Handover {
  import opened Config
  import opened Hysteresis
  import opened Policy
  import opened System
  import opened Safety

  /** How far the commit got. `Read` only occurs when the final compare and the delivery are two steps. */
  datatype Phase = Waiting | Seeded(seed: bool) | Committed(seed: bool) | Attached(seed: bool) | Read(seed: bool,
    now: bool) | Finished

  /** The shadow, what the policy manager holds for its check, and the commit's progress. */
  datatype View = View(sc: Sched, held: Health, phase: Phase)

  datatype Act =
    | Runs(success: bool)       // a check run, which captures its callbacks
    | DeliversResult
    | DeliversTransition
    | Seed                      // the seed is read
    | Commit                    // `CommitVIP`: the policy holds the seed
    | Attach                    // `SetCallbacks`
    | Compare                   // final compare and delivery in one step
    | ReadNow                   // final compare ...
    | DeliverRead               // ... and delivery, as two steps

  function HealthOf(up: bool): Health { if up then Healthy else Unhealthy }

  predicate CanAct(v: View, a: Act) {
    match a
    case Runs(_) => v.sc.inflight.None?
    case DeliversResult => v.sc.inflight.Some? && v.sc.inflight.value.resultDue
    case DeliversTransition => v.sc.inflight.Some? && !v.sc.inflight.value.resultDue
      && v.sc.inflight.value.transition.Some?
    case Seed => v.phase.Waiting?
    case Commit => v.phase.Seeded?
    case Attach => v.phase.Committed?
    case Compare => v.phase.Attached?
    case ReadNow => v.phase.Attached?
    case DeliverRead => v.phase.Read?
  }

  function Perform(v: View, a: Act): View
    requires CanAct(v, a)
  {
    match a
    case Runs(success) => v.(sc := AfterRun(v.sc, success))
    case DeliversResult => v.(sc := AfterResult(v.sc))
    case DeliversTransition => v.(sc := v.sc.(inflight := None), held := HealthOf(v.sc.inflight.value.transition.value))
    case Seed => v.(phase := Seeded(v.sc.IsUp()))
    case Commit => v.(held := HealthOf(v.phase.seed), phase := Committed(v.phase.seed))
    case Attach => v.(sc := v.sc.(live := true, seeded := true), phase := Attached(v.phase.seed))
    case Compare => v.(held := if v.sc.IsUp() != v.phase.seed then HealthOf(v.sc.IsUp()) else v.held, phase := Finished)
    case ReadNow => v.(phase := Read(v.phase.seed, v.sc.IsUp()))
    case DeliverRead => v.(held :=
      if v.phase.now != v.phase.seed then HealthOf(v.phase.now) else v.held, phase := Finished)
  }

  predicate IsShadow(sc: Sched) {
    !sc.live && (sc.inflight.Some? ==> !sc.inflight.value.live && sc.inflight.value.transition.None?)
  }

  /** A transition is under way, and it is the one to the current health. */
  predicate UnderWay(sc: Sched) {
    sc.inflight.Some? && sc.inflight.value.transition.Some? && sc.inflight.value.live
      && sc.inflight.value.transition.value == sc.IsUp() && sc.WasUp()
  }

  predicate NothingUnderWay(sc: Sched) { sc.inflight.None? || sc.inflight.value.transition.None? }

  /** The policy holds the current health, or is about to hear of it. */
  predicate InStep(v: View) {
    v.sc.live && v.sc.seeded && (UnderWay(v.sc) || (NothingUnderWay(v.sc) && v.held == HealthOf(v.sc.IsUp())))
  }

  /** What each phase keeps. */
  predicate Kept(v: View) {
    match v.phase
    case Waiting => IsShadow(v.sc)
    case Seeded(_) => IsShadow(v.sc)
    case Committed(seed) => IsShadow(v.sc) && v.held == HealthOf(seed)
    case Attached(seed) => v.sc.live && v.sc.seeded
      && (InStep(v) || (NothingUnderWay(v.sc) && v.held == HealthOf(seed)))
    case Read(seed, now) => v.sc.live && v.sc.seeded
      && (InStep(v) || (now != seed && NothingUnderWay(v.sc) && v.held == HealthOf(seed)))
    case Finished => InStep(v)
  }

  lemma {:induction false} RunKeeps(v: View, success: bool)
    requires Kept(v) && v.sc.inflight.None?
    ensures Kept(v.(sc := AfterRun(v.sc, success)))
  {
    hide After, EverUp, EverDecided, Next;
    var rise, fall := v.sc.check.Rise(), v.sc.check.Fall();
    AfterOneMore(v.sc.hist, success, rise, fall);
    if v.sc.IsUp() { UpIsEverUp(v.sc.hist, rise, fall); }
    if AfterRun(v.sc, success).IsUp() { UpIsEverUp(v.sc.hist + [success], rise, fall); }
  }

  /** Every step keeps its phase's promise, except a delivery of a value that was read earlier. */
  lemma {:induction false} ActKeeps(v: View, a: Act)
    requires Kept(v) && CanAct(v, a) && !a.DeliverRead?
    ensures Kept(Perform(v, a))
  {
    hide After, Up, EverUp, AfterRun;
    match a
    case Runs(success) => RunKeeps(v, success);
    case _ =>
  }

  predicate Acts(v: View, acts: seq<Act>, w: View)
    decreases |acts|
  {
    if acts == [] then w == v else CanAct(v, acts[0]) && Acts(Perform(v, acts[0]), acts[1..], w)
  }

  /**
    The handover loses nothing: whatever the shadow did before, between and after the steps of
    the commit, once no callback is under way the policy holds the check as healthy exactly when
    its scheduler is; and in any case the policy was told what the daemon's invariant asks of a
    visible scheduler.
   */
  lemma {:induction false} HandoverLosesNothing(v: View, acts: seq<Act>, w: View)
    requires v.phase.Waiting? && IsShadow(v.sc) && Acts(v, acts, w) && w.phase.Finished?
    requires forall i :: 0 <= i < |acts| ==> !acts[i].DeliverRead?
    ensures Told(w.sc, w.held)
    ensures NothingUnderWay(w.sc) ==> w.held != Unknown && (w.held == Healthy <==> w.sc.IsUp())
  {
    hide Up, EverUp, Acts;
    ActsKeep(v, acts, w);
  }

  lemma {:induction false} ActsKeep(v: View, acts: seq<Act>, w: View)
    requires Kept(v) && Acts(v, acts, w) && forall i :: 0 <= i < |acts| ==> !acts[i].DeliverRead?
    ensures Kept(w)
    decreases |acts|
  {
    hide Kept, CanAct, Perform;
    if acts != [] {
      ActKeeps(v, acts[0]);
      ActsKeep(Perform(v, acts[0]), acts[1..], w);
    }
  }

  // ------------------------------------------------------------------
  // Compare and deliver as two steps
  // ------------------------------------------------------------------

  /** Nothing has to be delivered, the value read is still current, or a newer transition is under way. */
  predicate StillTrue(v: View)
    requires v.phase.Read?
  {
    v.phase.now == v.phase.seed || v.phase.now == v.sc.IsUp() || UnderWay(v.sc)
  }

  /**
    The code reads the health and delivers it in two steps. They leave policy and scheduler in step
    exactly when the value still holds.
   */
  lemma {:induction false} TwoStepsIff(v: View)
    requires Kept(v) && v.phase.Read?
    ensures InStep(Perform(v, DeliverRead)) <==> StillTrue(v)
  {
    hide Up, EverUp;
  }

  /** Along the run, every value is still true, or not to be delivered, when it is delivered. */
  predicate Truthful(v: View, acts: seq<Act>)
    decreases |acts|
  {
    acts == []
      || (CanAct(v, acts[0]) ==> (acts[0].DeliverRead? ==> StillTrue(v)) && Truthful(Perform(v, acts[0]), acts[1..]))
  }

  lemma {:induction false} TruthfulKeeps(v: View, acts: seq<Act>, w: View)
    requires Kept(v) && Acts(v, acts, w) && Truthful(v, acts)
    ensures Kept(w)
    decreases |acts|
  {
    hide Kept, CanAct, Perform, StillTrue;
    if acts != [] {
      var a := acts[0];
      if a.DeliverRead? { DeliveryKeeps(v); } else { ActKeeps(v, a); }
      TruthfulKeeps(Perform(v, a), acts[1..], w);
    }
  }

  lemma DeliveryKeeps(v: View)
    requires Kept(v) && CanAct(v, DeliverRead) && StillTrue(v)
    ensures Kept(Perform(v, DeliverRead))
  {
    hide Up, EverUp;
  }

  /**
    The handover as it is written, over whole runs: with the compare and its delivery as two steps
    it still loses nothing in every interleaving in which the value holds when it is delivered.
   */
  lemma {:induction false} HandoverAsWritten(v: View, acts: seq<Act>, w: View)
    requires v.phase.Waiting? && IsShadow(v.sc) && Acts(v, acts, w) && w.phase.Finished? && Truthful(v, acts)
    ensures Told(w.sc, w.held)
    ensures NothingUnderWay(w.sc) ==> w.held != Unknown && (w.held == Healthy <==> w.sc.IsUp())
  {
    hide Up, EverUp, Acts, Truthful;
    TruthfulKeeps(v, acts, w);
  }

  /**
    An interleaving that loses a transition: the shadow falls before the callbacks are attached,
    the fall is read, the check rises and reports it, and then the stale fall is delivered. With
    nothing under way the policy holds a healthy check as unhealthy.
   */
  lemma {:induction false} StaleDelivery() returns (v: View, acts: seq<Act>, w: View)
    ensures v.phase.Waiting? && IsShadow(v.sc) && v.sc.check.Rise() == 1 && v.sc.check.Fall() == 1
    ensures Acts(v, acts, w) && w.phase.Finished? && w.sc.inflight.None?
    ensures w.sc.IsUp() && w.held == Unhealthy
  {
    hide Acts, After;
    var c := Check("web", "http", None, Some(1), Some(1), 0);
    var sc := Sched("vip", c, (false, ""), [true], false, false, None);
    v := View(sc, Healthy, Waiting);
    OneFlip([true], false);
    var u := FallsUnseen(sc);
    OneFlip(sc.hist + [false], true);
    w := RisesTooEarly(u);
    acts := [Seed, Runs(false), DeliversResult, Commit, Attach] + [ReadNow, Runs(true), DeliversResult,
      DeliversTransition, DeliverRead];
    ActsConcat(v, [Seed, Runs(false), DeliversResult, Commit, Attach], u,
      [ReadNow, Runs(true), DeliversResult, DeliversTransition, DeliverRead], w);
  }

  /** The shadow falls after its seed was read and before the callbacks are attached. */
  lemma {:induction false} FallsUnseen(sc: Sched) returns (u: View)
    requires sc.IsUp() && !Up(sc.hist + [false], sc.check.Rise(), sc.check.Fall()) && sc.inflight.None? && !sc.live
    ensures Acts(View(sc, Healthy, Waiting), [Seed, Runs(false), DeliversResult, Commit, Attach], u)
    ensures u == View(sc.(hist := sc.hist + [false], live := true, seeded := true), Healthy, Attached(true))
  {
    hide Acts, After, Up;
    var v := View(sc, Healthy, Waiting);
    var v1 := Perform(v, Seed);
    var v2 := Perform(v1, Runs(false));
    var v3 := Perform(v2, DeliversResult);
    var v4 := Perform(v3, Commit);
    u := Perform(v4, Attach);
    NoActs(u);
    ActsStep(v4, Attach, [], [Attach], u);
    ActsStep(v3, Commit, [Attach], [Commit, Attach], u);
    ActsStep(v2, DeliversResult, [Commit, Attach], [DeliversResult, Commit, Attach], u);
    ActsStep(v1, Runs(false), [DeliversResult, Commit, Attach], [Runs(false), DeliversResult, Commit, Attach], u);
    ActsStep(v, Seed, [Runs(false), DeliversResult, Commit, Attach],
      [Seed, Runs(false), DeliversResult, Commit, Attach], u);
  }

  /** The rise is reported between the read and its delivery. */
  lemma {:induction false} RisesTooEarly(u: View) returns (w: View)
    requires u.phase == Attached(true) && u.sc.live && !u.sc.IsUp() && u.sc.inflight.None?
    requires Up(u.sc.hist + [true], u.sc.check.Rise(), u.sc.check.Fall())
    ensures Acts(u, [ReadNow, Runs(true), DeliversResult, DeliversTransition, DeliverRead], w)
    ensures w.phase.Finished? && w.sc.inflight.None? && w.sc.IsUp() && w.held == Unhealthy
  {
    hide Acts, After, Up;
    var v1 := Perform(u, ReadNow);
    var v2 := Perform(v1, Runs(true));
    var v3 := Perform(v2, DeliversResult);
    var v4 := Perform(v3, DeliversTransition);
    w := Perform(v4, DeliverRead);
    NoActs(w);
    ActsStep(v4, DeliverRead, [], [DeliverRead], w);
    ActsStep(v3, DeliversTransition, [DeliverRead], [DeliversTransition, DeliverRead], w);
    ActsStep(v2, DeliversResult, [DeliversTransition, DeliverRead], [DeliversResult, DeliversTransition, DeliverRead],
      w);
    ActsStep(v1, Runs(true), [DeliversResult, DeliversTransition, DeliverRead],
      [Runs(true), DeliversResult, DeliversTransition, DeliverRead], w);
    ActsStep(u, ReadNow, [Runs(true), DeliversResult, DeliversTransition, DeliverRead],
      [ReadNow, Runs(true), DeliversResult, DeliversTransition, DeliverRead], w);
  }

  lemma NoActs(v: View)
    ensures Acts(v, [], v)
  {
  }

  lemma {:induction false} ActsConcat(v: View, a: seq<Act>, u: View, b: seq<Act>, w: View)
    requires Acts(v, a, u) && Acts(u, b, w)
    ensures Acts(v, a + b, w)
    decreases |a|
  {
    hide CanAct, Perform;
    if a == [] {
      assert a + b == b;
    } else {
      assert (a + b)[1..] == a[1..] + b;
      ActsConcat(Perform(v, a[0]), a[1..], u, b, w);
    }
  }

  lemma ActsStep(v: View, a: Act, rest: seq<Act>, all: seq<Act>, w: View)
    requires CanAct(v, a) && Acts(Perform(v, a), rest, w) && all == [a] + rest
    ensures Acts(v, all, w)
  {
    hide CanAct, Perform;
    assert all[1..] == rest;
  }

  /** With rise and fall 1, the last result is the health. */
  lemma OneFlip(hist: seq<bool>, x: bool)
    requires hist != []
    ensures Up(hist, 1, 1) <==> hist[|hist| - 1]
    ensures Up(hist + [x], 1, 1) <==> x
  {
    AfterOneMore(hist, x, 1, 1);
    LastResult(hist);
  }

  lemma {:induction false} LastResult(hist: seq<bool>)
    ensures hist != [] ==> (Up(hist, 1, 1) <==> hist[|hist| - 1])
    ensures 0 <= After(hist, 1, 1).ok <= 1 && 0 <= After(hist, 1, 1).fail <= 1
  {
    if hist != [] { LastResult(hist[..|hist| - 1]); }
  }
}
