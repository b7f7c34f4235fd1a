/**
  The rise/fall hysteresis of a check scheduler: the counters `runCheck` keeps,
  what they mean in terms of the whole result history, and the transitions they emit.
 */
module Hysteresis {
  import opened Config

  datatype Counters = Counters(healthy: bool, ok: int, fail: int)

  /** The state update of one check run. */
  function Next(c: Counters, rise: int, fall: int, success: bool): Counters {
    if success then
      var ok := if c.ok < rise then c.ok + 1 else c.ok;
      Counters(c.healthy || ok >= rise, ok, 0)
    else
      var fail := if c.fail < fall then c.fail + 1 else c.fail;
      Counters(c.healthy && fail < fall, 0, fail)
  }

  /** The counters after a history of results, oldest first. */
  function After(hist: seq<bool>, rise: int, fall: int): Counters {
    if hist == [] then Counters(false, 0, 0)
    else Next(After(hist[..|hist| - 1], rise, fall), rise, fall, hist[|hist| - 1])
  }

  predicate Up(hist: seq<bool>, rise: int, fall: int) {
    After(hist, rise, fall).healthy
  }

  /** One of the thresholds is reached now: the condition under which a shadow reports itself. */
  predicate Decided(hist: seq<bool>, rise: int, fall: int) {
    After(hist, rise, fall).ok >= rise || After(hist, rise, fall).fail >= fall
  }

  predicate EverUp(hist: seq<bool>, rise: int, fall: int) {
    hist != [] && (Up(hist, rise, fall) || EverUp(hist[..|hist| - 1], rise, fall))
  }

  predicate EverDecided(hist: seq<bool>, rise: int, fall: int) {
    Decided(hist, rise, fall) || (hist != [] && EverDecided(hist[..|hist| - 1], rise, fall))
  }

  lemma AfterOneMore(hist: seq<bool>, x: bool, rise: int, fall: int)
    ensures After(hist + [x], rise, fall) == Next(After(hist, rise, fall), rise, fall, x)
    ensures EverUp(hist + [x], rise, fall) <==> Up(hist + [x], rise, fall) || EverUp(hist, rise, fall)
    ensures EverDecided(hist + [x], rise, fall) <==> Decided(hist + [x], rise, fall) || EverDecided(hist, rise, fall)
  {
    assert (hist + [x])[..|hist|] == hist;
  }

  lemma UpIsEverUp(hist: seq<bool>, rise: int, fall: int)
    requires Up(hist, rise, fall)
    ensures EverUp(hist, rise, fall)
  {
  }

  // ------------------------------------------------------------------
  // What the counters mean
  // ------------------------------------------------------------------

  /** Length of the run of results equal to `b` at the end of the history. */
  function Trailing(hist: seq<bool>, b: bool): nat {
    if hist == [] || hist[|hist| - 1] != b then 0 else 1 + Trailing(hist[..|hist| - 1], b)
  }

  /** The `len` results before position `end` all equal `b`. */
  predicate RunAt(hist: seq<bool>, end: int, len: int, b: bool) {
    0 <= len <= end <= |hist| && forall k :: end - len <= k < end ==> hist[k] == b
  }

  /** Some run of `rise` successes is not followed by a run of `fall` failures. */
  ghost predicate Verdict(hist: seq<bool>, rise: int, fall: int) {
    exists i :: RunAt(hist, i, rise, true) && NoRunAfter(hist, i, fall)
  }

  predicate NoRunAfter(hist: seq<bool>, i: int, fall: int) {
    forall j :: i < j <= |hist| ==> !RunAt(hist, j, fall, false)
  }

  function Min(a: int, b: int): int { if a < b then a else b }

  /** The counters are the trailing run lengths capped at the thresholds. */
  lemma {:induction false} CountersAreCappedRuns(hist: seq<bool>, rise: int, fall: int)
    requires rise >= 1 && fall >= 1
    ensures After(hist, rise, fall).ok == Min(Trailing(hist, true), rise)
    ensures After(hist, rise, fall).fail == Min(Trailing(hist, false), fall)
  {
    if hist != [] {
      CountersAreCappedRuns(hist[..|hist| - 1], rise, fall);
    }
  }

  lemma {:induction false} TrailingIsRun(hist: seq<bool>, m: nat, b: bool)
    ensures Trailing(hist, b) >= m <==> RunAt(hist, |hist|, m, b)
  {
    if hist != [] && m > 0 {
      var k := |hist| - 1;
      TrailingIsRun(hist[..k], m - 1, b);
      if hist[k] == b && RunAt(hist[..k], k, m - 1, b) {
        assert forall i :: k - (m - 1) <= i < k ==> hist[i] == hist[..k][i];
      }
    }
  }

  lemma RunInPrefix(hist: seq<bool>, k: nat, end: int, len: int, b: bool)
    requires end <= k <= |hist|
    ensures RunAt(hist, end, len, b) <==> RunAt(hist[..k], end, len, b)
  {
    if RunAt(hist[..k], end, len, b) {
      assert forall i :: end - len <= i < end ==> hist[i] == hist[..k][i];
    }
  }

  /** The healthy flag is the declarative verdict on the whole history. */
  lemma {:induction false} UpIsVerdict(hist: seq<bool>, rise: int, fall: int)
    requires rise >= 1 && fall >= 1
    ensures Up(hist, rise, fall) <==> Verdict(hist, rise, fall)
  {
    if hist == [] {
    } else {
      var k := |hist| - 1;
      var p := hist[..k];
      UpIsVerdict(p, rise, fall);
      CountersAreCappedRuns(hist, rise, fall);
      TrailingIsRun(hist, rise, true);
      TrailingIsRun(hist, fall, false);
      forall i | i <= k
        ensures RunAt(hist, i, rise, true) <==> RunAt(p, i, rise, true)
        ensures RunAt(hist, i, fall, false) <==> RunAt(p, i, fall, false)
      {
        RunInPrefix(hist, k, i, rise, true);
        RunInPrefix(hist, k, i, fall, false);
      }
      if Up(hist, rise, fall) {
        if !hist[k] || Up(p, rise, fall) {
          var i :| RunAt(p, i, rise, true) && NoRunAfter(p, i, fall);
          assert RunAt(hist, i, rise, true) && NoRunAfter(hist, i, fall);
        } else {
          assert RunAt(hist, |hist|, rise, true) && NoRunAfter(hist, |hist|, fall);
        }
      }
      if Verdict(hist, rise, fall) {
        var i :| RunAt(hist, i, rise, true) && NoRunAfter(hist, i, fall);
        if i <= k {
          assert RunAt(p, i, rise, true) && NoRunAfter(p, i, fall);
          assert !RunAt(hist, |hist|, fall, false);
        }
      }
    }
  }

  /** A scheduler that never reached a threshold is not healthy: such a shadow is seeded unhealthy. */
  lemma {:induction false} UndecidedIsDown(hist: seq<bool>, rise: int, fall: int)
    requires rise >= 1 && fall >= 1
    ensures Up(hist, rise, fall) ==> EverDecided(hist, rise, fall)
  {
    if hist != [] {
      UndecidedIsDown(hist[..|hist| - 1], rise, fall);
    }
  }

  /** Some run of `rise` successes occurred. */
  ghost predicate RoseOnce(hist: seq<bool>, rise: int) {
    exists i :: RunAt(hist, i, rise, true)
  }

  lemma {:induction false} EverUpIsRoseOnce(hist: seq<bool>, rise: int, fall: int)
    requires rise >= 1 && fall >= 1
    ensures EverUp(hist, rise, fall) <==> RoseOnce(hist, rise)
  {
    if hist != [] {
      var k := |hist| - 1;
      EverUpIsRoseOnce(hist[..k], rise, fall);
      UpIsVerdict(hist, rise, fall);
      CountersAreCappedRuns(hist, rise, fall);
      TrailingIsRun(hist, rise, true);
      forall i | i <= k
        ensures RunAt(hist, i, rise, true) <==> RunAt(hist[..k], i, rise, true)
      {
        RunInPrefix(hist, k, i, rise, true);
      }
    }
  }

  // ------------------------------------------------------------------
  // Emitted transitions
  // ------------------------------------------------------------------

  /** The transition one run emits, if any: the flag after a flip. */
  function Emitted(c: Counters, rise: int, fall: int, success: bool): Option<bool> {
    var d := Next(c, rise, fall, success);
    if d.healthy != c.healthy then Some(d.healthy) else None
  }

  function Transitions(hist: seq<bool>, rise: int, fall: int): seq<bool> {
    if hist == [] then [] else
    var before := hist[..|hist| - 1];
    var t := Emitted(After(before, rise, fall), rise, fall, hist[|hist| - 1]);
    Transitions(before, rise, fall) + (if t.Some? then [t.value] else [])
  }

  /** Transitions alternate, starting with healthy, and the flag is the last one emitted. */
  lemma {:induction false} TransitionsAlternate(hist: seq<bool>, rise: int, fall: int)
    ensures var t := Transitions(hist, rise, fall);
      && (forall i :: 0 <= i < |t| ==> (t[i] <==> i % 2 == 0))
      && (Up(hist, rise, fall) <==> |t| % 2 == 1)
  {
    if hist != [] {
      TransitionsAlternate(hist[..|hist| - 1], rise, fall);
    }
  }

  function Cost(k: nat, rise: int, fall: int): int {
    ((k + 1) / 2) * rise + (k / 2) * fall
  }

  lemma CostOneMore(k: nat, rise: int, fall: int)
    ensures Cost(k + 1, rise, fall) == Cost(k, rise, fall) + if k % 2 == 0 then rise else fall
  {
    if k % 2 == 0 {
      assert (k + 2) / 2 == (k + 1) / 2 + 1 && (k + 1) / 2 == k / 2;
      assert ((k + 1) / 2 + 1) * rise == ((k + 1) / 2) * rise + rise;
    } else {
      assert (k + 2) / 2 == (k + 1) / 2 && (k + 1) / 2 == k / 2 + 1;
      assert (k / 2 + 1) * fall == (k / 2) * fall + fall;
    }
  }

  /** Damping: k transitions need ceil(k/2) rises and floor(k/2) falls worth of results. */
  lemma TransitionsAreDamped(hist: seq<bool>, rise: int, fall: int)
    requires rise >= 1 && fall >= 1
    ensures |hist| >= Cost(|Transitions(hist, rise, fall)|, rise, fall)
  {
    Damped(hist, rise, fall);
  }

  /** The counter towards the next flip is paid for on top of the flips so far. */
  lemma {:induction false} Damped(hist: seq<bool>, rise: int, fall: int)
    requires rise >= 1 && fall >= 1
    ensures var c := After(hist, rise, fall);
      && (c.healthy ==> 0 <= c.fail < fall)
      && (!c.healthy ==> 0 <= c.ok < rise)
      && |hist| >= Cost(|Transitions(hist, rise, fall)|, rise, fall) + (if c.healthy then c.fail else c.ok)
  {
    if hist != [] {
      var p := hist[..|hist| - 1];
      Damped(p, rise, fall);
      TransitionsAlternate(p, rise, fall);
      CostOneMore(|Transitions(p, rise, fall)|, rise, fall);
    }
  }

  // ------------------------------------------------------------------
  // The scheduler object
  // ------------------------------------------------------------------

  /** Where a scheduler's callbacks lead: nowhere, to the reloader's verdict queue, or to the policy manager. */
  datatype Sink = NoSink | ShadowSink | PolicySink

  /** What a run captured under the scheduler lock, to be delivered after releasing it. */
  datatype Delivery = Delivery(sink: Sink, transition: Option<bool>)

  class Scheduler {
    const rise: int
    const fall: int
    var healthy: bool
    var consecutiveOK: int
    var consecutiveFail: int
    var sink: Sink
    ghost var hist: seq<bool>

    ghost predicate Valid()
      reads this
    {
      Counters(healthy, consecutiveOK, consecutiveFail) == After(hist, rise, fall)
    }

    constructor (rise: int, fall: int)
      ensures Valid() && hist == [] && sink == NoSink
      ensures this.rise == rise && this.fall == fall
    {
      this.rise, this.fall := rise, fall;
      healthy, consecutiveOK, consecutiveFail := false, 0, 0;
      sink := NoSink;
      hist := [];
    }

    method SetCallbacks(sink: Sink)
      requires Valid()
      modifies this`sink
      ensures Valid() && this.sink == sink
    {
      this.sink := sink;
    }

    /** The locked part of `runCheck`; a shadow has no transition callback. */
    method RunCheck(success: bool) returns (d: Delivery)
      requires Valid()
      modifies this`healthy, this`consecutiveOK, this`consecutiveFail, this`hist
      ensures Valid() && hist == old(hist) + [success]
      ensures d.sink == sink
      ensures sink == PolicySink ==> d.transition == if Up(hist, rise, fall) != Up(old(hist), rise, fall)
                                                     then Some(Up(hist, rise, fall)) else None
      ensures sink != PolicySink ==> d.transition == None
    {
      AfterOneMore(hist, success, rise, fall);
      var transition: Option<bool> := None;
      if success {
        consecutiveFail := 0;
        if consecutiveOK < rise {
          consecutiveOK := consecutiveOK + 1;
        }
        if !healthy && consecutiveOK >= rise {
          healthy := true;
          transition := Some(true);
        }
      } else {
        consecutiveOK := 0;
        if consecutiveFail < fall {
          consecutiveFail := consecutiveFail + 1;
        }
        if healthy && consecutiveFail >= fall {
          healthy := false;
          transition := Some(false);
        }
      }
      hist := hist + [success];
      d := Delivery(sink, if sink == PolicySink then transition else None);
    }

    /** The verdict a shadow's result callback looks for. */
    method HasVerdict() returns (b: bool)
      requires Valid()
      ensures b <==> Decided(hist, rise, fall)
    {
      b := !(consecutiveOK < rise && consecutiveFail < fall);
    }
  }
}
