/**
  A reload that nothing interrupts. Whether it runs through can be told before it starts, from the
  state it finds; and its events are one course a reload can take.
 */
module Planned {
  import opened Config
  import opened System
  import opened Safety
  import opened Runs
  import opened Diff
  import opened Batch
  import opened Build
  import opened Weave
  import opened Reload
  import opened ReloadRuns
  import opened Course

  /** The course of an uninterrupted reload with the given answers. */
  ghost function Straight(s: State, out: Outside, ans: Answers, w: Work): Course {
    var env := EnvOf(out, ans, w);
    var c := Course(Opening(out, w), Removals(w.removed, env), [], []);
    c.(additions := Additions(w.added, Stuck(s, c), env), changes := Alterations(w.changed, env))
  }

  // ------------------------------------------------------------------
  // The events are those of the program
  // ------------------------------------------------------------------

  lemma {:induction false} StraightFollows(s: State, out: Outside, ans: Answers, w: Work)
    ensures var c := Straight(s, out, ans, w);
      && Follows(c.opening, OpenDuties(Batches(out, w))) && Follows(c.removals, RemoveDuties(w))
      && Follows(c.additions, AddDuties(w, Stuck(s, c), Stock(out, w)))
         && Follows(c.changes, ChangeDuties(w, Stock(out, w)))
  {
    hide Follows, Stuck, News, FiledUnder, Made, NextId, Jobs, ChangedNames, System.Ids;
    var c := Straight(s, out, ans, w);
    SameStuck(s, c, Course(c.opening, c.removals, [], []));
    FollowsEach(c.opening, OpenDuties(Batches(out, w)));
    FollowsEach(c.removals, RemoveDuties(w));
    FollowsEach(c.additions, AddDuties(w, Stuck(s, c), Stock(out, w)));
    FollowsEach(c.changes, ChangeDuties(w, Stock(out, w)));
  }

  lemma SameStuck(s: State, c: Course, c': Course)
    requires c.opening == c'.opening && c.removals == c'.removals
    ensures Stuck(s, c) == Stuck(s, c')
  {
    hide Runnable, Play, FailedIn;
  }

  // ------------------------------------------------------------------
  // What fails can be told before
  // ------------------------------------------------------------------

  /** Whether a removal fails is the same before the batch and when its turn comes. */
  lemma {:induction false} FailsAlike(s: State, env: Env, w: Work, t1: State, i: nat)
    requires Core(s) && Core(t1) && Cleared(s, env, t1) && Unhindered(s, env, w) && Enabled(s, Build(env.news))
    requires Sorted(w) && Governing(s, w.running) && i < |w.removed|
    requires Runnable(t1, Removals(w.removed, env)[..i])
    ensures var n := w.removed[i].name; var b := env.Bgp(n);
      RemovalFails(Play(t1, Removals(w.removed, env)[..i]), n, b) == RemovalFails(s, n, b)
  {
    hide Core, Cleared, Unhindered, Enabled, Benign, Governing, Sorted, Apart, About, Runnable, Play, VipNames, Outcome;
    var evs, names := Removals(w.removed, env), VipNames(w.removed);
    RemovalsReady(s, env, w, t1);
    PrefixBatch(t1, evs, names, i);
    BatchRuns(t1, evs[..i], names[..i]);
    var n := w.removed[i].name;
    var t := Play(t1, evs[..i]);
    assert Outcome(t1, t, evs[..i], names[..i], n);
    NotBefore(w, i);
    UntouchedByOthers(t1, t, evs[..i], names[..i], n);
    ClearedEntries(s, env, t1);
    if n in t1.vips { InVisible(t1, n); }
    ApartEntry(t1, t, n);
  }

  lemma {:induction false} PrefixBatch(t1: State, evs: seq<Event>, names: seq<string>, i: nat)
    requires IsBatch(t1, evs, names) && AllReady(t1, evs) && NewPrefixes(evs) && i <= |evs|
    ensures IsBatch(t1, evs[..i], names[..i]) && AllReady(t1, evs[..i]) && NewPrefixes(evs[..i])
  {
    hide About, Ready;
  }

  lemma NotBefore(w: Work, i: nat)
    requires Sorted(w) && i < |w.removed|
    ensures i <= |VipNames(w.removed)| && w.removed[i].name !in VipNames(w.removed)[..i]
  {
    hide ValidVips, Lookup, DistinctChanges, IsAdded, IsRemoved, IsChanged;
  }

  lemma UntouchedByOthers(s: State, t: State, evs: seq<Event>, names: seq<string>, n: string)
    requires |evs| == |names| && Outcome(s, t, evs, names, n) && n !in names
    ensures Apart(s, t, n)
  {
    hide Apart;
  }

  lemma ClearedEntries(s: State, env: Env, t1: State)
    requires Cleared(s, env, t1)
    ensures t1.vips == s.vips
  {
  }

  lemma ApartEntry(s: State, t: State, n: string)
    requires Apart(s, t, n) && (n in s.vips ==> n in s.visible)
    ensures n in s.vips <==> n in t.vips
    ensures n in s.vips ==> t.vips[n] == s.vips[n]
  {
    hide SameScheds, SameBuilt;
  }

  lemma {:induction false} FailedInConcat(s: State, a: seq<Event>, ev: Event)
    requires Runnable(s, a + [ev])
    ensures Runnable(s, a)
    ensures FailedIn(s, a + [ev]) ==
      FailedIn(s, a) + if ev.RemoveVip? && RemovalFails(Play(s, a), ev.name, ev.b) then {ev.name} else {}
    decreases |a|
  {
    hide Step, Enabled, Benign, RemovalFails;
    if a == [] {
      assert a + [ev] == [ev] && [ev][1..] == [];
    } else {
      assert (a + [ev])[0] == a[0] && (a + [ev])[1..] == a[1..] + [ev];
      FailedInConcat(Step(s, a[0]), a[1..], ev);
    }
  }

  lemma FailedOneMore(s: State, removed: seq<Vip>, i: nat, env: Env)
    requires i < |removed|
    ensures Failed(s, removed[..i + 1], env) ==
      Failed(s, removed[..i], env) + if RemovalFails(s, removed[i].name, env.Bgp(removed[i].name))
        then {removed[i].name} else {}
  {
    hide RemovalFails;
    assert removed[..i + 1] == removed[..i] + [removed[i]];
  }

  lemma {:induction false} FailedInIs(s: State, env: Env, w: Work, t1: State, i: nat)
    requires Core(s) && Core(t1) && Cleared(s, env, t1) && Unhindered(s, env, w) && Enabled(s, Build(env.news))
    requires Sorted(w) && Governing(s, w.running) && i <= |w.removed| && Runnable(t1, Removals(w.removed, env))
    ensures Runnable(t1, Removals(w.removed, env)[..i])
    ensures FailedIn(t1, Removals(w.removed, env)[..i]) == Failed(s, w.removed[..i], env)
  {
    hide Core, Cleared, Unhindered, Sorted, Governing, Enabled, Runnable, Play, RemovalFails, FailedIn, Failed;
    var evs := Removals(w.removed, env);
    if i == 0 {
      NoneFailedYet(s, env, t1, evs, w.removed);
    } else {
      FailedInIs(s, env, w, t1, i - 1);
      PlayStep(t1, evs, i - 1);
      FailsAlike(s, env, w, t1, i - 1);
      FailedOneMore(s, w.removed, i - 1, env);
      assert evs[..i] == evs[..i - 1] + [evs[i - 1]];
      FailedInConcat(t1, evs[..i - 1], evs[i - 1]);
    }
  }

  lemma NoneFailedYet(s: State, env: Env, t1: State, evs: seq<Event>, removed: seq<Vip>)
    ensures Runnable(t1, evs[..0]) && FailedIn(t1, evs[..0]) == {} && Failed(s, removed[..0], env) == {}
  {
  }

  // ------------------------------------------------------------------
  // Running through
  // ------------------------------------------------------------------

  /**
    If nothing hinders the reload in the state it finds and nothing interrupts it, it can take its
    straight course, and the VIPs that have to stay are those whose withdraw will fail.
   */
  lemma {:induction false} StraightProceeds(s: State, out: Outside, ans: Answers, w: Work)
    requires Core(s) && s.built == {} && Sorted(w) && Governing(s, w.running) && FreshFrom(s, out.first)
      && Unhindered(s, EnvOf(out, ans, w), w)
    ensures Proceeds(s, out, w, Straight(s, out, ans, w))
    ensures Stuck(s, Straight(s, out, ans, w)) == Failed(s, w.removed, EnvOf(out, ans, w))
  {
    hide Core, Cleared, Removed, Enlarged, Supplies, Unhindered, Sorted, Governing, Enabled, Benign, Removals,
      Additions, Alterations, Opening, EnvOf,
      Failed, Runnable, Play, FreshFrom, Follows, GoesOn, OpenDuties, RemoveDuties, AddDuties, ChangeDuties, Batches,
        FailedIn;
    var env, c := EnvOf(out, ans, w), Straight(s, out, ans, w);
    StraightFollows(s, out, ans, w);
    BuildSupplies(s, out, ans, w);
    Fresh(s, env, w);
    Waited(s, env, w);
    Clears(s, out, ans, w);
    var t1 := Play(s, c.opening);
    Reload.Removes(s, env, w, t1);
    var t2 := Play(t1, c.removals);
    assert Stuck(s, c) == Failed(s, w.removed, env) by {
      FailedInIs(s, env, w, t1, |w.removed|);
      WholePrefix(w, env);
    }
    SameStuck(s, c, Course(c.opening, c.removals, [], []));
    Reload.Adds(s, env, w, t1, t2);
    var t3 := Play(t2, c.additions);
    AltersAll(s, env, w, t1, t2, t3);
    RunnableGoesOn(s, c.opening);
    RunnableGoesOn(t1, c.removals);
    RunnableGoesOn(t2, c.additions);
    RunnableGoesOn(t3, c.changes);
  }

  /** Its outcome can be told before it starts: every VIP meets its fate, with the withdraws that will fail. */
  lemma {:induction false} StraightMeetsFates(s: State, out: Outside, ans: Answers, w: Work)
    requires Core(s) && s.built == {} && Sorted(w) && Governing(s, w.running) && FreshFrom(s, out.first)
      && Unhindered(s, EnvOf(out, ans, w), w)
    ensures var c := Straight(s, out, ans, w);
      && RunsThrough(s, c) && Core(AtTheEnd(s, c)) && AtTheEnd(s, c).built == {}
      && forall n ::
         Met(AtTheEnd(s, c), n, FateOf(Lookup(w.running, n), Lookup(w.cand, n), Fails(s, EnvOf(out, ans, w), w, n)))
  {
    hide Core, Sorted, Governing, FreshFrom, Unhindered, EnvOf, Proceeds, Straight, Stuck, Failed, RunsThrough,
      AtTheEnd, Met, FateOf, Lookup, Fails, Goes;
    StraightProceeds(s, out, ans, w);
    var env, c := EnvOf(out, ans, w), Straight(s, out, ans, w);
    CourseMeetsFates(s, out, w, c);
    forall n
      ensures Met(AtTheEnd(s, c), n, FateOf(Lookup(w.running, n), Lookup(w.cand, n), Fails(s, env, w, n)))
    {
      FailedIs(s, env, w, n);
    }
  }

  lemma WholePrefix(w: Work, env: Env)
    ensures Removals(w.removed, env)[..|w.removed|] == Removals(w.removed, env) && w.removed[..|w.removed|] == w.removed
  {
  }
}
