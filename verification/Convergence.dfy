/** Where a sequence of reloads leads: to the file, whatever was staged, superseded or kept on the way. */
module Convergence {
  import opened Config
  import opened System
  import opened Safety
  import opened Runs
  import opened Diff
  import opened Batch
  import opened Reload
  import opened ReloadRuns
  import opened Build
  import opened Weave
  import opened Course
  import opened Daemon

  /** Check runs, callbacks, commits and polls only: no reload attempt. */
  predicate Quietly(moves: seq<Move>) {
    forall i :: 0 <= i < |moves| ==> moves[i].Internal? || moves[i].Poll?
  }

  /**
    Between reloads the running config stands, nothing new is staged, and what is staged keeps its
    definitions until it commits.
   */
  ghost predicate Rests(d: Daemon, e: Daemon) {
    && Agrees(e) && e.cur == d.cur && e.hash == d.hash && e.generation == d.generation
    && forall n :: RestsAt(d.s, e.s, n)
  }

  lemma {:induction false} BetweenReloads(d: Daemon, moves: seq<Move>, e: Daemon)
    requires Agrees(d) && Leads(d, moves, e) && Quietly(moves)
    ensures Rests(d, e)
    decreases |moves|
  {
    hide Agrees, Allowed, RestsAt;
    if moves == [] {
      forall n ensures RestsAt(d.s, d.s, n) { RestsSelf(d.s, n); }
    } else {
      assert moves[0].Internal? || moves[0].Poll?;
      var d1 := AfterMove(d, moves[0]);
      MoveKeeps(d, moves[0]);
      forall n ensures RestsAt(d.s, d1.s, n) { MoveRests(d, moves[0], n); }
      assert d1.cur == d.cur && d1.hash == d.hash && d1.generation == d.generation by { MoveKeepsConfig(d, moves[0]); }
      BetweenReloads(d1, moves[1..], e);
      forall n
        ensures RestsAt(d.s, e.s, n)
      {
        assert RestsAt(d1.s, e.s, n);
        RestsTrans(d.s, d1.s, e.s, n);
      }
    }
  }

  lemma RestsSelf(s: State, n: string)
    ensures RestsAt(s, s, n)
  {
  }

  lemma RestsTrans(s: State, t: State, u: State, n: string)
    requires RestsAt(s, t, n) && RestsAt(t, u, n)
    ensures RestsAt(s, u, n)
  {
  }

  lemma MoveKeepsConfig(d: Daemon, mv: Move)
    requires Allowed(d, mv) && (mv.Internal? || mv.Poll?)
    ensures var e := AfterMove(d, mv); e.cur == d.cur && e.hash == d.hash && e.generation == d.generation
  {
    hide Enabled, Step;
  }

  lemma {:induction false} MoveRests(d: Daemon, mv: Move, n: string)
    requires Agrees(d) && Allowed(d, mv) && (mv.Internal? || mv.Poll?)
    ensures RestsAt(d.s, AfterMove(d, mv).s, n)
  {
    hide Core, Step, Enabled, Lookup;
    if mv.Internal? {
      InternalHeads(d.s, mv.ev, n);
    }
  }

  // ------------------------------------------------------------------
  // Convergence
  // ------------------------------------------------------------------

  /** No withdraw failed: the hash of the file is kept. */
  ghost predicate Clean(d: Daemon, c: Course) { Stuck(d.s, c) == {} }

  /** A daemon that remembers the file's hash and waits for nothing runs exactly the file. */
  lemma {:induction false} RunsTheFile(d: Daemon, f: File)
    requires Agrees(d) && d.hash == Some(f) && d.s.staging == map[]
    ensures forall n :: Def(d.s, n) == Lookup(f.vips, n)
  {
    hide Core;
    forall n
      ensures Def(d.s, n) == Lookup(f.vips, n)
    {
      assert Lookup(d.cur.vips, n) == Heading(d.s, n);
    }
  }

  /**
    Convergence: after a reload in which every needed withdraw succeeded, and any run that commits
    every staging, the policy manager's definitions are the file's.
   */
  lemma {:induction false} Converges(d: Daemon, f: File, out: Outside, c: Course, moves: seq<Move>, e: Daemon)
    requires Agrees(d) && Allowed(d, ReloadFile(f, out, c)) && Judge(d, f, out) == Applies && Clean(d, c)
    requires Leads(AfterMove(d, ReloadFile(f, out, c)), moves, e) && Quietly(moves) && e.s.staging == map[]
    ensures forall n :: Def(e.s, n) == Lookup(f.vips, n)
  {
    hide Agrees, Proceeds, FreshFrom, ValidVips, Runnable, AtTheEnd, Play, Stuck, Leads, Def, Lookup, RestsAt,
      KeepFailed;
    var d1 := AfterMove(d, ReloadFile(f, out, c));
    MoveKeeps(d, ReloadFile(f, out, c));
    BetweenReloads(d1, moves, e);
    RunsTheFile(e, f);
  }

  /** A reload keeps exactly the VIPs it could not withdraw, under their old definitions, and forgets the hash. */
  lemma {:induction false} KeepsFailed(d: Daemon, f: File, out: Outside, c: Course)
    requires Agrees(d) && ValidVips(f.vips) && FreshFrom(d.s, out.first) && Proceeds(d.s, out, Delta(d, f), c)
      && !Clean(d, c)
    ensures var e := Apply(d, f, c);
      && Agrees(e) && e.hash == None && e.fileChanged
      && forall n :: Heading(e.s, n) == if n in Stuck(d.s, c) then Def(d.s, n) else Lookup(f.vips, n)
  {
    hide Core, Proceeds, FreshFrom, ValidVips, AtTheEnd, Play, Stuck, Lookup, KeepFailed, Sorted, Effective, WorkOf,
      Agrees, Met, FateOf, Heading, Runnable, Def, Goes;
    ApplyHeads(d, f, out, c);
    var e := Apply(d, f, c);
    forall n
      ensures Heading(e.s, n) == if n in Stuck(d.s, c) then Def(d.s, n) else Lookup(f.vips, n)
    {
      if n in Stuck(d.s, c) { StuckIs(d, f, n); }
      MetHeads(e.s, n, Def(d.s, n), Lookup(f.vips, n), n in Stuck(d.s, c));
    }
  }

  /** How the next diff against the same file classifies a VIP. */
  ghost predicate Retries(d: Daemon, c: Course, e: Daemon, f: File, n: string) {
    var w, kept := Delta(e, f), n in Stuck(d.s, c);
    && (Goes(w, n) <==> kept)
    && (Comes(w, n) <==> kept && Lookup(f.vips, n).Some?)
    && (Alters(w, n) <==> n in e.s.staging)
    && (Alters(w, n) ==> Waits(w, n))
  }

  /**
    After a failed withdrawal, and whatever was committed since, reloading the same file diffs
    again: it removes exactly the VIPs that had to stay, adds those of them that only moved,
    stages again exactly those still pending, and leaves everything else alone.
   */
  lemma {:induction false} RetriesExactly(d: Daemon, f: File, out: Outside, c: Course, moves: seq<Move>, e: Daemon)
    requires Agrees(d) && Allowed(d, ReloadFile(f, out, c)) && Judge(d, f, out) == Applies && !Clean(d, c)
    requires Leads(AfterMove(d, ReloadFile(f, out, c)), moves, e) && Quietly(moves)
    ensures forall out2 ::
      Judge(e, f, out2) ==
      if Succeeding(e, f, out2) < |WorkJobs(Delta(e, f))| then BuildFails else Applies
    ensures forall n :: Retries(d, c, e, f, n)
  {
    hide Agrees, Proceeds, FreshFrom, ValidVips, Runnable, AtTheEnd, Play, Stuck, Leads, Def, Lookup, KeepFailed,
      Clean, Heading, Delta, Retries;
    var d1 := AfterMove(d, ReloadFile(f, out, c));
    KeepsFailed(d, f, out, c);
    assert d1.hash == None && d1.cur.fixed == f.fixed && d1.cur.fixed == d.cur.fixed;
    BetweenReloads(d1, moves, e);
    forall n
      ensures Retries(d, c, e, f, n)
    {
      assert Heading(d1.s, n) == if n in Stuck(d.s, c) then Def(d.s, n) else Lookup(f.vips, n);
      assert RestsAt(d1.s, e.s, n);
      if n in Stuck(d.s, c) {
        StuckGoes(d, f, out, c, n);
        StuckIs(d, f, n);
      }
      StuckNotStaged(d, f, out, c, n);
      SameHeading(d1, e, n);
      RetryAt(d, f, c, e, n);
    }
  }

  lemma {:induction false} StuckGoes(d: Daemon, f: File, out: Outside, c: Course, n: string)
    requires Agrees(d) && ValidVips(f.vips) && FreshFrom(d.s, out.first) && Proceeds(d.s, out, Delta(d, f), c)
      && n in Stuck(d.s, c)
    ensures Goes(Delta(d, f), n)
  {
    hide Agrees, ValidVips, FreshFrom, Proceeds, Delta, Stuck, Goes, Met, Apply, RunsThrough;
    ApplyHeads(d, f, out, c);
  }

  lemma {:induction false} StuckIs(d: Daemon, f: File, n: string)
    requires Agrees(d) && Goes(Delta(d, f), n)
    ensures Def(d.s, n).Some? && (Lookup(f.vips, n).None? || Lookup(f.vips, n).value.prefix != Def(d.s, n).value.prefix)
  {
    hide Core, Effective, WorkOf, Lookup, DistinctVips, Heading;
    EffectiveGoverns(d);
    WorkIs(d, f);
    var running := Effective(d.cur.vips, d.s.staging);
    assert Lookup(running, n) == Def(d.s, n);
    LookupIs(running, n);
  }

  lemma {:induction false} StuckNotStaged(d: Daemon, f: File, out: Outside, c: Course, n: string)
    requires Agrees(d) && ValidVips(f.vips) && FreshFrom(d.s, out.first) && Proceeds(d.s, out, Delta(d, f), c)
    ensures n in Stuck(d.s, c) ==> n !in Apply(d, f, c).s.staging
  {
    hide Proceeds, FreshFrom, ValidVips, AtTheEnd, Play, Stuck, Lookup, KeepFailed, Sorted, Delta, Agrees, Runnable,
      Def;
    ApplyHeads(d, f, out, c);
    var t := Apply(d, f, c).s;
    if n in Stuck(d.s, c) {
      StuckIs(d, f, n);
      assert Met(t, n, FateOf(Def(d.s, n), Lookup(f.vips, n), true));
      assert StagedAt(t, n).None?;
    }
  }

  lemma {:induction false} SameHeading(d: Daemon, e: Daemon, n: string)
    requires Agrees(d) && Agrees(e) && e.cur == d.cur
    ensures Heading(e.s, n) == Heading(d.s, n)
  {
    hide Core, Heading;
    assert Lookup(d.cur.vips, n) == Heading(d.s, n) && Lookup(e.cur.vips, n) == Heading(e.s, n);
  }

  lemma {:induction false} RetryAt(d: Daemon, f: File, c: Course, e: Daemon, n: string)
    requires Agrees(e) && ValidVips(f.vips)
    requires Heading(e.s, n) == if n in Stuck(d.s, c) then Def(d.s, n) else Lookup(f.vips, n)
    requires n in Stuck(d.s, c) ==> Def(d.s, n).Some? && n !in e.s.staging
    requires n in Stuck(d.s, c) ==>
      Lookup(f.vips, n).None? || Lookup(f.vips, n).value.prefix != Def(d.s, n).value.prefix
    ensures Retries(d, c, e, f, n)
  {
    hide Core, Effective, WorkOf, Lookup, Stuck, DistinctVips, ValidVip, ChangedNames, Delta;
    EffectiveGoverns(e);
    WorkIs(e, f);
    var running := Effective(e.cur.vips, e.s.staging);
    assert Lookup(running, n) == Def(e.s, n);
    LookupIs(running, n);
    LookupIs(f.vips, n);
    if n in e.s.staging {
      StagedIs(e.s, n);
      SelfUnchanged(e.s.staging[n].was);
    }
  }

  lemma SelfUnchanged(v: Vip)
    ensures ChangedNames(v, v) == {}
  {
  }

  /** The retry converges as soon as its withdraws succeed. */
  lemma {:induction false} RetryConverges(d: Daemon, f: File, out: Outside, c: Course, moves: seq<Move>, e: Daemon,
                                          out2: Outside, c2: Course, moves2: seq<Move>, g: Daemon)
    requires Agrees(d) && Allowed(d, ReloadFile(f, out, c)) && Judge(d, f, out) == Applies && !Clean(d, c)
    requires Leads(AfterMove(d, ReloadFile(f, out, c)), moves, e) && Quietly(moves)
    requires Allowed(e, ReloadFile(f, out2, c2)) && Judge(e, f, out2) == Applies && Clean(e, c2)
    requires Leads(AfterMove(e, ReloadFile(f, out2, c2)), moves2, g) && Quietly(moves2) && g.s.staging == map[]
    ensures forall n :: Def(g.s, n) == Lookup(f.vips, n)
  {
    hide Agrees, Allowed, AfterMove, Leads, Clean, Def, Lookup, Retries, RestsAt;
    MoveKeeps(d, ReloadFile(f, out, c));
    BetweenReloads(AfterMove(d, ReloadFile(f, out, c)), moves, e);
    RetriesExactly(d, f, out, c, moves, e);
    Converges(e, f, out2, c2, moves2, g);
  }

  /** The file-changed flag is truthful: when a poll of the file clears it and nothing is pending, that file runs. */
  lemma {:induction false} FlagIsTruthful(d: Daemon, f: File)
    requires Agrees(d) && d.s.staging == map[] && !AfterMove(d, Poll(Some(f))).fileChanged
    ensures forall n :: Def(d.s, n) == Lookup(f.vips, n)
  {
    hide Agrees, Def, Lookup;
    RunsTheFile(d, f);
  }

  /**
    A reload whose withdraws succeeded is remembered: whatever is committed since, the same file is
    then left alone, with every staging still waiting, and a poll tells exactly other files.
   */
  lemma {:induction false} ReloadIsRemembered(d: Daemon, f: File, out: Outside, c: Course, moves: seq<Move>, e: Daemon,
                                              out2: Outside, c2: Course, file: Option<File>)
    requires Agrees(d) && Allowed(d, ReloadFile(f, out, c)) && Judge(d, f, out) == Applies && Clean(d, c)
    requires Leads(AfterMove(d, ReloadFile(f, out, c)), moves, e) && Quietly(moves)
    requires Allowed(e, ReloadFile(f, out2, c2))
    ensures var again := AfterMove(e, ReloadFile(f, out2, c2));
      again.s == e.s && again.cur == e.cur && again.generation == e.generation && !again.fileChanged
    ensures AfterMove(e, Poll(file)).fileChanged <==> file != Some(f)
  {
    hide Agrees, Leads, Proceeds, ValidVips, FreshFrom, Delta, Follows, GoesOn, AtTheEnd, KeepFailed, Stuck, Rests;
    var d1 := AfterMove(d, ReloadFile(f, out, c));
    MoveKeeps(d, ReloadFile(f, out, c));
    BetweenReloads(d1, moves, e);
    RestsConfig(d1, e);
  }

  lemma RestsConfig(d: Daemon, e: Daemon)
    requires Rests(d, e)
    ensures e.cur == d.cur && e.hash == d.hash && e.generation == d.generation
  {
    hide RestsAt;
  }

  /** A file with another restart-only part is rejected, and no sequence of moves changes that part. */
  lemma {:induction false} RestartOnlyStands(d: Daemon, moves: seq<Move>, e: Daemon)
    requires Agrees(d) && Leads(d, moves, e)
    ensures e.cur.fixed == d.cur.fixed
    ensures forall f: File, out, c :: f.fixed != d.cur.fixed ==> IsRejected(e, ReloadFile(f, out, c))
    decreases |moves|
  {
    hide Agrees, Proceeds, ValidVips, FreshFrom, Delta, Follows, GoesOn, AtTheEnd, KeepFailed, Stuck, Step, Enabled,
      Played;
    if moves == [] {
      HashIsCurrent(e);
    } else {
      MoveKeeps(d, moves[0]);
      HashIsCurrent(d);
      RestartOnlyStands(AfterMove(d, moves[0]), moves[1..], e);
    }
  }

  lemma HashIsCurrent(d: Daemon)
    requires Agrees(d)
    ensures d.hash.Some? ==> d.hash.value == d.cur
  {
    hide Core, Lookup, Heading;
  }

  // ------------------------------------------------------------------
  // Supersession
  // ------------------------------------------------------------------

  /** The two reloads see VIP `n` alike. */
  ghost predicate SameClass(w: Work, w': Work, n: string) {
    (Goes(w, n) <==> Goes(w', n)) && (Comes(w, n) <==> Comes(w', n)) && (Alters(w, n) <==> Alters(w', n))
      && (Waits(w, n) <==> Waits(w', n))
  }

  lemma {:induction false} ClassByDefs(d: Daemon, e: Daemon, f: File, n: string)
    requires Agrees(d) && Agrees(e) && Def(e.s, n) == Def(d.s, n)
    ensures SameClass(Delta(e, f), Delta(d, f), n)
  {
    hide Core, Effective, WorkOf, Lookup, DistinctVips, ChangedNames;
    EffectiveGoverns(d);
    WorkIs(d, f);
    EffectiveGoverns(e);
    WorkIs(e, f);
    LookupIs(f.vips, n);
    var running, running' := Effective(d.cur.vips, d.s.staging), Effective(e.cur.vips, e.s.staging);
    assert Lookup(running, n) == Def(d.s, n) && Lookup(running', n) == Def(e.s, n);
    LookupIs(running, n);
    LookupIs(running', n);
  }

  /**
    Supersession. Reload F1 only staged VIP `n`, and F2 is reloaded before that commits. F2 then
    classifies `n` as it would have without F1, and `n` meets the fate that its definition before
    F1, F2's definition and F2's own withdraw call for. F1's definition plays no part.
   */
  lemma {:induction false} SupersededLeavesNoTrace(d: Daemon, f1: File, out1: Outside, c1: Course, moves: seq<Move>,
                                                   e: Daemon, f2: File, out2: Outside, c2: Course, n: string)
    requires Agrees(d) && Allowed(d, ReloadFile(f1, out1, c1)) && Judge(d, f1, out1) == Applies
    requires Leads(AfterMove(d, ReloadFile(f1, out1, c1)), moves, e) && Quietly(moves) && n in e.s.staging
    requires Allowed(e, ReloadFile(f2, out2, c2)) && Judge(e, f2, out2) == Applies
    ensures SameClass(Delta(e, f2), Delta(d, f2), n)
    ensures Met(AfterMove(e, ReloadFile(f2, out2, c2)).s, n,
      FateOf(Def(d.s, n), Lookup(f2.vips, n), n in Stuck(e.s, c2)))
  {
    hide Agrees, Proceeds, FreshFrom, ValidVips, Runnable, AtTheEnd, Play, Stuck, Leads, Lookup, KeepFailed, Delta,
      SameClass, Met, FateOf, Def;
    var d1 := AfterMove(d, ReloadFile(f1, out1, c1));
    ApplyHeads(d, f1, out1, c1);
    BetweenReloads(d1, moves, e);
    assert RestsAt(d1.s, e.s, n);
    assert Def(e.s, n) == Def(d.s, n) by { StagedOnly(d, f1, c1, d1, e, n); }
    ClassByDefs(d, e, f2, n);
    ApplyHeads(e, f2, out2, c2);
  }

  lemma {:induction false} StagedOnly(d: Daemon, f1: File, c1: Course, d1: Daemon, e: Daemon, n: string)
    requires Agrees(d1) && Agrees(e) && RestsAt(d1.s, e.s, n) && n in e.s.staging
    requires Met(d1.s, n, FateOf(Def(d.s, n), Lookup(f1.vips, n), n in Stuck(d.s, c1)))
    ensures Def(e.s, n) == Def(d.s, n)
  {
    hide Core, Lookup, Stuck, ChangedNames, Delta;
    StagedIs(d1.s, n);
    StagedIs(e.s, n);
  }

  /** Every shadow of the stagings a reload finds is closed when it is over. */
  lemma {:induction false} SupersededIsClosed(e: Daemon, f: File, out: Outside, c: Course, id: Id)
    requires Agrees(e) && ValidVips(f.vips) && FreshFrom(e.s, out.first) && Proceeds(e.s, out, Delta(e, f), c)
      && id in ShadowIds(e.s.staging)
    ensures var t := Apply(e, f, c).s; id in t.scheds && t.closed[id] == 1
  {
    hide FreshFrom, ValidVips, Core, ShadowIds, Runnable, Play, KeepFailed, Follows, GoesOn, OpenDuties, Stuck, Delta,
      Met, Goes, Lookup, Heading, Def;
    ApplyHeads(e, f, out, c);
    OpeningCloses(e.s, c.opening, Batches(out, Delta(e, f)), id);
    PlayStaysClosed(AfterOpening(e.s, c), c.removals, id);
    PlayStaysClosed(AfterRemovals(e.s, c), c.additions, id);
    PlayStaysClosed(AfterAdditions(e.s, c), c.changes, id);
    ClosedOnce(AtTheEnd(e.s, c), id);
  }

  lemma {:induction false} OpeningCloses(s: State, evs: seq<Event>, batches: seq<map<Id, Sched>>, id: Id)
    requires Core(s) && Runnable(s, evs) && Follows(evs, OpenDuties(batches)) && id in ShadowIds(s.staging)
    ensures id in Play(s, evs).scheds && Play(s, evs).closed[id] >= 1
    decreases |evs|
  {
    hide Core, ShadowIds, Enabled, Benign, Step;
    var ev, rest, duties := evs[0], evs[1..], OpenDuties(batches);
    StepKeepsIff(s, ev);
    if IsAside(ev) {
      AsideKeepsStaging(s, ev);
      OpeningCloses(Step(s, ev), rest, batches, id);
    } else if batches == [] {
      assert duties[0] == Drops;
      DroppedIsClosed(s, id);
      PlayStaysClosed(Step(s, ev), rest, id);
    } else {
      assert duties[0] == Opens(batches[0]) && duties[1..] == OpenDuties(batches[1..]);
      BuildKeepsStaging(s, ev);
      OpeningCloses(Step(s, ev), rest, batches[1..], id);
    }
  }

  lemma AsideKeepsStaging(s: State, ev: Event)
    requires Core(s) && IsAside(ev) && Enabled(s, ev)
    ensures Step(s, ev).staging == s.staging
  {
    hide Core, Step, Enabled;
    AsideKeepsDefs(s, ev);
  }

  lemma BuildKeepsStaging(s: State, ev: Event)
    requires Enabled(s, ev) && ev.Build?
    ensures Step(s, ev).staging == s.staging
  {
    hide IsNew;
  }

  lemma {:induction false} DroppedIsClosed(s: State, id: Id)
    requires Core(s) && Enabled(s, DropStaging) && id in ShadowIds(s.staging)
    ensures id in Step(s, DropStaging).scheds && Step(s, DropStaging).closed[id] >= 1
  {
    hide Core, ShadowIds;
    ShadowsKnown(s);
    assert multiset(ShadowIds(s.staging))[id] == 1;
  }

  lemma {:induction false} PlayStaysClosed(s: State, evs: seq<Event>, id: Id)
    requires Runnable(s, evs) && id in s.scheds
    ensures id in Play(s, evs).scheds && Play(s, evs).closed[id] >= s.closed[id]
    decreases |evs|
  {
    hide Enabled, Benign, Step;
    if evs != [] {
      ClosedStaysClosed(s, evs[0], id);
      PlayStaysClosed(Step(s, evs[0]), evs[1..], id);
    }
  }

  lemma ClosedOnce(t: State, id: Id)
    requires Core(t) && id in t.scheds && t.closed[id] >= 1
    ensures t.closed[id] == 1
  {
    hide VipsOk, QueueOk, RoutesOwned, NoStrays;
    assert IdOk(t, id);
  }

  lemma {:induction false} PlayedStaysClosed(s: State, evs: seq<Event>, id: Id)
    requires id in s.scheds
    ensures id in Played(s, evs).scheds && Played(s, evs).closed[id] >= s.closed[id]
  {
    hide Runnable, Play;
    if Runnable(s, evs) { PlayStaysClosed(s, evs, id); }
  }

  lemma {:induction false} MoveStaysClosed(d: Daemon, mv: Move, id: Id)
    requires Allowed(d, mv) && id in d.s.scheds
    ensures id in AfterMove(d, mv).s.scheds && AfterMove(d, mv).s.closed[id] >= d.s.closed[id]
  {
    hide Proceeds, ValidVips, FreshFrom, Played, Step, Enabled, Follows, GoesOn, Stuck, KeepFailed;
    match mv
    case Internal(ev) => ClosedStaysClosed(d.s, ev, id);
    case ReloadFile(f, out, c) =>
      PlayedStaysClosed(d.s, c.opening, id);
      PlayedStaysClosed(AfterOpening(d.s, c), c.removals, id);
      PlayedStaysClosed(AfterRemovals(d.s, c), c.additions, id);
      PlayedStaysClosed(AfterAdditions(d.s, c), c.changes, id);
    case _ =>
  }

  /** A scheduler that was ever closed stays silent in every later state of the daemon. */
  lemma {:induction false} SilentForever(d: Daemon, moves: seq<Move>, e: Daemon, id: Id)
    requires Agrees(d) && Leads(d, moves, e) && id in d.s.scheds && d.s.closed[id] >= 1
    ensures id in e.s.scheds && e.s.closed[id] == 1 && !Current(e.s, id)
    ensures forall ev: Event :: ev.Run? || ev.DeliverResult? || ev.DeliverTransition? ==>
      Enabled(e.s, ev) ==> ev.id != id
    decreases |moves|
  {
    hide Agrees, Allowed, AfterMove, Enabled;
    if moves == [] {
      AgreesCore(d);
      ClosedOnce(d.s, id);
      ClosedIsSilent(d.s, id);
    } else {
      MoveKeeps(d, moves[0]);
      MoveStaysClosed(d, moves[0], id);
      SilentForever(AfterMove(d, moves[0]), moves[1..], e, id);
    }
  }

  /** No shadow of a superseded staging influences the daemon again. */
  lemma {:induction false} SupersededIsSilent(e: Daemon, f: File, out: Outside, c: Course, moves: seq<Move>, g: Daemon,
                                              id: Id)
    requires Agrees(e) && Allowed(e, ReloadFile(f, out, c)) && Judge(e, f, out) == Applies
      && id in ShadowIds(e.s.staging)
    requires Leads(AfterMove(e, ReloadFile(f, out, c)), moves, g)
    ensures id in g.s.scheds && g.s.closed[id] == 1 && !Current(g.s, id)
    ensures forall ev: Event :: ev.Run? || ev.DeliverResult? || ev.DeliverTransition? ==>
      Enabled(g.s, ev) ==> ev.id != id
  {
    hide Agrees, Leads, Proceeds, FreshFrom, ValidVips, Runnable, AtTheEnd, Play, Enabled, ShadowIds, KeepFailed, Stuck;
    SupersededIsClosed(e, f, out, c, id);
    MoveKeeps(e, ReloadFile(f, out, c));
    SilentForever(AfterMove(e, ReloadFile(f, out, c)), moves, g, id);
  }
}
