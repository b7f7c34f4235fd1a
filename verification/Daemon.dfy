/**
  The daemon with its running config. Reload attempts, commits, check runs and callbacks follow
  one another in any order; the running config always says what governs and what is coming.
 */
module Daemon {
  import opened Config
  import opened Policy
  import opened System
  import opened Safety
  import opened CommitSafety
  import opened Runs
  import opened Staging
  import opened Diff
  import opened Batch
  import opened Reload
  import opened Build
  import opened Weave
  import opened Course
  import opened Rejection

  /** `hash` is the file whose hash is remembered; hashes are injective and `None` is the zero hash. */
  datatype Daemon = Daemon(s: State, cur: File, hash: Option<File>, generation: nat, fileChanged: bool)

  /** A reload reads the file; its course are the events from its start to its end, asides included. */
  datatype Move =
    | Internal(ev: Event)
    | Unreadable
    | ReloadFile(f: File, out: Outside, c: Course)
    | Poll(file: Option<File>)

  /** The events that are not a reload's own. */
  predicate IsInternal(ev: Event) { IsAside(ev) || ev.Report? || ev.Expire? }

  function Delta(d: Daemon, f: File): Work { WorkOf(Effective(d.cur.vips, d.s.staging), f.vips) }

  datatype Judgement = Same | NeedsRestart | BuildFails | Applies

  /** How many of the reload's build jobs succeed before the first failure. */
  function Succeeding(d: Daemon, f: File, out: Outside): nat { Good(WorkJobs(Delta(d, f)), out.oracle) }

  function Judge(d: Daemon, f: File, out: Outside): Judgement {
    if d.hash == Some(f) then Same
    else if f.fixed != d.cur.fixed then NeedsRestart
    else if Succeeding(d, f, out) < |WorkJobs(Delta(d, f))| then BuildFails
    else Applies
  }

  /** The schedulers that had been returned when the build failed. */
  function Returned(d: Daemon, f: File, out: Outside): seq<map<Id, Sched>> {
    Batches(out, Delta(d, f))[..Succeeding(d, f, out)]
  }

  /** A file passes validation, scheduler numbers are unused, and the events are those of the program. */
  ghost predicate Allowed(d: Daemon, mv: Move) {
    match mv
    case Internal(ev) => IsInternal(ev) && Enabled(d.s, ev)
    case Unreadable => true
    case Poll(_) => true
    case ReloadFile(f, out, c) =>
      ValidVips(f.vips) && FreshFrom(d.s, out.first) &&
      match Judge(d, f, out)
      case BuildFails =>
        Follows(c.opening, OpenOnly(Returned(d, f, out)) + CloseDuties(Returned(d, f, out))) && GoesOn(d.s, c.opening)
      case Applies => Proceeds(d.s, out, Delta(d, f), c)
      case _ => true
  }

  ghost function AfterMove(d: Daemon, mv: Move): Daemon
    requires Allowed(d, mv)
  {
    match mv
    case Internal(ev) => d.(s := Step(d.s, ev))
    case Unreadable => d
    case Poll(file) => d.(fileChanged := file.None? || file != d.hash)
    case ReloadFile(f, out, c) =>
      match Judge(d, f, out)
      case Same => d.(fileChanged := false)
      case NeedsRestart => d.(fileChanged := true)
      case BuildFails => d.(s := Played(d.s, c.opening), fileChanged := true)
      case Applies => Apply(d, f, c)
  }

  /** Apply a file: VIPs that had to stay are put back into the config, and with any of them no hash is remembered. */
  ghost function Apply(d: Daemon, f: File, c: Course): Daemon {
    var stuck := Stuck(d.s, c);
    Daemon(AtTheEnd(d.s, c), f.(vips := KeepFailed(f.vips, Delta(d, f).running, stuck)),
           if stuck == {} then Some(f) else None, d.generation + 1, stuck != {})
  }

  // ------------------------------------------------------------------
  // The governing-definition invariant
  // ------------------------------------------------------------------

  /** The definition a VIP runs or is about to run. */
  function Heading(s: State, n: string): Option<Vip> {
    if n in s.staging then Some(s.staging[n].cfg) else Def(s, n)
  }

  /**
    The running config lists exactly the definitions the daemon runs or is about to run, and a
    remembered hash is its own.
   */
  ghost predicate Agrees(d: Daemon) {
    && Core(d.s) && d.s.built == {}
    && DistinctVips(d.cur.vips) && (forall n :: Lookup(d.cur.vips, n) == Heading(d.s, n))
    && (d.hash.Some? ==> d.hash.value == d.cur)
  }

  lemma AgreesCore(d: Daemon)
    requires Agrees(d)
    ensures Core(d.s)
  {
    hide Core, Lookup, Heading;
  }

  /** As maps, the effective VIP list and the policy manager's definitions are equal. */
  lemma {:induction false} EffectiveGoverns(d: Daemon)
    requires Agrees(d)
    ensures var running := Effective(d.cur.vips, d.s.staging); DistinctVips(running) && Governing(d.s, running)
  {
    hide Core, Lookup, DistinctVips, Effective;
    forall m | m in d.s.staging
      ensures d.s.staging[m].was.name == m && m in d.s.vips && d.s.staging[m].was == d.s.vips[m].cfg
    {
      StagedIs(d.s, m);
    }
    EffectiveDistinct(d.cur.vips, d.s.staging);
    forall n
      ensures Lookup(Effective(d.cur.vips, d.s.staging), n) == Def(d.s, n)
    {
      EffectiveLookup(d.cur.vips, d.s.staging, n);
      assert Lookup(d.cur.vips, n) == Heading(d.s, n);
    }
  }

  lemma {:induction false} StagedIs(s: State, m: string)
    requires Core(s) && m in s.staging
    ensures m in s.vips && s.staging[m].was == s.vips[m].cfg && s.staging[m].was.name == m
    ensures s.staging[m].cfg.name == m && s.staging[m].cfg.prefix == s.staging[m].was.prefix
    ensures ChangedNames(s.staging[m].was, s.staging[m].cfg) != {}
  {
    hide VipsOk, IdsOk, QueueOk, RoutesOwned, ValidVip, ChangedNames, RemovedNames, ShadowOk, EntryOk, RouteOk;
    StagedHere(s, m);
    NameHere(s, m);
  }

  // ------------------------------------------------------------------
  // Every move keeps it
  // ------------------------------------------------------------------

  /** Between two states nothing new is staged for `n`, and what is staged keeps its definitions until it commits. */
  predicate RestsAt(s: State, t: State, n: string) {
    && (n !in s.staging ==> n !in t.staging && Def(t, n) == Def(s, n))
    && (n in t.staging ==>
       n in s.staging && t.staging[n].was == s.staging[n].was && t.staging[n].cfg == s.staging[n].cfg)
  }

  predicate OnCourse(s: State, t: State, n: string) {
    Heading(t, n) == Heading(s, n) && RestsAt(s, t, n) && t.built == s.built
  }

  /** Check runs, callbacks and commits move no VIP off its heading. */
  lemma {:induction false} InternalHeads(s: State, ev: Event, n: string)
    requires Core(s) && IsInternal(ev) && Enabled(s, ev)
    ensures OnCourse(s, Step(s, ev), n)
  {
    hide Core, StepResult, StepTransition, StepReport, StepCommit, AfterRun, CommitQuiet, Completes, OnCourse;
    match ev
    case DeliverResult(id, seen, b, b2) => ResultHeads(s, id, seen, b, b2); CourseKept(s, Step(s, ev), n);
    case DeliverTransition(id, seen, b) => TransitionHeads(s, id, seen, b); CourseKept(s, Step(s, ev), n);
    case Report(seen, b) => ReportHeads(s, seen, b, n);
    case Expire(m, _, seen, b) => CommitHeads(s, m, seen, b, n);
    case Run(_, _) => SameSelf(s, Step(s, ev)); CourseKept(s, Step(s, ev), n);
    case DrainQueue => SameSelf(s, Step(s, ev)); CourseKept(s, Step(s, ev), n);
    case _ =>
  }

  lemma CourseKept(s: State, t: State, n: string)
    requires SameDefs(s, t)
    ensures OnCourse(s, t, n)
  {
  }

  lemma {:induction false} CommitHeads(s: State, m: string, seen: bool, b: Bgp, n: string)
    requires Core(s) && m in s.staging
    ensures OnCourse(s, StepCommit(s, m, seen, b), n)
  {
    hide Core, VipsOk, Commit, Committable, Switch, Fits, Seeds, StagedOk, EntryOk, RouteOk, ValidVip;
    assert VipsOk(s) by { CoreVips(s); }
    StagedHere(s, m);
    StagedFits(s, m);
    EntryHere(s, m);
    StagedIs(s, m);
    var st := s.staging[m];
    NeverRefused(s, st.cfg, st.shadows, st.removed);
    SwitchedIs(s, st.cfg, st.shadows, st.removed, seen, b);
    var e := s.vips[m];
    CommitCfg(e, RouteAt(s, e.cfg.prefix), st.cfg, Seeds(s.scheds, st.shadows), seen, b);
  }

  lemma {:induction false} ReportHeads(s: State, seen: bool, b: Bgp, n: string)
    requires Core(s) && s.drained != []
    ensures OnCourse(s, StepReport(s, seen, b), n)
  {
    hide Core, StepCommit, CommitQuiet, OnCourse, SameDefs;
    var id := s.drained[0];
    var s1 := s.(drained := s.drained[1..]);
    if !Current(s, id) {
      SameSelf(s, s1);
      CourseKept(s, s1, n);
    } else {
      var m := s.scheds[id].vip;
      var s2 := s1.(staging := s.staging[m := Noted(s.staging[m], s.scheds[id].Name())]);
      if Completes(s) {
        NotedSame(s, m, s2, seen, b);
        CommitHeads(s, m, seen, b, n);
        CoursePops(s, StepCommit(s, m, seen, b), StepReport(s, seen, b), n);
      } else {
        CourseNoted(s, s2, m, n);
      }
    }
  }

  lemma CoursePops(s: State, t: State, u: State, n: string)
    requires OnCourse(s, t, n) && u == t.(drained := u.drained)
    ensures OnCourse(s, u, n)
  {
  }

  lemma CourseNoted(s: State, t: State, m: string, n: string)
    requires m in s.staging && m in t.staging && t.staging == s.staging[m := t.staging[m]] && t.vips == s.vips
      && t.built == s.built
    requires t.staging[m].cfg == s.staging[m].cfg && t.staging[m].was == s.staging[m].was
    ensures OnCourse(s, t, n)
  {
  }

  /** The last verdict does not matter to the commit it triggers. */
  lemma {:induction false} NotedSame(s: State, m: string, s2: State, seen: bool, b: Bgp)
    requires m in s.staging && s.drained != [] && m in s2.staging
    requires s2 == s.(drained := s.drained[1..], staging := s.staging[m := s2.staging[m]])
    requires s2.staging[m] == s.staging[m].(verdicts := s2.staging[m].verdicts)
    ensures StepCommit(s2, m, seen, b) == StepCommit(s, m, seen, b).(drained := s.drained[1..])
  {
    hide Switch;
    assert s2.staging - {m} == s.staging - {m};
    var st, rest := s.staging[m], s.(staging := s.staging - {m});
    assert s2.(staging := s2.staging - {m}) == rest.(drained := s.drained[1..]);
    SwitchPops(rest, s.drained[1..], st.cfg, st.shadows, st.removed, seen, b);
  }

  /** The drained verdicts do not matter to a switch. */
  lemma {:induction false} SwitchPops(s: State, q: seq<Id>, v: Vip, shadows: map<string, Id>, removed: set<string>,
                                      seen: bool, b: Bgp)
    ensures Switch(s.(drained := q), v, shadows, removed, seen, b) ==
      Switch(s, v, shadows, removed, seen, b).(drained := q)
  {
    hide CommitPolicy, Picked, Mark, Enlist, Seeds;
    var t := Promote(Retire(s, v.name, removed + shadows.Keys), v.name, shadows);
    assert Promote(Retire(s.(drained := q), v.name, removed + shadows.Keys), v.name, shadows) == t.(drained := q);
    PolicyPops(t, q, v, Seeds(s.scheds, shadows), seen, b);
  }

  lemma PolicyPops(s: State, q: seq<Id>, v: Vip, seeds: map<string, Health>, seen: bool, b: Bgp)
    ensures CommitPolicy(s.(drained := q), v, seeds, seen, b) == CommitPolicy(s, v, seeds, seen, b).(drained := q)
  {
    hide Commit, Committable, Install;
    if v.name in s.vips && Committable(s.vips[v.name], v, seeds) {
      var e := s.vips[v.name];
      InstallPops(s, q, v.name, Commit(e, RouteAt(s, e.cfg.prefix), v, seeds, seen, b));
    }
  }

  lemma InstallPops(s: State, q: seq<Id>, n: string, f: Effect)
    ensures Install(s.(drained := q), n, f) == Install(s, n, f).(drained := q)
  {
    hide PutRoute;
  }

  lemma {:induction false} KeepsInternal(d: Daemon, ev: Event)
    requires Agrees(d) && IsInternal(ev) && Enabled(d.s, ev)
    ensures Agrees(d.(s := Step(d.s, ev)))
  {
    hide Core, Step, Enabled, Lookup, DistinctVips, Heading, RestsAt;
    StepKeepsIff(d.s, ev);
    assert Benign(d.s, ev);
    InternalHeads(d.s, ev, "");
    forall n
      ensures Heading(Step(d.s, ev), n) == Heading(d.s, n)
    {
      InternalHeads(d.s, ev, n);
    }
  }

  /** Where the fates head: to the file, or back to what runs. */
  lemma {:induction false} MetHeads(t: State, n: string, o: Option<Vip>, v: Option<Vip>, fails: bool)
    requires Met(t, n, FateOf(o, v, fails))
    requires fails ==> o.Some? && (v.None? || v.value.prefix != o.value.prefix)
    ensures Heading(t, n) == if fails then o else v
  {
    hide ChangedNames;
  }

  /** What an applied reload makes of the daemon, whatever interleaves with it. */
  lemma {:induction false} ApplyHeads(d: Daemon, f: File, out: Outside, c: Course)
    requires Agrees(d) && ValidVips(f.vips) && FreshFrom(d.s, out.first) && Proceeds(d.s, out, Delta(d, f), c)
    ensures RunsThrough(d.s, c) && Agrees(Apply(d, f, c))
    ensures forall n :: n in Stuck(d.s, c) ==> Goes(Delta(d, f), n)
    ensures forall n :: Met(Apply(d, f, c).s, n, FateOf(Def(d.s, n), Lookup(f.vips, n), n in Stuck(d.s, c)))
  {
    hide Core, ValidVip, Effective, RunsThrough, Proceeds, AtTheEnd, Stuck, Met, FateOf, Lookup, Sorted, Goes, WorkOf,
      KeepFailed, ValidVips, Heading, FreshFrom;
    var w := Delta(d, f);
    EffectiveGoverns(d);
    WorkIs(d, f);
    WorkIsSorted(w.running, f.vips);
    CourseMeetsFates(d.s, out, w, c);
    var e, stuck := Apply(d, f, c), Stuck(d.s, c);
    forall n
      ensures Met(e.s, n, FateOf(Def(d.s, n), Lookup(f.vips, n), n in stuck))
      ensures Lookup(e.cur.vips, n) == Heading(e.s, n)
    {
      assert Lookup(w.running, n) == Def(d.s, n);
      ApplyAt(d, f, w, e.s, stuck, n);
    }
    SortedDistinct(w);
    KeptDistinct(f.vips, w.running, stuck);
    if e.hash.Some? {
      NoneFailed(f.vips, w.running);
    }
  }

  lemma WorkIs(d: Daemon, f: File)
    ensures Delta(d, f).running == Effective(d.cur.vips, d.s.staging) && Delta(d, f).cand == f.vips
    ensures Delta(d, f) == WorkOf(Delta(d, f).running, f.vips)
  {
    hide Effective, AddedOf, RemovedOf, ChangedOf;
  }

  lemma SortedDistinct(w: Work)
    requires Sorted(w)
    ensures DistinctVips(w.running) && DistinctVips(w.cand)
  {
    hide DistinctVips, ValidVip, IsAdded, IsRemoved, IsChanged, DistinctChanges, Lookup;
  }

  lemma {:induction false} NoneFailed(cand: seq<Vip>, running: seq<Vip>)
    ensures KeepFailed(cand, running, {}) == cand
  {
    hide Leftover, Lookup;
    LeftoverIs(running, cand, {});
    if Leftover(running, cand, {}) != [] {
      assert Leftover(running, cand, {})[0] in Leftover(running, cand, {});
    }
  }

  lemma {:induction false} ApplyAt(d: Daemon, f: File, w: Work, t: State, stuck: set<string>, n: string)
    requires w.cand == f.vips && Sorted(w) && Governing(d.s, w.running) && forall m :: m in stuck ==> Goes(w, m)
    requires Met(t, n, FateOf(Lookup(w.running, n), Lookup(w.cand, n), n in stuck))
    ensures Lookup(KeepFailed(f.vips, w.running, stuck), n) == Heading(t, n)
  {
    hide Core, Lookup, Sorted, KeepFailed, Met, FateOf, Heading;
    LookupIs(w.running, n);
    LookupIs(w.cand, n);
    MetHeads(t, n, Lookup(w.running, n), Lookup(w.cand, n), n in stuck);
    SortedDistinct(w);
    KeptLookup(f.vips, w.running, stuck, n);
  }

  // ------------------------------------------------------------------
  // Rejection
  // ------------------------------------------------------------------

  predicate IsRejected(d: Daemon, mv: Move) {
    mv.Unreadable?
      || (mv.ReloadFile? && (Judge(d, mv.f, mv.out) == NeedsRestart || Judge(d, mv.f, mv.out) == BuildFails))
  }

  /** What happened beside a rejected reload while its build was under way. */
  function Meanwhile(d: Daemon, mv: Move): seq<Event> {
    if mv.ReloadFile? && Judge(d, mv.f, mv.out) == BuildFails then Asides(mv.c.opening) else []
  }

  /**
    A rejected reload, for whatever reason, at whatever job the build failed and whatever
    interleaved with it: the daemon is as if only the asides had happened, except for the
    file-changed flag. The schedulers that had been returned were closed, each once.
   */
  lemma {:induction false} RejectionIsNoOp(d: Daemon, mv: Move)
    requires Agrees(d) && Allowed(d, mv) && IsRejected(d, mv)
    ensures Runnable(d.s, Meanwhile(d, mv))
    ensures var e := AfterMove(d, mv);
      && e.cur == d.cur && e.hash == d.hash && e.generation == d.generation && (mv.ReloadFile? ==> e.fileChanged)
      && Untouched(Play(d.s, Meanwhile(d, mv)), e.s) && Agrees(e)
  {
    hide Agrees, Untouched, Runnable, Play, Proceeds, ValidVips, Enabled, Follows, GoesOn, FreshFrom, Batches;
    if mv.ReloadFile? && Judge(d, mv.f, mv.out) == BuildFails {
      AgreesCore(d);
      ReturnedUnused(d, mv.f, mv.out);
      RejectedRuns(d.s, Returned(d, mv.f, mv.out), mv.c.opening);
      AsidesAre(mv.c.opening);
      AsidesKeep(d, Asides(mv.c.opening));
      UntouchedAgrees(d.(s := Play(d.s, Meanwhile(d, mv))), AfterMove(d, mv));
    } else {
      NothingMeanwhile(d);
      FlagOnly(d, AfterMove(d, mv));
    }
  }

  lemma {:induction false} NothingMeanwhile(d: Daemon)
    requires Agrees(d)
    ensures Runnable(d.s, []) && Play(d.s, []) == d.s && Untouched(d.s, d.s)
  {
    hide Core, Lookup, Heading;
  }

  lemma {:induction false} ReturnedUnused(d: Daemon, f: File, out: Outside)
    requires Agrees(d) && FreshFrom(d.s, out.first)
    ensures d.s.built == {} && Unused(d.s, Returned(d, f, out))
  {
    hide Core, Lookup, Heading, FreshFrom, Unused, Made, NextId;
    BatchesUnused(d.s, out, Delta(d, f));
    UnusedPrefix(d.s, Batches(out, Delta(d, f)), Succeeding(d, f, out));
  }

  lemma UnusedPrefix(s: State, batches: seq<map<Id, Sched>>, k: nat)
    requires Unused(s, batches) && k <= |batches|
    ensures Unused(s, batches[..k])
  {
    hide FreshBatch;
  }

  lemma {:induction false} AsidesKeep(d: Daemon, evs: seq<Event>)
    requires Agrees(d) && Runnable(d.s, evs) && forall i :: 0 <= i < |evs| ==> IsAside(evs[i])
    ensures Agrees(d.(s := Play(d.s, evs)))
    decreases |evs|
  {
    hide Agrees, Enabled, Benign, Step, IsAside;
    if evs == [] {
      assert d.(s := Play(d.s, evs)) == d;
    } else {
      var d1 := d.(s := Step(d.s, evs[0]));
      KeepsInternal(d, evs[0]);
      AsidesKeep(d1, evs[1..]);
      assert d.(s := Play(d.s, evs)) == d1.(s := Play(d1.s, evs[1..]));
    }
  }

  lemma {:induction false} UntouchedAgrees(d: Daemon, e: Daemon)
    requires Agrees(d) && Core(e.s) && Untouched(d.s, e.s) && e.cur == d.cur && e.hash == d.hash
    ensures Agrees(e)
  {
    hide Core, Lookup, IsNew;
    forall n
      ensures Heading(e.s, n) == Heading(d.s, n)
    {
    }
  }

  // ------------------------------------------------------------------
  // Runs of the daemon
  // ------------------------------------------------------------------

  lemma {:induction false} MoveKeeps(d: Daemon, mv: Move)
    requires Agrees(d) && Allowed(d, mv)
    ensures Agrees(AfterMove(d, mv))
  {
    hide Agrees, Enabled, Step, Proceeds, ValidVips, Runnable, Play, Apply, FreshFrom, Follows, GoesOn;
    match mv
    case Internal(ev) => KeepsInternal(d, ev);
    case Unreadable =>
    case Poll(file) => FlagOnly(d, AfterMove(d, mv));
    case ReloadFile(f, out, c) =>
      if IsRejected(d, mv) {
        RejectionIsNoOp(d, mv);
      } else if Judge(d, f, out) == Same {
        FlagOnly(d, AfterMove(d, mv));
      } else {
        ApplyHeads(d, f, out, c);
      }
  }

  lemma FlagOnly(d: Daemon, e: Daemon)
    requires Agrees(d) && e == d.(fileChanged := e.fileChanged)
    ensures Agrees(e)
  {
    hide Core, Lookup, Heading;
  }

  ghost predicate Leads(d: Daemon, moves: seq<Move>, e: Daemon)
    decreases |moves|
  {
    if moves == [] then e == d
    else Allowed(d, moves[0]) && Leads(AfterMove(d, moves[0]), moves[1..], e)
  }

  /** Nothing is configured and nothing runs. */
  function Nothing(f: File): Daemon { Daemon(EMPTY, f.(vips := []), None, 0, false) }

  /** The daemon as it starts: its first config over an empty one. */
  ghost predicate Starts(d: Daemon, f: File, out: Outside, c: Course) {
    && ValidVips(f.vips) && FreshFrom(EMPTY, out.first) && Proceeds(EMPTY, out, Delta(Nothing(f), f), c)
    && d == Daemon(AtTheEnd(EMPTY, c), f, Some(f), 1, false)
  }

  lemma {:induction false} StartAgrees(d: Daemon, f: File, out: Outside, c: Course)
    requires Starts(d, f, out, c)
    ensures Agrees(d) && RunsThrough(EMPTY, c)
  {
    hide Core, Proceeds, FreshFrom, RemovedOf, AddedOf, ChangedOf, ValidVip, AtTheEnd, RunsThrough, Stuck, Goes;
    EmptyIsCore();
    var none := Nothing(f);
    assert Effective(none.cur.vips, none.s.staging) == [];
    assert Agrees(none);
    ApplyHeads(none, f, out, c);
    assert Stuck(EMPTY, c) == {} by {
      forall n ensures n !in Stuck(EMPTY, c) { NothingGoes(none, f, n); }
    }
    NoneFailed(f.vips, []);
    assert Apply(none, f, c).s == d.s && Apply(none, f, c).cur == f;
  }

  lemma {:induction false} NothingGoes(none: Daemon, f: File, n: string)
    requires none == Nothing(f)
    ensures !Goes(Delta(none, f), n)
  {
    hide RemovedOf, AddedOf, ChangedOf;
    assert Effective(none.cur.vips, none.s.staging) == [];
  }

  /** Over every run of the daemon the running config describes what governs and what is coming. */
  lemma {:induction false} AlwaysAgrees(d: Daemon, moves: seq<Move>, e: Daemon)
    requires Agrees(d) && Leads(d, moves, e)
    ensures Agrees(e)
    decreases |moves|
  {
    hide Agrees, Allowed, AfterMove;
    if moves != [] {
      MoveKeeps(d, moves[0]);
      AlwaysAgrees(AfterMove(d, moves[0]), moves[1..], e);
    }
  }

  /** One visible scheduler per check of the governing definition, built from that check. */
  predicate VisiblyGoverned(s: State, n: string)
    requires n in s.vips
  {
    && n in s.visible && s.visible[n].Keys == s.vips[n].cfg.Checks().Keys
    && forall c :: c in s.visible[n] ==>
       s.visible[n][c] in s.scheds && Governs(s.scheds[s.visible[n][c]], s.vips[n].cfg, c)
  }

  /**
    The governing-definition invariant over every run from startup: as maps, the effective VIP
    list and the policy manager's definitions are equal, and every visible scheduler was built
    from the governing definition of its check.
   */
  lemma {:induction false} GoverningDefinitions(d: Daemon, f: File, out: Outside, c: Course, moves: seq<Move>,
                                                e: Daemon, n: string)
    requires Starts(d, f, out, c) && Leads(d, moves, e)
    ensures Lookup(Effective(e.cur.vips, e.s.staging), n) == Def(e.s, n)
    ensures n in e.s.vips ==> VisiblyGoverned(e.s, n)
    ensures n in e.s.staging ==>
      n in e.s.vips && Committable(e.s.vips[n], e.s.staging[n].cfg, Seeds(e.s.scheds, e.s.staging[n].shadows))
  {
    hide Core, Leads, Starts, Lookup, Committable, Seeds, Governs, Effective, Heading, Def;
    StartAgrees(d, f, out, c);
    AlwaysAgrees(d, moves, e);
    EffectiveGoverns(e);
    if n in e.s.vips {
      CoreRoutes(e.s, n);
    }
    if n in e.s.staging {
      StagedCommits(e.s, n);
    }
  }

  lemma {:induction false} StagedCommits(s: State, n: string)
    requires Core(s) && n in s.staging
    ensures n in s.vips && Committable(s.vips[n], s.staging[n].cfg, Seeds(s.scheds, s.staging[n].shadows))
  {
    hide Core, VipsOk, Committable, Seeds, Fits, StagedOk, EntryOk, RouteOk, ValidVip;
    assert VipsOk(s) by { CoreVips(s); }
    StagedHere(s, n);
    StagedFits(s, n);
    EntryHere(s, n);
    var st := s.staging[n];
    NeverRefused(s, st.cfg, st.shadows, st.removed);
  }

  /**
    Over every run of the daemon, at rest: every scheduler that was ever built is listed, or a
    shadow of a staging, or was closed once, and exactly one of these; it runs exactly until it is closed.
   */
  lemma {:induction false} EverySchedulerAccounted(d: Daemon, f: File, out: Outside, c: Course, moves: seq<Move>,
                                                   e: Daemon, id: Id)
    requires Starts(d, f, out, c) && Leads(d, moves, e) && id in e.s.scheds
    ensures e.s.closed[id] <= 1
    ensures id in e.s.running <==> e.s.closed[id] == 0
    ensures e.s.closed[id] == 0 <==> Listed(e.s, id) || Current(e.s, id)
    ensures !(Listed(e.s, id) && Current(e.s, id))
  {
    hide Core, Leads, Starts, Lookup, Heading;
    StartAgrees(d, f, out, c);
    AlwaysAgrees(d, moves, e);
    CoreConserved(e.s, id);
  }

  // ------------------------------------------------------------------
  // Every run of the daemon is a run of the system
  // ------------------------------------------------------------------

  /** The events of a whole course. */
  function AllOf(c: Course): seq<Event> { c.opening + c.removals + c.additions + c.changes }

  lemma {:induction false} CourseReaches(s: State, c: Course)
    requires RunsThrough(s, c)
    ensures Reaches(s, AllOf(c), AtTheEnd(s, c))
  {
    hide Runnable, Play, Reaches;
    PlayReaches(s, c.opening);
    PlayReaches(AfterOpening(s, c), c.removals);
    PlayReaches(AfterRemovals(s, c), c.additions);
    PlayReaches(AfterAdditions(s, c), c.changes);
    ReachesConcat(s, c.opening, AfterOpening(s, c), c.removals, AfterRemovals(s, c));
    ReachesConcat(s, c.opening + c.removals, AfterRemovals(s, c), c.additions, AfterAdditions(s, c));
    ReachesConcat(s, c.opening + c.removals + c.additions, AfterAdditions(s, c), c.changes, AtTheEnd(s, c));
  }

  lemma {:induction false} MoveReaches(d: Daemon, mv: Move) returns (evs: seq<Event>)
    requires Agrees(d) && Allowed(d, mv)
    ensures Reaches(d.s, evs, AfterMove(d, mv).s)
  {
    hide Agrees, Enabled, Step, Proceeds, ValidVips, Runnable, Play, Reaches, FreshFrom, Follows, GoesOn, Batches,
      RunsThrough, AtTheEnd, Stuck, KeepFailed;
    evs := [];
    NoEventsReach(d.s);
    match mv
    case Internal(ev) =>
      evs := [ev];
      OneEventReaches(d.s, ev);
    case ReloadFile(f, out, c) =>
      if Judge(d, f, out) == BuildFails {
        AgreesCore(d);
        ReturnedUnused(d, f, out);
        RejectedRuns(d.s, Returned(d, f, out), c.opening);
        PlayReaches(d.s, c.opening);
        evs := c.opening;
      } else if Judge(d, f, out) == Applies {
        ApplyHeads(d, f, out, c);
        CourseReaches(d.s, c);
        evs := AllOf(c);
      }
    case _ =>
  }

  lemma NoEventsReach(s: State)
    ensures Reaches(s, [], s)
  {
  }

  lemma OneEventReaches(s: State, ev: Event)
    requires Enabled(s, ev) && IsInternal(ev)
    ensures Reaches(s, [ev], Step(s, ev))
  {
    hide Enabled, Step;
    assert [ev][1..] == [];
    NoEventsReach(Step(s, ev));
  }

  lemma {:induction false} MovesReach(d: Daemon, moves: seq<Move>, e: Daemon) returns (evs: seq<Event>)
    requires Agrees(d) && Leads(d, moves, e)
    ensures Reaches(d.s, evs, e.s)
    decreases |moves|
  {
    hide Agrees, Allowed, AfterMove, Reaches;
    if moves == [] {
      evs := [];
      NoEventsReach(d.s);
    } else {
      MoveKeeps(d, moves[0]);
      var d1 := AfterMove(d, moves[0]);
      var a := MoveReaches(d, moves[0]);
      var b := MovesReach(d1, moves[1..], e);
      ReachesConcat(d.s, a, d1.s, b, e.s);
      evs := a + b;
    }
  }

  /**
    Whatever the daemon does from its start, with reloads interleaved in any way, is a run of the
    system: what holds over those holds here.
   */
  lemma {:induction false} DaemonReaches(d: Daemon, f: File, out: Outside, c: Course, moves: seq<Move>, e: Daemon)
    returns (evs: seq<Event>)
    requires Starts(d, f, out, c) && Leads(d, moves, e)
    ensures Reaches(EMPTY, evs, e.s)
  {
    hide Agrees, Leads, Reaches, RunsThrough, AtTheEnd, Proceeds, ValidVips;
    StartAgrees(d, f, out, c);
    CourseReaches(EMPTY, c);
    var b := MovesReach(d, moves, e);
    ReachesConcat(EMPTY, AllOf(c), d.s, b, e.s);
    evs := AllOf(c) + b;
  }

  /** Over every run of the daemon, the route of a settled VIP is what its check histories call for. */
  lemma {:induction false} RoutesFollowThroughReloads(d: Daemon, f: File, out: Outside, c: Course, moves: seq<Move>,
                                                      e: Daemon, n: string)
    requires Starts(d, f, out, c) && Leads(d, moves, e) && n in e.s.vips
    ensures Governed(e.s, n) && (Settled(e.s, n) ==> RouteAt(e.s, e.s.vips[n].cfg.prefix) == ExpectedRoute(e.s, n))
  {
    hide Leads, Starts, Reaches, Settled, ExpectedRoute, Governs;
    var evs := DaemonReaches(d, f, out, c, moves, e);
    RoutesFollowHistories(evs, e.s, n);
  }

  /**
    Over every run of the daemon, a staged VIP waits for a shadow, and for at most four times the
    longest window of its shadows.
   */
  lemma {:induction false} StagingsWaitThroughReloads(d: Daemon, f: File, out: Outside, c: Course, moves: seq<Move>,
                                                      e: Daemon, n: string)
    requires Starts(d, f, out, c) && Leads(d, moves, e) && n in e.s.staging
    ensures n in e.s.vips && e.s.staging[n].was == e.s.vips[n].cfg
      && |e.s.staging[n].verdicts| < |e.s.staging[n].shadows|
    ensures Bounded(e.s.staging[n], e.s.scheds)
  {
    hide Leads, Starts, Reaches, Bounded;
    var evs := DaemonReaches(d, f, out, c, moves, e);
    StagingWaits(evs, e.s, n);
  }
}
