/** The changes of an uninterrupted reload: they run to their end after the removals and the additions. */
module ReloadRuns {
  import opened Config
  import opened System
  import opened Safety
  import opened ReloadSafety
  import opened CommitSafety
  import opened Runs
  import opened Diff
  import opened Batch
  import opened Reload

  // ------------------------------------------------------------------
  // The changes
  // ------------------------------------------------------------------

  /** Everything about one changed VIP that its event asks for. */
  ghost predicate AlterationFits(s: State, env: Env, c: Change) {
    var n := c.v.name;
    && n in s.vips && s.vips[n].cfg == c.was && ValidVip(c.v) && c.v.prefix == c.was.prefix
    && (forall id :: id in env.news ==> IsNew(env.news[id]))
    && (NeedsStaging(c) ==> env.Ids(n).Keys == ChangedNames(c.was, c.v) && Supplied(env, c.v))
    && (!NeedsStaging(c) ==> Quiet(s, Picked(Visible(s, n), RemovedNames(c.was, c.v))) && KeepsKnown(s, c.v, map[]))
  }

  lemma {:induction false} ChangeFits(s: State, env: Env, w: Work, c: Change)
    requires Supplies(s, env, w) && Unhindered(s, env, w) && Sorted(w) && Governing(s, w.running) && c in w.changed
    ensures AlterationFits(s, env, c)
  {
    hide ValidVip, Supplied, IsNew, DistinctChanges, DistinctVips, IsRemoved, IsAdded, ChangedNames, RemovedNames,
      System.Ids, Lookup, Quiet, KeepsKnown, LeavesNoOrphan, ShadowIds, Failed, Picked, Visible, Config.ByName;
    assert c.v in w.cand;
    assert Lookup(w.running, c.v.name) == Def(s, c.v.name);
  }

  lemma {:induction false} BuiltAtOnce(s: State, env: Env, t1: State, v: Vip)
    requires Cleared(s, env, t1) && Supplied(env, v) && forall id :: id in env.news ==> IsNew(env.news[id])
    ensures BuiltFor(t1, v, env.Ids(v.name))
  {
    hide IsNew, Config.ByName;
  }

  lemma {:induction false} QuietPicked(s: State, env: Env, t1: State, n: string, names: set<string>)
    requires Core(s) && Cleared(s, env, t1) && n in s.vips && Quiet(s, Picked(Visible(s, n), names))
      && env.news.Keys !! s.scheds.Keys
    ensures Quiet(t1, Picked(Visible(t1, n), names))
  {
    hide VipsOk, IdsOk, QueueOk, RoutesOwned;
    RetiredRun(s, n, names);
  }

  lemma {:induction false} AlterationReady(s: State, env: Env, t1: State, c: Change)
    requires Core(s) && Cleared(s, env, t1) && AlterationFits(s, env, c) && env.news.Keys !! s.scheds.Keys
    ensures var ev := Alteration(c, env); Ready(t1, ev) && About(t1, ev, c.v.name)
  {
    hide Core, ValidVip, IsNew, BuiltFor, ChangedNames, RemovedNames, System.Ids, Quiet, KeepsKnown, Picked, Visible,
      Config.ByName, DeadlineFor;
    var n := c.v.name;
    if NeedsStaging(c) {
      BuiltAtOnce(s, env, t1, c.v);
      assert env.Ids(n) != map[];
    } else {
      QuietPicked(s, env, t1, n, RemovedNames(c.was, c.v));
      KnownStays(s, t1, c.v);
    }
  }

  /** A VIP that changes in place is left alone by the removals and the additions. */
  lemma {:induction false} AltersAlone(s: State, env: Env, w: Work, t1: State, t2: State, t3: State, n: string)
    requires Removed(s, env, w, t1, t2) && Enlarged(s, env, w, t2, t3) && Alters(w, n)
    ensures Apart(t1, t3, n)
  {
    hide Core, Apart, Def, StagedAt, SameSched, Lookup, System.Ids;
    LookupIs(w.cand, n);
    LookupIs(w.running, n);
    assert !Goes(w, n) && !Comes(w, n);
    ApartTrans(t1, t2, t3, n);
  }

  lemma {:induction false} AlterationsReady(s: State, env: Env, w: Work, t1: State, t2: State, t3: State)
    requires Core(s) && Core(t1) && Cleared(s, env, t1) && Removed(s, env, w, t1, t2) && Enlarged(s, env, w, t2, t3)
    requires Supplies(s, env, w) && Unhindered(s, env, w) && Sorted(w) && Governing(s, w.running)
    ensures var evs, names := Alterations(w.changed, env), ChangeNames(w.changed);
      IsBatch(t3, evs, names) && AllReady(t3, evs) && NewPrefixes(evs)
  {
    hide Core, Cleared, Removed, Enlarged, Supplies, Unhindered, Enabled, Benign, About, Governing, ValidVips,
      AlterationFits, Alters;
    var evs, names := Alterations(w.changed, env), ChangeNames(w.changed);
    Fresh(s, env, w);
    forall i | 0 <= i < |evs|
      ensures Ready(t3, evs[i]) && About(t3, evs[i], names[i])
    {
      var c := w.changed[i];
      AltersHere(w, i);
      AltersAlone(s, env, w, t1, t2, t3, c.v.name);
      ChangeFits(s, env, w, c);
      AlterationReady(s, env, t1, c);
      EnlargedCore(s, env, w, t2, t3);
      StaysReady(t1, t3, evs[i], names[i]);
    }
  }

  lemma Fresh(s: State, env: Env, w: Work)
    requires Supplies(s, env, w)
    ensures env.news.Keys !! s.scheds.Keys && Enabled(s, Build(env.news))
  {
    hide IsNew, Supplied, ChangedNames, System.Ids;
  }

  lemma EnlargedCore(s: State, env: Env, w: Work, t2: State, t3: State)
    requires Enlarged(s, env, w, t2, t3)
    ensures Core(t3)
  {
    hide Core, Comes, Fails, Apart, SameSched, System.Ids, Lookup;
  }

  lemma {:induction false} AltersHere(w: Work, i: nat)
    requires Sorted(w) && i < |w.changed|
    ensures w.changed[i] in w.changed && Alters(w, w.changed[i].v.name)
  {
    hide Sorted, Alters, Lookup;
    AltersIs(w, w.changed[i].v.name);
    assert ChangeNames(w.changed)[i] == w.changed[i].v.name;
  }

  /** The state after the changes. */
  ghost predicate Altered(env: Env, w: Work, t3: State, t4: State) {
    && Core(t4)
    && (forall n :: Def(t4, n) == if Alters(w, n) && !Waits(w, n) then Lookup(w.cand, n) else Def(t3, n))
    && (forall n :: if Alters(w, n) && Waits(w, n) then StagedFor(t4, w, n) else StagedAt(t4, n) == StagedAt(t3, n))
    && (forall id :: id in t4.built <==>
       id in t3.built && forall c :: c in w.changed && NeedsStaging(c) ==> id !in System.Ids(env.Ids(c.v.name)))
  }

  predicate Waits(w: Work, n: string) {
    Lookup(w.running, n).Some? && Lookup(w.cand, n).Some?
      && NeedsStaging(Change(Lookup(w.running, n).value, Lookup(w.cand, n).value))
  }

  predicate StagedFor(t: State, w: Work, n: string) {
    StagedAt(t, n).Some? && Some(StagedAt(t, n).value.cfg) == Lookup(w.cand, n)
      && Some(StagedAt(t, n).value.was) == Def(t, n)
  }

  lemma {:induction false} AlteredAt(env: Env, w: Work, t3: State, t4: State, n: string)
    requires Sorted(w) && Outcome(t3, t4, Alterations(w.changed, env), ChangeNames(w.changed), n)
    requires Alters(w, n) ==> Def(t3, n) == Lookup(w.running, n)
    ensures Def(t4, n) == if Alters(w, n) && !Waits(w, n) then Lookup(w.cand, n) else Def(t3, n)
    ensures if Alters(w, n) && Waits(w, n) then StagedFor(t4, w, n) else StagedAt(t4, n) == StagedAt(t3, n)
  {
    hide Sorted, Alters, SameVip, SameScheds, SameBuilt, Lookup, ChangedNames, RemovedNames;
    AltersIs(w, n);
    var evs, names := Alterations(w.changed, env), ChangeNames(w.changed);
    if Alters(w, n) {
      var i :| 0 <= i < |names| && names[i] == n;
      assert evs[i] == Alteration(w.changed[i], env);
    }
  }

  lemma {:induction false} AlterationsTake(env: Env, w: Work, id: Id)
    ensures Untaken(Alterations(w.changed, env), id) <==>
      forall c :: c in w.changed && NeedsStaging(c) ==> id !in System.Ids(env.Ids(c.v.name))
  {
    hide System.Ids, ChangedNames;
    var evs := Alterations(w.changed, env);
    forall i | 0 <= i < |evs|
      ensures Taken(evs[i]) == if NeedsStaging(w.changed[i]) then System.Ids(env.Ids(w.changed[i].v.name)) else {}
    {
    }
    if Untaken(evs, id) {
      forall c | c in w.changed && NeedsStaging(c)
        ensures id !in System.Ids(env.Ids(c.v.name))
      {
        var i :| 0 <= i < |w.changed| && w.changed[i] == c;
        assert id !in Taken(evs[i]);
      }
    }
  }

  lemma {:induction false} AltersAll(s: State, env: Env, w: Work, t1: State, t2: State, t3: State)
    requires Core(s) && Core(t1) && Cleared(s, env, t1) && Removed(s, env, w, t1, t2) && Enlarged(s, env, w, t2, t3)
    requires Supplies(s, env, w) && Unhindered(s, env, w) && Sorted(w) && Governing(s, w.running)
    ensures var evs := Alterations(w.changed, env); Runnable(t3, evs) && Altered(env, w, t3, Play(t3, evs))
  {
    hide Core, Cleared, Removed, Enlarged, Supplies, Unhindered, Sorted, Governing, Outcome, Apart, Def, StagedAt,
      SameSched, Lookup, Untaken,
      Alters, Waits, StagedFor, IsBatch, AllReady, NewPrefixes, NeedsStaging, System.Ids;
    var evs, names := Alterations(w.changed, env), ChangeNames(w.changed);
    AlterationsReady(s, env, w, t1, t2, t3);
    EnlargedCore(s, env, w, t2, t3);
    BatchRuns(t3, evs, names);
    var t4 := Play(t3, evs);
    forall n
      ensures Def(t4, n) == if Alters(w, n) && !Waits(w, n) then Lookup(w.cand, n) else Def(t3, n)
      ensures if Alters(w, n) && Waits(w, n) then StagedFor(t4, w, n) else StagedAt(t4, n) == StagedAt(t3, n)
    {
      assert Outcome(t3, t4, evs, names, n);
      if Alters(w, n) {
        AltersAlone(s, env, w, t1, t2, t3, n);
        StillDefined(s, env, w, t1, t3, n);
      }
      AlteredAt(env, w, t3, t4, n);
    }
    forall id
      ensures Untaken(evs, id) <==>
        forall c :: c in w.changed && NeedsStaging(c) ==> id !in System.Ids(env.Ids(c.v.name))
    {
      AlterationsTake(env, w, id);
    }
  }

  lemma StillDefined(s: State, env: Env, w: Work, t1: State, t3: State, n: string)
    requires Cleared(s, env, t1) && Governing(s, w.running) && Apart(t1, t3, n)
    ensures Def(t3, n) == Lookup(w.running, n)
  {
    hide SameScheds, SameBuilt, SameVip;
  }

  lemma Waited(s: State, env: Env, w: Work)
    requires Unhindered(s, env, w)
    ensures Quiet(s, ShadowIds(s.staging))
  {
    hide Quiet, ShadowIds, System.Ids, Visible, LeavesNoOrphan, Failed, Picked, KeepsKnown, NeedsStaging, RemovedNames;
  }
}
