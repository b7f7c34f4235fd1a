/** Comparing the VIP list that governs the routes with a candidate list. */
module Diff {
  import opened Config
  import opened System

  /** The VIP registered under a name; a later one wins. */
  function Lookup(vips: seq<Vip>, n: string): Option<Vip> {
    if vips == [] then None
    else if vips[|vips| - 1].name == n then Some(vips[|vips| - 1])
    else Lookup(vips[..|vips| - 1], n)
  }

  lemma {:induction false} LookupIs(vips: seq<Vip>, n: string)
    ensures Lookup(vips, n).Some? ==> Lookup(vips, n).value in vips && Lookup(vips, n).value.name == n
    ensures Lookup(vips, n).None? <==> forall v :: v in vips ==> v.name != n
    ensures DistinctVips(vips) ==> forall v :: v in vips && v.name == n ==> Lookup(vips, n) == Some(v)
  {
    if vips != [] {
      var k := |vips| - 1;
      LookupIs(vips[..k], n);
      assert vips == vips[..k] + [vips[k]];
      if DistinctVips(vips) {
        forall v | v in vips && v.name == n
          ensures Lookup(vips, n) == Some(v)
        {
          var i :| 0 <= i < |vips| && vips[i] == v;
          if i < k { assert vips[..k][i] == v; }
        }
      }
    }
  }

  // ------------------------------------------------------------------
  // The classes of a VIP
  // ------------------------------------------------------------------

  predicate IsAdded(running: seq<Vip>, v: Vip) {
    var o := Lookup(running, v.name);
    o.None? || o.value.prefix != v.prefix
  }

  predicate IsRemoved(cand: seq<Vip>, o: Vip) {
    var v := Lookup(cand, o.name);
    v.None? || v.value.prefix != o.prefix
  }

  predicate IsChanged(running: seq<Vip>, v: Vip) {
    var o := Lookup(running, v.name);
    o.Some? && o.value.prefix == v.prefix && o.value != v
  }

  datatype Change = Change(was: Vip, v: Vip)

  function AddedOf(running: seq<Vip>, cand: seq<Vip>): seq<Vip> {
    if cand == [] then [] else
    var v := cand[|cand| - 1];
    AddedOf(running, cand[..|cand| - 1]) + if IsAdded(running, v) then [v] else []
  }

  /** The old definitions of the VIPs that change their prefix, in candidate order. */
  function ReplacedOf(running: seq<Vip>, cand: seq<Vip>): seq<Vip> {
    if cand == [] then [] else
    var v := cand[|cand| - 1];
    var o := Lookup(running, v.name);
    ReplacedOf(running, cand[..|cand| - 1]) + if o.Some? && o.value.prefix != v.prefix then [o.value] else []
  }

  function GoneOf(running: seq<Vip>, cand: seq<Vip>): seq<Vip> {
    if running == [] then [] else
    var o := running[|running| - 1];
    GoneOf(running[..|running| - 1], cand) + if Lookup(cand, o.name).None? then [o] else []
  }

  function RemovedOf(running: seq<Vip>, cand: seq<Vip>): seq<Vip> {
    ReplacedOf(running, cand) + GoneOf(running, cand)
  }

  function ChangedOf(running: seq<Vip>, cand: seq<Vip>): seq<Change> {
    if cand == [] then [] else
    var v := cand[|cand| - 1];
    ChangedOf(running, cand[..|cand| - 1]) + if IsChanged(running, v) then [Change(Lookup(running, v.name).value, v)]
      else []
  }

  function UnchangedOf(running: seq<Vip>, cand: seq<Vip>): seq<string> {
    if cand == [] then [] else
    var v := cand[|cand| - 1];
    UnchangedOf(running, cand[..|cand| - 1]) + if Lookup(running, v.name) == Some(v) then [v.name] else []
  }

  lemma {:induction false} AddedIs(running: seq<Vip>, cand: seq<Vip>)
    ensures forall v :: v in AddedOf(running, cand) <==> v in cand && IsAdded(running, v)
    ensures DistinctVips(cand) ==> DistinctVips(AddedOf(running, cand))
  {
    hide IsAdded;
    if cand != [] {
      var k := |cand| - 1;
      AddedIs(running, cand[..k]);
      assert cand == cand[..k] + [cand[k]];
      if DistinctVips(cand) {
        forall v | v in AddedOf(running, cand[..k])
          ensures v.name != cand[k].name
        {
          var i :| 0 <= i < k && cand[..k][i] == v;
        }
      }
    }
  }

  /** `o` runs under the name of `v` with another prefix. */
  predicate Moves(running: seq<Vip>, v: Vip, o: Vip) {
    Lookup(running, v.name) == Some(o) && o.prefix != v.prefix
  }

  lemma {:induction false} ReplacedIs(running: seq<Vip>, cand: seq<Vip>)
    ensures forall o :: o in ReplacedOf(running, cand) ==> exists v :: v in cand && Moves(running, v, o)
    ensures forall o, v :: v in cand && Moves(running, v, o) ==> o in ReplacedOf(running, cand)
    ensures DistinctVips(cand) ==> DistinctVips(ReplacedOf(running, cand))
  {
    hide Lookup;
    if cand != [] {
      var k := |cand| - 1;
      var pre, last := cand[..k], cand[k];
      ReplacedIs(running, pre);
      assert cand == pre + [last];
      var r, r' := ReplacedOf(running, pre), ReplacedOf(running, cand);
      assert r' == r || exists o :: Moves(running, last, o) && r' == r + [o];
      forall o | o in r'
        ensures exists v :: v in cand && Moves(running, v, o)
      {
        if o in r {
          var v :| v in pre && Moves(running, v, o);
          assert v in cand;
        } else {
          assert last in cand && Moves(running, last, o);
        }
      }
      if DistinctVips(cand) {
        ReplacedDistinct(running, pre, last);
      }
    }
  }

  lemma {:induction false} ReplacedDistinct(running: seq<Vip>, pre: seq<Vip>, last: Vip)
    requires DistinctVips(pre + [last])
    requires forall o :: o in ReplacedOf(running, pre) ==> exists v :: v in pre && Moves(running, v, o)
    ensures forall o, m :: o in ReplacedOf(running, pre) && Moves(running, last, m) ==> o.name != m.name
  {
    hide ReplacedOf;
    forall o, m | o in ReplacedOf(running, pre) && Moves(running, last, m)
      ensures o.name != m.name
    {
      var v :| v in pre && Moves(running, v, o);
      LookupIs(running, v.name);
      LookupIs(running, last.name);
      var i :| 0 <= i < |pre| && pre[i] == v;
      assert (pre + [last])[i] == v && (pre + [last])[|pre|] == last;
    }
  }

  lemma {:induction false} GoneIs(running: seq<Vip>, cand: seq<Vip>)
    ensures forall o :: o in GoneOf(running, cand) <==> o in running && Lookup(cand, o.name).None?
    ensures DistinctVips(running) ==> DistinctVips(GoneOf(running, cand))
  {
    hide Lookup;
    if running != [] {
      var k := |running| - 1;
      GoneIs(running[..k], cand);
      assert running == running[..k] + [running[k]];
      if DistinctVips(running) {
        forall o | o in GoneOf(running[..k], cand)
          ensures o.name != running[k].name
        {
          var i :| 0 <= i < k && running[..k][i] == o;
        }
      }
    }
  }

  lemma {:induction false} ReplacedMember(running: seq<Vip>, cand: seq<Vip>, o: Vip)
    requires DistinctVips(running) && DistinctVips(cand)
    ensures o in ReplacedOf(running, cand) <==>
      o in running && Lookup(cand, o.name).Some? && Lookup(cand, o.name).value.prefix != o.prefix
  {
    hide Lookup, ReplacedOf;
    ReplacedIs(running, cand);
    LookupIs(running, o.name);
    LookupIs(cand, o.name);
    if o in ReplacedOf(running, cand) {
      var v :| v in cand && Moves(running, v, o);
      LookupIs(running, v.name);
    }
    if o in running && Lookup(cand, o.name).Some? && Lookup(cand, o.name).value.prefix != o.prefix {
      assert Moves(running, Lookup(cand, o.name).value, o);
    }
  }

  /** Removed is everything running whose name is gone or whose prefix moved. */
  lemma {:induction false} RemovedIs(running: seq<Vip>, cand: seq<Vip>)
    requires DistinctVips(running) && DistinctVips(cand)
    ensures forall o :: o in RemovedOf(running, cand) <==> o in running && IsRemoved(cand, o)
    ensures DistinctVips(RemovedOf(running, cand))
  {
    hide Lookup, ReplacedOf, GoneOf, Moves;
    ReplacedIs(running, cand);
    GoneIs(running, cand);
    forall o
      ensures o in ReplacedOf(running, cand) <==>
        o in running && Lookup(cand, o.name).Some? && Lookup(cand, o.name).value.prefix != o.prefix
    {
      ReplacedMember(running, cand, o);
    }
    var a, b := ReplacedOf(running, cand), GoneOf(running, cand);
    var all: seq<Vip> := a + b;
    forall i, j | 0 <= i < j < |all|
      ensures all[i].name != all[j].name
    {
      if i < |a| <= j {
        assert a[i] in a && b[j - |a|] in b;
      }
    }
  }

  lemma {:induction false} ChangedIs(running: seq<Vip>, cand: seq<Vip>)
    ensures forall c :: c in ChangedOf(running, cand) <==>
      c.v in cand && IsChanged(running, c.v) && Lookup(running, c.v.name) == Some(c.was)
    ensures DistinctVips(cand) ==> DistinctChanges(ChangedOf(running, cand))
  {
    hide Lookup;
    if cand != [] {
      var k := |cand| - 1;
      ChangedIs(running, cand[..k]);
      assert cand == cand[..k] + [cand[k]];
      if DistinctVips(cand) {
        forall c | c in ChangedOf(running, cand[..k])
          ensures c.v.name != cand[k].name
        {
          var i :| 0 <= i < k && cand[..k][i] == c.v;
        }
      }
    }
  }

  predicate DistinctChanges(list: seq<Change>) {
    forall i, j :: 0 <= i < j < |list| ==> list[i].v.name != list[j].v.name
  }

  // ------------------------------------------------------------------
  // The loops
  // ------------------------------------------------------------------

  /** `DiffVIPs`: every list in the order the loops produce it. */
  method DiffVips(running: seq<Vip>, cand: seq<Vip>)
    returns (added: seq<Vip>, removed: seq<Vip>, changed: seq<Change>, same: seq<string>)
    ensures added == AddedOf(running, cand) && removed == RemovedOf(running, cand)
    ensures changed == ChangedOf(running, cand) && same == UnchangedOf(running, cand)
  {
    var byName: map<string, Vip> := map[];
    for i := 0 to |running|
      invariant forall n :: Lookup(running[..i], n) == if n in byName then Some(byName[n]) else None
    {
      assert running[..i + 1][..i] == running[..i];
      byName := byName[running[i].name := running[i]];
    }
    assert running[..|running|] == running;
    added, removed, changed, same := [], [], [], [];
    var seen: set<string> := {};
    for i := 0 to |cand|
      invariant added == AddedOf(running, cand[..i]) && removed == ReplacedOf(running, cand[..i])
      invariant changed == ChangedOf(running, cand[..i]) && same == UnchangedOf(running, cand[..i])
      invariant forall n :: n in seen <==> Lookup(cand[..i], n).Some?
    {
      assert cand[..i + 1][..i] == cand[..i];
      var v := cand[i];
      seen := seen + {v.name};
      var known := v.name in byName;
      if !known || byName[v.name].prefix != v.prefix {
        if known {
          removed := removed + [byName[v.name]];
        }
        added := added + [v];
      } else if byName[v.name] == v {
        same := same + [v.name];
      } else {
        changed := changed + [Change(byName[v.name], v)];
      }
    }
    assert cand[..|cand|] == cand;
    var moved := removed;
    for i := 0 to |running|
      invariant removed == moved + GoneOf(running[..i], cand)
    {
      assert running[..i + 1][..i] == running[..i];
      if running[i].name !in seen {
        removed := removed + [running[i]];
      }
    }
  }

  /** `diffVIP`: the checks that must prove themselves, in config order, and the checks that go. */
  method DiffVip(was: Vip, v: Vip) returns (changed: seq<Check>, removed: seq<Check>)
    ensures changed == Proving(was, v, v.CheckList())
    ensures DistinctNames(v.CheckList()) ==> forall n :: n in Names(changed) <==> n in ChangedNames(was, v)
    ensures forall n :: n in Names(removed) <==> n in RemovedNames(was, v)
  {
    hide Proving, ByName, Names, DistinctNames;
    changed, removed := [], [];
    var guardChanged := was.requireLocal != v.requireLocal || was.localInterface != v.localInterface;
    var olds := was.CheckList();
    var news := v.CheckList();
    var oldChecks: map<string, Check> := map[];
    NothingListed(was, v);
    for i := 0 to |olds|
      invariant oldChecks == ByName(olds[..i])
    {
      ListedOneMore(was, v, olds, i);
      oldChecks := oldChecks[olds[i].EffectiveName() := olds[i]];
    }
    assert olds[..|olds|] == olds;
    var newNames: set<string> := {};
    for i := 0 to |news|
      invariant newNames == ByName(news[..i]).Keys
      invariant changed == Proving(was, v, news[..i])
    {
      ListedOneMore(was, v, news, i);
      var c := news[i];
      var name := c.EffectiveName();
      newNames := newNames + {name};
      if name !in oldChecks || guardChanged || oldChecks[name] != c {
        changed := changed + [c];
      }
    }
    assert news[..|news|] == news;
    for i := 0 to |olds|
      invariant forall c :: c in removed <==> c in olds[..i] && c.EffectiveName() !in newNames
    {
      assert olds[..i + 1] == olds[..i] + [olds[i]];
      if olds[i].EffectiveName() !in newNames {
        removed := removed + [olds[i]];
      }
    }
    assert olds[..|olds|] == olds;
    ProvingIs(was, v, news);
    DiffVipNames(was, v, changed, removed);
  }

  lemma NothingListed(was: Vip, v: Vip)
    ensures ByName([]) == map[] && Proving(was, v, []) == []
  {
  }

  lemma ListedOneMore(was: Vip, v: Vip, list: seq<Check>, i: nat)
    requires i < |list|
    ensures ByName(list[..i + 1]) == ByName(list[..i])[list[i].EffectiveName() := list[i]]
    ensures Proving(was, v, list[..i + 1]) ==
      Proving(was, v, list[..i]) + if Differs(was, v, list[i]) then [list[i]] else []
  {
    hide Differs;
    assert list[..i + 1][..i] == list[..i];
  }

  /** The checks to prove are those of the list that differ. */
  lemma {:induction false} ProvingIs(was: Vip, v: Vip, list: seq<Check>)
    ensures forall c :: c in Proving(was, v, list) <==> c in list && Differs(was, v, c)
    ensures DistinctNames(list) ==> DistinctNames(Proving(was, v, list))
  {
    hide Differs;
    if list != [] {
      var k := |list| - 1;
      var before, last := list[..k], list[k];
      ProvingIs(was, v, before);
      assert list == before + [last];
      assert DistinctNames(list) ==> DistinctNames(before);
      assert DistinctNames(list) ==> forall c :: c in before ==> c.EffectiveName() != last.EffectiveName();
    }
  }

  /** Four windows of a check: enough for its larger threshold at one probe per interval, and no more. */
  lemma FourWindows(c: Check)
    ensures GRACE * Window(c) >= 4 * c.Rise() * c.Interval() && GRACE * Window(c) >= 4 * c.Fall() * c.Interval()
    ensures GRACE * Window(c) == 4 * c.Rise() * c.Interval() || GRACE * Window(c) == 4 * c.Fall() * c.Interval()
  {
    var rise, fall, interval := c.Rise(), c.Fall(), c.Interval();
    assert 4 * rise * interval == 4 * (rise * interval) && 4 * fall * interval == 4 * (fall * interval);
    if rise > fall { Scaled(fall, rise, interval); } else { Scaled(rise, fall, interval); }
  }

  lemma Scaled(a: int, b: int, k: nat)
    requires a <= b
    ensures a * k <= b * k
  {
  }

  lemma {:induction false} MaxWindowIs(list: seq<Check>)
    ensures forall c :: c in list ==> Window(c) <= MaxWindow(list)
    ensures MaxWindow(list) == 0 || exists c :: c in list && Window(c) == MaxWindow(list)
  {
    hide Window;
    if list != [] {
      var k := |list| - 1;
      MaxWindowIs(list[..k]);
      assert list == list[..k] + [list[k]];
    }
  }

  /** The names of the checks to prove. */
  lemma {:induction false} ProvingNames(was: Vip, v: Vip)
    requires DistinctNames(v.CheckList())
    ensures forall n :: n in Names(Proving(was, v, v.CheckList())) <==> n in ChangedNames(was, v)
    ensures forall c :: c in Proving(was, v, v.CheckList()) ==>
      c.EffectiveName() in v.Checks() && v.Checks()[c.EffectiveName()] == c
  {
    hide Proving;
    var list := Proving(was, v, v.CheckList());
    ProvingIs(was, v, v.CheckList());
    ByNameIs(v.CheckList());
    NamesOf(list);
    NamesOf(v.CheckList());
  }

  lemma {:induction false} DiffVipNames(was: Vip, v: Vip, changed: seq<Check>, removed: seq<Check>)
    requires forall c :: c in changed <==> c in v.CheckList() && Differs(was, v, c)
    requires forall c :: c in removed <==> c in was.CheckList() && c.EffectiveName() !in v.Checks()
    ensures DistinctNames(v.CheckList()) ==> forall n :: n in Names(changed) <==> n in ChangedNames(was, v)
    ensures forall n :: n in Names(removed) <==> n in RemovedNames(was, v)
  {
    ByNameIs(was.CheckList());
    ByNameIs(v.CheckList());
    NamesOf(changed);
    NamesOf(removed);
    NamesOf(was.CheckList());
    NamesOf(v.CheckList());
  }

  lemma NamesOf(list: seq<Check>)
    ensures forall n :: n in Names(list) <==> exists c :: c in list && c.EffectiveName() == n
  {
    forall n | n in Names(list)
      ensures exists c :: c in list && c.EffectiveName() == n
    {
      var i :| 0 <= i < |list| && Names(list)[i] == n;
      assert list[i] in list;
    }
    forall c | c in list
      ensures c.EffectiveName() in Names(list)
    {
      var i :| 0 <= i < |list| && list[i] == c;
      assert Names(list)[i] == c.EffectiveName();
    }
  }
}
