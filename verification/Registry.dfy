/** The scheduler registry: which schedulers are listed per VIP and which ones run, visibly or in shadow. */
module Registry {
  import opened Config

  /** A scheduler, as the registry sees it; equality is identity. */
  datatype Handle = Handle(id: nat, vip: string, name: string)

  predicate OneEach(list: seq<Handle>) {
    forall i, j :: 0 <= i < j < |list| ==> list[i].name != list[j].name
  }

  /** A list by check name. */
  function Listing(list: seq<Handle>): map<string, Handle> {
    if list == [] then map[] else
    var last := list[|list| - 1];
    Listing(list[..|list| - 1])[last.name := last]
  }

  lemma {:induction false} ListingIs(list: seq<Handle>)
    requires OneEach(list)
    ensures forall c :: c in Listing(list) ==> Listing(list)[c] in list && Listing(list)[c].name == c
    ensures forall h :: h in list ==> h.name in Listing(list) && Listing(list)[h.name] == h
  {
    if list != [] {
      var k := |list| - 1;
      ListingIs(list[..k]);
      assert list == list[..k] + [list[k]];
      forall h | h in list
        ensures h.name in Listing(list) && Listing(list)[h.name] == h
      {
        var i :| 0 <= i < |list| && list[i] == h;
        if i < k { assert list[..k][i] == h; }
      }
    }
  }

  /** A list is determined by its members as far as the listing is concerned. */
  lemma {:induction false} ListingBy(list: seq<Handle>, m: map<string, Handle>)
    requires OneEach(list)
    requires forall h :: h in list ==> h.name in m && m[h.name] == h
    requires forall c :: c in m ==> m[c] in list && m[c].name == c
    ensures Listing(list) == m
  {
    ListingIs(list);
  }

  function At(visible: map<string, seq<Handle>>, vip: string): seq<Handle> {
    if vip in visible then visible[vip] else []
  }

  /** Some VIP lists the scheduler. */
  predicate IsListed(visible: map<string, seq<Handle>>, h: Handle) {
    h.vip in visible && h in visible[h.vip]
  }

  /** Every list belongs to its VIP, is not empty and has one scheduler per check name. */
  predicate WellListed(visible: map<string, seq<Handle>>) {
    && (forall v :: v in visible ==> visible[v] != [] && OneEach(visible[v]))
    && (forall v, h :: v in visible && h in visible[v] ==> h.vip == v)
  }

  class Registry {
    var started: bool
    var visible: map<string, seq<Handle>>
    /** Running schedulers, with their shadow mark. */
    var running: map<Handle, bool>

    /**
      While started, the running schedulers are the listed ones, unmarked, and the shadows, which
      are listed nowhere.
     */
    ghost predicate Valid()
      reads this
    {
      && WellListed(visible)
      && (!started ==> running == map[])
      && (started ==> forall h :: IsListed(visible, h) <==> h in running && !running[h])
    }

    /** The listed scheduler of every check of a VIP. */
    function Checks(vip: string): map<string, Handle>
      reads this
    {
      Listing(At(visible, vip))
    }

    constructor ()
      ensures Valid() && !started && visible == map[] && running == map[]
    {
      started, visible, running := false, map[], map[];
    }

    method Add(s: Handle)
      requires Valid() && s !in running && s.name !in Checks(s.vip)
      modifies this
      ensures Valid() && started == old(started)
      ensures At(visible, s.vip) == At(old(visible), s.vip) + [s]
      ensures Checks(s.vip) == old(Checks(s.vip))[s.name := s]
      ensures forall v :: v != s.vip ==> At(visible, v) == At(old(visible), v)
      ensures running == if started then old(running)[s := false] else old(running)
    {
      hide WellListed, IsListed, Listing;
      AddedListed(visible, s);
      visible := visible[s.vip := At(visible, s.vip) + [s]];
      if started {
        running := running[s := false];
      }
    }

    method AddShadow(s: Handle)
      requires Valid() && started && s !in running
      modifies this`running
      ensures Valid() && running == old(running)[s := true]
    {
      running := running[s := true];
    }

    /** The first listed scheduler of the check, or -1. */
    static method IndexOfCheck(list: seq<Handle>, name: string) returns (i: int)
      ensures -1 <= i < |list|
      ensures i >= 0 ==> list[i].name == name
      ensures i < 0 <==> forall k :: 0 <= k < |list| ==> list[k].name != name
    {
      i := 0;
      while i < |list|
        invariant 0 <= i <= |list|
        invariant forall k :: 0 <= k < i ==> list[k].name != name
      {
        if list[i].name == name {
          return;
        }
        i := i + 1;
      }
      i := -1;
    }

    /** The shadow takes the place of exactly the scheduler of its check, which stops; or it is appended. */
    method Promote(s: Handle) returns (replaced: Option<Handle>)
      requires Valid() && started && s in running && running[s]
      modifies this
      ensures Valid() && started
      ensures replaced == if s.name in old(Checks(s.vip)) then Some(old(Checks(s.vip))[s.name]) else None
      ensures Checks(s.vip) == old(Checks(s.vip))[s.name := s]
      ensures forall v :: v != s.vip ==> At(visible, v) == At(old(visible), v)
      ensures running == (if replaced.Some? then old(running) - {replaced.value} else old(running))[s := false]
    {
      hide WellListed, IsListed, Listing, OneEach;
      var list := At(visible, s.vip);
      WellAt(visible, s.vip);
      var idx := IndexOfCheck(list, s.name);
      running := running[s := false];
      replaced := None;
      var next := list + [s];
      if idx >= 0 {
        replaced := Some(list[idx]);
        next := list[idx := s];
        running := running - {list[idx]};
      }
      visible := visible[s.vip := next];
      PromoteListing(list, next, idx, s);
      PromotedListed(old(visible), s, next, replaced);
    }

    /** Stop a scheduler, visible or shadow. */
    method Remove(s: Handle)
      requires Valid()
      modifies this
      ensures Valid() && started == old(started)
      ensures running == old(running) - {s}
      ensures forall v :: v != s.vip ==> At(visible, v) == At(old(visible), v)
      ensures At(visible, s.vip) == Without(At(old(visible), s.vip), s)
      ensures !IsListed(visible, s)
    {
      running := running - {s};
      var list := At(visible, s.vip);
      if i :| 0 <= i < |list| && list[i] == s {
        WithoutIs(list, i, s);
        list := list[..i] + list[i + 1..];
      } else {
        WithoutNone(list, s);
      }
      WithoutKeeps(At(visible, s.vip), s);
      if |list| == 0 {
        visible := visible - {s.vip};
      } else {
        visible := visible[s.vip := list];
      }
      RemovedListed(old(visible), visible, s);
    }

    /** Stop every visible scheduler of a VIP, working from a copy of its list. */
    method RemoveVip(vip: string)
      requires Valid()
      modifies this
      ensures Valid() && started == old(started)
      ensures vip !in visible
      ensures forall v :: v != vip ==> At(visible, v) == At(old(visible), v)
      ensures running == map h | h in old(running) && h !in At(old(visible), vip) :: old(running)[h]
    {
      hide WellListed, IsListed, Without, Listing;
      var list := At(visible, vip);
      WellAt(visible, vip);
      for i := 0 to |list|
        invariant Valid() && started == old(started)
        invariant At(visible, vip) == list[i..]
        invariant forall v :: v != vip ==> At(visible, v) == At(old(visible), v)
        invariant running == map h | h in old(running) && h !in list[..i] :: old(running)[h]
      {
        WithoutHead(list[i..], list[i]);
        assert list[i..][1..] == list[i + 1..];
        assert list[..i + 1] == list[..i] + [list[i]];
        Remove(list[i]);
      }
      assert list[..|list|] == list;
      NoneLeft(visible, vip);
    }

    /** Run everything listed. */
    method Start()
      requires Valid()
      modifies this
      ensures Valid() && started && visible == old(visible)
      ensures forall h :: h in old(running) ==> h in running && running[h] == old(running)[h]
      ensures forall h :: h in running && h !in old(running) ==> !running[h] && IsListed(visible, h)
    {
      hide OneEach, WellListed;
      started := true;
      var todo := visible.Keys;
      while todo != {}
        invariant todo <= visible.Keys && visible == old(visible) && started
        invariant forall h :: h in old(running) ==> h in running && running[h] == old(running)[h]
        invariant forall h :: h in running && h !in old(running) ==> !running[h] && IsListed(visible, h)
        invariant forall h :: IsListed(visible, h) && h.vip !in todo ==> h in running
        decreases |todo|
      {
        var v :| v in todo;
        var list := visible[v];
        WellAt(visible, v);
        for i := 0 to |list|
          invariant visible == old(visible) && started
          invariant forall h :: h in old(running) ==> h in running && running[h] == old(running)[h]
          invariant forall h :: h in running && h !in old(running) ==> !running[h] && IsListed(visible, h)
          invariant forall h :: IsListed(visible, h) && h.vip !in todo ==> h in running
          invariant forall k :: 0 <= k < i ==> list[k] in running
        {
          if list[i] !in running {
            running := running[list[i] := false];
          }
        }
        todo := todo - {v};
      }
    }

    /** Stop everything; the lists stay. */
    method Stop()
      requires Valid()
      modifies this`started, this`running
      ensures Valid() && !started && running == map[]
    {
      started, running := false, map[];
    }
  }

  /** The list without the scheduler. */
  function Without(list: seq<Handle>, s: Handle): seq<Handle> {
    if list == [] then []
    else if list[0] == s then Without(list[1..], s)
    else [list[0]] + Without(list[1..], s)
  }

  lemma {:induction false} WithoutNone(list: seq<Handle>, s: Handle)
    requires s !in list
    ensures Without(list, s) == list
  {
    if list != [] { WithoutNone(list[1..], s); }
  }

  lemma {:induction false} WithoutIs(list: seq<Handle>, i: nat, s: Handle)
    requires i < |list| && list[i] == s && OneEach(list)
    ensures Without(list, s) == list[..i] + list[i + 1..]
  {
    if i == 0 {
      WithoutNone(list[1..], s);
    } else {
      WithoutIs(list[1..], i - 1, s);
      assert list[..i] + list[i + 1..] == [list[0]] + (list[1..][..i - 1] + list[1..][i..]);
    }
  }

  lemma {:induction false} WithoutHead(list: seq<Handle>, s: Handle)
    requires list != [] && list[0] == s && OneEach(list)
    ensures Without(list, s) == list[1..]
  {
    WithoutIs(list, 0, s);
  }

  lemma {:induction false} WithoutKeeps(list: seq<Handle>, s: Handle)
    requires OneEach(list)
    ensures forall h :: h in Without(list, s) <==> h in list && h != s
    ensures OneEach(Without(list, s))
  {
    if list != [] {
      WithoutKeeps(list[1..], s);
      assert list == [list[0]] + list[1..];
      forall h | h in Without(list[1..], s)
        ensures h.name != list[0].name
      {
        var i :| 0 <= i < |list[1..]| && list[1..][i] == h;
      }
    }
  }

  lemma {:induction false} RemovedListed(before: map<string, seq<Handle>>, now: map<string, seq<Handle>>, s: Handle)
    requires WellListed(before)
    requires forall v :: v != s.vip ==> At(now, v) == At(before, v) && (v in now <==> v in before)
    requires (s.vip in now ==> now[s.vip] != []) && At(now, s.vip) == Without(At(before, s.vip), s)
    ensures WellListed(now) && forall h :: IsListed(now, h) <==> IsListed(before, h) && h != s
  {
    WithoutKeeps(At(before, s.vip), s);
    forall v | v in now && v != s.vip
      ensures v in before && now[v] == before[v]
    {
      assert At(now, v) == At(before, v);
    }
    forall h
      ensures IsListed(now, h) <==> IsListed(before, h) && h != s
    {
      assert h.vip != s.vip ==> At(now, h.vip) == At(before, h.vip);
    }
  }

  lemma {:induction false} PromoteListing(list: seq<Handle>, next: seq<Handle>, idx: int, s: Handle)
    requires OneEach(list) && -1 <= idx < |list|
    requires idx >= 0 ==> list[idx].name == s.name && next == list[idx := s]
    requires idx < 0 ==> (forall k :: 0 <= k < |list| ==> list[k].name != s.name) && next == list + [s]
    ensures OneEach(next) && Listing(next) == Listing(list)[s.name := s]
    ensures idx >= 0 ==> s.name in Listing(list) && Listing(list)[s.name] == list[idx]
    ensures idx < 0 ==> s.name !in Listing(list)
    ensures forall h :: h in next <==> h == s || (h in list && h.name != s.name)
  {
    ListingIs(list);
    forall h
      ensures h in next <==> h == s || (h in list && h.name != s.name)
    {
      if h in list && h.name != s.name {
        var i :| 0 <= i < |list| && list[i] == h;
        assert next[i] == h;
      }
      if h == s { assert next[if idx >= 0 then idx else |list|] == s; }
    }
    var m := Listing(list)[s.name := s];
    ListingBy(next, m);
  }

  lemma WellAt(visible: map<string, seq<Handle>>, vip: string)
    requires WellListed(visible)
    ensures OneEach(At(visible, vip)) && forall h :: h in At(visible, vip) ==> h.vip == vip && IsListed(visible, h)
  {
  }

  lemma NoneLeft(visible: map<string, seq<Handle>>, vip: string)
    requires WellListed(visible) && At(visible, vip) == []
    ensures vip !in visible
  {
  }

  lemma {:induction false} AddedListed(before: map<string, seq<Handle>>, s: Handle)
    requires WellListed(before) && s.name !in Listing(At(before, s.vip))
    ensures var now := before[s.vip := At(before, s.vip) + [s]];
      && WellListed(now) && Listing(now[s.vip]) == Listing(At(before, s.vip))[s.name := s]
      && forall h :: IsListed(now, h) <==> IsListed(before, h) || h == s
  {
    var list := At(before, s.vip);
    ListingIs(list);
    assert (list + [s])[..|list|] == list;
  }

  lemma {:induction false} PromotedListed(before: map<string, seq<Handle>>, s: Handle, next: seq<Handle>,
                                          replaced: Option<Handle>)
    requires WellListed(before) && OneEach(next)
    requires forall h :: h in next <==> h == s || (h in At(before, s.vip) && h.name != s.name)
    requires replaced == if s.name in Listing(At(before, s.vip)) then Some(Listing(At(before, s.vip))[s.name]) else None
    ensures var now := before[s.vip := next];
      && WellListed(now)
      && forall h :: IsListed(now, h) <==> h == s || (IsListed(before, h) && Some(h) != replaced)
  {
    var list := At(before, s.vip);
    ListingIs(list);
    assert s in next;
    var now := before[s.vip := next];
    forall h
      ensures IsListed(now, h) <==> h == s || (IsListed(before, h) && Some(h) != replaced)
    {
      if h in list && h != s { assert h.name == s.name <==> Some(h) == replaced; }
    }
  }
}
