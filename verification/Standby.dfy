/**
  Standby order: nodes announcing the same VIP are ranked by AS_PATH length (section 9.1.2.2 of
  RFC 4271, shortest first), so a degraded node must carry a longer path than a healthy one.
 */
module Standby {
  import opened Config
  import opened Policy
  import opened Rib

  /** The AS_PATH length peers see: the prepends and the local ASN, which the server adds on eBGP export. */
  function PathLength(asn: nat, ibgp: bool, r: Routing, st: VipState): nat {
    |Prepends(asn, ibgp, RouteAttrs(r, st).prepend)| + 1
  }

  function Base(r: Routing): int { BaseAttrs(r).prepend }

  function StateOf(degraded: bool): VipState { if degraded then Pessimized else Announced }

  /** With this split into degraded and healthy nodes, every degraded node is ranked behind every healthy one. */
  predicate Ranks(asn: nat, nodes: seq<Routing>, degraded: seq<bool>)
    requires |degraded| == |nodes|
  {
    forall i, j :: 0 <= i < |nodes| && 0 <= j < |nodes| && degraded[i] && !degraded[j] ==>
      PathLength(asn, false, nodes[i], Pessimized) > PathLength(asn, false, nodes[j], Announced)
  }

  /** Every node's lower_priority prepend exceeds the gap to any larger base prepend. */
  predicate ExceedsGaps(nodes: seq<Routing>) {
    forall i, j :: 0 <= i < |nodes| && 0 <= j < |nodes| && i != j ==>
      LowerPrepend(nodes[i]) > Base(nodes[j]) - Base(nodes[i])
  }

  lemma Lengths(asn: nat, r: Routing)
    requires ValidRouting(r)
    ensures PathLength(asn, false, r, Announced) == Base(r) + 1
    ensures PathLength(asn, false, r, Pessimized) == Base(r) + LowerPrepend(r) + 1
    ensures forall st :: 0 <= RouteAttrs(r, st).prepend <= 32 && PathLength(asn, true, r, st) == 1
    ensures 0 <= Base(r) <= 16 && 1 <= LowerPrepend(r) <= 16
  {
  }

  /**
    "A degraded node never outranks a healthy node" holds for every set of validated eBGP nodes,
    whichever of them are degraded, exactly when each lower_priority prepend exceeds the gaps
    between base prepends.
   */
  lemma {:induction false} StandbyOrderIff(asn: nat, nodes: seq<Routing>)
    requires forall i :: 0 <= i < |nodes| ==> ValidRouting(nodes[i])
    ensures (forall degraded: seq<bool> :: |degraded| == |nodes| ==> Ranks(asn, nodes, degraded)) <==>
      ExceedsGaps(nodes)
  {
    hide PathLength, LowerPrepend, Base, ValidRouting;
    forall i | 0 <= i < |nodes|
      ensures PathLength(asn, false, nodes[i], Announced) == Base(nodes[i]) + 1
      ensures PathLength(asn, false, nodes[i], Pessimized) == Base(nodes[i]) + LowerPrepend(nodes[i]) + 1
    {
      Lengths(asn, nodes[i]);
    }
    if forall degraded: seq<bool> :: |degraded| == |nodes| ==> Ranks(asn, nodes, degraded) {
      forall i, j | 0 <= i < |nodes| && 0 <= j < |nodes| && i != j
        ensures LowerPrepend(nodes[i]) > Base(nodes[j]) - Base(nodes[i])
      {
        var only := seq(|nodes|, k => k == i);
        assert Ranks(asn, nodes, only) && only[i] && !only[j];
      }
    }
  }

  /** The comment's promise without that condition fails for a validated pair: base 0 with lower 1 against base 16. */
  lemma {:induction false} DegradedOutranksHealthy(asn: nat) returns (nodes: seq<Routing>, degraded: seq<bool>)
    ensures |nodes| == 2 && (forall i :: 0 <= i < 2 ==> ValidRouting(nodes[i])) && |degraded| == 2
    ensures !Ranks(asn, nodes, degraded)
  {
    var a := Routing(OnFailLower, "", Some(Announce(Some(0), [])), Some(Announce(Some(1), [])));
    var b := Routing(OnFailLower, "", Some(Announce(Some(16), [])), Some(Announce(Some(1), [])));
    nodes, degraded := [a, b], [true, false];
    Lengths(asn, a);
    Lengths(asn, b);
    assert degraded[0] && !degraded[1];
  }

  /**
    Within the healthy nodes, and within degraded nodes that share a lower_priority prepend, the
    base prepends decide.
   */
  lemma {:induction false} BaseOrderKept(asn: nat, a: Routing, b: Routing, degraded: bool)
    requires ValidRouting(a) && ValidRouting(b) && (degraded ==> LowerPrepend(a) == LowerPrepend(b))
    ensures PathLength(asn, false, a, StateOf(degraded)) < PathLength(asn, false, b, StateOf(degraded)) <==>
      Base(a) < Base(b)
  {
    hide PathLength, LowerPrepend, Base, ValidRouting;
    Lengths(asn, a);
    Lengths(asn, b);
  }

  // ------------------------------------------------------------------
  // Merged communities
  // ------------------------------------------------------------------

  /** The first position of `x`. */
  function First(s: seq<string>, x: string): nat {
    if s == [] || s[0] == x then 0 else 1 + First(s[1..], x)
  }

  lemma {:induction false} FirstIs(s: seq<string>, x: string)
    ensures First(s, x) <= |s| && (x in s <==> First(s, x) < |s|)
    ensures x in s ==> s[First(s, x)] == x
    ensures forall k :: 0 <= k < First(s, x) ==> s[k] != x
  {
    if s != [] {
      FirstIs(s[1..], x);
      assert s == [s[0]] + s[1..];
    }
  }

  lemma {:induction false} FirstInPrefix(s: seq<string>, last: string, x: string)
    requires x in s
    ensures First(s + [last], x) == First(s, x)
  {
    FirstIs(s, x);
    FirstIs(s + [last], x);
    assert (s + [last])[First(s, x)] == x;
  }

  /** A list without repetitions that has the members of `s` in the order of their first appearance. */
  ghost predicate FirstSeen(r: seq<string>, s: seq<string>) {
    && (forall x :: x in r <==> x in s)
    && (forall i, j :: 0 <= i < j < |r| ==> First(s, r[i]) < First(s, r[j]))
  }

  lemma {:induction false} FirstSeenOneMore(r: seq<string>, s: seq<string>, last: string)
    requires FirstSeen(r, s)
    ensures FirstSeen(if last in r then r else r + [last], s + [last])
  {
    var all := s + [last];
    forall i | 0 <= i < |r|
      ensures First(all, r[i]) == First(s, r[i]) < |s|
    {
      assert r[i] in s;
      FirstInPrefix(s, last, r[i]);
      FirstIs(s, r[i]);
    }
    FirstIs(all, last);
  }

  /** `mergeCommunities`: the duplicate-free union in first-seen order. */
  method MergeCommunities(base: seq<string>, extra: seq<string>) returns (out: seq<string>)
    ensures out == Dedup(base + extra)
    ensures FirstSeen(out, base + extra)
  {
    hide FirstSeen, Dedup;
    DedupIsFirstSeen(base + extra);
    DedupNone();
    if |base| == 0 && |extra| == 0 {
      assert base + extra == [];
      return [];
    }
    var lists := [base, extra];
    var seen: set<string> := {};
    out := [];
    ghost var done: seq<string> := [];
    for n := 0 to 2
      invariant done == (if n == 0 then [] else if n == 1 then base else base + extra)
      invariant (forall x :: x in seen <==> x in out) && out == Dedup(done)
    {
      var list := lists[n];
      ghost var start := done;
      for i := 0 to |list|
        invariant done == start + list[..i]
        invariant (forall x :: x in seen <==> x in out) && out == Dedup(done)
      {
        var c := list[i];
        DedupOneMore(done, c);
        assert start + list[..i + 1] == done + [c];
        done := done + [c];
        if c !in seen {
          seen := seen + {c};
          out := out + [c];
        }
      }
      assert list[..|list|] == list;
    }
  }

  lemma DedupNone()
    ensures Dedup([]) == []
  {
  }

  lemma DedupOneMore(s: seq<string>, c: string)
    ensures Dedup(s + [c]) == if c in Dedup(s) then Dedup(s) else Dedup(s) + [c]
  {
    assert (s + [c])[..|s|] == s;
  }

  lemma {:induction false} DedupIsFirstSeen(s: seq<string>)
    ensures FirstSeen(Dedup(s), s)
  {
    if s != [] {
      var k := |s| - 1;
      DedupIsFirstSeen(s[..k]);
      FirstSeenOneMore(Dedup(s[..k]), s[..k], s[k]);
      assert s == s[..k] + [s[k]];
    }
  }
}
