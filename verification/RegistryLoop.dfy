/**
  `RemoveVIP` as it is written: the loop ranges over a slice while every removal shifts the
  elements of the same backing array and clears the freed place. Reading a cleared place and
  asking it for its VIP ends the daemon.
 */
module RegistryLoop {
  import opened Config
  import opened Registry

  /** `slices.Index` over the first `len` places. */
  method IndexOf(backing: array<Option<Handle>>, len: nat, s: Handle) returns (i: int)
    requires len <= backing.Length
    ensures -1 <= i < len
    ensures i >= 0 ==> backing[i] == Some(s) && forall k :: 0 <= k < i ==> backing[k] != Some(s)
    ensures i < 0 ==> forall k :: 0 <= k < len ==> backing[k] != Some(s)
  {
    i := 0;
    while i < len
      invariant 0 <= i <= len
      invariant forall k :: 0 <= k < i ==> backing[k] != Some(s)
    {
      if backing[i] == Some(s) {
        return;
      }
      i := i + 1;
    }
    i := -1;
  }

  /** `slices.Delete` of one element: the rest moves up and the last place is cleared. */
  method DeleteAt(backing: array<Option<Handle>>, len: nat, idx: nat)
    requires idx < len <= backing.Length
    modifies backing
    ensures forall k :: 0 <= k < idx ==> backing[k] == old(backing[k])
    ensures forall k :: idx <= k < len - 1 ==> backing[k] == old(backing[k + 1])
    ensures backing[len - 1] == None
    ensures forall k :: len <= k < backing.Length ==> backing[k] == old(backing[k])
  {
    var j := idx;
    while j < len - 1
      invariant idx <= j <= len - 1
      invariant forall k :: 0 <= k < idx ==> backing[k] == old(backing[k])
      invariant forall k :: idx <= k < j ==> backing[k] == old(backing[k + 1])
      invariant forall k :: j <= k < backing.Length ==> backing[k] == old(backing[k])
    {
      backing[j] := backing[j + 1];
      j := j + 1;
    }
    backing[len - 1] := None;
  }

  /** The backing array after `i` rounds: the odd places first, then what was not reached, then cleared places. */
  predicate Shifted(now: seq<Option<Handle>>, list: seq<Handle>, i: nat) {
    && |now| == |list| && i <= |list|
    && (forall k :: 0 <= k < i && k < |list| - i ==> 2 * k + 1 < |list| && now[k] == Some(list[2 * k + 1]))
    && (forall k :: i <= k < |list| - i ==> now[k] == Some(list[k + i]))
    && (forall k :: |list| - i <= k < |list| ==> now[k] == None)
  }

  /**
    The loop over a list of pairwise different schedulers. It stops every one of them exactly when
    there is at most one; with two or more it reads a cleared place after half of them, the crash
    comes there, and the schedulers at the odd places are still listed and running.
   */
  method RemoveVipInPlace(backing: array<Option<Handle>>, list: seq<Handle>)
    returns (left: nat, stopped: seq<Handle>, crashed: bool)
    requires backing.Length == |list| && OneEach(list) && forall k :: 0 <= k < |list| ==> backing[k] == Some(list[k])
    modifies backing
    ensures crashed <==> |list| >= 2
    ensures !crashed ==> left == 0 && stopped == list
    ensures left == |list| / 2 && forall k :: 0 <= k < left ==> backing[k] == Some(list[2 * k + 1])
    ensures |stopped| == (|list| + 1) / 2 && forall k :: 0 <= k < |stopped| ==> stopped[k] == list[2 * k]
  {
    hide Shifted, OneEach;
    left, stopped, crashed := |list|, [], false;
    NotShifted(backing[..], list);
    var i := 0;
    while i < |list|
      invariant 0 <= i <= |list| && 2 * i <= |list| + 1 && left == |list| - i
      invariant Shifted(backing[..], list, i)
      invariant |stopped| == i && forall k :: 0 <= k < i ==> 2 * k < |list| && stopped[k] == list[2 * k]
    {
      var s := backing[i];
      ShiftedAt(backing[..], list, i);
      if s.None? {
        OddsLeft(backing[..], list, i);
        crashed := true;
        return;
      }
      var idx := IndexOf(backing, left, s.value);
      FoundHere(backing[..], list, i, idx);
      ghost var before := backing[..];
      DeleteAt(backing, left, idx);
      ShiftOnce(before, backing[..], list, i);
      left := left - 1;
      stopped := stopped + [s.value];
      i := i + 1;
    }
    OddsLeft(backing[..], list, i);
  }

  lemma NotShifted(now: seq<Option<Handle>>, list: seq<Handle>)
    requires |now| == |list| && forall k :: 0 <= k < |list| ==> now[k] == Some(list[k])
    ensures Shifted(now, list, 0)
  {
  }

  lemma ShiftedAt(now: seq<Option<Handle>>, list: seq<Handle>, i: nat)
    requires Shifted(now, list, i) && i < |list|
    ensures now[i] == if 2 * i < |list| then Some(list[2 * i]) else None
  {
  }

  lemma OddsLeft(now: seq<Option<Handle>>, list: seq<Handle>, i: nat)
    requires Shifted(now, list, i) && |list| <= 2 * i <= |list| + 1
    ensures |list| - i == |list| / 2 && forall k :: 0 <= k < |list| / 2 ==> now[k] == Some(list[2 * k + 1])
  {
  }

  lemma ShiftOnce(now: seq<Option<Handle>>, next: seq<Option<Handle>>, list: seq<Handle>, i: nat)
    requires Shifted(now, list, i) && 2 * i < |list| && |next| == |now|
    requires forall k :: 0 <= k < i ==> next[k] == now[k]
    requires forall k :: i <= k < |list| - i - 1 ==> next[k] == now[k + 1]
    requires next[|list| - i - 1] == None
    requires forall k :: |list| - i <= k < |list| ==> next[k] == now[k]
    ensures Shifted(next, list, i + 1)
  {
  }

  lemma {:induction false} FoundHere(now: seq<Option<Handle>>, list: seq<Handle>, i: nat, idx: int)
    requires OneEach(list) && Shifted(now, list, i) && i < |list| - i && now[i] == Some(list[2 * i])
    requires -1 <= idx < |list| - i
    requires idx >= 0 ==> now[idx] == now[i]
    requires idx < 0 ==> forall k :: 0 <= k < |list| - i ==> now[k] != now[i]
    ensures idx == i
  {
    forall k | 0 <= k < |list| - i && k != i
      ensures now[k] != now[i]
    {
      assert now[k] == if k < i then Some(list[2 * k + 1]) else Some(list[k + i]);
    }
  }
}
