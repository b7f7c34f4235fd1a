/**
  The verdict queue and its wake channel. Shadow callbacks append under the queue lock and then
  send a token into a channel of capacity one without blocking; the commit loop receives the
  token and then takes the queue; a reload may empty the queue at any time.
 */
module Wakeup {
  type Id = nat

  /** Where the commit loop is: in its `select`, past the receive, or working through what it took. */
  datatype Loop = Selecting | Woken | Draining(ready: seq<Id>)

  /**
    `sending` are the schedulers whose callback has appended and not sent yet; one scheduler runs
    one callback at a time. `reported`, `taken` and `dropped` count what went through.
   */
  datatype State = State(queue: seq<Id>, token: bool, sending: set<Id>, loop: Loop,
                         reported: multiset<Id>, taken: multiset<Id>, dropped: multiset<Id>)

  datatype Act =
    | Append(id: Id)
    | Send(id: Id)
    | Receive
    | Take
    | Process
    | Return
    | Clear

  predicate CanAct(s: State, a: Act) {
    match a
    case Append(id) => id !in s.sending
    case Send(id) => id in s.sending
    case Receive => s.loop.Selecting? && s.token
    case Take => s.loop.Woken?
    case Process => s.loop.Draining? && s.loop.ready != []
    case Return => s.loop == Draining([])
    case Clear => true
  }

  function Perform(s: State, a: Act): State
    requires CanAct(s, a)
  {
    match a
    case Append(id) =>
      if id in s.queue then s.(sending := s.sending + {id})
      else s.(queue := s.queue + [id], sending := s.sending + {id}, reported := s.reported + multiset{id})
    case Send(id) => s.(sending := s.sending - {id}, token := true)
    case Receive => s.(token := false, loop := Woken)
    case Take => s.(queue := [], loop := Draining(s.queue), taken := s.taken + multiset(s.queue))
    case Process => s.(loop := Draining(s.loop.ready[1..]))
    case Return => s.(loop := Selecting)
    case Clear => s.(queue := [], dropped := s.dropped + multiset(s.queue))
  }

  /** A verdict in the queue has a token, a sender or the woken loop to thank for being seen. */
  predicate Noticed(s: State) {
    s.queue != [] ==> s.token || s.sending != {} || s.loop.Woken?
  }

  predicate Conserved(s: State) {
    && s.reported == multiset(s.queue) + s.taken + s.dropped
    && (forall i, j :: 0 <= i < j < |s.queue| ==> s.queue[i] != s.queue[j])
  }

  const IDLE := State([], false, {}, Selecting, multiset{}, multiset{}, multiset{})

  predicate Acts(s: State, acts: seq<Act>, t: State)
    decreases |acts|
  {
    if acts == [] then t == s else CanAct(s, acts[0]) && Acts(Perform(s, acts[0]), acts[1..], t)
  }

  lemma {:induction false} ActKeeps(s: State, a: Act)
    requires Noticed(s) && Conserved(s) && CanAct(s, a)
    ensures Noticed(Perform(s, a)) && Conserved(Perform(s, a))
  {
    match a
    case Append(id) => assert id in Perform(s, a).sending;
    case _ =>
  }

  lemma {:induction false} ActsKeep(s: State, acts: seq<Act>, t: State)
    requires Noticed(s) && Conserved(s) && Acts(s, acts, t)
    ensures Noticed(t) && Conserved(t)
    decreases |acts|
  {
    hide Noticed, Conserved, CanAct, Perform;
    if acts != [] {
      ActKeeps(s, acts[0]);
      ActsKeep(Perform(s, acts[0]), acts[1..], t);
    }
  }

  /**
    No wake-up is lost in any interleaving: a verdict in the queue means a token, a callback about
    to send one, or a loop about to take the queue; and every verdict ever queued is still there,
    was taken, or was dropped by a reload.
   */
  lemma {:induction false} NoLostWakeup(acts: seq<Act>, t: State)
    requires Acts(IDLE, acts, t)
    ensures t.queue != [] ==> t.token || t.sending != {} || t.loop.Woken?
    ensures t.reported == multiset(t.queue) + t.taken + t.dropped
  {
    hide Acts;
    ActsKeep(IDLE, acts, t);
  }

  /** The steps still to go until the loop has taken the queue. */
  function Remaining(s: State): nat {
    |s.sending| + match s.loop case Selecting => 2 case Woken => 1 case Draining(ready) => |ready| + 3
  }

  /** The step that brings the queue closer to the loop: an outstanding send first, then the loop's own. */
  ghost function Progress(s: State): Act
    requires s.sending != {} || s.token || !s.loop.Selecting?
  {
    if s.sending != {} then (var id :| id in s.sending; Send(id))
    else match s.loop case Selecting => Receive case Woken => Take case Draining(ready) => if ready == [] then Return
      else Process
  }

  /**
    And none is stuck: from every reachable state with a verdict in the queue, pending sends and
    the loop's own steps alone take the whole queue.
   */
  lemma {:induction false} QueueIsTaken(s: State) returns (acts: seq<Act>, t: State)
    requires Noticed(s) && s.queue != []
    ensures Acts(s, acts, t) && t.loop == Draining(s.queue) && t.queue == []
    ensures forall a :: a in acts ==> a.Send? || a.Receive? || a.Take? || a.Process? || a.Return?
    decreases Remaining(s)
  {
    hide Acts;
    var a := Progress(s);
    var s1 := Perform(s, a);
    if a.Take? {
      acts, t := [a], s1;
      NoActs(s1);
      ActsStep(s, a, [], t);
      assert [a] + [] == [a];
    } else {
      assert s1.queue == s.queue && Noticed(s1) && Remaining(s1) < Remaining(s) by { ProgressShrinks(s); }
      var rest;
      rest, t := QueueIsTaken(s1);
      acts := [a] + rest;
      ActsStep(s, a, rest, t);
    }
  }

  lemma {:induction false} ProgressShrinks(s: State)
    requires Noticed(s) && s.queue != []
    ensures CanAct(s, Progress(s))
    ensures !Progress(s).Take? ==>
      var t := Perform(s, Progress(s)); t.queue == s.queue && Noticed(t) && Remaining(t) < Remaining(s)
  {
  }

  lemma NoActs(s: State)
    ensures Acts(s, [], s)
  {
  }

  lemma ActsStep(s: State, a: Act, rest: seq<Act>, t: State)
    requires CanAct(s, a) && Acts(Perform(s, a), rest, t)
    ensures Acts(s, [a] + rest, t)
  {
    hide CanAct, Perform;
    assert ([a] + rest)[1..] == rest;
  }
}
