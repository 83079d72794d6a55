/** Whose turn it is: in which order different keys are handed out, and what a cancellation takes back. */
module WorkQueueTurns {
  import opened Wrappers
  import opened WorkQueues
  import opened WorkQueueValues

  /** The key becomes due in this step: it is in the queue after it, and was not before. */
  ghost predicate Joins(s: State, t: State, k: Key) {
    k in t.q.queue && k !in s.q.queue
  }

  ghost function NewlyDue(s: State, t: State): seq<Key> {
    if k :| Joins(s, t, k) then [k] else []
  }

  function HandedOut(s: State, a: Action): seq<Key> {
    if a.Get? && s.q.queue != [] then [s.q.queue[0]] else []
  }

  /** A `get` takes the first key, with its value; any other step at most puts one key behind the others. */
  lemma StepKeepsTurns(s: State, a: Action, t: State)
    requires Sequential(s.q, s.past.held) && Step(s, a, t)
    ensures HandedOut(s, a) + t.q.queue == s.q.queue + NewlyDue(s, t)
    ensures a.Get? ==> NewlyDue(s, t) == [] && t.past.gets == s.past.gets + [s.q.dirty[s.q.queue[0]]]
    ensures !a.Get? ==> t.past.gets == s.past.gets
  {
    var q, p := s.q.queue, t.q.queue;
    if |p| == |q| + 1 {
      assert p == q + [p[|q|]];
      OneJoins(s, a, t);
    } else {
      assert p == q || (a.Get? && q == [q[0]] + p);
      assert forall k :: !Joins(s, t, k);
    }
  }

  lemma OneJoins(s: State, a: Action, t: State)
    requires Sequential(s.q, s.past.held) && Step(s, a, t)
    requires |t.q.queue| == |s.q.queue| + 1 && t.q.queue == s.q.queue + [t.q.queue[|s.q.queue|]]
    ensures NewlyDue(s, t) == [t.q.queue[|s.q.queue|]]
  {
    var last := t.q.queue[|s.q.queue|];
    StepKeepsSequential(s, a);
    assert last in t.q.queue && NoDuplicates(t.q.queue);
    assert Joins(s, t, last) by {
      assert forall i :: 0 <= i < |s.q.queue| ==> t.q.queue[i] == s.q.queue[i];
    }
    assert forall k :: Joins(s, t, k) ==> k == last;
  }

  /** The keys handed out by the first `n` steps. */
  function Served(ss: seq<State>, acts: seq<Action>, n: nat): seq<Key>
    requires n <= |acts| && n <= |ss|
  {
    if n == 0 then [] else Served(ss, acts, n - 1) + HandedOut(ss[n - 1], acts[n - 1])
  }

  /** The keys that became due in the first `n` steps, in the order in which they did. */
  ghost function Due(ss: seq<State>, n: nat): seq<Key>
    requires n < |ss|
  {
    if n == 0 then [] else Due(ss, n - 1) + NewlyDue(ss[n - 1], ss[n])
  }

  /** In every run keys are handed out in the order in which they became due, and none is left out. */
  lemma {:induction false} EveryRunServesInOrder(ss: seq<State>, acts: seq<Action>, n: nat)
    requires Run(ss, acts) && n <= |acts|
    ensures Served(ss, acts, n) + ss[n].q.queue == Due(ss, n)
  {
    if n > 0 {
      EveryRunServesInOrder(ss, acts, n - 1);
      RunKeepsTurns(ss, acts, n - 1);
      Follow(Served(ss, acts, n - 1), ss[n - 1].q.queue, HandedOut(ss[n - 1], acts[n - 1]), ss[n].q.queue,
             NewlyDue(ss[n - 1], ss[n]));
    }
  }

  lemma RunKeepsTurns(ss: seq<State>, acts: seq<Action>, n: nat)
    requires Run(ss, acts) && n < |acts|
    ensures HandedOut(ss[n], acts[n]) + ss[n + 1].q.queue == ss[n].q.queue + NewlyDue(ss[n], ss[n + 1])
    ensures acts[n].Get? ==> ss[n].q.queue != [] && NewlyDue(ss[n], ss[n + 1]) == []
  {
    EveryRunIsSequential(ss, acts, n);
    assert Step(ss[n], acts[n], ss[n + 1]);
    StepKeepsTurns(ss[n], acts[n], ss[n + 1]);
  }

  lemma Follow(served: seq<Key>, queue: seq<Key>, first: seq<Key>, rest: seq<Key>, last: seq<Key>)
    requires first + rest == queue + last
    ensures served + first + rest == served + queue + last
  {
    assert served + first + rest == served + (first + rest);
  }

  /** How many keys the steps from `i` up to `j` hand out. */
  function Gets(acts: seq<Action>, i: nat, j: nat): nat
    requires i <= j <= |acts|
  {
    if i == j then 0 else Gets(acts, i, j - 1) + (if acts[j - 1].Get? then 1 else 0)
  }

  lemma StepMovesUp(ss: seq<State>, acts: seq<Action>, n: nat, x: nat)
    requires Run(ss, acts) && n < |acts| && x < |ss[n].q.queue|
    ensures !acts[n].Get? ==> x < |ss[n + 1].q.queue| && ss[n + 1].q.queue[x] == ss[n].q.queue[x]
    ensures acts[n].Get? && x > 0 ==> x - 1 < |ss[n + 1].q.queue| && ss[n + 1].q.queue[x - 1] == ss[n].q.queue[x]
  {
    RunKeepsTurns(ss, acts, n);
    var first, rest := HandedOut(ss[n], acts[n]), ss[n + 1].q.queue;
    var all := ss[n].q.queue + NewlyDue(ss[n], ss[n + 1]);
    assert all[x] == ss[n].q.queue[x];
    assert x >= |first| ==> (first + rest)[x] == rest[x - |first|];
  }

  /**
   * A key moves up by one with every key handed out and by nothing else, whatever is put, fired, done or cancelled in
   * between: the one at position `p` is handed out by the (p+1)-th `get` from there.
   */
  lemma {:induction false} KeysMoveUp(ss: seq<State>, acts: seq<Action>, i: nat, j: nat, p: nat)
    requires Run(ss, acts) && i <= j <= |acts| && p < |ss[i].q.queue| && Gets(acts, i, j) <= p
    ensures p - Gets(acts, i, j) < |ss[j].q.queue|
    ensures ss[j].q.queue[p - Gets(acts, i, j)] == ss[i].q.queue[p]
    decreases j
  {
    if i < j {
      KeysMoveUp(ss, acts, i, j - 1, p);
      StepMovesUp(ss, acts, j - 1, p - Gets(acts, i, j - 1));
    }
  }

  /** Whoever is handed a key is handed it in its turn. */
  lemma ServedInTurn(ss: seq<State>, acts: seq<Action>, i: nat, j: nat, p: nat)
    requires Run(ss, acts) && i <= j < |acts| && p < |ss[i].q.queue| && acts[j].Get? && Gets(acts, i, j) <= p
    ensures ss[j].q.queue != [] && (ss[j].q.queue[0] == ss[i].q.queue[p] <==> Gets(acts, i, j) == p)
  {
    KeysMoveUp(ss, acts, i, j, p);
    EveryRunIsSequential(ss, acts, j);
  }

  /**
   * No key that waits is overtaken: when another one that became due later is handed out, it has been handed out
   * before.
   */
  lemma NeverOvertaken(ss: seq<State>, acts: seq<Action>, i: nat, j: nat, p: nat) returns (g: nat)
    requires Run(ss, acts) && i <= j < |acts| && p < |ss[i].q.queue|
    requires acts[j].Get? && ss[j].q.queue != [] && ss[j].q.queue[0] !in ss[i].q.queue
    ensures i <= g < j && acts[g].Get? && ss[g].q.queue != [] && ss[g].q.queue[0] == ss[i].q.queue[p]
  {
    if Gets(acts, i, j) <= p {
      KeysMoveUp(ss, acts, i, j, Gets(acts, i, j));
    }
    g := TurnOf(acts, i, j, p);
    ServedInTurn(ss, acts, i, g, p);
  }

  lemma {:induction false} TurnOf(acts: seq<Action>, i: nat, j: nat, p: nat) returns (g: nat)
    requires i <= j <= |acts| && p < Gets(acts, i, j)
    ensures i <= g < j && acts[g].Get? && Gets(acts, i, g) == p
    decreases j
  {
    if p < Gets(acts, i, j - 1) {
      g := TurnOf(acts, i, j - 1, p);
    } else {
      g := j - 1;
    }
  }

  // ---------------------------------------------------------------------------------------------
  // Cancellation
  // ---------------------------------------------------------------------------------------------

  /** The value of a registered timer that is still asleep. */
  ghost predicate Cancellable(s: State, k: Key, v: Ticket) {
    k in s.q.timers && IsSleeping(s, s.q.timers[k]) && s.loop.tasks[s.q.timers[k]].value == v
  }

  ghost predicate Discards(s: State, a: Action, v: Ticket) {
    match a
    case Cancel(k) => Cancellable(s, k, v)
    case CloseCancel => exists k :: Cancellable(s, k, v)
    case _ => false
  }

  /** Exactly the values of pending timers are given up: of the one key, or of all of them. */
  lemma StepDiscards(s: State, a: Action, t: State, v: Ticket)
    requires Step(s, a, t)
    ensures v in t.past.discarded <==> v in s.past.discarded || Discards(s, a, v)
  {
    match a {
      case CloseCancel =>
        var ids := SleepingTimers(s);
        if id :| id in ids && id in s.loop.tasks && s.loop.tasks[id].value == v {
          var k :| k in s.q.timers && s.q.timers[k] == id;
          assert Cancellable(s, k, v);
        }
        if k :| Cancellable(s, k, v) {
          assert s.q.timers[k] in ids;
        }
      case _ =>
    }
  }

  lemma {:induction false} StaysDiscarded(ss: seq<State>, acts: seq<Action>, i: nat, j: nat, v: Ticket)
    requires Run(ss, acts) && i <= j <= |acts| && v in ss[i].past.discarded
    ensures v in ss[j].past.discarded
    decreases j
  {
    if i < j {
      StaysDiscarded(ss, acts, i, j - 1, v);
      assert Step(ss[j - 1], acts[j - 1], ss[j]);
      StepDiscards(ss[j - 1], acts[j - 1], ss[j], v);
    }
  }

  /** What is cancelled is never returned: it is on its way nowhere from then on, in any continuation. */
  lemma CancelledIsNeverReturned(ss: seq<State>, acts: seq<Action>, i: nat, j: nat, v: Ticket)
    requires Run(ss, acts) && i < j <= |acts| && Discards(ss[i], acts[i], v)
    ensures v !in ss[j].past.gets && !InDirty(ss[j], v) && !InTimer(ss[j], v) && v !in ss[j].loop.waiters
  {
    assert Step(ss[i], acts[i], ss[i + 1]);
    StepDiscards(ss[i], acts[i], ss[i + 1], v);
    StaysDiscarded(ss, acts, i + 1, j, v);
    EveryPutIsSomewhere(ss, acts, j);
    assert Places(ss[j], v) <= 1;
  }

  /** A newer value takes the place of one still waiting for its timer, or for its key to be handed out. */
  ghost predicate Replaces(s: State, a: Action, v: Ticket) {
    match a
    case PutDelayed(k) => Cancellable(s, k, v)
    case PutNow(k) => k in s.q.dirty && s.q.dirty[k] == v
    case Fire(id) => id in s.loop.tasks && s.loop.tasks[id].key in s.q.dirty && s.q.dirty[s.loop.tasks[id].key] == v
    case _ => false
  }

  lemma StepReplaces(s: State, a: Action, t: State, v: Ticket)
    requires Step(s, a, t)
    ensures v in t.past.superseded <==> v in s.past.superseded || Replaces(s, a, v)
  {
  }

  lemma {:induction false} StaysReplaced(ss: seq<State>, acts: seq<Action>, i: nat, j: nat, v: Ticket)
    requires Run(ss, acts) && i <= j <= |acts| && v in ss[i].past.superseded
    ensures v in ss[j].past.superseded
    decreases j
  {
    if i < j {
      StaysReplaced(ss, acts, i, j - 1, v);
      assert Step(ss[j - 1], acts[j - 1], ss[j]);
      StepReplaces(ss[j - 1], acts[j - 1], ss[j], v);
    }
  }

  /** What a newer value has replaced is never returned: not what it overwrites, nor what its delay has outrun. */
  lemma ReplacedIsNeverReturned(ss: seq<State>, acts: seq<Action>, i: nat, j: nat, v: Ticket)
    requires Run(ss, acts) && i < j <= |acts| && Replaces(ss[i], acts[i], v)
    ensures v !in ss[j].past.gets && !InDirty(ss[j], v) && !InTimer(ss[j], v) && v !in ss[j].loop.waiters
  {
    assert Step(ss[i], acts[i], ss[i + 1]);
    StepReplaces(ss[i], acts[i], ss[i + 1], v);
    StaysReplaced(ss, acts, i + 1, j, v);
    EveryPutIsSomewhere(ss, acts, j);
    assert Places(ss[j], v) <= 1;
  }

  /** A cancellation gives up nothing else: a value on its way elsewhere is where it was. */
  lemma OthersAreNotCancelled(s: State, a: Action, t: State, v: Ticket)
    requires Conserved(s) && Step(s, a, t) && (a.Cancel? || a.CloseCancel?) && !Discards(s, a, v)
    ensures InDirty(t, v) == InDirty(s, v) && InTimer(t, v) == InTimer(s, v)
    ensures v in t.loop.waiters <==> v in s.loop.waiters
    ensures t.q == s.q
  {
    StepConserves(s, a, t);
    StepDiscards(s, a, t, v);
    assert Places(s, v) == Places(t, v);
  }

  /** After closing no put waits for a timer of before, and no entry is left for the callbacks that are still due. */
  lemma ClosedStartsAfresh(s: State, t: State, k: Key)
    requires Labelled(s) && Step(s, CloseClear, t)
    ensures forall key :: key !in t.q.timers
    ensures t.q.dirty == s.q.dirty && t.q.queue == s.q.queue && t.q.active == s.q.active
    ensures var u := Apply(t, PutDelayed(k));
      Cancellable(u, k, |s.past.puts|) && u.loop.waiters == t.loop.waiters
  {
  }
}
