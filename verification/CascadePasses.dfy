/**
 * One pass of the marking loop over the live list of dependents: which of them it calls and which it skips. The list
 * changes under the loop, so both depend on where a change puts a name.
 */
module CascadePasses {
  import opened Wrappers
  import opened Digraphs
  import opened Relationships
  import opened GraphRuns
  import opened Cascade
  import opened CascadeSafety
  import opened CascadeProgress

  function ListOf(s: State, k: ResourceRef): seq<ResourceRef> {
    Dependents(s.gc.graph, k)
  }

  /** A worker of `k` walks the list; a call under way is for the name at its position. */
  predicate InLoop(s: State, k: ResourceRef) {
    && k in s.gc.workers && s.gc.workers[k].Marking?
    && s.gc.workers[k].next <= |ListOf(s, k)|
    && (s.gc.workers[k].target.Some? ==>
      s.gc.workers[k].next < |ListOf(s, k)| && ListOf(s, k)[s.gc.workers[k].next] == s.gc.workers[k].target.value)
  }

  /** `c` stands at `m`, where the loop still comes, or is just now. */
  predicate Coming(s: State, k: ResourceRef, c: ResourceRef, m: nat) {
    InLoop(s, k) && s.gc.workers[k].next <= m < |ListOf(s, k)| && ListOf(s, k)[m] == c
  }

  /** `c` stands at `m`, which the loop has behind it. */
  predicate Behind(s: State, k: ResourceRef, c: ResourceRef, m: nat) {
    InLoop(s, k) && m < s.gc.workers[k].next && m < |ListOf(s, k)| && ListOf(s, k)[m] == c
  }

  /** The worker of `k` asks the API to delete `c`. */
  predicate CallsFor(s: State, a: Action, k: ResourceRef, c: ResourceRef) {
    a == Call(k) && k in s.gc.workers && s.gc.workers[k].Marking? && s.gc.workers[k].target == Some(c)
  }

  /** The worker of `k` asks for something that is gone, which ends its work. */
  predicate Misses(s: State, a: Action, k: ResourceRef) {
    && a == Call(k) && k in s.gc.workers && s.gc.workers[k].Marking? && s.gc.workers[k].target.Some?
    && s.gc.workers[k].target.value !in s.api.store
  }

  /** The list of `k` changes at its end only. */
  predicate Grows(s: State, t: State, k: ResourceRef) {
    ListOf(s, k) <= ListOf(t, k)
  }

  /** A stretch of any steps the code lets through. */
  ghost predicate Stretch(ss: seq<State>, acts: seq<Action>) {
    && |ss| == |acts| + 1
    && forall i :: 0 <= i < |acts| ==> Enabled(ss[i], acts[i]) && ss[i + 1] == Apply(ss[i], acts[i])
  }

  ghost predicate OnlyGrows(ss: seq<State>, k: ResourceRef) {
    forall i :: 0 < i < |ss| ==> Grows(ss[i - 1], ss[i], k)
  }

  // ---------------------------------------------------------------------------------------------
  // What a step does to a list
  // ---------------------------------------------------------------------------------------------

  /** A change delivered, or a burial, of something the list of `k` holds. */
  ghost predicate Displaces(s: State, a: Action, k: ResourceRef) {
    match a
    case Deliver(r, _) => Pending(s, r) != [] && !Pending(s, r)[0].kind.ADDED? && r != k && r in ListOf(s, k)
    case EnqueueOwner(r) => r != k && r in ListOf(s, k)
    case _ => false
  }

  lemma SettledLists(g: Adjacency, r: ResourceRef, visited: set<ResourceRef>, k: ResourceRef)
    requires TreeFrom(EdgesOf(g), r)
    ensures Dependents(Settled(g, r, visited), k) == Dependents(g, k)
  {
    TouchKeepsEdges(g, visited);
  }

  lemma BuriedLists(s: State, r: ResourceRef, k: ResourceRef)
    ensures ListOf(s, k) <= ListOf(Bury(s, r), k) || (r != k && r in ListOf(s, k))
  {
    TouchKeepsEdges(s.gc.graph, {r});
    RemoveAllEdges(s.gc.graph, {r});
    if r !in ListOf(s, k) {
      WithoutNothing(ListOf(s, k), {r});
    }
  }

  lemma DeliveredLists(s: State, r: ResourceRef, visited: set<ResourceRef>, k: ResourceRef)
    requires Pending(s, r) != [] && !Pending(s, r)[0].kind.DELETED? && TreeFrom(EdgesOf(DeliveredGraph(s, r)), r)
    requires Enabled(s, Deliver(r, visited))
    ensures var was, owners := ListOf(s, k), Pending(s, r)[0].obj.owners;
      ListOf(Apply(s, Deliver(r, visited)), k)
        == if Pending(s, r)[0].kind.ADDED? then was + Newly(k in owners && r !in was, r)
           else if k == r then was
           else Without(was, {r}) + Newly(k in owners, r)
  {
    var g, owners := s.gc.graph, Pending(s, r)[0].obj.owners;
    SettledLists(DeliveredGraph(s, r), r, visited, k);
    WithOwnersAppends(g, r, owners, k);
    UpdatedLists(g, r, owners, k);
  }

  /** The cycle check after the delivery of a change does not raise. */
  ghost predicate CheckPasses(s: State, a: Action) {
    a.Deliver? && Pending(s, a.ref) != [] && !Pending(s, a.ref)[0].kind.DELETED? ==>
      TreeFrom(EdgesOf(DeliveredGraph(s, a.ref)), a.ref)
  }

  /** Which is so in every state of the protocol. */
  lemma ProtocolPasses(s: State, a: Action)
    requires Inv(s)
    ensures CheckPasses(s, a) && DuplicateFree(s.gc.graph)
  {
    if a.Deliver? && Pending(s, a.ref) != [] && !Pending(s, a.ref)[0].kind.DELETED? {
      HeadFacts(s, a.ref);
      DeliveryPasses(s, a.ref);
    }
  }

  /** Nothing but these ever makes a list change elsewhere than at its end, or shrink, unless a cycle check raises. */
  lemma OnlyDisplacedListsShrink(s: State, a: Action, k: ResourceRef)
    requires Enabled(s, a) && !Displaces(s, a, k) && CheckPasses(s, a)
    ensures Grows(s, Apply(s, a), k)
  {
    match a {
      case Deliver(r, visited) =>
        if Pending(s, r)[0].kind.DELETED? {
          BuriedLists(Taken(s, r), r, k);
        } else {
          DeliveredLists(s, r, visited, k);
          if r !in ListOf(s, k) {
            WithoutNothing(ListOf(s, k), {r});
          }
        }
      case EnqueueOwner(r) => EnqueuedLists(s, r, k);
      case Take(r) => TouchKeepsEdges(s.gc.graph, {r});
      case _ =>
    }
  }

  lemma EnqueuedLists(s: State, r: ResourceRef, k: ResourceRef)
    requires Enabled(s, EnqueueOwner(r)) && !Displaces(s, EnqueueOwner(r), k)
    ensures Grows(s, ApplyEnqueueOwner(s, r), k)
  {
    var h := s.gc.handlers[r];
    BuriedLists(Enqueue(s, CurrentOwner(h), h.answer.value), r, k);
  }

  // ---------------------------------------------------------------------------------------------
  // What is heard of in time is called in the same pass
  // ---------------------------------------------------------------------------------------------

  /** While the list only grows, what is ahead of the loop stays ahead until it is called or a call is answered 404. */
  lemma StepKeepsComing(s: State, a: Action, k: ResourceRef, c: ResourceRef, m: nat)
    requires Enabled(s, a) && Coming(s, k, c, m) && Grows(s, Apply(s, a), k)
    ensures CallsFor(s, a, k, c) || Misses(s, a, k) || Coming(Apply(s, a), k, c, m)
  {
    if a != Call(k) && a != Continue(k) {
      OthersKeepWorker(s, a, k);
    }
  }

  /** A pass that comes to its end has called whatever was ahead of it. */
  lemma {:induction false} ComingIsCalled(ss: seq<State>, acts: seq<Action>, k: ResourceRef, c: ResourceRef, m: nat)
    returns (i: nat)
    requires Stretch(ss, acts) && OnlyGrows(ss, k) && Coming(ss[0], k, c, m)
    requires forall j :: 0 <= j < |acts| ==> !Misses(ss[j], acts[j], k)
    requires k !in ss[|acts|].gc.workers
    ensures i < |acts| && CallsFor(ss[i], acts[i], k, c)
    ensures forall j :: 0 <= j <= i ==> Coming(ss[j], k, c, m)
    decreases |acts|
  {
    assert ss[0] != ss[|acts|];
    assert Grows(ss[0], ss[1], k) && !Misses(ss[0], acts[0], k);
    StepKeepsComing(ss[0], acts[0], k, c, m);
    if CallsFor(ss[0], acts[0], k, c) {
      i := 0;
    } else {
      TailIsStretch(ss, acts);
      TailOnlyGrows(ss, k);
      i := ComingIsCalled(ss[1..], acts[1..], k, c, m);
      forall j | 0 <= j <= i + 1 ensures Coming(ss[j], k, c, m) {
        assert j > 0 ==> ss[j] == ss[1..][j - 1];
      }
      i := i + 1;
    }
  }

  lemma TailIsStretch(ss: seq<State>, acts: seq<Action>)
    requires Stretch(ss, acts) && acts != []
    ensures Stretch(ss[1..], acts[1..])
  {
  }

  lemma TailOnlyGrows(ss: seq<State>, k: ResourceRef)
    requires OnlyGrows(ss, k) && ss != []
    ensures OnlyGrows(ss[1..], k)
  {
    forall i | 0 < i < |ss[1..]| ensures Grows(ss[1..][i - 1], ss[1..][i], k) {
      assert Grows(ss[i], ss[i + 1], k);
    }
  }

  /** The creation of `c`, a dependent of `k` the list does not hold yet, is delivered. */
  ghost predicate HearsOf(s: State, a: Action, k: ResourceRef, c: ResourceRef) {
    && a.Deliver? && a.ref == c && Pending(s, c) != [] && Pending(s, c)[0].kind.ADDED?
    && k in Pending(s, c)[0].obj.owners && c !in ListOf(s, k)
  }

  /** If a worker of `k` is in the loop, `c` is ahead of it. */
  lemma HeardIsComing(s: State, a: Action, k: ResourceRef, c: ResourceRef)
    requires InLoop(s, k) && Enabled(s, a) && HearsOf(s, a, k, c) && CheckPasses(s, a)
    ensures Coming(Apply(s, a), k, c, |ListOf(s, k)|)
  {
    DeliveredLists(s, c, a.visited, k);
  }

  /**
   * A dependent heard of while a worker of its owner is in the loop is called in the same pass, unless something
   * leaves or moves in the list, or a call is answered 404, before the pass ends.
   */
  lemma HeardIsCalled(ss: seq<State>, acts: seq<Action>, k: ResourceRef, c: ResourceRef) returns (i: nat)
    requires Stretch(ss, acts) && OnlyGrows(ss, k) && InLoop(ss[0], k)
    requires acts != [] && HearsOf(ss[0], acts[0], k, c) && CheckPasses(ss[0], acts[0])
    requires forall j :: 0 <= j < |acts| ==> !Misses(ss[j], acts[j], k)
    requires k !in ss[|acts|].gc.workers
    ensures 0 < i < |acts| && CallsFor(ss[i], acts[i], k, c)
    ensures forall j :: 0 < j <= i ==> Coming(ss[j], k, c, |ListOf(ss[0], k)|)
  {
    HeardIsComing(ss[0], acts[0], k, c);
    TailIsStretch(ss, acts);
    TailOnlyGrows(ss, k);
    i := ComingIsCalled(ss[1..], acts[1..], k, c, |ListOf(ss[0], k)|);
    forall j | 0 < j <= i + 1 ensures Coming(ss[j], k, c, |ListOf(ss[0], k)|) {
      assert Coming(ss[1..][j - 1], k, c, |ListOf(ss[0], k)|);
    }
    i := i + 1;
  }

  // ---------------------------------------------------------------------------------------------
  // What moves up behind the loop is skipped
  // ---------------------------------------------------------------------------------------------

  lemma StepKeepsDuplicateFree(s: State, a: Action)
    requires Enabled(s, a) && DuplicateFree(s.gc.graph)
    ensures DuplicateFree(Apply(s, a).gc.graph)
  {
    match a {
      case Deliver(r, visited) =>
        if Pending(s, r)[0].kind.DELETED? {
          BuryKeepsDuplicateFree(Taken(s, r), r);
        } else {
          DeliveryKeepsDuplicateFree(s, r, visited);
        }
      case EnqueueOwner(r) =>
        var h := s.gc.handlers[r];
        BuryKeepsDuplicateFree(Enqueue(s, CurrentOwner(h), h.answer.value), r);
      case Take(r) => TouchKeepsEdges(s.gc.graph, {r});
      case _ =>
    }
  }

  lemma BuryKeepsDuplicateFree(s: State, r: ResourceRef)
    requires DuplicateFree(s.gc.graph)
    ensures DuplicateFree(Bury(s, r).gc.graph)
  {
    TouchKeepsEdges(s.gc.graph, {r});
    RemoveAllEdges(s.gc.graph, {r});
  }

  lemma DeliveryKeepsDuplicateFree(s: State, r: ResourceRef, visited: set<ResourceRef>)
    requires Pending(s, r) != [] && !Pending(s, r)[0].kind.DELETED?
    requires Enabled(s, Deliver(r, visited)) && DuplicateFree(s.gc.graph)
    ensures DuplicateFree(Apply(s, Deliver(r, visited)).gc.graph)
  {
    WithOwnersEdges(s.gc.graph, r, Pending(s, r)[0].obj.owners);
    UpdatedEdges(s.gc.graph, r, Pending(s, r)[0].obj.owners);
    TouchKeepsEdges(DeliveredGraph(s, r), visited);
    RemoveAllEdges(DeliveredGraph(s, r), visited);
  }

  lemma {:induction false} WithoutAt(ds: seq<ResourceRef>, n: nat)
    requires NoDuplicates(ds) && n < |ds|
    ensures Without(ds, {ds[n]}) == ds[..n] + ds[n + 1..]
    decreases |ds|
  {
    var init, x := ds[..|ds| - 1], ds[|ds| - 1];
    if n == |ds| - 1 {
      assert forall y :: y in init ==> y != x;
      WithoutNothing(init, {x});
    } else {
      WithoutAt(init, n);
      assert init[n] == ds[n] != x;
    }
  }

  /** The change of the dependent at the position the loop has just left is delivered, before the loop looks again. */
  ghost predicate HearsOfMarked(s: State, a: Action, k: ResourceRef, n: nat) {
    && InLoop(s, k) && s.gc.workers[k] == Marking(n + 1, None) && n + 1 < |ListOf(s, k)|
    && a.Deliver? && a.ref == ListOf(s, k)[n] && a.ref != k
    && Pending(s, a.ref) != [] && Pending(s, a.ref)[0].kind.MODIFIED? && k in Pending(s, a.ref)[0].obj.owners
  }

  /**
   * The dependent goes from its position to the end, so that it comes once more, and the next one moves up to the
   * position the loop has just left.
   */
  lemma MarkedMovesToEnd(s: State, a: Action, k: ResourceRef, n: nat)
    requires HearsOfMarked(s, a, k, n) && Enabled(s, a) && CheckPasses(s, a) && DuplicateFree(s.gc.graph)
    ensures ListOf(Apply(s, a), k) == ListOf(s, k)[..n] + ListOf(s, k)[n + 1..] + [a.ref]
    ensures Behind(Apply(s, a), k, ListOf(s, k)[n + 1], n) && Coming(Apply(s, a), k, a.ref, |ListOf(s, k)| - 1)
  {
    assert NoDuplicates(ListOf(s, k));
    DeliveredLists(s, a.ref, a.visited, k);
    WithoutAt(ListOf(s, k), n);
  }

  /** What is behind the loop is not called, and stays behind while the list only grows. */
  lemma StepKeepsBehind(s: State, a: Action, k: ResourceRef, d: ResourceRef, m: nat)
    requires Enabled(s, a) && Behind(s, k, d, m) && DuplicateFree(s.gc.graph) && Grows(s, Apply(s, a), k)
    ensures !CallsFor(s, a, k, d)
    ensures k in Apply(s, a).gc.workers ==> Behind(Apply(s, a), k, d, m)
  {
    assert NoDuplicates(ListOf(s, k));
    if a != Call(k) && a != Continue(k) {
      OthersKeepWorker(s, a, k);
    }
  }

  lemma {:induction false} BehindIsNotCalled(
      ss: seq<State>, acts: seq<Action>, k: ResourceRef, d: ResourceRef, m: nat, i: nat)
    requires Stretch(ss, acts) && OnlyGrows(ss, k) && Behind(ss[0], k, d, m) && DuplicateFree(ss[0].gc.graph)
    requires i < |acts| && forall j :: 0 <= j <= i ==> k in ss[j].gc.workers
    ensures Behind(ss[i], k, d, m) && DuplicateFree(ss[i].gc.graph) && !CallsFor(ss[i], acts[i], k, d)
  {
    if i > 0 {
      BehindIsNotCalled(ss, acts, k, d, m, i - 1);
      assert Grows(ss[i - 1], ss[i], k);
      StepKeepsBehind(ss[i - 1], acts[i - 1], k, d, m);
      StepKeepsDuplicateFree(ss[i - 1], acts[i - 1]);
    }
    assert Grows(ss[i], ss[i + 1], k);
    StepKeepsBehind(ss[i], acts[i], k, d, m);
  }

  /**
   * When the MODIFIED event of the dependent just marked comes before the loop looks again, the dependent after it is
   * not called in this pass, unless something else leaves or moves in the list.
   */
  lemma NextIsSkipped(ss: seq<State>, acts: seq<Action>, k: ResourceRef, n: nat, i: nat)
    requires Stretch(ss, acts) && acts != [] && OnlyGrows(ss[1..], k) && HearsOfMarked(ss[0], acts[0], k, n)
    requires CheckPasses(ss[0], acts[0]) && DuplicateFree(ss[0].gc.graph)
    requires 0 < i < |acts| && forall j :: 0 <= j <= i ==> k in ss[j].gc.workers
    ensures !CallsFor(ss[i], acts[i], k, ListOf(ss[0], k)[n + 1])
  {
    MarkedMovesToEnd(ss[0], acts[0], k, n);
    StepKeepsDuplicateFree(ss[0], acts[0]);
    TailIsStretch(ss, acts);
    BehindIsNotCalled(ss[1..], acts[1..], k, ListOf(ss[0], k)[n + 1], n, i - 1);
  }
}
