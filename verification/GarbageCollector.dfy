/**
 * The garbage collector itself, changing its graph, its queue and its suspended coroutines in place. Every method
 * is one stretch between two awaits, and carries out the collector's half of one action of the protocol.
 */
module GarbageCollectors {
  import opened Wrappers
  import opened Digraphs
  import opened Relationships
  import opened GraphRuns
  import opened DependencyGraphs
  import opened Cascade

  /** Settling from a graph that the failed check has already touched. */
  lemma CleanTouched(g: Adjacency, rs: set<ResourceRef>)
    ensures RemoveAll(Touch(g, rs), rs) == RemoveAll(g, rs)
  {
  }

  lemma RemoveNothing(g: Adjacency)
    ensures RemoveAll(g, {}) == g
  {
    forall r | r in g ensures Without(g[r], {}) == g[r] {
      WithoutNothing(g[r], {});
    }
  }

  class GarbageCollector {
    const graph: DependencyGraph
    var queue: map<ResourceRef, Resource>
    var workers: map<ResourceRef, Worker>
    var handlers: map<ResourceRef, Handler>

    ghost function Snapshot(): Collector
      reads this, graph
    {
      Collector(graph.relationships, queue, workers, handlers)
    }

    constructor ()
      ensures Snapshot() == EMPTY.gc && fresh(graph)
    {
      graph := new DependencyGraph();
      queue, workers, handlers := map[], map[], map[];
    }

    /** Accepts resources in deletion only; a value still waiting for the key is replaced. */
    method SimpleOnReceive(ref: ResourceRef, resource: Resource)
      modifies this`queue
      ensures queue == if InDeletion(resource) then old(queue)[ref := resource] else old(queue)
    {
      if InDeletion(resource) {
        queue := queue[ref := resource];
      }
    }

    /** Takes every resource the failed check has visited out of the graph. */
    method CleanCycle(cycle: set<ResourceRef>)
      requires DuplicateFree(graph.relationships)
      modifies graph
      ensures graph.relationships == RemoveAll(old(graph.relationships), cycle)
    {
      ghost var was := graph.relationships;
      RemoveNothing(was);
      var todo := cycle;
      assert cycle - todo == {};
      while todo != {}
        invariant todo <= cycle && DuplicateFree(graph.relationships)
        invariant graph.relationships == RemoveAll(was, cycle - todo)
        decreases todo
      {
        var resource :| resource in todo;
        var _ := graph.RemoveResource(resource, false);
        RemoveAllTwice(was, cycle - todo, {resource});
        assert cycle - (todo - {resource}) == (cycle - todo) + {resource};
        todo := todo - {resource};
      }
      assert cycle - todo == cycle;
    }

    /** What follows a change of the graph: the resource is handled, or the cycle cleaned. */
    method Settle(ref: ResourceRef, resource: Resource, check: CycleCheck, ghost changed: Adjacency)
      requires DuplicateFree(changed) && CheckedFrom(changed, ref, graph.relationships, check)
      modifies this`queue, graph
      ensures exists visited ::
        VisitedFrom(changed, ref, visited) && graph.relationships == Settled(changed, ref, visited)
      ensures queue ==
        if TreeFrom(EdgesOf(changed), ref) && InDeletion(resource) then old(queue)[ref := resource] else old(queue)
    {
      match check {
        case Passed =>
          ReachesSelf(EdgesOf(changed), ref);
          ghost var seen :| IsReachSet(EdgesOf(changed), ref, seen) && graph.relationships == Touch(changed, seen);
          assert VisitedFrom(changed, ref, seen);
          SimpleOnReceive(ref, resource);
        case Cycle(visited) =>
          TouchKeepsEdges(changed, visited);
          CleanTouched(changed, visited);
          CleanCycle(visited);
          assert VisitedFrom(changed, ref, visited);
      }
    }

    method OnReceivedNew(ref: ResourceRef, resource: Resource, ghost s: State)
      requires s.gc == Snapshot() && DuplicateFree(graph.relationships)
      requires Pending(s, ref) != [] && Pending(s, ref)[0] == Event(ADDED, resource)
      modifies this`queue, graph
      ensures exists visited :: Enabled(s, Deliver(ref, visited)) && Snapshot() == Apply(s, Deliver(ref, visited)).gc
    {
      ghost var changed := WithOwners(graph.relationships, ref, resource.owners);
      WithOwnersEdges(graph.relationships, ref, resource.owners);
      var check := graph.AddResource(ref, resource.owners, true);
      Settle(ref, resource, check, changed);
      ghost var visited :|
        VisitedFrom(changed, ref, visited) && graph.relationships == Settled(changed, ref, visited);
      assert Enabled(s, Deliver(ref, visited)) && Snapshot() == Apply(s, Deliver(ref, visited)).gc;
    }

    method OnReceivedUpdate(ref: ResourceRef, resource: Resource, ghost s: State)
      requires s.gc == Snapshot() && DuplicateFree(graph.relationships)
      requires Pending(s, ref) != [] && Pending(s, ref)[0] == Event(MODIFIED, resource)
      modifies this`queue, graph
      ensures exists visited :: Enabled(s, Deliver(ref, visited)) && Snapshot() == Apply(s, Deliver(ref, visited)).gc
    {
      ghost var changed := Updated(graph.relationships, ref, resource.owners);
      UpdatedEdges(graph.relationships, ref, resource.owners);
      var check := graph.UpdateResource(ref, resource.owners);
      Settle(ref, resource, check, changed);
      ghost var visited :|
        VisitedFrom(changed, ref, visited) && graph.relationships == Settled(changed, ref, visited);
      assert Enabled(s, Deliver(ref, visited)) && Snapshot() == Apply(s, Deliver(ref, visited)).gc;
    }

    /** The end of a DELETED handler. */
    method RemoveFromGraph(ref: ResourceRef)
      requires DuplicateFree(graph.relationships)
      modifies this`handlers, graph
      ensures graph.relationships == Changed(old(graph.relationships), Deleted(ref))
      ensures handlers == old(handlers) - {ref}
    {
      var _ := graph.RemoveResource(ref, true);
      handlers := handlers - {ref};
    }

    /** Up to the first read of an owner, or to the end. */
    method OnReceivedDeleted(ref: ResourceRef, resource: Resource, ghost s: State)
      requires s.gc == Snapshot() && DuplicateFree(graph.relationships)
      requires Pending(s, ref) != [] && Pending(s, ref)[0] == Event(DELETED, resource)
      modifies this`handlers, graph
      ensures forall visited ::
        Enabled(s, Deliver(ref, visited)) && Snapshot() == Apply(s, Deliver(ref, visited)).gc
    {
      if resource.owners == [] {
        RemoveFromGraph(ref);
      } else {
        handlers := handlers[ref := Handler(resource.owners, 0, None)];
      }
    }

    /** The read of an owner returns; a 404 ends the handler, and the node stays in the graph. */
    method OwnerRead(ref: ResourceRef, answer: Option<Resource>, ghost s: State)
      requires s.gc == Snapshot() && Enabled(s, ReadOwner(ref))
      requires var owner := CurrentOwner(handlers[ref]);
        answer == if owner in s.api.store then Some(s.api.store[owner]) else None
      modifies this`handlers
      ensures Snapshot() == Apply(s, ReadOwner(ref)).gc
      ensures answer.None? ==> ref !in handlers && graph.relationships == old(graph.relationships)
    {
      match answer {
        case Some(_) => handlers := handlers[ref := handlers[ref].(answer := answer)];
        case None => handlers := handlers - {ref};
      }
    }

    /** From the answer about one owner to the read of the next one, or to the end. */
    method OwnerAnswered(ref: ResourceRef, ghost s: State)
      requires s.gc == Snapshot() && DuplicateFree(graph.relationships) && Enabled(s, EnqueueOwner(ref))
      modifies this`handlers, this`queue, graph
      ensures Snapshot() == Apply(s, EnqueueOwner(ref)).gc
    {
      var handler := handlers[ref];
      SimpleOnReceive(handler.owners[handler.next], handler.answer.value);
      if handler.next + 1 < |handler.owners| {
        handlers := handlers[ref := Handler(handler.owners, handler.next + 1, None)];
      } else {
        RemoveFromGraph(ref);
      }
    }

    /** A worker gets a resource and goes on to its first API call. */
    method ResourceReceived(ref: ResourceRef, ghost s: State)
      requires s.gc == Snapshot() && Enabled(s, Take(ref))
      modifies this`queue, this`workers, graph
      ensures Snapshot() == Apply(s, Take(ref)).gc
    {
      var resource := queue[ref];
      queue := queue - {ref};
      var dependents := graph.GetDirectDependents(ref);
      if dependents != [] {
        workers := workers[ref := Marking(0, Some(dependents[0]))];
      } else {
        workers := workers[ref := Dropping(Popped(resource))];
      }
    }

    /** The delete call for one dependent returns; a 404 ends the work, whatever dependents are left. */
    method DependentAnswered(ref: ResourceRef, found: bool, ghost s: State)
      requires s.gc == Snapshot() && Enabled(s, Call(ref)) && workers[ref].Marking?
      requires found == ApiDelete(s, workers[ref].target.value).Some?
      modifies this`workers
      ensures Snapshot() == Apply(s, Call(ref)).gc
      ensures !found ==> ref !in workers
    {
      if found {
        workers := workers[ref := Marking(workers[ref].next + 1, None)];
      } else {
        workers := workers - {ref};
      }
    }

    /** The update without the finalizer returns, accepted or refused: the work is done either way. */
    method UpdateAnswered(ref: ResourceRef, ghost s: State)
      requires s.gc == Snapshot() && Enabled(s, Call(ref)) && workers[ref].Dropping?
      modifies this`workers
      ensures Snapshot() == Apply(s, Call(ref)).gc && ref !in workers
    {
      workers := workers - {ref};
    }

    /** The loop of `_mark_dependents` looks at the list in the graph again after each call. */
    method NextDependent(ref: ResourceRef, ghost s: State)
      requires s.gc == Snapshot() && Enabled(s, Continue(ref))
      modifies this`workers
      ensures Snapshot() == Apply(s, Continue(ref)).gc
    {
      var next := workers[ref].next;
      if ref in graph.relationships && next < |graph.relationships[ref]| {
        workers := workers[ref := Marking(next, Some(graph.relationships[ref][next]))];
      } else {
        workers := workers - {ref};
      }
    }
  }
}
