/** The dependency graph of the garbage collector, changed in place. */
module DependencyGraphs {
  import opened Wrappers
  import opened Digraphs
  import opened Relationships

  /** The cycle check met a node twice; `visited` is what the exception carries. */
  datatype CycleCheck = Passed | Cycle(visited: set<ResourceRef>)

  /** What the depth-first search collects below `s`: a tree that avoids `visited`. */
  ghost predicate FreshTree(e: Edges<ResourceRef>, s: ResourceRef, visited: set<ResourceRef>) {
    TreeFrom(e, s) && forall x :: Reaches(e, s, x) ==> x !in visited
  }

  /** The children handled so far: fresh trees, pairwise disjoint and not leading back to `s`. */
  ghost predicate ChildrenFresh(
      e: Edges<ResourceRef>, s: ResourceRef, visited: set<ResourceRef>, ds: seq<ResourceRef>) {
    && (forall d :: d in ds ==> FreshTree(e, d, visited + {s}))
    && (forall c, d, x :: c in ds && d in ds && Reaches(e, c, x) && Reaches(e, d, x) ==> c == d)
  }

  ghost predicate SeenBelow(
      e: Edges<ResourceRef>, s: ResourceRef, visited: set<ResourceRef>, ds: seq<ResourceRef>, seen: set<ResourceRef>) {
    forall x :: x in seen <==> x in visited || x == s || exists d :: d in ds && Reaches(e, d, x)
  }

  lemma ChildFails(
      e: Edges<ResourceRef>, s: ResourceRef, visited: set<ResourceRef>, ds: seq<ResourceRef>, d: ResourceRef,
      seen: set<ResourceRef>)
    requires (s, d) in e && d !in ds && forall c :: c in ds ==> (s, c) in e
    requires SeenBelow(e, s, visited, ds, seen)
    requires !FreshTree(e, d, seen)
    ensures !FreshTree(e, s, visited)
  {
    if FreshTree(e, s, visited) {
      SubtreeOfTree(e, s, d);
      var x :| Reaches(e, d, x) && x in seen;
      if x in visited {
        EdgeThenReaches(e, s, d, x);
      } else if x == s {
        TreeHasNoCycleAtRoot(e, s, d);
      } else {
        var c :| c in ds && Reaches(e, c, x);
        TreeChildrenDisjoint(e, s, c, d, x);
      }
    }
  }

  lemma ChildPasses(
      e: Edges<ResourceRef>, s: ResourceRef, visited: set<ResourceRef>, ds: seq<ResourceRef>, d: ResourceRef,
      seen: set<ResourceRef>, seen': set<ResourceRef>)
    requires ChildrenFresh(e, s, visited, ds) && SeenBelow(e, s, visited, ds, seen)
    requires FreshTree(e, d, seen)
    requires forall x :: x in seen' <==> x in seen || Reaches(e, d, x)
    ensures ChildrenFresh(e, s, visited, ds + [d]) && SeenBelow(e, s, visited, ds + [d], seen')
  {
    assert visited + {s} <= seen;
    forall c, x | c in ds && Reaches(e, c, x) ensures !Reaches(e, d, x) {
      assert x in seen;
    }
    forall x ensures x in seen' <==> x in visited || x == s || exists c :: c in ds + [d] && Reaches(e, c, x) {
      if Reaches(e, d, x) {
        assert d in ds + [d];
      }
      if c :| c in ds && Reaches(e, c, x) {
        assert c in ds + [d];
      }
    }
  }

  lemma AllChildrenPass(
      e: Edges<ResourceRef>, s: ResourceRef, visited: set<ResourceRef>, ds: seq<ResourceRef>, seen: set<ResourceRef>)
    requires s !in visited
    requires forall d :: (s, d) in e <==> d in ds
    requires ChildrenFresh(e, s, visited, ds) && SeenBelow(e, s, visited, ds, seen)
    ensures FreshTree(e, s, visited)
    ensures forall x :: x in seen <==> x in visited || Reaches(e, s, x)
  {
    forall d | (s, d) in e ensures !Reaches(e, d, s) {
      assert FreshTree(e, d, visited + {s});
    }
    TreeFromSubtrees(e, s);
    forall x | Reaches(e, s, x) ensures x !in visited && x in seen {
      if x != s {
        var d := ReachesThroughSuccessor(e, s, x);
        assert FreshTree(e, d, visited + {s});
      }
    }
    forall x | x in seen && x !in visited ensures Reaches(e, s, x) {
      if x == s {
        ReachesSelf(e, s);
      } else {
        var d :| d in ds && Reaches(e, d, x);
        EdgeThenReaches(e, s, d, x);
      }
    }
  }

  /** Everything the search knows between two children of `s`. */
  ghost predicate Searched(
      g: Adjacency, s: ResourceRef, visited: set<ResourceRef>, ds: seq<ResourceRef>, seen: set<ResourceRef>) {
    && visited + {s} <= seen
    && ChildrenFresh(EdgesOf(g), s, visited, ds)
    && SeenBelow(EdgesOf(g), s, visited, ds, seen)
    && forall x :: x in seen - visited ==> Reaches(EdgesOf(g), s, x)
  }

  /** What the search promises for the nodes it saw below `s`. */
  ghost predicate SearchResult(
      g: Adjacency, s: ResourceRef, visited: set<ResourceRef>, ok: bool, seen: set<ResourceRef>) {
    && visited <= seen
    && (ok <==> FreshTree(EdgesOf(g), s, visited))
    && (ok ==> forall x :: x in seen <==> x in visited || Reaches(EdgesOf(g), s, x))
    && (!ok ==> s in seen)
    && forall x :: x in seen - visited ==> Reaches(EdgesOf(g), s, x)
  }

  lemma StartSearch(g: Adjacency, s: ResourceRef, visited: set<ResourceRef>)
    ensures s in visited ==> SearchResult(g, s, visited, false, visited)
    ensures s !in visited ==> Searched(g, s, visited, [], visited + {s})
  {
    ReachesSelf(EdgesOf(g), s);
  }

  lemma SearchChild(
      g: Adjacency, s: ResourceRef, visited: set<ResourceRef>, i: nat, seen: set<ResourceRef>,
      ok: bool, seen': set<ResourceRef>)
    requires i < |Dependents(g, s)| && NoDuplicates(Dependents(g, s))
    requires s !in visited && Searched(g, s, visited, Dependents(g, s)[..i], seen)
    requires SearchResult(g, Dependents(g, s)[i], seen, ok, seen')
    ensures ok ==> Searched(g, s, visited, Dependents(g, s)[..i + 1], seen')
    ensures !ok ==> SearchResult(g, s, visited, false, seen')
  {
    var e, ds, d := EdgesOf(g), Dependents(g, s), Dependents(g, s)[i];
    assert (s, d) in e;
    forall x | x in seen' - visited ensures Reaches(e, s, x) {
      if x !in seen {
        EdgeThenReaches(e, s, d, x);
      }
    }
    assert ds[..i + 1] == ds[..i] + [d];
    if ok {
      ChildPasses(e, s, visited, ds[..i], d, seen, seen');
    } else {
      ChildFails(e, s, visited, ds[..i], d, seen);
    }
  }

  lemma FinishSearch(g: Adjacency, s: ResourceRef, visited: set<ResourceRef>, seen: set<ResourceRef>)
    requires s !in visited && Searched(g, s, visited, Dependents(g, s), seen)
    ensures SearchResult(g, s, visited, true, seen)
  {
    AllChildrenPass(EdgesOf(g), s, visited, Dependents(g, s), seen);
  }

  lemma RemovePointer(dependents: seq<ResourceRef>, r: ResourceRef)
    requires NoDuplicates(dependents)
    ensures Without(dependents, {r}) == if r in dependents then RemoveFirst(dependents, r) else dependents
  {
    if r in dependents {
      RemoveFirstIsWithout(dependents, r);
    } else {
      WithoutNothing(dependents, {r});
    }
  }

  class DependencyGraph {
    var relationships: Adjacency

    constructor ()
      ensures relationships == map[]
    {
      relationships := map[];
    }

    method GetDirectDependents(resource: ResourceRef) returns (dependents: seq<ResourceRef>)
      modifies this
      ensures dependents == Dependents(old(relationships), resource)
      ensures relationships == Touch(old(relationships), {resource})
    {
      if resource !in relationships {
        relationships := relationships[resource := []];
      }
      dependents := relationships[resource];
    }

    /**
     * Raises a cycle exactly when the check below the resource does not see a tree. In either case each owner lists
     * what it listed before, in the same order, and a resource that is new to it last.
     */
    method AddResource(resource: ResourceRef, owners: seq<ResourceRef>, checkCycles: bool) returns (check: CycleCheck)
      requires DuplicateFree(relationships)
      modifies this
      ensures var g := WithOwners(old(relationships), resource, owners);
        && (!checkCycles ==> check == Passed && relationships == g)
        && (checkCycles ==> CheckedFrom(g, resource, relationships, check))
      ensures Appended(old(relationships), resource, owners, relationships)
    {
      ghost var was := relationships;
      for i := 0 to |owners|
        invariant relationships == WithOwners(was, resource, owners[..i])
      {
        var owner := owners[i];
        assert owners[..i + 1][..i] == owners[..i];
        var dependents := GetDirectDependents(owner);
        if resource !in dependents {
          dependents := dependents + [resource];
        }
        relationships := relationships[owner := dependents];
      }
      assert owners[..|owners|] == owners;
      check := Passed;
      if checkCycles {
        WithOwnersEdges(was, resource, owners);
        check := CheckFrom(resource);
        CheckKeepsLists(WithOwners(was, resource, owners), resource, relationships, check);
      }
      AddedAreAppended(was, resource, owners, relationships);
    }

    /** Refuses, changing nothing but a lazily created list, when dependents must be kept and exist. */
    method RemoveResource(resource: ResourceRef, checkDependents: bool) returns (removed: bool)
      requires DuplicateFree(relationships)
      modifies this
      ensures removed <==> !checkDependents || Dependents(old(relationships), resource) == []
      ensures relationships ==
        if removed then RemoveAll(old(relationships), {resource}) else Touch(old(relationships), {resource})
      ensures DuplicateFree(relationships)
    {
      ghost var was := relationships;
      TouchKeepsEdges(was, {resource});
      RemoveAllEdges(was, {resource});
      var existing := GetDirectDependents(resource);
      if checkDependents && existing != [] {
        return false;
      }
      DeleteThenDrop(was, resource);
      relationships := relationships - {resource};
      RemovePointers(resource);
      removed := true;
    }

    /** Takes a resource out of the dependents of every other one. */
    method RemovePointers(resource: ResourceRef)
      requires forall r :: r in relationships ==> NoDuplicates(relationships[r])
      modifies this
      ensures relationships == map r | r in old(relationships) :: Without(old(relationships)[r], {resource})
    {
      ghost var was := relationships;
      var todo := relationships.Keys;
      while todo != {}
        invariant todo <= was.Keys && relationships.Keys == was.Keys
        invariant forall r :: r in was ==>
          relationships[r] == if r in todo then was[r] else Without(was[r], {resource})
        decreases todo
      {
        var r :| r in todo;
        RemovePointer(relationships[r], resource);
        if resource in relationships[r] {
          relationships := relationships[r := RemoveFirst(relationships[r], resource)];
        }
        todo := todo - {r};
      }
    }

    /**
     * The whole update is made before the check; it stands whether or not the check raises. The resource then stands
     * last with each owner, even with one that listed it before.
     */
    method UpdateResource(resource: ResourceRef, owners: seq<ResourceRef>) returns (check: CycleCheck)
      requires DuplicateFree(relationships)
      modifies this
      ensures CheckedFrom(Updated(old(relationships), resource, owners), resource, relationships, check)
      ensures MovedToEnd(old(relationships), resource, owners, relationships)
    {
      ghost var was := relationships;
      TouchKeepsEdges(was, {resource});
      var dependents := GetDirectDependents(resource);
      var _ := RemoveResource(resource, false);
      assert relationships == RemoveAll(was, {resource});
      var _ := AddResource(resource, owners, false);
      relationships := relationships[resource := dependents];
      assert relationships == Updated(was, resource, owners);
      UpdatedEdges(was, resource, owners);
      check := CheckFrom(resource);
      CheckKeepsLists(Updated(was, resource, owners), resource, relationships, check);
      UpdatedAreMoved(was, resource, owners, relationships);
    }

    /** The check as its callers start it: nothing visited yet. */
    method CheckFrom(resource: ResourceRef) returns (check: CycleCheck)
      requires DuplicateFree(relationships)
      modifies this
      ensures CheckedFrom(old(relationships), resource, relationships, check)
    {
      ghost var was := relationships;
      var ok, seen := CheckForCycles(resource, {}, Nodes(was) + {resource});
      check := if ok then Passed else Cycle(seen);
      assert seen - {} == seen;
      SearchIsCheck(was, resource, relationships, ok, seen);
    }

    /**
     * The depth-first search. `visited` is shared by the whole search and never shrinks, so meeting a node
     * on two branches raises like meeting it on one. `bound` only serves termination.
     */
    method CheckForCycles(reference: ResourceRef, visited: set<ResourceRef>, ghost bound: set<ResourceRef>)
      returns (ok: bool, seen: set<ResourceRef>)
      requires DuplicateFree(relationships)
      requires reference in bound && forall r, d :: d in Dependents(relationships, r) ==> d in bound
      modifies this
      ensures SearchResult(old(relationships), reference, visited, ok, seen)
      ensures relationships == Touch(old(relationships), seen - visited)
      decreases bound - visited
    {
      ghost var was := relationships;
      StartSearch(was, reference, visited);
      if reference in visited {
        return false, visited;
      }
      seen := visited + {reference};
      var dependents := GetDirectDependents(reference);
      assert NoDuplicates(Dependents(was, reference));
      for i := 0 to |dependents|
        invariant relationships == Touch(was, seen - visited)
        invariant Searched(was, reference, visited, dependents[..i], seen)
      {
        TouchKeepsEdges(was, seen - visited);
        assert (reference, dependents[i]) in EdgesOf(was);
        var passed, seen' := CheckForCycles(dependents[i], seen, bound);
        SearchChild(was, reference, visited, i, seen, passed, seen');
        TouchTwice(was, seen - visited, seen' - seen);
        assert (seen - visited) + (seen' - seen) == seen' - visited;
        if !passed {
          return false, seen';
        }
        seen := seen';
      }
      assert dependents[..|dependents|] == dependents;
      FinishSearch(was, reference, visited, seen);
      ok := true;
    }
  }

  ghost predicate IsReachSet(e: Edges<ResourceRef>, r: ResourceRef, seen: set<ResourceRef>) {
    forall x :: x in seen <==> Reaches(e, r, x)
  }

  /** The outcome of a check from `r`: nothing but empty lists is added, and the exact verdict. */
  ghost predicate CheckedFrom(g: Adjacency, r: ResourceRef, after: Adjacency, check: CycleCheck) {
    && (check.Passed? <==> TreeFrom(EdgesOf(g), r))
    && (check.Cycle? ==>
      && r in check.visited
      && (forall x :: x in check.visited ==> Reaches(EdgesOf(g), r, x))
      && after == Touch(g, check.visited))
    && (check.Passed? ==> exists seen :: IsReachSet(EdgesOf(g), r, seen) && after == Touch(g, seen))
  }

  /** A check adds empty lists only. */
  lemma CheckKeepsLists(g: Adjacency, r: ResourceRef, after: Adjacency, check: CycleCheck)
    requires CheckedFrom(g, r, after, check)
    ensures forall o :: Dependents(after, o) == Dependents(g, o)
  {
    match check {
      case Cycle(visited) => TouchKeepsEdges(g, visited);
      case Passed =>
        var seen :| IsReachSet(EdgesOf(g), r, seen) && after == Touch(g, seen);
        TouchKeepsEdges(g, seen);
    }
  }

  /** A search with nothing visited before is the check. */
  lemma SearchIsCheck(g: Adjacency, r: ResourceRef, after: Adjacency, ok: bool, seen: set<ResourceRef>)
    requires SearchResult(g, r, {}, ok, seen) && after == Touch(g, seen)
    ensures CheckedFrom(g, r, after, if ok then Passed else Cycle(seen))
  {
    assert ok ==> IsReachSet(EdgesOf(g), r, seen);
  }

  function Nodes(g: Adjacency): set<ResourceRef> {
    g.Keys + set r, d | r in g && d in g[r] :: d
  }
}
