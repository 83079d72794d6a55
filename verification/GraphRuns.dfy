/** The dependency graph over whole runs of the garbage collector's event handlers. */
module GraphRuns {
  import opened Wrappers
  import opened Digraphs
  import opened Relationships

  datatype GraphEvent =
    | Added(ref: ResourceRef, owners: seq<ResourceRef>)
    | Modified(ref: ResourceRef, owners: seq<ResourceRef>)
    | Deleted(ref: ResourceRef)

  /** The nodes a check from `r` visits: all it can reach if it passes, some of them with `r` if it raises. */
  ghost predicate VisitedFrom(g: Adjacency, r: ResourceRef, visited: set<ResourceRef>) {
    && r in visited
    && (forall x :: x in visited ==> Reaches(EdgesOf(g), r, x))
    && (TreeFrom(EdgesOf(g), r) ==> forall x :: Reaches(EdgesOf(g), r, x) ==> x in visited)
  }

  /** After the check: kept as it is, or cleaned of every visited node if the check raised. */
  ghost function Settled(g: Adjacency, r: ResourceRef, visited: set<ResourceRef>): Adjacency {
    if TreeFrom(EdgesOf(g), r) then Touch(g, visited) else RemoveAll(g, visited)
  }

  ghost function Changed(g: Adjacency, ev: GraphEvent): Adjacency {
    match ev
    case Added(r, owners) => WithOwners(g, r, owners)
    case Modified(r, owners) => Updated(g, r, owners)
    case Deleted(r) => if Dependents(g, r) == [] then RemoveAll(g, {r}) else Touch(g, {r})
  }

  ghost predicate GraphStep(g: Adjacency, ev: GraphEvent, h: Adjacency) {
    if ev.Deleted? then h == Changed(g, ev)
    else exists visited ::
      VisitedFrom(Changed(g, ev), ev.ref, visited) && h == Settled(Changed(g, ev), ev.ref, visited)
  }

  ghost predicate GraphRun(gs: seq<Adjacency>, evs: seq<GraphEvent>) {
    && |gs| == |evs| + 1
    && gs[0] == map[]
    && forall i :: 0 <= i < |evs| ==> GraphStep(gs[i], evs[i], gs[i + 1])
  }

  /** The end of a deletion: the node goes with the edges into it, but stays as it is while it has dependents. */
  lemma DeletedEdges(g: Adjacency, r: ResourceRef)
    ensures forall u, v :: (u, v) in EdgesOf(Changed(g, Deleted(r))) <==>
      (u, v) in EdgesOf(g) && (v == r ==> Dependents(g, r) != [])
    ensures Dependents(Changed(g, Deleted(r)), r) == Dependents(g, r)
  {
    RemoveAllEdges(g, {r});
    TouchKeepsEdges(g, {r});
  }

  lemma StepKeepsAcyclic(g: Adjacency, ev: GraphEvent, h: Adjacency)
    requires Acyclic(EdgesOf(g)) && DuplicateFree(g) && GraphStep(g, ev, h)
    ensures Acyclic(EdgesOf(h)) && DuplicateFree(h)
  {
    match ev {
      case Deleted(r) =>
        RemoveAllEdges(g, {r});
        TouchKeepsEdges(g, {r});
        SubgraphAcyclic(EdgesOf(h), EdgesOf(g));
      case Added(r, owners) =>
        WithOwnersEdges(g, r, owners);
        SettleKeepsAcyclic(g, Changed(g, ev), r, h);
      case Modified(r, owners) =>
        UpdatedEdges(g, r, owners);
        SettleKeepsAcyclic(g, Changed(g, ev), r, h);
    }
  }

  /** Either the downward check saw a tree below `r`, or `r` itself is cleaned away. */
  lemma SettleKeepsAcyclic(g: Adjacency, changed: Adjacency, r: ResourceRef, h: Adjacency)
    requires Acyclic(EdgesOf(g)) && DuplicateFree(changed)
    requires forall u, v :: (u, v) in EdgesOf(changed) ==> (u, v) in EdgesOf(g) || v == r
    requires exists visited :: VisitedFrom(changed, r, visited) && h == Settled(changed, r, visited)
    ensures Acyclic(EdgesOf(h)) && DuplicateFree(h)
  {
    var visited :| VisitedFrom(changed, r, visited) && h == Settled(changed, r, visited);
    TouchKeepsEdges(changed, visited);
    RemoveAllEdges(changed, visited);
    if TreeFrom(EdgesOf(changed), r) {
      TreeFromNewTargetAcyclic(EdgesOf(g), EdgesOf(changed), r);
    } else {
      assert EdgesOf(h) <= EdgesOf(g);
      SubgraphAcyclic(EdgesOf(h), EdgesOf(g));
    }
  }

  /** From the empty graph no sequence of events ever leaves a cycle or a duplicate behind. */
  lemma {:induction false} EveryRunIsAcyclic(gs: seq<Adjacency>, evs: seq<GraphEvent>, n: nat)
    requires GraphRun(gs, evs) && n < |gs|
    ensures Acyclic(EdgesOf(gs[n])) && DuplicateFree(gs[n])
  {
    if n == 0 {
      forall u, p | WalkFromTo(EdgesOf(gs[0]), u, u, p) ensures |p| == 1 {
        if |p| > 1 {
          SplitWalk(EdgesOf(gs[0]), u, u, p);
        }
      }
    } else {
      EveryRunIsAcyclic(gs, evs, n - 1);
      StepKeepsAcyclic(gs[n - 1], evs[n - 1], gs[n]);
    }
  }

  /**
   * Two owners that share an ancestor make a check that starts at the ancestor raise like a cycle does, and the
   * ancestor is dropped.
   */
  lemma DiamondRaises(g: Adjacency, s: ResourceRef, a: ResourceRef, b: ResourceRef, d: ResourceRef)
    requires a != b && a in Dependents(g, s) && b in Dependents(g, s)
    requires d in Dependents(g, a) && d in Dependents(g, b)
    ensures !TreeFrom(EdgesOf(g), s)
    ensures forall visited, u :: VisitedFrom(g, s, visited) ==>
      (s, u) !in EdgesOf(Settled(g, s, visited)) && (u, s) !in EdgesOf(Settled(g, s, visited))
  {
    var e := EdgesOf(g);
    EdgeReaches(e, a, d);
    EdgeReaches(e, b, d);
    TreeChildrenDisjoint(e, s, a, b, d);
    forall visited, u | VisitedFrom(g, s, visited)
      ensures (s, u) !in EdgesOf(Settled(g, s, visited)) && (u, s) !in EdgesOf(Settled(g, s, visited))
    {
      RemoveAllEdges(g, visited);
    }
  }
}
