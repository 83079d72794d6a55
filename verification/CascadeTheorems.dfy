/** What the cascade promises in every run: bottom-up deletion. */
module CascadeTheorems {
  import opened Wrappers
  import opened Digraphs
  import opened Relationships
  import opened GraphRuns
  import opened Cascade
  import opened CascadeSafety

  ghost predicate Holds(s: State, r: ResourceRef) {
    r in s.api.store && CascadeDeletion in s.api.store[r].finalizers
  }

  /** What takes `cascade_deletion` off: a worker's update, or one of others that leaves it out. */
  ghost predicate Drops(s: State, a: Action, r: ResourceRef) {
    || (a == Call(r) && r in s.gc.workers && s.gc.workers[r].Dropping?)
    || (a.Write? && a.ref == r && CascadeDeletion !in a.finalizers)
  }

  /** `cascade_deletion` leaves a resource only once everything it owned is gone. */
  lemma DropIsBottomUp(s: State, a: Action, r: ResourceRef)
    requires Inv(s) && SoundStep(s, a)
    requires Holds(s, r) && !Holds(Apply(s, a), r)
    ensures Drops(s, a, r)
    ensures forall c :: c in s.api.store ==> r !in s.api.store[c].owners
  {
    assert WellFormed(s, r, s.api.store[r]);
    OnlyUpdatesDrop(s, a, r);
    assert Spent(s, r) by {
      if a.Call? {
        WorkerIsOk(s, r);
      }
    }
    forall c | c in s.api.store ensures r !in s.api.store[c].owners {
      assert WellFormed(s, c, s.api.store[c]) && EventsOk(s, c);
    }
  }

  /** Of the collector's actions only API calls write the store. */
  lemma OnlyCallsWrite(s: State, a: Action)
    requires Enabled(s, a) && IsCollector(a) && !a.Call?
    ensures Apply(s, a).api.store == s.api.store && Apply(s, a).past.born == s.past.born
  {
  }

  lemma MarkingCallWrites(s: State, k: ResourceRef)
    requires k in s.gc.workers && s.gc.workers[k].Marking? && s.gc.workers[k].target.Some?
    ensures var t, c := ApplyCall(s, k), s.gc.workers[k].target.value;
      && t.past.born == s.past.born
      && t.api.store == if c in s.api.store then ApiDelete(s, c).value.api.store else s.api.store
  {
  }

  lemma OnlyUpdatesDrop(s: State, a: Action, r: ResourceRef)
    requires Enabled(s, a)
    requires Holds(s, r) && !Holds(Apply(s, a), r)
    ensures Drops(s, a, r)
  {
    if !IsCollector(a) {
      UsersKeepHolding(s, a, r);
    } else if !a.Call? {
      OnlyCallsWrite(s, a);
    } else if s.gc.workers[a.ref].Marking? {
      MarkingKeepsHolding(s, a.ref, r);
    } else if a.ref != r {
      DroppingKeepsOthers(s, a.ref, r);
    }
  }

  lemma DroppingKeepsOthers(s: State, k: ResourceRef, r: ResourceRef)
    requires k in s.gc.workers && s.gc.workers[k].Dropping? && k != r && Holds(s, r)
    ensures Holds(ApplyCall(s, k), r)
  {
  }

  lemma MarkingKeepsHolding(s: State, k: ResourceRef, r: ResourceRef)
    requires k in s.gc.workers && s.gc.workers[k].Marking? && s.gc.workers[k].target.Some? && Holds(s, r)
    ensures Holds(ApplyCall(s, k), r)
  {
    MarkingCallWrites(s, k);
  }

  lemma UsersKeepHolding(s: State, a: Action, r: ResourceRef)
    requires Enabled(s, a) && !IsCollector(a) && Holds(s, r)
    ensures Holds(Apply(s, a), r) || Drops(s, a, r)
  {
  }

  /**
   * Bottom-up deletion, in every run: no resource is dropped or removed while another one names it as owner;
   * a finished DELETED handler never meets the "still holds dependents" refusal; its reads find their owner;
   * and a delivery never raises a cycle.
   */
  lemma BottomUpDeletion(ss: seq<State>, acts: seq<Action>, n: nat)
    requires Run(ss, acts) && n < |ss|
    ensures n < |acts| ==> forall r :: Holds(ss[n], r) && !Holds(ss[n + 1], r) ==>
      forall c :: c in ss[n].api.store ==> r !in ss[n].api.store[c].owners
    ensures forall c, o :: c in ss[n].api.store && o in ss[n].api.store[c].owners ==> o in ss[n].api.store
    ensures forall r :: r !in ss[n].api.store ==> Dependents(ss[n].gc.graph, r) == []
    ensures forall r :: r in ss[n].gc.handlers ==>
      ss[n].gc.handlers[r].next < |ss[n].gc.handlers[r].owners| && CurrentOwner(ss[n].gc.handlers[r]) in ss[n].api.store
    ensures forall r :: Pending(ss[n], r) != [] && !Pending(ss[n], r)[0].kind.DELETED? ==>
      TreeFrom(EdgesOf(DeliveredGraph(ss[n], r)), r)
  {
    var s := ss[n];
    EveryRunKeepsInv(ss, acts, n);
    if n < |acts| {
      forall r | Holds(s, r) && !Holds(ss[n + 1], r)
        ensures forall c :: c in s.api.store ==> r !in s.api.store[c].owners
      {
        DropIsBottomUp(s, acts[n], r);
      }
    }
    forall c, o | c in s.api.store && o in s.api.store[c].owners ensures o in s.api.store {
      assert WellFormed(s, c, s.api.store[c]) && EventsOk(s, c);
    }
    forall r | r !in s.api.store ensures Dependents(s.gc.graph, r) == [] {
      GoneHasNoDependents(s, r);
    }
    forall r | r in s.gc.handlers
      ensures s.gc.handlers[r].next < |s.gc.handlers[r].owners| && CurrentOwner(s.gc.handlers[r]) in s.api.store
    {
      assert EventsOk(s, r);
      OwnerIsFound(s, r);
    }
    forall r | Pending(s, r) != [] && !Pending(s, r)[0].kind.DELETED?
      ensures TreeFrom(EdgesOf(DeliveredGraph(s, r)), r)
    {
      assert EventsOk(s, r);
      HeadFacts(s, r);
      DeliveryPasses(s, r);
    }
  }
}
