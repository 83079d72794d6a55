/** The collector alone comes to rest: each of its steps lowers a tuple of what is left to do. */
module CascadeRest {
  import opened Wrappers
  import opened Digraphs
  import opened Relationships
  import opened GraphRuns
  import opened Cascade
  import opened CascadeSafety
  import opened CascadeTheorems
  import opened CascadeWork
  import opened CascadeProgress
  import opened CascadeCalm

  // ---------------------------------------------------------------------------------------------
  // Sums over resources
  // ---------------------------------------------------------------------------------------------

  ghost function Sum(f: ResourceRef -> nat, xs: set<ResourceRef>): nat {
    if xs == {} then 0
    else
      var x :| x in xs;
      f(x) + Sum(f, xs - {x})
  }

  lemma {:induction false} SumSplit(f: ResourceRef -> nat, xs: set<ResourceRef>, x: ResourceRef)
    requires x in xs
    ensures Sum(f, xs) == f(x) + Sum(f, xs - {x})
    decreases xs
  {
    var y :| y in xs && Sum(f, xs) == f(y) + Sum(f, xs - {y});
    if y != x {
      SumSplit(f, xs - {y}, x);
      SumSplit(f, xs - {x}, y);
      assert xs - {y} - {x} == xs - {x} - {y};
    }
  }

  lemma {:induction false} SumSame(f: ResourceRef -> nat, g: ResourceRef -> nat, xs: set<ResourceRef>)
    requires forall x :: x in xs ==> g(x) == f(x)
    ensures Sum(g, xs) == Sum(f, xs)
    decreases xs
  {
    if xs != {} {
      var x :| x in xs;
      SumSplit(f, xs, x);
      SumSplit(g, xs, x);
      SumSame(f, g, xs - {x});
    }
  }

  lemma SumLowers(f: ResourceRef -> nat, g: ResourceRef -> nat, xs: set<ResourceRef>, r: ResourceRef)
    requires r in xs && g(r) < f(r) && forall x :: x in xs && x != r ==> g(x) == f(x)
    ensures Sum(g, xs) < Sum(f, xs)
  {
    SumSplit(f, xs, r);
    SumSplit(g, xs, r);
    SumSame(f, g, xs - {r});
  }

  // ---------------------------------------------------------------------------------------------
  // What is left to do
  // ---------------------------------------------------------------------------------------------

  /** Two steps for each owner left to the handler of `x`. */
  function OwnersLeft(gc: Collector, x: ResourceRef): nat {
    if x !in gc.handlers || gc.handlers[x].next >= |gc.handlers[x].owners| then 0
    else 2 * (|gc.handlers[x].owners| - gc.handlers[x].next) - One(gc.handlers[x].answer.Some?)
  }

  /** Two steps for each position left to a marking worker in the list as it is now. */
  function StepsLeft(gc: Collector, x: ResourceRef): nat {
    if x !in gc.workers then 0
    else
      match gc.workers[x]
      case Dropping(_) => 1
      case Marking(n, target) =>
        var left := if n < |Dependents(gc.graph, x)| then |Dependents(gc.graph, x)| - n else 0;
        if target.Some? then 2 * left + 2 else if left > 0 then 2 * left + 3 else 1
  }

  ghost function EventsTotal(s: State): nat {
    Sum(x => |Pending(s, x)|, s.past.born.Keys)
  }

  ghost function OwnersTotal(s: State): nat {
    Sum(x => OwnersLeft(s.gc, x), s.past.born.Keys)
  }

  ghost function QueueTotal(s: State): nat {
    Sum(x => One(x in s.gc.queue), s.past.born.Keys)
  }

  ghost function StepsTotal(s: State): nat {
    Sum(x => StepsLeft(s.gc, x), s.past.born.Keys)
  }

  /** Writes first, then events to deliver, owners to visit, values to take, positions to go through. */
  ghost predicate NearerToRest(t: State, s: State) {
    || WorkLeft(t) < WorkLeft(s)
    || (WorkLeft(t) <= WorkLeft(s)
      && (|| EventsTotal(t) < EventsTotal(s)
          || (EventsTotal(t) == EventsTotal(s)
            && (|| OwnersTotal(t) < OwnersTotal(s)
                || (OwnersTotal(t) == OwnersTotal(s)
                  && (|| QueueTotal(t) < QueueTotal(s)
                      || (QueueTotal(t) == QueueTotal(s) && StepsTotal(t) < StepsTotal(s))))))))
  }

  // ---------------------------------------------------------------------------------------------
  // Every step of the collector
  // ---------------------------------------------------------------------------------------------

  lemma SameEvents(s: State, t: State)
    requires t.api.events == s.api.events && t.past.born == s.past.born
    ensures EventsTotal(t) == EventsTotal(s)
  {
    SumSame(x => |Pending(s, x)|, x => |Pending(t, x)|, s.past.born.Keys);
  }

  lemma SameOwners(s: State, t: State)
    requires t.gc.handlers == s.gc.handlers && t.past.born == s.past.born
    ensures OwnersTotal(t) == OwnersTotal(s)
  {
    SumSame(x => OwnersLeft(s.gc, x), x => OwnersLeft(t.gc, x), s.past.born.Keys);
  }

  lemma SameQueue(s: State, t: State)
    requires t.gc.queue == s.gc.queue && t.past.born == s.past.born
    ensures QueueTotal(t) == QueueTotal(s)
  {
    SumSame(x => One(x in s.gc.queue), x => One(x in t.gc.queue), s.past.born.Keys);
  }

  lemma DeliveryTakesAnEvent(s: State, r: ResourceRef, visited: set<ResourceRef>)
    requires r in s.past.born && Pending(s, r) != []
    ensures EventsTotal(ApplyDelivery(s, r, visited)) < EventsTotal(s)
  {
    var t := ApplyDelivery(s, r, visited);
    assert t.api == Taken(s, r).api;
    assert Pending(t, r) == Pending(s, r)[1..] && forall x :: x != r ==> Pending(t, x) == Pending(s, x);
    SumLowers(x => |Pending(s, x)|, x => |Pending(t, x)|, s.past.born.Keys, r);
  }

  lemma HandlerGoesOn(s: State, t: State, r: ResourceRef)
    requires r in s.past.born && t.past.born == s.past.born && OwnersLeft(t.gc, r) < OwnersLeft(s.gc, r)
    requires forall x :: x != r ==> OwnersLeft(t.gc, x) == OwnersLeft(s.gc, x)
    ensures OwnersTotal(t) < OwnersTotal(s)
  {
    SumLowers(x => OwnersLeft(s.gc, x), x => OwnersLeft(t.gc, x), s.past.born.Keys, r);
  }

  lemma ReadGoesOn(s: State, r: ResourceRef)
    requires r in s.past.born && Enabled(s, ReadOwner(r))
    ensures OwnersTotal(ApplyRead(s, r)) < OwnersTotal(s) && EventsTotal(ApplyRead(s, r)) == EventsTotal(s)
  {
    HandlerGoesOn(s, ApplyRead(s, r), r);
    SameEvents(s, ApplyRead(s, r));
  }

  lemma EnqueueOwnerGoesOn(s: State, r: ResourceRef)
    requires r in s.past.born && Enabled(s, EnqueueOwner(r))
    ensures OwnersTotal(ApplyEnqueueOwner(s, r)) < OwnersTotal(s)
    ensures EventsTotal(ApplyEnqueueOwner(s, r)) == EventsTotal(s)
  {
    HandlerGoesOn(s, ApplyEnqueueOwner(s, r), r);
    SameEvents(s, ApplyEnqueueOwner(s, r));
  }

  lemma TakeShortensQueue(s: State, r: ResourceRef)
    requires r in s.past.born && r in s.gc.queue
    ensures var t := ApplyTake(s, r);
      QueueTotal(t) < QueueTotal(s) && EventsTotal(t) == EventsTotal(s) && OwnersTotal(t) == OwnersTotal(s)
  {
    var t := ApplyTake(s, r);
    SumLowers(x => One(x in s.gc.queue), x => One(x in t.gc.queue), s.past.born.Keys, r);
    SameEvents(s, t);
    SameOwners(s, t);
  }

  lemma WorkerGoesOn(s: State, t: State, k: ResourceRef)
    requires k in s.past.born && t == s.(gc := s.gc.(workers := t.gc.workers))
    requires StepsLeft(t.gc, k) < StepsLeft(s.gc, k)
    requires forall x :: x != k ==> StepsLeft(t.gc, x) == StepsLeft(s.gc, x)
    ensures StepsTotal(t) < StepsTotal(s) && EventsTotal(t) == EventsTotal(s)
    ensures OwnersTotal(t) == OwnersTotal(s) && QueueTotal(t) == QueueTotal(s)
  {
    SumLowers(x => StepsLeft(s.gc, x), x => StepsLeft(t.gc, x), s.past.born.Keys, k);
    SameEvents(s, t);
    SameOwners(s, t);
    SameQueue(s, t);
  }

  lemma ContinueGoesOn(s: State, k: ResourceRef)
    requires k in s.past.born && Enabled(s, Continue(k))
    ensures var t := ApplyContinue(s, k);
      && StepsTotal(t) < StepsTotal(s) && EventsTotal(t) == EventsTotal(s)
      && OwnersTotal(t) == OwnersTotal(s) && QueueTotal(t) == QueueTotal(s)
  {
    ContinueChangesWorkers(s, k);
    WorkerGoesOn(s, ApplyContinue(s, k), k);
  }

  /** A marking call that finds its target deleted already, or gone, writes nothing. */
  lemma IdleCallGoesOn(s: State, k: ResourceRef)
    requires k in s.past.born && k in s.gc.workers && s.gc.workers[k].Marking? && s.gc.workers[k].target.Some?
    requires var c := s.gc.workers[k].target.value; c in s.api.store ==> s.api.store[c].deleted
    ensures var t := ApplyCall(s, k);
      && StepsTotal(t) < StepsTotal(s) && EventsTotal(t) == EventsTotal(s)
      && OwnersTotal(t) == OwnersTotal(s) && QueueTotal(t) == QueueTotal(s)
  {
    IdleCall(s, k);
    WorkerGoesOn(s, ApplyCall(s, k), k);
  }

  lemma IdleCall(s: State, k: ResourceRef)
    requires k in s.gc.workers && s.gc.workers[k].Marking? && s.gc.workers[k].target.Some?
    requires var c := s.gc.workers[k].target.value; c in s.api.store ==> s.api.store[c].deleted
    ensures ApplyCall(s, k) == s.(gc := s.gc.(workers := ApplyCall(s, k).gc.workers))
    ensures StepsLeft(ApplyCall(s, k).gc, k) < StepsLeft(s.gc, k)
    ensures forall x :: x != k ==> StepsLeft(ApplyCall(s, k).gc, x) == StepsLeft(s.gc, x)
  {
  }

  lemma CallGoesOn(s: State, k: ResourceRef)
    requires InvBirth(s) && InvStore(s) && InvWorkers(s) && k in s.past.born && Enabled(s, Call(k))
    requires WorkLeft(ApplyCall(s, k)) <= WorkLeft(s)
    ensures NearerToRest(ApplyCall(s, k), s)
  {
    if s.gc.workers[k].Dropping? {
      DroppingCallWork(s, k);
    } else {
      var c := s.gc.workers[k].target.value;
      if c in s.api.store && !s.api.store[c].deleted {
        MarkingCallWrites(s, k);
        MarkingCallWork(s, k);
      } else {
        IdleCallGoesOn(s, k);
      }
    }
  }

  /** Each step of the collector, from any state of any run, brings it nearer to rest. */
  lemma CollectorGetsNearer(s: State, a: Action)
    requires Inv(s) && Enabled(s, a) && IsCollector(a)
    ensures NearerToRest(Apply(s, a), s)
  {
    CollectorStepAndWork(s, a);
    RefIsBorn(s, a);
    match a {
      case Deliver(r, visited) => DeliveryTakesAnEvent(s, r, visited);
      case ReadOwner(r) => ReadGoesOn(s, r);
      case EnqueueOwner(r) => EnqueueOwnerGoesOn(s, r);
      case Take(r) => TakeShortensQueue(s, r);
      case Continue(r) => ContinueGoesOn(s, r);
      case Call(r) => CallGoesOn(s, r);
      case _ =>
    }
  }

  // ---------------------------------------------------------------------------------------------
  // Rest
  // ---------------------------------------------------------------------------------------------

  lemma ThenGoes(s: State, a: Action, acts: seq<Action>, t: State)
    requires IsCollector(a) && SoundStep(s, a) && CollectorGoes(Apply(s, a), acts, t)
    ensures CollectorGoes(s, [a] + acts, t)
  {
    assert ([a] + acts)[1..] == acts;
  }

  /** From any state of any run the collector alone ends quiescent; and calmly, if it was calm so far. */
  lemma {:induction false} ComesToRest(s: State) returns (acts: seq<Action>, t: State)
    requires Inv(s)
    ensures CollectorGoes(s, acts, t) && Inv(t) && Quiescent(t)
    ensures InvCalm(s) && AllAttended(s) ==> InvCalm(t) && AllAttended(t)
    decreases WorkLeft(s), EventsTotal(s), OwnersTotal(s), QueueTotal(s), StepsTotal(s)
  {
    if Quiescent(s) {
      acts, t := [], s;
    } else {
      var a := CollectorIsNeverStuck(s);
      CollectorGetsNearer(s, a);
      EveryStepKeepsInv(s, a);
      if AllAttended(s) {
        EveryStepKeepsProgress(s, a);
      }
      var rest: seq<Action>;
      rest, t := ComesToRest(Apply(s, a));
      acts := [a] + rest;
      ThenGoes(s, a, rest, t);
    }
  }

  /** At rest with everything attended to, what is still deleted waits for another controller. */
  lemma RestMeansFinished(t: State, a: ResourceRef)
    requires Aged(t.past.born, t.past.age) && InvStore(t) && InvEvents(t) && AllAttended(t) && Quiescent(t)
    requires a in t.api.store && t.api.store[a].deleted
    ensures exists w :: WaitsForAnother(t, w) && Reaches(Ownership(t.past.born), a, w)
  {
    assert WellFormed(t, a, t.api.store[a]);
    if InDeletion(t.api.store[a]) {
      var w := FindTheWaiting(t, a);
    } else {
      ReachesSelf(Ownership(t.past.born), a);
      assert WaitsForAnother(t, a);
    }
  }

  /**
   * When everybody else has stopped, the collector finishes: a resource that is still deleted then waits for
   * another controller, on its own account or on that of a descendant.
   */
  lemma CascadeFinishes(ss: seq<State>, acts: seq<Action>) returns (more: seq<Action>, t: State)
    requires CalmRun(ss, acts)
    ensures CollectorGoes(ss[|acts|], more, t) && Quiescent(t)
    ensures forall a :: a in t.api.store && t.api.store[a].deleted ==>
      exists w :: WaitsForAnother(t, w) && Reaches(Ownership(t.past.born), a, w)
  {
    more, t := RestOfRun(ss, acts);
    forall a | a in t.api.store && t.api.store[a].deleted
      ensures exists w :: WaitsForAnother(t, w) && Reaches(Ownership(t.past.born), a, w)
    {
      RestMeansFinished(t, a);
    }
  }

  lemma RestOfRun(ss: seq<State>, acts: seq<Action>) returns (more: seq<Action>, t: State)
    requires CalmRun(ss, acts)
    ensures CollectorGoes(ss[|acts|], more, t) && Quiescent(t) && AllAttended(t)
    ensures Aged(t.past.born, t.past.age) && InvStore(t) && InvEvents(t)
  {
    EveryCalmRunIsOrderly(ss, acts);
    EveryCalmRunKeepsInvCalm(ss, acts, |acts|);
    EveryOrderlyRunKeepsProgress(ss, acts, |acts|);
    more, t := ComesToRest(ss[|acts|]);
  }
}
