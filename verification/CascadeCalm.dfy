/**
 * Orderly runs by a discipline, for any number of owners: no event about an owner overtakes a DELETED handler that has
 * read it, and no worker takes an owner that a running handler has passed.
 */
module CascadeCalm {
  import opened Wrappers
  import opened Digraphs
  import opened Relationships
  import opened GraphRuns
  import opened Cascade
  import opened CascadeSafety
  import opened CascadeTheorems
  import opened CascadeProgress

  predicate SingleOwner(a: Action) {
    a.Create? ==> |a.owners| <= 1
  }

  ghost predicate Calm(s: State, a: Action) {
    a.Deliver? ==> forall c :: c in s.gc.handlers ==>
      s.gc.handlers[c].answer.Some? ==> a.ref !in s.gc.handlers[c].owners
  }

  /** The handlers that have passed the resource taken are done. */
  ghost predicate Unhurried(s: State, a: Action) {
    a.Take? ==> forall c :: c in s.gc.handlers && s.gc.handlers[c].next < |s.gc.handlers[c].owners| ==>
      a.ref !in s.gc.handlers[c].owners[..s.gc.handlers[c].next]
  }

  ghost predicate CalmRun(ss: seq<State>, acts: seq<Action>) {
    Run(ss, acts) && forall i :: 0 <= i < |acts| ==> Calm(ss[i], acts[i]) && Unhurried(ss[i], acts[i])
  }

  /** A run whose creations name one owner (`single`) or whose deliveries are calm (`calm`). */
  ghost predicate Path(ss: seq<State>, acts: seq<Action>, single: bool, calm: bool) {
    && Run(ss, acts)
    && (single ==> forall i :: 0 <= i < |acts| ==> SingleOwner(acts[i]))
    && (calm ==> forall i :: 0 <= i < |acts| ==> Calm(ss[i], acts[i]))
  }

  // ---------------------------------------------------------------------------------------------
  // What calm steps keep
  // ---------------------------------------------------------------------------------------------

  /** The last event about a stored resource tells of it as it is stored. */
  ghost predicate LastIsCurrent(s: State, x: ResourceRef) {
    x in s.api.store && Pending(s, x) != [] ==> Pending(s, x)[|Pending(s, x)| - 1].obj == s.api.store[x]
  }

  /** The owner a handler has read is stored as it was read, or an event about it is on its way. */
  ghost predicate AnswerCurrent(s: State, c: ResourceRef) {
    c in s.gc.handlers && s.gc.handlers[c].next < |s.gc.handlers[c].owners| && s.gc.handlers[c].answer.Some? ==>
      var o := CurrentOwner(s.gc.handlers[c]);
      o in s.past.born && (o in s.api.store && Pending(s, o) == [] ==> s.gc.handlers[c].answer == Some(s.api.store[o]))
  }

  /** So is a value in the queue, if it matters ... */
  ghost predicate QueueCurrent(s: State, x: ResourceRef) {
    x in s.gc.queue && StoredInDeletion(s, x) && Pending(s, x) == [] ==> s.gc.queue[x] == s.api.store[x]
  }

  /** ... and the copy of a worker, unless a newer value is in the queue. */
  ghost predicate CopyCurrent(s: State, x: ResourceRef) {
    x in s.gc.workers && s.gc.workers[x].Dropping? && StoredInDeletion(s, x) && Pending(s, x) == [] && x !in s.gc.queue
    ==> s.gc.workers[x].body == Popped(s.api.store[x])
  }

  /** A worker about to make its first call is for a resource that comes back, or its target is still stored. */
  ghost predicate FirstTargetOk(s: State, k: ResourceRef) {
    && k in s.gc.workers && s.gc.workers[k].Marking? && s.gc.workers[k].next == 0 && s.gc.workers[k].target.Some?
    && StoredInDeletion(s, k)
    ==> ComesBack(s, k) || s.gc.workers[k].target.value in s.api.store
  }

  ghost predicate InvCopiesCurrent(s: State) {
    && (forall x :: LastIsCurrent(s, x)) && (forall c :: AnswerCurrent(s, c))
    && (forall x :: QueueCurrent(s, x)) && (forall x :: CopyCurrent(s, x))
  }

  ghost predicate InvCalm(s: State) {
    InvCopiesCurrent(s) && forall k :: FirstTargetOk(s, k)
  }

  /** An answer stays the same, or was read just now. */
  lemma AnswersAre(s: State, act: Action, c: ResourceRef)
    requires Enabled(s, act) && (act == ReadOwner(c) ==> CurrentOwner(s.gc.handlers[c]) in s.api.store)
    requires c in Apply(s, act).gc.handlers && Apply(s, act).gc.handlers[c].answer.Some?
    ensures c in s.gc.handlers
    ensures act != ReadOwner(c) ==> Apply(s, act).gc.handlers[c] == s.gc.handlers[c]
    ensures act == ReadOwner(c) ==> ReadJustNow(s, Apply(s, act), c)
  {
  }

  ghost predicate ReadJustNow(s: State, t: State, c: ResourceRef) {
    && c in t.gc.handlers && t.api == s.api && t.past == s.past
    && var h := t.gc.handlers[c];
       h.next < |h.owners| && CurrentOwner(h) in s.api.store && h.answer == Some(s.api.store[CurrentOwner(h)])
  }

  // ---------------------------------------------------------------------------------------------
  // Copies are current, with calm deliveries and any number of owners
  // ---------------------------------------------------------------------------------------------

  ghost predicate Untouched(s: State, t: State, x: ResourceRef) {
    && Pending(t, x) == Pending(s, x) && (x in t.api.store <==> x in s.api.store)
    && (x in s.api.store ==> t.api.store[x] == s.api.store[x])
  }

  /** There is a new event about `x`, and it tells of what is stored. */
  ghost predicate Told(t: State, x: ResourceRef) {
    Pending(t, x) != [] && LastIsCurrent(t, x)
  }

  lemma PostTells(s: State, t: State, r: ResourceRef, ev: Event, x: ResourceRef)
    requires t.api.events == Post(s, r, ev.kind, ev.obj).api.events
    requires forall y :: y != r ==> (y in t.api.store <==> y in s.api.store)
    requires forall y :: y != r && y in s.api.store ==> t.api.store[y] == s.api.store[y]
    requires r in t.api.store ==> ev.obj == t.api.store[r]
    ensures Untouched(s, t, x) || Told(t, x)
  {
    assert Pending(t, r) == Pending(s, r) + [ev];
    assert x != r ==> Pending(t, x) == Pending(s, x);
  }

  lemma DeleteTells(s: State, r: ResourceRef, x: ResourceRef)
    requires r in s.api.store
    ensures Untouched(s, ApiDelete(s, r).value, x) || Told(ApiDelete(s, r).value, x)
  {
    var t := ApiDelete(s, r).value;
    if !s.api.store[r].deleted {
      PostTells(s, t, r, Event(MODIFIED, t.api.store[r]), x);
    }
  }

  lemma StoringTells(s: State, r: ResourceRef, obj: Resource, x: ResourceRef)
    requires r in s.api.store
    ensures Untouched(s, StoreOrRemove(s, r, obj), x) || Told(StoreOrRemove(s, r, obj), x)
  {
    PostTells(s, StoreOrRemove(s, r, obj), r, Announcement(s, r, obj), x);
  }

  lemma UserStepTells(s: State, act: Action, x: ResourceRef)
    requires Enabled(s, act) && !IsCollector(act)
    ensures Untouched(s, Apply(s, act), x) || Told(Apply(s, act), x)
  {
    match act {
      case Create(r, owners, finalizers) =>
        PostTells(s, Apply(s, act), r, Event(ADDED, Resource(owners, finalizers, false, 0)), x);
      case Mark(r) => DeleteTells(s, r, x);
      case Write(r, _, _) => StoringTells(s, r, WrittenBy(s, act), x);
    }
  }

  lemma CallTells(s: State, k: ResourceRef, x: ResourceRef)
    requires InvStore(s) && InvWorkers(s) && Enabled(s, Call(k))
    ensures Untouched(s, ApplyCall(s, k), x) || Told(ApplyCall(s, k), x)
  {
    WorkerIsOk(s, k);
    if s.gc.workers[k].Marking? {
      var c := s.gc.workers[k].target.value;
      CallMarkingApplied(s, k, c);
      if c in s.api.store {
        DeleteTells(s, c, x);
        SameApi(ApiDelete(s, c).value, ApplyCall(s, k), x);
      }
    } else if k in s.api.store {
      var body := s.gc.workers[k].body;
      DropIsPop(s, k, body);
      StoringTells(s, k, WithoutLast(s, k, body), x);
      if AllIn(body.finalizers, s.api.store[k].finalizers) {
        SameApi(StoreOrRemove(s, k, WithoutLast(s, k, body)), ApplyCall(s, k), x);
      }
    }
  }

  lemma SameApi(s: State, t: State, x: ResourceRef)
    requires t.api == s.api
    ensures Untouched(s, t, x) && (Told(s, x) ==> Told(t, x))
  {
    assert Pending(t, x) == Pending(s, x);
  }

  lemma QuietStepKeepsEvents(s: State, act: Action, a: ResourceRef)
    requires Enabled(s, act) && IsCollector(act) && !act.Call? && !(act.Deliver? && act.ref == a)
    ensures Pending(Apply(s, act), a) == Pending(s, a)
  {
  }

  /** Whatever a step does to a resource, it tells; only a delivery takes an event away. */
  lemma StepTells(s: State, act: Action, x: ResourceRef)
    requires InvStore(s) && InvWorkers(s) && Enabled(s, act) && !(act.Deliver? && act.ref == x)
    ensures Untouched(s, Apply(s, act), x) || Told(Apply(s, act), x)
  {
    if !IsCollector(act) {
      UserStepTells(s, act, x);
    } else if act.Call? {
      CallTells(s, act.ref, x);
    } else {
      OnlyCallsWrite(s, act);
      QuietStepKeepsEvents(s, act, x);
    }
  }

  /** A delivery that empties the queue of events has shown the resource as it is stored. */
  lemma DeliveryShows(s: State, act: Action, x: ResourceRef)
    requires InvBirth(s) && InvGraph(s) && EventsOk(s, x) && LastIsCurrent(s, x)
    requires act.Deliver? && act.ref == x && Enabled(s, act)
    ensures LastIsCurrent(Apply(s, act), x)
    ensures StoredInDeletion(Apply(s, act), x) && Pending(Apply(s, act), x) == [] ==>
      x in Apply(s, act).gc.queue && Apply(s, act).gc.queue[x] == Apply(s, act).api.store[x]
  {
    HeadFacts(s, x);
    TakenEvents(s, x);
    if Pending(s, x)[0].kind.DELETED? {
      DeletionApplied(s, x, act.visited);
    } else {
      DeliveryApplied(s, x, act.visited);
      DeliveredIsCurrent(s, x, Touch(DeliveredGraph(s, x), act.visited));
    }
  }

  lemma DeliveredIsCurrent(s: State, x: ResourceRef, g: Adjacency)
    requires Pending(s, x) != [] && LastIsCurrent(s, x)
    ensures var t := Enqueue(Taken(s, x).(gc := s.gc.(graph := g)), x, Pending(s, x)[0].obj);
      && LastIsCurrent(t, x)
      && (StoredInDeletion(t, x) && Pending(t, x) == [] ==> x in t.gc.queue && t.gc.queue[x] == t.api.store[x])
  {
    assert Pending(Taken(s, x), x) == Pending(s, x)[1..];
  }

  lemma TellingKeepsLast(s: State, t: State, x: ResourceRef)
    requires LastIsCurrent(s, x) && (Untouched(s, t, x) || Told(t, x))
    ensures LastIsCurrent(t, x)
  {
  }

  lemma StepKeepsLast(s: State, act: Action, x: ResourceRef)
    requires InvBirth(s) && InvGraph(s) && InvStore(s) && InvWorkers(s) && EventsOk(s, x)
    requires LastIsCurrent(s, x) && Enabled(s, act)
    ensures LastIsCurrent(Apply(s, act), x)
  {
    if act.Deliver? && act.ref == x {
      DeliveryShows(s, act, x);
    } else {
      StepTells(s, act, x);
      TellingKeepsLast(s, Apply(s, act), x);
    }
  }

  lemma StepKeepsAnswer(s: State, act: Action, c: ResourceRef)
    requires Inv(s) && AnswerCurrent(s, c) && Enabled(s, act) && Calm(s, act)
    ensures AnswerCurrent(Apply(s, act), c)
  {
    var t := Apply(s, act);
    if act == ReadOwner(c) {
      assert EventsOk(s, c);
      OwnerIsFound(s, c);
    }
    if c in t.gc.handlers && t.gc.handlers[c].answer.Some? {
      AnswersAre(s, act, c);
      if act == ReadOwner(c) {
        NewAnswerIsCurrent(s, t, c);
      } else {
        BornStays(s, act);
        AnswerStays(s, act, c);
      }
    }
  }

  lemma NewAnswerIsCurrent(s: State, t: State, c: ResourceRef)
    requires InvBirth(s) && ReadJustNow(s, t, c) && t.past == s.past
    ensures AnswerCurrent(t, c)
  {
  }

  lemma BornStays(s: State, act: Action)
    requires Enabled(s, act)
    ensures s.past.born.Keys <= Apply(s, act).past.born.Keys
  {
  }

  lemma AnswerStays(s: State, act: Action, c: ResourceRef)
    requires InvStore(s) && InvWorkers(s) && AnswerCurrent(s, c) && Enabled(s, act) && Calm(s, act)
    requires c in s.gc.handlers && s.gc.handlers[c].answer.Some? && s.past.born.Keys <= Apply(s, act).past.born.Keys
    requires c in Apply(s, act).gc.handlers && Apply(s, act).gc.handlers[c] == s.gc.handlers[c]
    ensures AnswerCurrent(Apply(s, act), c)
  {
    if s.gc.handlers[c].next < |s.gc.handlers[c].owners| {
      var o := CurrentOwner(s.gc.handlers[c]);
      assert o in s.gc.handlers[c].owners;
      StepTells(s, act, o);
    }
  }

  /** What is in the queue was there before, was delivered, or was an answer. */
  lemma QueuedIsFrom(s: State, act: Action, x: ResourceRef)
    requires Enabled(s, act) && !(act.Deliver? && act.ref == x) && x in Apply(s, act).gc.queue
    ensures (x in s.gc.queue && Apply(s, act).gc.queue[x] == s.gc.queue[x])
      || (act.EnqueueOwner? && CurrentOwner(s.gc.handlers[act.ref]) == x
          && Apply(s, act).gc.queue[x] == s.gc.handlers[act.ref].answer.value)
  {
  }

  lemma StepKeepsQueue(s: State, act: Action, x: ResourceRef)
    requires Inv(s) && InvCopiesCurrent(s) && Enabled(s, act)
    ensures QueueCurrent(Apply(s, act), x)
  {
    assert LastIsCurrent(s, x) && QueueCurrent(s, x);
    if act.Deliver? && act.ref == x {
      assert EventsOk(s, x);
      DeliveryShows(s, act, x);
    } else {
      StepTells(s, act, x);
      if x in Apply(s, act).gc.queue {
        QueuedIsFrom(s, act, x);
        assert act.EnqueueOwner? ==> AnswerCurrent(s, act.ref);
      }
    }
  }

  /** Only a worker's own call or a new resource for it changes what it holds. */
  lemma CopyIsFrom(s: State, act: Action, x: ResourceRef)
    requires Enabled(s, act) && act != Take(x)
    requires x in Apply(s, act).gc.workers && Apply(s, act).gc.workers[x].Dropping?
    ensures x in s.gc.workers && Apply(s, act).gc.workers[x] == s.gc.workers[x]
  {
    if x !in s.gc.workers {
      OnlyTakeStarts(s, act, x);
    } else if act != Call(x) && act != Continue(x) {
      OthersKeepWorker(s, act, x);
    }
  }

  lemma OnlyTakeEmpties(s: State, act: Action, x: ResourceRef)
    requires Enabled(s, act) && act != Take(x) && x in s.gc.queue
    ensures x in Apply(s, act).gc.queue
  {
  }

  lemma TakenCopy(s: State, x: ResourceRef)
    requires x in s.gc.queue && QueueCurrent(s, x)
    ensures CopyCurrent(ApplyTake(s, x), x)
  {
    assert Pending(ApplyTake(s, x), x) == Pending(s, x);
  }

  lemma StepKeepsCopy(s: State, act: Action, x: ResourceRef)
    requires Inv(s) && InvCopiesCurrent(s) && Enabled(s, act)
    ensures CopyCurrent(Apply(s, act), x)
  {
    assert LastIsCurrent(s, x) && QueueCurrent(s, x) && CopyCurrent(s, x);
    if act == Take(x) {
      TakenCopy(s, x);
    } else if x in Apply(s, act).gc.workers && Apply(s, act).gc.workers[x].Dropping? && x !in Apply(s, act).gc.queue {
      CopyIsFrom(s, act, x);
      if x in s.gc.queue {
        OnlyTakeEmpties(s, act, x);
      }
      KeptCopyIsCurrent(s, act, x);
    }
  }

  lemma KeptCopyIsCurrent(s: State, act: Action, x: ResourceRef)
    requires Inv(s) && LastIsCurrent(s, x) && CopyCurrent(s, x) && Enabled(s, act)
    requires x in s.gc.workers && x in Apply(s, act).gc.workers && Apply(s, act).gc.workers[x] == s.gc.workers[x]
    requires x !in s.gc.queue && x !in Apply(s, act).gc.queue
    ensures CopyCurrent(Apply(s, act), x)
  {
    if act.Deliver? && act.ref == x {
      assert EventsOk(s, x);
      DeliveryShows(s, act, x);
    } else {
      StepTells(s, act, x);
    }
  }

  lemma StepKeepsCopiesCurrent(s: State, act: Action)
    requires Inv(s) && InvCopiesCurrent(s) && Enabled(s, act) && Calm(s, act)
    ensures InvCopiesCurrent(Apply(s, act))
  {
    var t := Apply(s, act);
    forall x ensures LastIsCurrent(t, x) && AnswerCurrent(t, x) {
      assert EventsOk(s, x);
      StepKeepsLast(s, act, x);
      StepKeepsAnswer(s, act, x);
    }
    forall x ensures QueueCurrent(t, x) && CopyCurrent(t, x) {
      StepKeepsQueue(s, act, x);
      StepKeepsCopy(s, act, x);
    }
  }

  /** In deletion by what is stored, so by the last event about it. */
  lemma PendingIsOnItsWay(s: State, x: ResourceRef)
    requires LastIsCurrent(s, x) && StoredInDeletion(s, x) && Pending(s, x) != []
    ensures OnItsWay(s, x)
  {
    assert Pending(s, x)[|Pending(s, x)| - 1] in Pending(s, x);
  }

  /** A copy that is out of date is for a resource that comes back. */
  lemma RefusedComesBack(s: State, k: ResourceRef)
    requires LastIsCurrent(s, k) && CopyCurrent(s, k) && k in s.gc.workers && s.gc.workers[k].Dropping?
    requires StoredInDeletion(s, k) && FirstCallFails(s, k)
    ensures ComesBack(s, k)
  {
    if Pending(s, k) != [] {
      PendingIsOnItsWay(s, k);
    }
  }

  // ---------------------------------------------------------------------------------------------
  // First targets
  // ---------------------------------------------------------------------------------------------

  /** Only taking a resource starts a worker for it. */
  lemma OnlyTakeStarts(s: State, act: Action, k: ResourceRef)
    requires Enabled(s, act) && act != Take(k) && k !in s.gc.workers
    ensures k !in Apply(s, act).gc.workers
  {
  }

  lemma LaterCall(s: State, k: ResourceRef)
    requires k in s.gc.workers && WorkerOk(s, k, s.gc.workers[k])
    ensures Enabled(s, Call(k)) && k in ApplyCall(s, k).gc.workers ==>
      ApplyCall(s, k).gc.workers[k].Marking? && ApplyCall(s, k).gc.workers[k].next > 0
    ensures Enabled(s, Continue(k)) && k in ApplyContinue(s, k).gc.workers ==>
      ApplyContinue(s, k).gc.workers[k].Marking? && ApplyContinue(s, k).gc.workers[k].next > 0
  {
  }

  /** A worker at its first call was there before, unless it was just given its resource. */
  lemma FirstCallIsFrom(s: State, act: Action, k: ResourceRef)
    requires InvWorkers(s) && Enabled(s, act) && k in Apply(s, act).gc.workers && act != Take(k)
    requires Apply(s, act).gc.workers[k].Marking? && Apply(s, act).gc.workers[k].next == 0
    ensures k in s.gc.workers && s.gc.workers[k] == Apply(s, act).gc.workers[k]
  {
    if k !in s.gc.workers {
      OnlyTakeStarts(s, act, k);
    } else if act == Call(k) || act == Continue(k) {
      LaterCall(s, k);
    } else {
      OthersKeepWorker(s, act, k);
    }
  }

  lemma ComesLater(owners: seq<ResourceRef>, n: nat, j: nat, k: ResourceRef)
    requires n <= |owners| && k !in owners[..n] && j < |owners| && owners[j] == k
    ensures j >= n
  {
    assert forall i :: 0 <= i < n ==> owners[i] == owners[..n][i];
  }

  /** What a worker takes up was not passed by the handler of its first dependent, or an event is on its way. */
  lemma UnhurriedIsNotPassed(s: State, c: ResourceRef, k: ResourceRef)
    requires EventsOk(s, c) && AnswerCurrent(s, c) && LastIsCurrent(s, k) && Unhurried(s, Take(k))
    requires c in s.past.born && k in s.past.born[c] && c !in s.past.buried && StoredInDeletion(s, k)
    ensures OnItsWay(s, k) || NotPassed(s, c, k)
  {
    if c in s.gc.handlers {
      var h := s.gc.handlers[c];
      var j: nat :| j < |h.owners| && h.owners[j] == k;
      ComesLater(h.owners, h.next, j, k);
      if Pending(s, k) != [] {
        PendingIsOnItsWay(s, k);
      } else {
        assert j == h.next ==> CurrentOwner(h) == k;
        assert Ahead(h, k);
      }
    }
  }

  lemma TakenTarget(s: State, k: ResourceRef)
    requires InvGraph(s) && k in s.gc.queue && Dependents(s.gc.graph, k) != []
    ensures var c := Dependents(s.gc.graph, k)[0];
      && c in s.past.born && k in s.past.born[c] && c !in s.past.buried
      && ApplyTake(s, k).gc.workers[k] == Marking(0, Some(c))
  {
    DependentIsOwned(s, k, 0);
    var ds := Dependents(s.gc.graph, k);
    assert ds[0] in ds;
    assert (k, ds[0]) in EdgesOf(s.gc.graph);
  }

  lemma TakenTargetOk(s: State, k: ResourceRef)
    requires InvGraph(s) && InvEvents(s) && InvCopiesCurrent(s) && Unhurried(s, Take(k)) && k in s.gc.queue
    ensures FirstTargetOk(ApplyTake(s, k), k)
  {
    if Dependents(s.gc.graph, k) != [] && StoredInDeletion(s, k) {
      var c := Dependents(s.gc.graph, k)[0];
      TakenTarget(s, k);
      assert EventsOk(s, c) && AnswerCurrent(s, c) && LastIsCurrent(s, k);
      UnhurriedIsNotPassed(s, c, k);
      TakeKeepsHelp(s, k, c);
    }
  }

  lemma TakeKeepsHelp(s: State, k: ResourceRef, c: ResourceRef)
    requires k in s.gc.queue
    ensures OnItsWay(s, k) ==> OnItsWay(ApplyTake(s, k), k)
    ensures Dying(s, c, k) ==> Dying(ApplyTake(s, k), c, k)
  {
    assert Pending(ApplyTake(s, k), k) == Pending(s, k);
  }

  lemma StepKeepsFirstTarget(s: State, act: Action, k: ResourceRef)
    requires Inv(s) && InvCalm(s) && SoundStep(s, act) && Unhurried(s, act)
    ensures FirstTargetOk(Apply(s, act), k)
  {
    var t := Apply(s, act);
    if act == Take(k) {
      TakenTargetOk(s, k);
    } else if k in t.gc.workers && t.gc.workers[k].Marking? && t.gc.workers[k].next == 0 && StoredInDeletion(t, k) {
      FirstCallIsFrom(s, act, k);
      assert FirstTargetOk(s, k);
      if StoredInDeletion(s, k) && !ComesBack(s, k) {
        KeptTargetOk(s, act, k);
      } else {
        StepKeepsBack(s, act, k);
      }
    }
  }

  /** A target that leaves the store has its DELETED handler still to come. */
  lemma KeptTargetOk(s: State, act: Action, k: ResourceRef)
    requires InvEvents(s) && InvWorkers(s) && FirstTargetOk(s, k) && Enabled(s, act) && StoredInDeletion(s, k)
    requires !ComesBack(s, k)
    requires k in s.gc.workers && s.gc.workers[k].Marking? && s.gc.workers[k].next == 0
    requires s.gc.workers[k].target.Some?
    ensures ComesBack(Apply(s, act), k) || s.gc.workers[k].target.value in Apply(s, act).api.store
  {
    var c := s.gc.workers[k].target.value;
    assert WorkerOk(s, k, s.gc.workers[k]) && EventsOk(s, c);
    if c !in Apply(s, act).api.store {
      RemovedIsUnpassed(s, act, c);
      assert Dying(Apply(s, act), c, k);
    }
  }

  lemma RemovedIsUnpassed(s: State, act: Action, c: ResourceRef)
    requires EventsOk(s, c) && Enabled(s, act) && c in s.api.store && c !in Apply(s, act).api.store
    ensures var t := Apply(s, act);
      c !in t.gc.handlers && c !in t.past.buried && forall x :: x in s.past.born ==>
        x in t.past.born && t.past.born[x] == s.past.born[x]
  {
    if IsCollector(act) && !act.Call? {
      OnlyCallsWrite(s, act);
    }
  }

  lemma EveryCalmStepKeepsInvCalm(s: State, act: Action)
    requires Inv(s) && InvCalm(s) && SoundStep(s, act) && Calm(s, act) && Unhurried(s, act)
    ensures InvCalm(Apply(s, act))
  {
    StepKeepsCopiesCurrent(s, act);
    forall k ensures FirstTargetOk(Apply(s, act), k) {
      StepKeepsFirstTarget(s, act, k);
    }
  }

  /** A first call that fails has a stale copy, or its target is gone: the resource comes back. */
  lemma CalmIsOrderly(s: State, act: Action)
    requires InvCalm(s)
    ensures Orderly(s, act)
  {
    if act.Call? && FirstCallFails(s, act.ref) && StoredInDeletion(s, act.ref) {
      var k := act.ref;
      assert LastIsCurrent(s, k) && CopyCurrent(s, k) && FirstTargetOk(s, k);
      if s.gc.workers[k].Dropping? {
        RefusedComesBack(s, k);
      }
    }
  }

  /** With calm deliveries and unhurried workers every run is orderly, so nothing gets stuck. */
  lemma {:induction false} EveryCalmRunIsOrderly(ss: seq<State>, acts: seq<Action>)
    requires CalmRun(ss, acts)
    ensures OrderlyRun(ss, acts)
  {
    forall i | 0 <= i < |acts| ensures Orderly(ss[i], acts[i]) {
      EveryCalmRunKeepsInvCalm(ss, acts, i);
      CalmIsOrderly(ss[i], acts[i]);
    }
  }

  lemma {:induction false} OwnersStaySingle(ss: seq<State>, acts: seq<Action>, n: nat)
    requires Path(ss, acts, true, true) && n < |ss|
    ensures forall c :: c in ss[n].past.born ==> |ss[n].past.born[c]| <= 1
  {
    if n > 0 {
      OwnersStaySingle(ss, acts, n - 1);
      assert SoundStep(ss[n - 1], acts[n - 1]) && SingleOwner(acts[n - 1]);
      StepKeepsSingle(ss[n - 1], acts[n - 1]);
    }
  }

  lemma StepKeepsSingle(s: State, act: Action)
    requires Enabled(s, act) && SingleOwner(act) && forall c :: c in s.past.born ==> |s.past.born[c]| <= 1
    ensures forall c :: c in Apply(s, act).past.born ==> |Apply(s, act).past.born[c]| <= 1
  {
  }

  /** With one owner each a handler has passed nobody before it is done. */
  lemma SingleOwnersAreUnhurried(ss: seq<State>, acts: seq<Action>)
    requires Path(ss, acts, true, true)
    ensures CalmRun(ss, acts)
  {
    forall i | 0 <= i < |acts| ensures Unhurried(ss[i], acts[i]) {
      EveryRunKeepsInv(ss, acts, i);
      OwnersStaySingle(ss, acts, i);
      SingleIsUnhurried(ss[i], acts[i]);
    }
  }

  lemma SingleIsUnhurried(s: State, act: Action)
    requires InvEvents(s) && forall c :: c in s.past.born ==> |s.past.born[c]| <= 1
    ensures Unhurried(s, act)
  {
    forall c | c in s.gc.handlers ensures s.gc.handlers[c].next == 0 {
      assert EventsOk(s, c);
    }
  }

  lemma EmptyIsCalm(s: State)
    requires s == EMPTY
    ensures InvCalm(s)
  {
  }

  lemma {:induction false} EveryCalmRunKeepsInvCalm(ss: seq<State>, acts: seq<Action>, n: nat)
    requires CalmRun(ss, acts) && n < |ss|
    ensures InvCalm(ss[n])
  {
    if n == 0 {
      assert ss[0] == EMPTY;
      EmptyIsCalm(ss[0]);
    } else {
      EveryCalmRunKeepsInvCalm(ss, acts, n - 1);
      RunStepKeepsInvCalm(ss, acts, n - 1);
    }
  }

  lemma RunStepKeepsInvCalm(ss: seq<State>, acts: seq<Action>, n: nat)
    requires CalmRun(ss, acts) && n < |acts| && InvCalm(ss[n])
    ensures InvCalm(ss[n + 1])
  {
    EveryRunKeepsInv(ss, acts, n);
    assert SoundStep(ss[n], acts[n]) && ss[n + 1] == Apply(ss[n], acts[n]);
    EveryCalmStepKeepsInvCalm(ss[n], acts[n]);
  }

  // ---------------------------------------------------------------------------------------------
  // The collector can always go on
  // ---------------------------------------------------------------------------------------------

  /** A delivery is always possible: what the check visits is a finite set. */
  lemma VisitedExists(s: State, r: ResourceRef) returns (visited: set<ResourceRef>)
    requires Pending(s, r) != [] && InvBirth(s) && InvGraph(s) && EventsOk(s, r)
    requires !Pending(s, r)[0].kind.DELETED?
    ensures Enabled(s, Deliver(r, visited))
  {
    HeadFacts(s, r);
    EdgesEndInBorn(s, r);
    visited := ReachableWithin(EdgesOf(DeliveredGraph(s, r)), r, s.past.born.Keys);
  }

  lemma EdgesEndInBorn(s: State, r: ResourceRef)
    requires Pending(s, r) != [] && InvBirth(s) && InvGraph(s) && EventsOk(s, r)
    requires !Pending(s, r)[0].kind.DELETED?
    ensures forall u, v :: (u, v) in EdgesOf(DeliveredGraph(s, r)) ==> v in s.past.born
  {
    HeadFacts(s, r);
    DeliveryEdges(s, r);
  }

  /** A search stays among the targets of edges. */
  lemma ReachableWithin(e: Edges<ResourceRef>, r: ResourceRef, nodes: set<ResourceRef>)
    returns (reached: set<ResourceRef>)
    requires r in nodes && forall u, v :: (u, v) in e ==> v in nodes
    ensures r in reached && forall x :: x in reached <==> Reaches(e, r, x)
  {
    reached := set x | x in nodes && Reaches(e, r, x);
    ReachesSelf(e, r);
    forall x | Reaches(e, r, x) ensures x in reached {
      var p :| WalkFromTo(e, r, x, p);
      if |p| > 1 {
        assert (p[|p| - 2], p[|p| - 1]) in e;
      }
    }
  }

  /** As long as the collector is not quiescent one of its steps can be taken, a sound, calm and unhurried one. */
  lemma CollectorIsNeverStuck(s: State) returns (a: Action)
    requires Inv(s) && !Quiescent(s)
    ensures IsCollector(a) && SoundStep(s, a) && Calm(s, a) && Unhurried(s, a)
    ensures InvCalm(s) ==> Orderly(s, a) && InvCalm(Apply(s, a))
  {
    a := SomeStep(s);
    if InvCalm(s) {
      CalmIsOrderly(s, a);
      EveryCalmStepKeepsInvCalm(s, a);
    }
  }

  /** Calls first, then handlers, then what the collector has heard all of, then events. */
  lemma SomeStep(s: State) returns (a: Action)
    requires InvBirth(s) && InvGraph(s) && InvEvents(s) && InvWorkers(s) && !Quiescent(s)
    ensures IsCollector(a) && SoundStep(s, a) && Calm(s, a) && Unhurried(s, a)
  {
    if s.gc.workers != map[] {
      var k :| k in s.gc.workers;
      assert WorkerOk(s, k, s.gc.workers[k]);
      a := if s.gc.workers[k].Dropping? || s.gc.workers[k].target.Some? then Call(k) else Continue(k);
    } else if s.gc.handlers != map[] {
      var c :| c in s.gc.handlers;
      assert EventsOk(s, c);
      a := if s.gc.handlers[c].answer.Some? then EnqueueOwner(c) else ReadOwner(c);
    } else if k :| k in s.gc.queue && Sound(s, Take(k)) {
      a := Take(k);
    } else {
      var r := SomethingToDeliver(s);
      assert EventsOk(s, r);
      a := NextDelivery(s, r);
    }
  }

  /** If a take is barred, the collector is still to hear of something. */
  lemma SomethingToDeliver(s: State) returns (r: ResourceRef)
    requires !Quiescent(s) && s.gc.workers == map[] && s.gc.handlers == map[]
    requires forall k :: k in s.gc.queue ==> !Sound(s, Take(k))
    ensures Pending(s, r) != []
  {
    if s.gc.queue != map[] {
      var k :| k in s.gc.queue;
      r :| r in s.past.born && k in s.past.born[r] && Undelivered(s, r);
    } else {
      r :| Pending(s, r) != [];
    }
  }

  lemma NextDelivery(s: State, r: ResourceRef) returns (a: Action)
    requires InvBirth(s) && InvGraph(s) && EventsOk(s, r) && Pending(s, r) != [] && s.gc.handlers == map[]
    ensures IsCollector(a) && SoundStep(s, a) && Calm(s, a) && Unhurried(s, a)
  {
    if Pending(s, r)[0].kind.DELETED? {
      a := Deliver(r, {});
    } else {
      var visited := VisitedExists(s, r);
      a := Deliver(r, visited);
    }
  }
}
