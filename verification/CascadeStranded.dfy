/**
 * What the failing first call loses stays lost: a stranded resource is brought back by a write to it or by the
 * deletion of one of its live dependents, and by nothing else.
 */
module CascadeStranded {
  import opened Wrappers
  import opened Digraphs
  import opened Relationships
  import opened GraphRuns
  import opened Cascade
  import opened CascadeSafety
  import opened CascadeTheorems
  import opened CascadeProgress

  /** In deletion, with no worker, and nothing on its way to put it into the queue again. */
  ghost predicate Stranded(s: State, o: ResourceRef) {
    StoredInDeletion(s, o) && !ComesBack(s, o) && o !in s.gc.workers
  }

  /** The deletion of `c`, which was live. */
  predicate Marks(s: State, act: Action, c: ResourceRef) {
    && c in s.api.store && !s.api.store[c].deleted
    && (act == Mark(c) || (act.Call? && MarkingOf(s, act.ref, c)))
  }

  predicate MarkingOf(s: State, k: ResourceRef, c: ResourceRef) {
    k in s.gc.workers && s.gc.workers[k].Marking? && s.gc.workers[k].target == Some(c)
  }

  predicate Revives(s: State, act: Action, o: ResourceRef) {
    (act.Write? && act.ref == o) || exists c :: c in s.past.born && o in s.past.born[c] && Marks(s, act, c)
  }

  /** The one step that is not orderly strands its resource. */
  lemma FailingCallStrands(s: State, k: ResourceRef)
    requires k in s.gc.workers && !Orderly(s, Call(k))
    ensures Stranded(ApplyCall(s, k), k)
  {
    FailedCallLoses(s, k);
  }

  // ---------------------------------------------------------------------------------------------
  // Steps that leave a stranded resource alone
  // ---------------------------------------------------------------------------------------------

  /** Nothing that brings `o` back appears between `s` and `t`. */
  ghost predicate NoNewHelp(s: State, t: State, o: ResourceRef) {
    && (OnItsWay(t, o) ==> OnItsWay(s, o)) && (o in t.gc.queue ==> ComesBack(s, o))
    && forall c :: Dying(t, c, o) ==> Dying(s, c, o)
  }

  lemma StrandedStays(s: State, t: State, o: ResourceRef)
    requires Stranded(s, o) && NoNewHelp(s, t, o) && StoredInDeletion(t, o) && o !in t.gc.workers
    ensures Stranded(t, o)
  {
  }

  /** A store change of another resource helps `o` only if it deletes a live dependent. */
  lemma StoreChangeHelpsNobody(s: State, t: State, r: ResourceRef, ev: Event, o: ResourceRef)
    requires StoreChange(s, t, r, ev) && r != o && Stranded(s, o)
    requires r in s.past.born && o in s.past.born[r] && !s.api.store[r].deleted ==>
      r in t.api.store && !t.api.store[r].deleted
    ensures NoNewHelp(s, t, o) && StoredInDeletion(t, o) && t.gc == s.gc
  {
    assert Pending(t, o) == Pending(s, o);
  }

  lemma MarkHelpsNobody(s: State, r: ResourceRef, o: ResourceRef)
    requires r in s.api.store && WellFormed(s, r, s.api.store[r]) && Stranded(s, o)
    requires r in s.past.born && o in s.past.born[r] ==> s.api.store[r].deleted
    ensures var t := ApiDelete(s, r).value; NoNewHelp(s, t, o) && StoredInDeletion(t, o) && t.gc == s.gc
  {
    if !s.api.store[r].deleted {
      DeleteIsStoreChange(s, r);
      var t := ApiDelete(s, r).value;
      StoreChangeHelpsNobody(s, t, r, Event(MODIFIED, t.api.store[r]), o);
    }
  }

  lemma ContentsHelpNobody(s: State, r: ResourceRef, obj: Resource, o: ResourceRef)
    requires r in s.api.store && Contents(s, r, obj) && r != o && Stranded(s, o)
    ensures var t := StoreOrRemove(s, r, obj); NoNewHelp(s, t, o) && StoredInDeletion(t, o) && t.gc == s.gc
  {
    ContentsAreStoreChange(s, r, obj);
    StoreChangeHelpsNobody(s, StoreOrRemove(s, r, obj), r, Announcement(s, r, obj), o);
  }

  lemma CreateHelpsNobody(s: State, act: Action, o: ResourceRef)
    requires act.Create? && SoundStep(s, act) && Stranded(s, o) && o in s.past.born
    ensures Stranded(Apply(s, act), o)
  {
    var t := Apply(s, act);
    assert Pending(t, o) == Pending(s, o);
    StrandedStays(s, t, o);
  }

  lemma UserStepHelpsNobody(s: State, act: Action, o: ResourceRef)
    requires InvBirth(s) && InvStore(s) && InvSpent(s) && SoundStep(s, act) && !IsCollector(act)
    requires Stranded(s, o) && !Revives(s, act, o)
    ensures Stranded(Apply(s, act), o)
  {
    match act {
      case Create(_, _, _) => CreateHelpsNobody(s, act, o);
      case Mark(r) =>
        assert Marks(s, act, r) <==> !s.api.store[r].deleted;
        MarkHelpsNobody(s, r, o);
      case Write(r, _, _) =>
        WriteIsContents(s, act);
        ContentsHelpNobody(s, r, WrittenBy(s, act), o);
    }
  }

  lemma CallHelpsNobody(s: State, k: ResourceRef, o: ResourceRef)
    requires InvBirth(s) && InvStore(s) && InvEvents(s) && InvOwners(s) && InvWorkers(s)
    requires Enabled(s, Call(k)) && Stranded(s, o) && !Revives(s, Call(k), o)
    ensures Stranded(ApplyCall(s, k), o)
  {
    if s.gc.workers[k].Marking? {
      MarkingHelpsNobody(s, k, o);
    } else {
      DroppingHelpsNobody(s, k, o);
    }
  }

  lemma MarkingHelpsNobody(s: State, k: ResourceRef, o: ResourceRef)
    requires InvBirth(s) && InvStore(s) && InvEvents(s) && InvOwners(s) && InvWorkers(s)
    requires k in s.gc.workers && s.gc.workers[k].Marking? && s.gc.workers[k].target.Some?
    requires Stranded(s, o) && !Revives(s, Call(k), o)
    ensures Stranded(ApplyCall(s, k), o)
  {
    var c := s.gc.workers[k].target.value;
    CallMarkingApplied(s, k, c);
    if c in s.api.store {
      assert WellFormed(s, c, s.api.store[c]);
      assert Marks(s, Call(k), c) <==> !s.api.store[c].deleted;
      MarkHelpsNobody(s, c, o);
      WorkersHelpNobody(ApiDelete(s, c).value, ApplyCall(s, k), o);
    } else {
      WorkersHelpNobody(s, ApplyCall(s, k), o);
    }
  }

  lemma DroppingHelpsNobody(s: State, k: ResourceRef, o: ResourceRef)
    requires InvStore(s) && InvWorkers(s) && k in s.gc.workers && s.gc.workers[k].Dropping? && Stranded(s, o)
    ensures Stranded(ApplyCall(s, k), o)
  {
    WorkerIsOk(s, k);
    var t := ApplyCall(s, k);
    if k !in s.api.store {
      WorkersHelpNobody(s, t, o);
    } else {
      var body := s.gc.workers[k].body;
      DropIsPop(s, k, body);
      if AllIn(body.finalizers, s.api.store[k].finalizers) {
        DropIsContents(s, k, body);
        ContentsHelpNobody(s, k, WithoutLast(s, k, body), o);
        WorkersHelpNobody(StoreOrRemove(s, k, WithoutLast(s, k, body)), t, o);
      } else {
        WorkersHelpNobody(s, t, o);
      }
    }
  }

  /** Workers, values leaving the queue, and lazily created lists. */
  lemma WorkersHelpNobody(s: State, t: State, o: ResourceRef)
    requires t.api == s.api && t.past == s.past && t.gc.handlers == s.gc.handlers
    requires StoredInDeletion(s, o) && !ComesBack(s, o) && o !in t.gc.queue && o !in t.gc.workers
    ensures Stranded(t, o)
  {
    assert Pending(t, o) == Pending(s, o);
    assert forall c :: Dying(t, c, o) <==> Dying(s, c, o);
  }

  lemma ChangeDeliveredHelpsNobody(s: State, r: ResourceRef, g: Adjacency, o: ResourceRef)
    requires Pending(s, r) != [] && Stranded(s, o)
    ensures Stranded(Enqueue(Taken(s, r).(gc := s.gc.(graph := g)), r, Pending(s, r)[0].obj), o)
  {
    var mid := Taken(s, r);
    var t := Enqueue(mid.(gc := s.gc.(graph := g)), r, Pending(s, r)[0].obj);
    TakenEvents(s, r);
    assert Pending(s, r)[0] in Pending(s, r);
    assert Pending(t, o) == Pending(mid, o);
    assert forall e :: e in Pending(t, o) ==> e in Pending(s, o);
    assert forall c :: Dying(t, c, o) <==> Dying(s, c, o);
  }

  lemma DeletionDeliveredHelpsNobody(s: State, r: ResourceRef, visited: set<ResourceRef>, o: ResourceRef)
    requires EventsOk(s, r) && Pending(s, r) != [] && Pending(s, r)[0].kind.DELETED? && Stranded(s, o)
    ensures Stranded(ApplyDelivery(s, r, visited), o)
  {
    var t := ApplyDelivery(s, r, visited);
    HeadFacts(s, r);
    DeletionApplied(s, r, visited);
    TakenEvents(s, r);
    assert Pending(t, o) == Pending(Taken(s, r), o);
    assert forall e :: e in Pending(t, o) ==> e in Pending(s, o);
    assert forall c :: Dying(t, c, o) ==> Dying(s, c, o);
    StrandedStays(s, t, o);
  }

  lemma DeliverHelpsNobody(s: State, r: ResourceRef, visited: set<ResourceRef>, o: ResourceRef)
    requires Pending(s, r) != [] && InvBirth(s) && InvGraph(s) && EventsOk(s, r) && Stranded(s, o)
    ensures Stranded(ApplyDelivery(s, r, visited), o)
  {
    HeadFacts(s, r);
    if Pending(s, r)[0].kind.DELETED? {
      DeletionDeliveredHelpsNobody(s, r, visited, o);
    } else {
      DeliveryApplied(s, r, visited);
      ChangeDeliveredHelpsNobody(s, r, Touch(DeliveredGraph(s, r), visited), o);
    }
  }

  lemma ReadHelpsNobody(s: State, r: ResourceRef, o: ResourceRef)
    requires EventsOk(s, r) && Enabled(s, ReadOwner(r)) && CurrentOwner(s.gc.handlers[r]) in s.api.store
    requires Stranded(s, o)
    ensures Stranded(ApplyRead(s, r), o)
  {
    var t := ApplyRead(s, r);
    assert Pending(t, o) == Pending(s, o);
    assert Ahead(t.gc.handlers[r], o) ==> Ahead(s.gc.handlers[r], o);
    assert forall c :: Dying(t, c, o) ==> Dying(s, c, o);
    StrandedStays(s, t, o);
  }

  /** The owner a handler is about to put into the queue comes back already. */
  lemma EnqueuedComesBack(s: State, r: ResourceRef)
    requires EventsOk(s, r) && Enabled(s, EnqueueOwner(r)) && InDeletion(s.gc.handlers[r].answer.value)
    ensures ComesBack(s, CurrentOwner(s.gc.handlers[r]))
  {
    var h := s.gc.handlers[r];
    assert h.owners[h.next] == CurrentOwner(h) && Ahead(h, CurrentOwner(h));
    assert Dying(s, r, CurrentOwner(h));
  }

  lemma EnqueueOwnerHelpsNobody(s: State, r: ResourceRef, o: ResourceRef)
    requires EventsOk(s, r) && Enabled(s, EnqueueOwner(r)) && Stranded(s, o)
    ensures Stranded(ApplyEnqueueOwner(s, r), o)
  {
    var t := ApplyEnqueueOwner(s, r);
    if InDeletion(s.gc.handlers[r].answer.value) {
      EnqueuedComesBack(s, r);
    }
    assert Pending(t, o) == Pending(s, o);
    assert r in t.gc.handlers && Ahead(t.gc.handlers[r], o) ==> Ahead(s.gc.handlers[r], o);
    assert forall c :: Dying(t, c, o) ==> Dying(s, c, o);
    StrandedStays(s, t, o);
  }

  lemma TakeHelpsNobody(s: State, k: ResourceRef, o: ResourceRef)
    requires k in s.gc.queue && Stranded(s, o)
    ensures Stranded(ApplyTake(s, k), o)
  {
    WorkersHelpNobody(s, ApplyTake(s, k), o);
  }

  lemma ContinueHelpsNobody(s: State, k: ResourceRef, o: ResourceRef)
    requires k in s.gc.workers && s.gc.workers[k].Marking? && Stranded(s, o)
    ensures Stranded(ApplyContinue(s, k), o)
  {
    WorkersHelpNobody(s, ApplyContinue(s, k), o);
  }

  lemma QuietStepHelpsNobody(s: State, act: Action, o: ResourceRef)
    requires InvBirth(s) && InvGraph(s) && InvOwners(s) && EventsOk(s, act.ref)
    requires Enabled(s, act) && IsCollector(act) && !act.Call? && Stranded(s, o)
    ensures Stranded(Apply(s, act), o)
  {
    match act {
      case Deliver(r, visited) => DeliverHelpsNobody(s, r, visited, o);
      case ReadOwner(r) =>
        OwnerIsFound(s, r);
        ReadHelpsNobody(s, r, o);
      case EnqueueOwner(r) => EnqueueOwnerHelpsNobody(s, r, o);
      case Take(r) => TakeHelpsNobody(s, r, o);
      case Continue(r) => ContinueHelpsNobody(s, r, o);
    }
  }

  // ---------------------------------------------------------------------------------------------
  // What revives
  // ---------------------------------------------------------------------------------------------

  lemma WriteRevives(s: State, act: Action, o: ResourceRef)
    requires act.Write? && act.ref == o && Enabled(s, act) && StoredInDeletion(Apply(s, act), o)
    ensures OnItsWay(Apply(s, act), o)
  {
    var t := Apply(s, act);
    assert Pending(t, o) == Pending(s, o) + [Event(MODIFIED, t.api.store[o])];
    assert Event(MODIFIED, t.api.store[o]) in Pending(t, o);
  }

  lemma MarkingRevives(s: State, act: Action, c: ResourceRef, o: ResourceRef)
    requires EventsOk(s, c) && Enabled(s, act) && Marks(s, act, c) && c in s.past.born && o in s.past.born[c]
    ensures Dying(Apply(s, act), c, o)
  {
    if act.Call? {
      CallMarkingApplied(s, act.ref, c);
    }
  }

  /** Over every action, in every state of every run. */
  lemma StrandedUntilRevived(s: State, act: Action, o: ResourceRef)
    requires Inv(s) && SoundStep(s, act) && Stranded(s, o)
    ensures Stranded(Apply(s, act), o) <==> !Revives(s, act, o)
  {
    assert EventsOk(s, act.ref);
    if act.Write? && act.ref == o {
      if StoredInDeletion(Apply(s, act), o) {
        WriteRevives(s, act, o);
      }
    } else if c :| c in s.past.born && o in s.past.born[c] && Marks(s, act, c) {
      assert EventsOk(s, c);
      MarkingRevives(s, act, c, o);
    } else if !IsCollector(act) {
      UserStepHelpsNobody(s, act, o);
    } else if act.Call? {
      CallHelpsNobody(s, act.ref, o);
    } else {
      QuietStepHelpsNobody(s, act, o);
    }
  }

  // ---------------------------------------------------------------------------------------------
  // The collector alone
  // ---------------------------------------------------------------------------------------------

  /** No stored resource that is deleted is an ancestor of `k`. */
  ghost predicate NoDeletedAncestor(s: State, k: ResourceRef) {
    forall x :: x in s.api.store && s.api.store[x].deleted ==> !Reaches(Ownership(s.past.born), x, k)
  }

  /** No other deletion reaches the live dependents of `o`; with single owners this always holds. */
  ghost predicate Shielded(s: State, o: ResourceRef) {
    forall c, k :: c in s.api.store && !s.api.store[c].deleted && c in s.past.born && o in s.past.born[c]
                   && k in s.past.born[c] && k != o ==>
      NoDeletedAncestor(s, k)
  }

  /** A marking worker's resource is deleted and still stored. */
  lemma MarkerIsDeleted(s: State, k: ResourceRef, c: ResourceRef)
    requires InvOwners(s) && InvWorkers(s) && EventsOk(s, c) && MarkingOf(s, k, c) && c in s.api.store
    ensures k in s.api.store && s.api.store[k].deleted && c in s.past.born && k in s.past.born[c]
  {
    assert WorkerOk(s, k, s.gc.workers[k]);
  }

  lemma DeletedReachesItself(s: State, k: ResourceRef)
    requires k in s.api.store && s.api.store[k].deleted
    ensures !NoDeletedAncestor(s, k)
  {
    ReachesSelf(Ownership(s.past.born), k);
  }

  lemma CollectorDoesNotRevive(s: State, act: Action, o: ResourceRef)
    requires Inv(s) && Enabled(s, act) && IsCollector(act) && Stranded(s, o) && Shielded(s, o)
    ensures !Revives(s, act, o)
  {
    if c :| c in s.past.born && o in s.past.born[c] && Marks(s, act, c) {
      assert EventsOk(s, c);
      MarkerIsDeleted(s, act.ref, c);
      DeletedReachesItself(s, act.ref);
    }
  }

  ghost predicate OwnedByDeleted(s: State, x: ResourceRef, k: ResourceRef) {
    k in s.api.store && s.api.store[k].deleted && x in s.past.born && k in s.past.born[x]
  }

  /** The collector deletes only below what is deleted already, and brings nothing live to the store. */
  ghost predicate DeletesBelow(s: State, t: State) {
    && t.past.born == s.past.born
    && (forall x :: x in t.api.store && !t.api.store[x].deleted ==> x in s.api.store && !s.api.store[x].deleted)
    && forall x :: x in t.api.store && t.api.store[x].deleted ==>
      x in s.api.store && (s.api.store[x].deleted || exists k :: OwnedByDeleted(s, x, k))
  }

  lemma MarkingDeletesBelow(s: State, k: ResourceRef)
    requires InvOwners(s) && InvWorkers(s) && InvEvents(s)
    requires k in s.gc.workers && s.gc.workers[k].Marking? && s.gc.workers[k].target.Some?
    ensures DeletesBelow(s, ApplyCall(s, k))
  {
    MarkingCallWrites(s, k);
    var c := s.gc.workers[k].target.value;
    if c in s.api.store {
      assert EventsOk(s, c);
      MarkerIsDeleted(s, k, c);
      assert OwnedByDeleted(s, c, k);
    }
  }

  lemma DroppingDeletesBelow(s: State, k: ResourceRef)
    requires InvWorkers(s) && k in s.gc.workers && s.gc.workers[k].Dropping?
    ensures DeletesBelow(s, ApplyCall(s, k))
  {
    assert WorkerOk(s, k, s.gc.workers[k]);
  }

  lemma CollectorDeletesBelow(s: State, act: Action)
    requires InvOwners(s) && InvWorkers(s) && InvEvents(s) && Enabled(s, act) && IsCollector(act)
    ensures DeletesBelow(s, Apply(s, act))
  {
    if !act.Call? {
      OnlyCallsWrite(s, act);
    } else if s.gc.workers[act.ref].Marking? {
      MarkingDeletesBelow(s, act.ref);
    } else {
      DroppingDeletesBelow(s, act.ref);
    }
  }

  lemma ShieldStays(s: State, t: State, o: ResourceRef)
    requires Shielded(s, o) && DeletesBelow(s, t)
    ensures Shielded(t, o)
  {
    var e := Ownership(s.past.born);
    forall c, k, x | c in t.api.store && !t.api.store[c].deleted && c in t.past.born && o in t.past.born[c]
                     && k in t.past.born[c] && k != o && x in t.api.store && t.api.store[x].deleted
      ensures !Reaches(Ownership(t.past.born), x, k)
    {
      assert NoDeletedAncestor(s, k);
      if !s.api.store[x].deleted && Reaches(e, x, k) {
        var w :| OwnedByDeleted(s, x, w);
        EdgeThenReaches(e, w, x, k);
      }
    }
  }

  /** The collector alone never brings it back: it is in deletion for ever. */
  lemma {:induction false} StrandedForGood(s: State, acts: seq<Action>, t: State, o: ResourceRef)
    requires Inv(s) && Stranded(s, o) && Shielded(s, o) && CollectorGoes(s, acts, t)
    ensures Inv(t) && Stranded(t, o) && Shielded(t, o)
    decreases |acts|
  {
    if acts != [] {
      EveryStepKeepsInv(s, acts[0]);
      CollectorDoesNotRevive(s, acts[0], o);
      StrandedUntilRevived(s, acts[0], o);
      CollectorDeletesBelow(s, acts[0]);
      ShieldStays(s, Apply(s, acts[0]), o);
      StrandedForGood(Apply(s, acts[0]), acts[1..], t, o);
    }
  }

  /** The converse of progress: after a step that is not orderly the collector never finishes the deletion. */
  lemma DisorderlyStepLosesForGood(s: State, act: Action, acts: seq<Action>, t: State)
    requires Inv(s) && SoundStep(s, act) && !Orderly(s, act) && Shielded(s, act.ref)
    requires CollectorGoes(Apply(s, act), acts, t)
    ensures StoredInDeletion(t, act.ref) && !ComesBack(t, act.ref) && act.ref !in t.gc.workers
  {
    FailingCallStrands(s, act.ref);
    EveryStepKeepsInv(s, act);
    CollectorDeletesBelow(s, act);
    ShieldStays(s, Apply(s, act), act.ref);
    StrandedForGood(Apply(s, act), acts, t, act.ref);
  }
}
