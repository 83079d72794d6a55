/** No put is lost: where every value put into the queue is, in every run. */
module WorkQueueValues {
  import opened WorkQueues

  // ---------------------------------------------------------------------------------------------
  // Conservation
  // ---------------------------------------------------------------------------------------------

  ghost predicate InDirty(s: State, n: Ticket) {
    n < |s.past.puts| && s.past.puts[n] in s.q.dirty && s.q.dirty[s.past.puts[n]] == n
  }

  ghost predicate InTimer(s: State, n: Ticket) {
    exists id :: IsSleeping(s, id) && s.loop.tasks[id].value == n
  }

  function One(b: bool): nat {
    if b then 1 else 0
  }

  /** In how many places a ticket is. */
  ghost function Places(s: State, n: Ticket): nat {
    One(InDirty(s, n)) + One(InTimer(s, n)) + One(n in s.loop.waiters) + One(n in s.past.gets)
    + One(n in s.past.superseded) + One(n in s.past.discarded)
  }

  /** Every value carries the key it was put under. */
  ghost predicate Labelled(s: State) {
    && (forall k :: k in s.q.dirty ==> s.q.dirty[k] < |s.past.puts| && s.past.puts[s.q.dirty[k]] == k)
    && (forall id :: id in s.loop.tasks ==>
      id < s.loop.nextTask &&
      s.loop.tasks[id].value < |s.past.puts| && s.past.puts[s.loop.tasks[id].value] == s.loop.tasks[id].key)
    && (forall k :: k in s.q.timers ==> s.q.timers[k] < s.loop.nextTask)
    && (forall k :: k in s.q.timers && s.q.timers[k] in s.loop.tasks ==> s.loop.tasks[s.q.timers[k]].key == k)
    && (forall v :: v in s.loop.waiters ==>
      v < |s.past.puts| && s.loop.waiters[v].value == v && s.past.puts[v] == s.loop.waiters[v].key)
    && (forall id, id' :: IsSleeping(s, id) && IsSleeping(s, id') ==>
      s.loop.tasks[id].value == s.loop.tasks[id'].value ==> id == id')
    && (forall n :: n in s.past.superseded ==>
      n < |s.past.puts| && s.past.superseded[n] < |s.past.puts| && s.past.superseded[n] != n
      && s.past.puts[s.past.superseded[n]] == s.past.puts[n])
    && (forall n :: n in s.past.gets || n in s.past.discarded ==> n < |s.past.puts|)
    && (forall i, j :: 0 <= i < j < |s.past.gets| ==> s.past.gets[i] != s.past.gets[j])
  }

  /** Each put is in exactly one place: still on its way, returned, superseded, or discarded by a cancellation. */
  ghost predicate Conserved(s: State) {
    Labelled(s) && forall n: Ticket :: Places(s, n) == One(n < |s.past.puts|)
  }

  /** As `Conserved`, but the value in hand is nowhere yet. */
  ghost predicate AllBut(s: State, v: Ticket) {
    Labelled(s) && forall n: Ticket :: Places(s, n) == One(n < |s.past.puts| && n != v)
  }

  lemma WriteIsLabelled(s: State, k: Key, v: Ticket)
    requires Labelled(s) && v < |s.past.puts| && s.past.puts[v] == k
    requires k in s.q.dirty ==> s.q.dirty[k] != v
    ensures Labelled(Write(s, k, v))
  {
    assert forall id :: IsSleeping(Write(s, k, v), id) <==> IsSleeping(s, id);
  }

  lemma WriteMovesTwo(s: State, k: Key, v: Ticket, n: Ticket)
    requires v < |s.past.puts| && s.past.puts[v] == k && Places(s, v) == 0
    requires k in s.q.dirty ==> s.q.dirty[k] < |s.past.puts| && s.past.puts[s.q.dirty[k]] == k
    requires Places(s, n) == One(n < |s.past.puts| && n != v)
    ensures Places(Write(s, k, v), n) == One(n < |s.past.puts|)
  {
    var t := Write(s, k, v);
    assert forall id :: IsSleeping(t, id) <==> IsSleeping(s, id);
    assert InTimer(t, n) <==> InTimer(s, n);
    assert k in s.q.dirty ==> InDirty(s, s.q.dirty[k]);
  }

  /** A write moves the written ticket into `dirty` and what it overwrites to the superseded ones. */
  lemma WriteConserves(s: State, k: Key, v: Ticket)
    requires AllBut(s, v) && v < |s.past.puts| && s.past.puts[v] == k
    ensures Conserved(Write(s, k, v))
  {
    assert Places(s, v) == 0;
    assert k in s.q.dirty ==> InDirty(s, s.q.dirty[k]) && s.q.dirty[k] != v;
    WriteIsLabelled(s, k, v);
    forall n: Ticket ensures Places(Write(s, k, v), n) == One(n < |Write(s, k, v).past.puts|) {
      WriteMovesTwo(s, k, v, n);
    }
  }

  lemma StartTimerIsLabelled(s: State, k: Key, v: Ticket)
    requires Labelled(s) && v < |s.past.puts| && s.past.puts[v] == k && !InTimer(s, v)
    ensures Labelled(StartTimer(s, k, v))
  {
    var t := StartTimer(s, k, v);
    assert forall id :: id != s.loop.nextTask ==> (IsSleeping(t, id) <==> IsSleeping(s, id));
  }

  lemma StartTimerMovesOne(s: State, k: Key, v: Ticket, n: Ticket)
    requires s.loop.nextTask !in s.loop.tasks && v < |s.past.puts| && Places(s, v) == 0
    requires Places(s, n) == One(n < |s.past.puts| && n != v)
    ensures Places(StartTimer(s, k, v), n) == One(n < |s.past.puts|)
  {
    var t := StartTimer(s, k, v);
    var id := s.loop.nextTask;
    assert forall i :: i != id ==> (IsSleeping(t, i) <==> IsSleeping(s, i));
    assert IsSleeping(t, id) && t.loop.tasks[id].value == v;
    assert InTimer(t, n) <==> InTimer(s, n) || n == v;
  }

  lemma StartTimerConserves(s: State, k: Key, v: Ticket)
    requires AllBut(s, v) && v < |s.past.puts| && s.past.puts[v] == k
    ensures Conserved(StartTimer(s, k, v))
  {
    assert Places(s, v) == 0;
    StartTimerIsLabelled(s, k, v);
    forall n: Ticket ensures Places(StartTimer(s, k, v), n) == One(n < |StartTimer(s, k, v).past.puts|) {
      StartTimerMovesOne(s, k, v, n);
    }
  }

  lemma IssueAddsOne(s: State, k: Key)
    requires Conserved(s)
    ensures AllBut(Issue(s, k), |s.past.puts|)
  {
    var t := Issue(s, k);
    assert forall id :: IsSleeping(t, id) <==> IsSleeping(s, id);
    forall n: Ticket ensures Places(t, n) == One(n < |s.past.puts|) {
      assert Places(s, n) == One(n < |s.past.puts|);
      assert InTimer(t, n) <==> InTimer(s, n);
      assert InDirty(t, n) <==> InDirty(s, n);
    }
  }

  /** A task that stops sleeping takes its value with it, and whoever ends it accounts for it. */
  lemma SetPhaseRemoves(s: State, id: TaskId, phase: Phase)
    requires Labelled(s) && IsSleeping(s, id) && !phase.Sleeping?
    ensures Labelled(SetPhase(s, id, phase))
    ensures forall n: Ticket :: InTimer(SetPhase(s, id, phase), n) <==> InTimer(s, n) && s.loop.tasks[id].value != n
  {
    var t := SetPhase(s, id, phase);
    assert forall i :: IsSleeping(t, i) <==> IsSleeping(s, i) && i != id;
    forall n: Ticket ensures InTimer(t, n) <==> InTimer(s, n) && s.loop.tasks[id].value != n {
      if InTimer(s, n) && s.loop.tasks[id].value != n {
        var i :| IsSleeping(s, i) && s.loop.tasks[i].value == n;
        assert IsSleeping(t, i) && t.loop.tasks[i].value == n;
      }
    }
  }

  lemma PutDelayedConserves(s: State, k: Key)
    requires Conserved(s)
    ensures Conserved(ApplyPutDelayed(s, k))
  {
    var v := |s.past.puts|;
    var issued := Issue(s, k);
    IssueAddsOne(s, k);
    if k !in s.q.timers {
      StartTimerConserves(issued, k, v);
    } else {
      PutBehindTimerConserves(issued, k, v, s.q.timers[k]);
    }
  }

  lemma PutBehindTimerConserves(s: State, k: Key, v: Ticket, id: TaskId)
    requires AllBut(s, v) && v < |s.past.puts| && s.past.puts[v] == k && k in s.q.timers && s.q.timers[k] == id
    ensures var t := if IsSleeping(s, id) then Stop(Supersede(s, s.loop.tasks[id].value, v), id) else s;
      Conserved(AwaitTimer(t, k, v, id))
  {
    if IsSleeping(s, id) {
      SupersedeTimerKeepsRest(s, k, v, id);
      AwaitConserves(Stop(Supersede(s, s.loop.tasks[id].value, v), id), k, v, id);
    } else {
      AwaitConserves(s, k, v, id);
    }
  }

  lemma SupersedeTimerKeepsRest(s: State, k: Key, v: Ticket, id: TaskId)
    requires AllBut(s, v) && v < |s.past.puts| && IsSleeping(s, id) && s.loop.tasks[id].key == s.past.puts[v]
    ensures AllBut(Stop(Supersede(s, s.loop.tasks[id].value, v), id), v)
  {
    var mid := Supersede(s, s.loop.tasks[id].value, v);
    SupersedeKeepsLabels(s, id, v);
    SetPhaseRemoves(mid, id, Cancelled);
    SameTimers(s, mid);
    var t := Stop(mid, id);
    assert InTimer(s, s.loop.tasks[id].value);
    forall n: Ticket ensures Places(t, n) == One(n < |t.past.puts| && n != v) {
      assert Places(s, n) == One(n < |s.past.puts| && n != v);
    }
  }

  lemma AwaitConserves(s: State, k: Key, v: Ticket, id: TaskId)
    requires AllBut(s, v) && v < |s.past.puts| && s.past.puts[v] == k
    ensures Conserved(AwaitTimer(s, k, v, id))
  {
    var t := AwaitTimer(s, k, v, id);
    SameTimers(s, t);
    forall n: Ticket ensures Places(t, n) == One(n < |t.past.puts|) {
      assert Places(s, n) == One(n < |s.past.puts| && n != v);
    }
  }

  lemma SupersedeKeepsLabels(s: State, id: TaskId, v: Ticket)
    requires Labelled(s) && v < |s.past.puts| && Places(s, v) == 0
    requires id in s.loop.tasks ==> s.past.puts[v] == s.loop.tasks[id].key
    ensures IsSleeping(s, id) ==> Labelled(Supersede(s, s.loop.tasks[id].value, v))
  {
    if IsSleeping(s, id) {
      var t := Supersede(s, s.loop.tasks[id].value, v);
      assert InTimer(s, s.loop.tasks[id].value);
      assert forall i :: IsSleeping(t, i) <==> IsSleeping(s, i);
    }
  }

  lemma SameTimers(s: State, t: State)
    requires t.loop.tasks == s.loop.tasks
    ensures forall n: Ticket :: InTimer(t, n) <==> InTimer(s, n)
    ensures forall i :: IsSleeping(t, i) <==> IsSleeping(s, i)
  {
    assert forall i :: IsSleeping(t, i) <==> IsSleeping(s, i);
  }

  lemma ResumeConserves(s: State, v: Ticket)
    requires Conserved(s) && Enabled(s, Resume(v))
    ensures Conserved(Apply(s, Resume(v)))
  {
    var mid := s.(loop := s.loop.(waiters := s.loop.waiters - {v}));
    SameTimers(s, mid);
    forall n: Ticket ensures Places(mid, n) == One(n < |s.past.puts| && n != v) {
      assert Places(s, n) == One(n < |s.past.puts|);
    }
    StartTimerConserves(mid, s.loop.waiters[v].key, s.loop.waiters[v].value);
  }

  lemma FireConserves(s: State, id: TaskId)
    requires Conserved(s) && IsSleeping(s, id)
    ensures Conserved(Apply(s, Fire(id)))
  {
    var task, mid := s.loop.tasks[id], SetPhase(s, id, Finished);
    SetPhaseRemoves(s, id, Finished);
    assert InTimer(s, task.value);
    forall n: Ticket ensures Places(mid, n) == One(n < |s.past.puts| && n != task.value) {
      assert Places(s, n) == One(n < |s.past.puts|);
    }
    WriteConserves(mid, task.key, task.value);
  }

  lemma CallbackConserves(s: State, id: TaskId)
    requires Conserved(s) && Enabled(s, Callback(id))
    ensures Conserved(ApplyCallback(s, id))
  {
    var t := ApplyCallback(s, id);
    assert forall i :: IsSleeping(t, i) <==> IsSleeping(s, i);
    forall n: Ticket ensures Places(t, n) == One(n < |t.past.puts|) {
      assert Places(s, n) == One(n < |s.past.puts|);
      assert InTimer(t, n) <==> InTimer(s, n);
    }
  }

  lemma GetConserves(s: State)
    requires Conserved(s) && s.q.queue != [] && s.q.queue[0] in s.q.dirty
    ensures Conserved(Apply(s, Get))
  {
    var t := Apply(s, Get);
    var v := s.q.dirty[s.q.queue[0]];
    assert InDirty(s, v) && Places(s, v) == 1;
    SameTimers(s, t);
    forall n: Ticket ensures Places(t, n) == One(n < |t.past.puts|) {
      assert Places(s, n) == One(n < |s.past.puts|);
      assert n in t.past.gets <==> n in s.past.gets || n == v;
      assert InDirty(t, n) <==> InDirty(s, n) && n != v;
    }
  }

  lemma DoneConserves(s: State, t: State)
    requires Conserved(s) && t.loop == s.loop && t.past == s.past.(held := t.past.held)
    requires t.q.dirty == s.q.dirty && forall k :: k in t.q.timers ==> k in s.q.timers && t.q.timers[k] == s.q.timers[k]
    ensures Conserved(t)
  {
    SameTimers(s, t);
    forall n: Ticket ensures Places(t, n) == One(n < |t.past.puts|) {
      assert Places(s, n) == One(n < |s.past.puts|);
    }
  }

  lemma CancelConserves(s: State, id: TaskId)
    requires Conserved(s)
    ensures Conserved(Stop(Discard(s, id), id))
  {
    if IsSleeping(s, id) {
      var mid := Discard(s, id);
      SameTimers(s, mid);
      assert InTimer(s, s.loop.tasks[id].value);
      assert Labelled(mid);
      SetPhaseRemoves(mid, id, Cancelled);
      var t := Stop(mid, id);
      forall n: Ticket ensures Places(t, n) == One(n < |t.past.puts|) {
        assert Places(s, n) == One(n < |s.past.puts|);
      }
    }
  }

  lemma CloseConserves(s: State)
    requires Conserved(s)
    ensures Conserved(Apply(s, CloseCancel))
  {
    var t := Apply(s, CloseCancel);
    var ids := SleepingTimers(s);
    assert forall i :: IsSleeping(t, i) <==> IsSleeping(s, i) && i !in ids;
    forall n: Ticket ensures Places(t, n) == One(n < |t.past.puts|) {
      assert Places(s, n) == One(n < |s.past.puts|);
      CloseMoves(s, n);
    }
  }

  /** Closing takes exactly the sleeping timers' values out and discards them. */
  lemma CloseMoves(s: State, n: Ticket)
    requires Labelled(s)
    ensures var t, ids := Apply(s, CloseCancel), SleepingTimers(s);
      var stopped := exists id :: id in ids && id in s.loop.tasks && s.loop.tasks[id].value == n;
      && (InTimer(t, n) <==> InTimer(s, n) && !stopped)
      && (n in t.past.discarded <==> n in s.past.discarded || stopped)
      && (stopped ==> InTimer(s, n))
  {
    var t, ids := Apply(s, CloseCancel), SleepingTimers(s);
    assert forall i :: IsSleeping(t, i) <==> IsSleeping(s, i) && i !in ids;
    if InTimer(s, n) {
      var i :| IsSleeping(s, i) && s.loop.tasks[i].value == n;
      if i !in ids {
        assert IsSleeping(t, i) && t.loop.tasks[i].value == n;
      }
    }
  }

  lemma StepConserves(s: State, a: Action, t: State)
    requires Conserved(s) && Step(s, a, t)
    ensures Conserved(t)
  {
    match a {
      case PutNow(k) =>
        IssueAddsOne(s, k);
        WriteConserves(Issue(s, k), k, |s.past.puts|);
      case PutDelayed(k) => PutDelayedConserves(s, k);
      case Resume(v) => ResumeConserves(s, v);
      case Fire(id) => FireConserves(s, id);
      case Callback(id) => CallbackConserves(s, id);
      case Get => GetConserves(s);
      case Done(_) => DoneConserves(s, t);
      case Cancel(k) =>
        if k in s.q.timers {
          CancelConserves(s, s.q.timers[k]);
        }
      case CloseCancel => CloseConserves(s);
      case CloseClear => DoneConserves(s, t);
    }
  }

  /** In every run no put is lost and none is returned twice. */
  lemma {:induction false} EveryPutIsSomewhere(ss: seq<State>, acts: seq<Action>, n: nat)
    requires Run(ss, acts) && n < |ss|
    ensures Conserved(ss[n])
  {
    if n > 0 {
      EveryPutIsSomewhere(ss, acts, n - 1);
      assert Step(ss[n - 1], acts[n - 1], ss[n]);
      StepConserves(ss[n - 1], acts[n - 1], ss[n]);
    } else {
      forall v ensures Places(INITIAL, v) == 0 {}
    }
  }
}
