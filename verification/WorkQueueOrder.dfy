/** In which order the values of one key come out of the work queue, and when one of them can be overtaken. */
module WorkQueueOrder {
  import opened WorkQueues
  import opened WorkQueueValues

  ghost predicate Waits(s: State, k: Key, v: Ticket) {
    v in s.loop.waiters && s.loop.waiters[v].key == k
  }

  /** The value is held back by a timer, or by a put that waits for one. */
  ghost predicate Delayed(s: State, k: Key, v: Ticket) {
    Waits(s, k, v) || exists id :: IsSleeping(s, id) && s.loop.tasks[id].key == k && s.loop.tasks[id].value == v
  }

  /**
   * What a caller can do to keep a key's values in order: nothing immediate while a value of the key is held back,
   * and no second delayed put while one is waiting.
   */
  ghost predicate Disciplined(s: State, a: Action, k: Key) {
    && (a == PutNow(k) ==> forall v: Ticket :: !Delayed(s, k, v))
    && (a == PutDelayed(k) ==> forall v: Ticket :: !Waits(s, k, v))
    && !a.CloseClear?
  }

  ghost predicate DisciplinedRun(ss: seq<State>, acts: seq<Action>, k: Key) {
    Run(ss, acts) && forall i :: 0 <= i < |acts| ==> Disciplined(ss[i], acts[i], k)
  }

  // ---------------------------------------------------------------------------------------------
  // Timers
  // ---------------------------------------------------------------------------------------------

  /** One task for the key at most, and it is the one in `timers`. */
  ghost predicate TimerMatches(s: State, k: Key) {
    && (k in s.q.timers ==>
      s.q.timers[k] in s.loop.tasks && s.loop.tasks[s.q.timers[k]].key == k && s.q.timers[k] !in s.loop.resolved)
    && (forall id :: id in s.loop.tasks && s.loop.tasks[id].key == k ==> k in s.q.timers && s.q.timers[k] == id)
    && (forall id :: id in s.loop.resolved ==> id < s.loop.nextTask)
  }

  /** One waiting put at most, and what it waits for has happened or will. */
  ghost predicate WaiterMatches(s: State, k: Key) {
    && (forall v: Ticket, v': Ticket :: Waits(s, k, v) && Waits(s, k, v') ==> v == v')
    && (forall v: Ticket :: Waits(s, k, v) ==>
      if k in s.q.timers then s.loop.waiters[v].awaits == s.q.timers[k] && !IsSleeping(s, s.q.timers[k])
      else s.loop.waiters[v].awaits in s.loop.resolved)
  }

  ghost predicate TimersMatch(s: State, k: Key) {
    Labelled(s) && TimerMatches(s, k) && WaiterMatches(s, k)
  }

  lemma PutDelayedKeepsTimers(s: State, put: Key, k: Key)
    requires TimersMatch(s, k) && Disciplined(s, PutDelayed(put), k)
    ensures TimerMatches(ApplyPutDelayed(s, put), k) && WaiterMatches(ApplyPutDelayed(s, put), k)
  {
    var t := ApplyPutDelayed(s, put);
    forall v: Ticket | Waits(t, k, v) ensures Waits(s, k, v) || (put == k && v == |s.past.puts| && k in s.q.timers) {}
  }

  lemma ResumeKeepsTimers(s: State, v: Ticket, k: Key)
    requires TimersMatch(s, k) && Enabled(s, Resume(v))
    ensures TimerMatches(Apply(s, Resume(v)), k) && WaiterMatches(Apply(s, Resume(v)), k)
  {
    var t := Apply(s, Resume(v));
    assert Waits(s, s.loop.waiters[v].key, v);
    forall w: Ticket | Waits(t, k, w) ensures Waits(s, k, w) && w != v {}
  }

  lemma CallbackKeepsTimers(s: State, id: TaskId, k: Key)
    requires TimersMatch(s, k) && Enabled(s, Callback(id))
    ensures TimerMatches(Apply(s, Callback(id)), k) && WaiterMatches(Apply(s, Callback(id)), k)
  {
    var t := Apply(s, Callback(id));
    forall w: Ticket | Waits(t, k, w) ensures Waits(s, k, w) {}
  }

  /** Every other step leaves timers and waiting puts alone, except that tasks may stop sleeping. */
  ghost predicate Quiet(s: State, t: State) {
    && t.q.timers == s.q.timers && t.loop == s.loop.(tasks := t.loop.tasks)
    && t.loop.tasks.Keys == s.loop.tasks.Keys
    && forall id :: id in s.loop.tasks ==>
      t.loop.tasks[id].key == s.loop.tasks[id].key && (IsSleeping(t, id) ==> IsSleeping(s, id))
  }

  lemma OtherStepsAreQuiet(s: State, a: Action, t: State)
    requires Step(s, a, t) && !a.PutDelayed? && !a.Resume? && !a.Callback? && !a.CloseClear?
    ensures Quiet(s, t)
  {
  }

  lemma QuietStepKeepsTimers(s: State, t: State, k: Key)
    requires TimersMatch(s, k) && Quiet(s, t)
    ensures TimerMatches(t, k) && WaiterMatches(t, k)
  {
    forall w: Ticket | Waits(t, k, w) ensures Waits(s, k, w) {}
  }

  lemma StepKeepsTimers(s: State, a: Action, t: State, k: Key)
    requires TimersMatch(s, k) && Step(s, a, t) && Disciplined(s, a, k)
    ensures TimerMatches(t, k) && WaiterMatches(t, k)
  {
    match a {
      case PutDelayed(put) => PutDelayedKeepsTimers(s, put, k);
      case Resume(v) => ResumeKeepsTimers(s, v, k);
      case Callback(id) => CallbackKeepsTimers(s, id, k);
      case _ =>
        OtherStepsAreQuiet(s, a, t);
        QuietStepKeepsTimers(s, t, k);
    }
  }

  // ---------------------------------------------------------------------------------------------
  // Values
  // ---------------------------------------------------------------------------------------------

  ghost predicate GotUnder(s: State, k: Key, v: Ticket) {
    v in s.past.gets && v < |s.past.puts| && s.past.puts[v] == k
  }

  /** What a worker gets for the key is newer than all it got before, and replaced values make room for newer ones. */
  ghost predicate Ascending(s: State, k: Key) {
    && (forall i, j ::
      0 <= i < j < |s.past.gets| && GotUnder(s, k, s.past.gets[i]) && GotUnder(s, k, s.past.gets[j]) ==>
      s.past.gets[i] < s.past.gets[j])
    && (forall n: Ticket :: n in s.past.superseded && n < |s.past.puts| && s.past.puts[n] == k ==>
      n < s.past.superseded[n])
  }

  /** Older values are further on their way: got, then dirty, then held back. */
  ghost predicate InOrder(s: State, k: Key) {
    && (k in s.q.dirty ==> forall v: Ticket :: GotUnder(s, k, v) ==> v < s.q.dirty[k])
    && (forall d: Ticket :: Delayed(s, k, d) && k in s.q.dirty ==> s.q.dirty[k] < d)
    && (forall d: Ticket, v: Ticket :: Delayed(s, k, d) && GotUnder(s, k, v) ==> v < d)
  }

  /** In every state of a disciplined run. */
  ghost predicate Ordered(s: State, k: Key) {
    TimersMatch(s, k) && Ascending(s, k) && InOrder(s, k)
  }

  /** Of the key's values only the newest put is new among the held back ones. */
  lemma PutDelayedDelays(s: State, put: Key, k: Key, d: Ticket)
    requires TimersMatch(s, k) && Delayed(ApplyPutDelayed(s, put), k, d)
    ensures Delayed(s, k, d) || (put == k && d == |s.past.puts|)
  {
    var t := ApplyPutDelayed(s, put);
    if !Waits(t, k, d) {
      var id :| IsSleeping(t, id) && t.loop.tasks[id].key == k && t.loop.tasks[id].value == d;
      assert IsSleeping(s, id) || d == |s.past.puts|;
    } else {
      assert Waits(s, k, d) || d == |s.past.puts|;
    }
  }

  /** What a delayed put replaces is the value of the key's sleeping task. */
  lemma PutDelayedReplaces(s: State, put: Key, k: Key, n: Ticket)
    requires Labelled(s) && n in ApplyPutDelayed(s, put).past.superseded
    ensures (n in s.past.superseded && ApplyPutDelayed(s, put).past.superseded[n] == s.past.superseded[n])
      || (n < |s.past.puts| && ApplyPutDelayed(s, put).past.superseded[n] == |s.past.puts|)
  {
  }

  lemma PutDelayedKeepsOrder(s: State, put: Key, k: Key)
    requires Ordered(s, k) && Disciplined(s, PutDelayed(put), k)
    ensures Ascending(ApplyPutDelayed(s, put), k) && InOrder(ApplyPutDelayed(s, put), k)
  {
    var t := ApplyPutDelayed(s, put);
    forall v: Ticket | GotUnder(t, k, v) ensures GotUnder(s, k, v) {}
    forall d: Ticket | Delayed(t, k, d) ensures Delayed(s, k, d) || (put == k && d == |s.past.puts|) {
      PutDelayedDelays(s, put, k, d);
    }
    forall n: Ticket | n in t.past.superseded && n < |t.past.puts| && t.past.puts[n] == k
      ensures n < t.past.superseded[n]
    {
      PutDelayedReplaces(s, put, k, n);
    }
  }

  lemma PutNowKeepsOrder(s: State, put: Key, k: Key)
    requires Ordered(s, k) && Disciplined(s, PutNow(put), k)
    ensures Ascending(Apply(s, PutNow(put)), k) && InOrder(Apply(s, PutNow(put)), k)
  {
    var t := Apply(s, PutNow(put));
    forall v: Ticket | GotUnder(t, k, v) ensures GotUnder(s, k, v) {}
    forall d: Ticket | Delayed(t, k, d) ensures Delayed(s, k, d) {
      assert Waits(t, k, d) ==> Waits(s, k, d);
      assert forall id :: IsSleeping(t, id) ==> IsSleeping(s, id);
    }
  }

  /** The value of the timer that fires is the only one of its key that is held back. */
  lemma FireMoves(s: State, id: TaskId, k: Key)
    requires TimersMatch(s, k) && IsSleeping(s, id)
    ensures s.loop.tasks[id].key == k ==> Delayed(s, k, s.loop.tasks[id].value)
    ensures forall v: Ticket :: GotUnder(Apply(s, Fire(id)), k, v) <==> GotUnder(s, k, v)
    ensures forall d: Ticket :: Delayed(Apply(s, Fire(id)), k, d) ==> Delayed(s, k, d) && s.loop.tasks[id].key != k
  {
    var t := Apply(s, Fire(id));
    forall d: Ticket | Delayed(t, k, d) ensures Delayed(s, k, d) && s.loop.tasks[id].key != k {
      assert Waits(t, k, d) ==> Waits(s, k, d);
      assert forall i :: IsSleeping(t, i) ==> IsSleeping(s, i) && i != id;
    }
  }

  lemma FireKeepsAscending(s: State, id: TaskId, k: Key)
    requires Ordered(s, k) && IsSleeping(s, id)
    ensures Ascending(Apply(s, Fire(id)), k)
  {
    FireMoves(s, id, k);
  }

  lemma FireKeepsOrder(s: State, id: TaskId, k: Key)
    requires Ordered(s, k) && IsSleeping(s, id)
    ensures Ascending(Apply(s, Fire(id)), k) && InOrder(Apply(s, Fire(id)), k)
  {
    FireKeepsAscending(s, id, k);
    FireMoves(s, id, k);
  }

  lemma GetKeepsOrder(s: State, k: Key)
    requires Ordered(s, k) && s.q.queue != [] && s.q.queue[0] in s.q.dirty
    ensures Ascending(Apply(s, Get), k) && InOrder(Apply(s, Get), k)
  {
    var t := Apply(s, Get);
    forall v: Ticket | GotUnder(t, k, v)
      ensures GotUnder(s, k, v) || (s.q.queue[0] == k && v == s.q.dirty[k])
    {
    }
    forall d: Ticket | Delayed(t, k, d) ensures Delayed(s, k, d) {
      assert Waits(t, k, d) ==> Waits(s, k, d);
      assert forall i :: IsSleeping(t, i) ==> IsSleeping(s, i);
    }
    forall i | 0 <= i < |s.past.gets| ensures t.past.gets[i] == s.past.gets[i] && s.past.gets[i] in s.past.gets {}
  }

  /** A step that gets, writes and replaces nothing, and holds nothing new back. */
  lemma QuietStepKeepsOrder(s: State, t: State, k: Key)
    requires Ordered(s, k)
    requires t.q.dirty == s.q.dirty && t.past.puts == s.past.puts && t.past.gets == s.past.gets
    requires t.past.superseded == s.past.superseded
    requires forall d: Ticket :: Delayed(t, k, d) ==> Delayed(s, k, d)
    ensures Ascending(t, k) && InOrder(t, k)
  {
    forall v: Ticket | GotUnder(t, k, v) ensures GotUnder(s, k, v) {}
  }

  lemma ResumeDelays(s: State, v: Ticket, k: Key, d: Ticket)
    requires TimersMatch(s, k) && Enabled(s, Resume(v)) && Delayed(Apply(s, Resume(v)), k, d)
    ensures Delayed(s, k, d)
  {
    var t := Apply(s, Resume(v));
    if Waits(t, k, d) {
      assert Waits(s, k, d);
    } else {
      var id :| IsSleeping(t, id) && t.loop.tasks[id].key == k && t.loop.tasks[id].value == d;
      assert if id == s.loop.nextTask then Waits(s, k, d) else IsSleeping(s, id);
    }
  }

  lemma FewerDelayed(s: State, t: State, k: Key, d: Ticket)
    requires forall v: Ticket :: v in t.loop.waiters ==> v in s.loop.waiters && t.loop.waiters[v] == s.loop.waiters[v]
    requires forall id :: IsSleeping(t, id) ==> id in s.loop.tasks && t.loop.tasks[id] == s.loop.tasks[id]
    requires Delayed(t, k, d)
    ensures Delayed(s, k, d)
  {
    if !Waits(t, k, d) {
      var id :| IsSleeping(t, id) && t.loop.tasks[id].key == k && t.loop.tasks[id].value == d;
      assert IsSleeping(s, id);
    } else {
      assert Waits(s, k, d);
    }
  }

  lemma StepKeepsOrder(s: State, a: Action, t: State, k: Key)
    requires Ordered(s, k) && Step(s, a, t) && Disciplined(s, a, k)
    ensures Ascending(t, k) && InOrder(t, k)
  {
    match a {
      case PutNow(put) => PutNowKeepsOrder(s, put, k);
      case PutDelayed(put) => PutDelayedKeepsOrder(s, put, k);
      case Resume(v) =>
        forall d: Ticket | Delayed(t, k, d) ensures Delayed(s, k, d) {
          ResumeDelays(s, v, k, d);
        }
        QuietStepKeepsOrder(s, t, k);
      case Fire(id) => FireKeepsOrder(s, id, k);
      case Get => GetKeepsOrder(s, k);
      case Callback(_) | Done(_) | Cancel(_) | CloseCancel =>
        forall d: Ticket | Delayed(t, k, d) ensures Delayed(s, k, d) {
          FewerDelayed(s, t, k, d);
        }
        QuietStepKeepsOrder(s, t, k);
      case CloseClear =>
    }
  }

  /** In a disciplined run the values of the key come out in the order they were put in, and none goes back. */
  lemma {:induction false} EveryDisciplinedRunIsOrdered(ss: seq<State>, acts: seq<Action>, k: Key, n: nat)
    requires DisciplinedRun(ss, acts, k) && n < |ss|
    ensures Conserved(ss[n]) && Ordered(ss[n], k)
  {
    EveryPutIsSomewhere(ss, acts, n);
    if n > 0 {
      EveryDisciplinedRunIsOrdered(ss, acts, k, n - 1);
      assert Step(ss[n - 1], acts[n - 1], ss[n]);
      StepKeepsTimers(ss[n - 1], acts[n - 1], ss[n], k);
      StepKeepsOrder(ss[n - 1], acts[n - 1], ss[n], k);
    }
  }

  // ---------------------------------------------------------------------------------------------
  // Where the newest value is
  // ---------------------------------------------------------------------------------------------

  ghost predicate Newest(s: State, k: Key, n: Ticket) {
    && n < |s.past.puts| && s.past.puts[n] == k
    && forall m :: n < m < |s.past.puts| ==> s.past.puts[m] != k
  }

  /** Unless a cancellation discarded it, the newest value is on its way or the last one got. */
  lemma NewestStands(s: State, k: Key, n: Ticket)
    requires Conserved(s) && Ordered(s, k) && Newest(s, k, n) && n !in s.past.discarded
    ensures InDirty(s, n) || Delayed(s, k, n) || n in s.past.gets
    ensures forall v: Ticket :: GotUnder(s, k, v) && n in s.past.gets ==> v <= n
  {
    assert Places(s, n) == 1;
    if InTimer(s, n) {
      var id :| IsSleeping(s, id) && s.loop.tasks[id].value == n;
      assert Delayed(s, k, n);
    }
    if n in s.loop.waiters {
      assert Waits(s, k, n);
    }
  }

  /** Nothing of the event loop, no timer and no worker is left to run. */
  ghost predicate Quiescent(s: State) {
    && s.past.held == {}
    && forall a :: Enabled(s, a) ==> !(a.Resume? || a.Fire? || a.Callback? || a.Get?)
  }

  /** A waiting put goes on as soon as the timer it waits for has called back, and that timer is over. */
  lemma WaitingPutGoesOn(s: State, k: Key, v: Ticket)
    requires TimersMatch(s, k) && Waits(s, k, v)
    ensures Enabled(s, Resume(v)) || (
      && k in s.q.timers && Enabled(s, Callback(s.q.timers[k]))
      && Enabled(Apply(s, Callback(s.q.timers[k])), Resume(v)))
  {
  }

  /** A value on its way and no worker busy: some step of the queue is due. */
  lemma SomethingGoesOn(s: State, k: Key, n: Ticket)
    requires TimersMatch(s, k) && Sequential(s.q, s.past.held) && s.past.held == {}
    requires Delayed(s, k, n) || k in s.q.dirty
    ensures exists a :: Enabled(s, a) && (a.Resume? || a.Fire? || a.Callback? || a.Get?)
  {
    if Waits(s, k, n) {
      WaitingPutGoesOn(s, k, n);
      if k in s.q.timers {
        assert Enabled(s, Callback(s.q.timers[k])) || Enabled(s, Resume(n));
      } else {
        assert Enabled(s, Resume(n));
      }
    } else if Delayed(s, k, n) {
      var id :| IsSleeping(s, id) && s.loop.tasks[id].key == k && s.loop.tasks[id].value == n;
      assert Enabled(s, Fire(id));
    } else {
      assert k in s.q.queue && Enabled(s, Get);
    }
  }

  /** When everything has come to rest, the newest put of the key has been handed to a worker, as its last one. */
  lemma RestMeansNewestGot(s: State, k: Key, n: Ticket)
    requires Conserved(s) && Ordered(s, k) && Sequential(s.q, s.past.held) && Quiescent(s)
    requires Newest(s, k, n) && n !in s.past.discarded
    ensures n in s.past.gets && forall v: Ticket :: GotUnder(s, k, v) ==> v <= n
  {
    NewestStands(s, k, n);
    if n !in s.past.gets {
      SomethingGoesOn(s, k, n);
    }
  }

  /** In a disciplined run without cancellations, rest means that every key's newest value was delivered last. */
  lemma EveryDisciplinedRunDelivers(ss: seq<State>, acts: seq<Action>, k: Key, n: Ticket)
    requires DisciplinedRun(ss, acts, k) && Quiescent(ss[|acts|]) && Newest(ss[|acts|], k, n)
    requires forall i :: 0 <= i < |acts| ==> !acts[i].Cancel? && !acts[i].CloseCancel?
    ensures n in ss[|acts|].past.gets && forall v: Ticket :: GotUnder(ss[|acts|], k, v) ==> v <= n
  {
    EveryDisciplinedRunIsOrdered(ss, acts, k, |acts|);
    EveryRunIsSequential(ss, acts, |acts|);
    NothingDiscarded(ss, acts, |acts|);
    RestMeansNewestGot(ss[|acts|], k, n);
  }

  lemma {:induction false} NothingDiscarded(ss: seq<State>, acts: seq<Action>, n: nat)
    requires Run(ss, acts) && n < |ss|
    requires forall i :: 0 <= i < |acts| ==> !acts[i].Cancel? && !acts[i].CloseCancel?
    ensures ss[n].past.discarded == {}
  {
    if n > 0 {
      NothingDiscarded(ss, acts, n - 1);
      assert Step(ss[n - 1], acts[n - 1], ss[n]);
    }
  }

  // ---------------------------------------------------------------------------------------------
  // Without the discipline
  // ---------------------------------------------------------------------------------------------

  /** The actions can be taken from `s` and end in `t`. */
  ghost predicate Leads(s: State, acts: seq<Action>, t: State)
    decreases |acts|
  {
    if acts == [] then t == s
    else exists mid :: Step(s, acts[0], mid) && Leads(mid, acts[1..], t)
  }

  lemma OneLeads(s: State, a: Action, t: State)
    requires Step(s, a, t)
    ensures Leads(s, [a], t)
  {
    assert Leads(t, [a][1..], t);
  }

  lemma ThenLeads(s: State, a: Action, mid: State, acts: seq<Action>, t: State)
    requires Step(s, a, mid) && Leads(mid, acts, t)
    ensures Leads(s, [a] + acts, t)
  {
    assert ([a] + acts)[1..] == acts;
  }

  /** The value in hand was replaced by an older one of the same key. */
  ghost predicate Overtaken(s: State, n: Ticket) {
    n in s.past.superseded && s.past.superseded[n] < n
  }

  /** An immediate put while a value is held back: the new value can be lost to the older one. */
  lemma ImmediatePutIsOvertaken(s: State, k: Key, d: Ticket)
    requires TimersMatch(s, k) && Delayed(s, k, d)
    ensures exists acts, t :: Leads(Apply(s, PutNow(k)), acts, t) && Overtaken(t, |s.past.puts|)
  {
    var put := Apply(s, PutNow(k));
    if Waits(s, k, d) {
      WaiterOvertakes(s, k, d);
    } else {
      var id :| IsSleeping(s, id) && s.loop.tasks[id].key == k && s.loop.tasks[id].value == d;
      FireOvertakes(put, id, |s.past.puts|);
    }
  }

  lemma FireOvertakes(s: State, id: TaskId, n: Ticket)
    requires IsSleeping(s, id) && s.loop.tasks[id].value < n
    requires s.loop.tasks[id].key in s.q.dirty && s.q.dirty[s.loop.tasks[id].key] == n
    ensures exists acts, t :: Leads(s, acts, t) && Overtaken(t, n)
  {
    var t := Apply(s, Fire(id));
    OneLeads(s, Fire(id), t);
    assert Overtaken(t, n);
  }

  lemma WaiterOvertakes(s: State, k: Key, d: Ticket)
    requires TimersMatch(s, k) && Waits(s, k, d)
    ensures exists acts, t :: Leads(Apply(s, PutNow(k)), acts, t) && Overtaken(t, |s.past.puts|)
  {
    var put := Apply(s, PutNow(k));
    if k in s.q.timers {
      var id := s.q.timers[k];
      var back := Apply(put, Callback(id));
      ResumeOvertakes(back, d, |s.past.puts|);
      var acts, t :| Leads(back, acts, t) && Overtaken(t, |s.past.puts|);
      ThenLeads(put, Callback(id), back, acts, t);
    } else {
      ResumeOvertakes(put, d, |s.past.puts|);
    }
  }

  lemma ResumeOvertakes(s: State, d: Ticket, n: Ticket)
    requires Enabled(s, Resume(d)) && s.loop.waiters[d].value < n
    requires s.loop.waiters[d].key in s.q.dirty && s.q.dirty[s.loop.waiters[d].key] == n
    ensures exists acts, t :: Leads(s, acts, t) && Overtaken(t, n)
  {
    var mid := Apply(s, Resume(d));
    FireOvertakes(mid, s.loop.nextTask, n);
    var acts, t :| Leads(mid, acts, t) && Overtaken(t, n);
    ThenLeads(s, Resume(d), mid, acts, t);
  }

  /** A put that waits for a future nobody will resolve any more. */
  ghost predicate Hangs(s: State, v: Ticket) {
    && v in s.loop.waiters && v < |s.past.puts|
    && var id := s.loop.waiters[v].awaits;
      && id !in s.loop.resolved && id < s.loop.nextTask
      && forall k :: k in s.q.timers ==> s.q.timers[k] != id
  }

  lemma {:induction false} HangsForever(s: State, acts: seq<Action>, t: State, v: Ticket)
    requires Hangs(s, v) && Leads(s, acts, t)
    ensures Hangs(t, v)
    decreases |acts|
  {
    if acts != [] {
      var mid :| Step(s, acts[0], mid) && Leads(mid, acts[1..], t);
      StepKeepsHanging(s, acts[0], mid, v);
      HangsForever(mid, acts[1..], t, v);
    }
  }

  lemma StepKeepsHanging(s: State, a: Action, t: State, v: Ticket)
    requires Hangs(s, v) && Step(s, a, t)
    ensures Hangs(t, v)
  {
  }

  /** The key's task `id` is the one in `timers`, sleeping or not. */
  ghost predicate Timed(s: State, k: Key, id: TaskId) {
    && id in s.loop.tasks && s.loop.tasks[id].key == k
    && id !in s.loop.resolved && id < s.loop.nextTask
    && k in s.q.timers && s.q.timers[k] == id && forall k' :: k' in s.q.timers && s.q.timers[k'] == id ==> k' == k
  }

  ghost predicate CanResume(s: State, k: Key, v: Ticket) {
    Waits(s, k, v) && Enabled(s, Resume(v)) && v < |s.past.puts|
  }

  /** A delayed put while another one is waiting: a put can come to hang for ever. */
  lemma SecondDelayedPutCanHang(s: State, k: Key, v: Ticket)
    requires TimersMatch(s, k) && Waits(s, k, v)
    ensures exists acts, t, n :: Leads(Apply(s, PutDelayed(k)), acts, t) && Hangs(t, n)
  {
    var put := Apply(s, PutDelayed(k));
    if k in s.q.timers {
      var id, v' := s.q.timers[k], |s.past.puts|;
      var back := Apply(put, Callback(id));
      assert CanResume(back, k, v) && CanResume(back, k, v');
      var mid := Apply(back, Resume(v));
      ThirdPutHangs(mid, k, mid.loop.nextTask - 1, v');
      var acts, t, n :| Leads(mid, acts, t) && Hangs(t, n);
      ThenLeads(back, Resume(v), mid, acts, t);
      ThenLeads(put, Callback(id), back, [Resume(v)] + acts, t);
    } else {
      ThirdPutHangs(put, k, s.loop.nextTask, v);
    }
  }

  /** The task that calls back pops the entry of its successor. */
  lemma ThirdPutHangs(s: State, k: Key, id: TaskId, v: Ticket)
    requires Timed(s, k, id) && IsSleeping(s, id) && CanResume(s, k, v)
    ensures exists acts, t, n :: Leads(s, acts, t) && Hangs(t, n)
  {
    var n := |s.past.puts|;
    var put := Apply(s, PutDelayed(k));
    assert Timed(put, k, id) && CanResume(put, k, v);
    SuccessorLosesEntry(put, k, id, v, n);
    var acts, t :| Leads(put, acts, t) && Hangs(t, n);
    ThenLeads(s, PutDelayed(k), put, acts, t);
  }

  lemma SuccessorLosesEntry(s: State, k: Key, id: TaskId, v: Ticket, n: Ticket)
    requires Timed(s, k, id) && !IsSleeping(s, id) && CanResume(s, k, v)
    requires n != v && Waits(s, k, n) && n < |s.past.puts| && s.loop.waiters[n].awaits == id
    ensures exists acts, t :: Leads(s, acts, t) && Hangs(t, n)
  {
    var mid := Apply(s, Resume(v));
    var t := Apply(mid, Callback(id));
    assert Hangs(t, n);
    OneLeads(mid, Callback(id), t);
    ThenLeads(s, Resume(v), mid, [Callback(id)], t);
  }
}
