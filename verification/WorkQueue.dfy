/**
 * The work queue: one action per stretch of code between two awaits, on an unbounded queue. Values are
 * identified by the ticket of the put that brought them, so that nothing can be confused.
 */
module WorkQueues {
  import opened Wrappers

  type Key = string
  type Ticket = nat
  type TaskId = nat

  /** A debounce task: asleep, told to stop, or done with its put. The last two still owe their callback. */
  datatype Phase = Sleeping | Cancelled | Finished

  datatype Task = Task(key: Key, value: Ticket, phase: Phase)

  /** A delayed put waiting for the future that belongs to a task's entry in `timers`. */
  datatype Waiter = Waiter(key: Key, value: Ticket, awaits: TaskId)

  datatype Fields = Fields(dirty: map<Key, Ticket>, active: set<Key>, queue: seq<Key>, timers: map<Key, TaskId>)

  /** What the event loop keeps: tasks, suspended puts (by ticket), and the futures already resolved. */
  datatype Loop = Loop(tasks: map<TaskId, Task>, waiters: map<Ticket, Waiter>, resolved: set<TaskId>, nextTask: TaskId)

  /** Keys held by workers, the key of each put so far, and what became of values that left. */
  datatype Past = Past(
    held: set<Key>,
    puts: seq<Key>,
    gets: seq<Ticket>,
    superseded: map<Ticket, Ticket>,
    discarded: set<Ticket>
  )

  datatype State = State(q: Fields, loop: Loop, past: Past)

  datatype Action =
    | PutNow(key: Key)
    | PutDelayed(key: Key)
    | Resume(ticket: Ticket)
    | Fire(task: TaskId)
    | Callback(task: TaskId)
    | Get
    | Done(key: Key)
    | Cancel(key: Key)
    | CloseCancel
    | CloseClear

  const INITIAL := State(
    Fields(map[], {}, [], map[]), Loop(map[], map[], {}, 0), Past({}, [], [], map[], {}))

  // ---------------------------------------------------------------------------------------------
  // The fields of the queue
  // ---------------------------------------------------------------------------------------------

  function AddKeyToQueue(q: Fields, k: Key): Fields {
    q.(active := q.active + {k}, queue := q.queue + [k])
  }

  function PutKey(q: Fields, k: Key, v: Ticket): Fields {
    var q' := q.(dirty := q.dirty[k := v]);
    if k in q.active then q' else AddKeyToQueue(q', k)
  }

  function Finish(q: Fields, k: Key): Fields {
    var q' := q.(active := q.active - {k});
    if k in q.dirty then AddKeyToQueue(q', k) else q'
  }

  // ---------------------------------------------------------------------------------------------
  // Actions
  // ---------------------------------------------------------------------------------------------

  function Issue(s: State, k: Key): State {
    s.(past := s.past.(puts := s.past.puts + [k]))
  }

  function Supersede(s: State, earlier: Ticket, later: Ticket): State {
    s.(past := s.past.(superseded := s.past.superseded[earlier := later]))
  }

  /** The assignment to `dirty`, with what it overwrites. */
  function Write(s: State, k: Key, v: Ticket): State {
    var s' := if k in s.q.dirty then Supersede(s, s.q.dirty[k], v) else s;
    s'.(q := PutKey(s.q, k, v))
  }

  function StartTimer(s: State, k: Key, v: Ticket): State {
    var id := s.loop.nextTask;
    s.(q := s.q.(timers := s.q.timers[k := id]),
       loop := s.loop.(tasks := s.loop.tasks[id := Task(k, v, Sleeping)], nextTask := id + 1))
  }

  predicate IsSleeping(s: State, id: TaskId) {
    id in s.loop.tasks && s.loop.tasks[id].phase.Sleeping?
  }

  function SetPhase(s: State, id: TaskId, phase: Phase): State
    requires id in s.loop.tasks
  {
    s.(loop := s.loop.(tasks := s.loop.tasks[id := s.loop.tasks[id].(phase := phase)]))
  }

  /** Cancelling a task that is over has no effect. */
  function Stop(s: State, id: TaskId): State {
    if IsSleeping(s, id) then SetPhase(s, id, Cancelled) else s
  }

  function AwaitTimer(s: State, k: Key, v: Ticket, id: TaskId): State {
    s.(loop := s.loop.(waiters := s.loop.waiters[v := Waiter(k, v, id)]))
  }

  function ApplyPutDelayed(s: State, k: Key): State {
    var v := |s.past.puts|;
    var s := Issue(s, k);
    if k !in s.q.timers then StartTimer(s, k, v)
    else
      var id := s.q.timers[k];
      AwaitTimer(if IsSleeping(s, id) then Stop(Supersede(s, s.loop.tasks[id].value, v), id) else s, k, v, id)
  }

  /** Pops the key's entry, whosever it is, and resolves its future; without an entry the pop raises. */
  function ApplyCallback(s: State, id: TaskId): State
    requires id in s.loop.tasks
  {
    var k := s.loop.tasks[id].key;
    var loop := s.loop.(tasks := s.loop.tasks - {id});
    if k !in s.q.timers then s.(loop := loop)
    else
      s.(q := s.q.(timers := s.q.timers - {k}), loop := loop.(resolved := loop.resolved + {s.q.timers[k]}))
  }

  function Discard(s: State, id: TaskId): State {
    if IsSleeping(s, id) then s.(past := s.past.(discarded := s.past.discarded + {s.loop.tasks[id].value})) else s
  }

  function SleepingTimers(s: State): set<TaskId> {
    set k | k in s.q.timers && IsSleeping(s, s.q.timers[k]) :: s.q.timers[k]
  }

  predicate Enabled(s: State, a: Action) {
    match a
    case PutNow(_) => true
    case PutDelayed(_) => true
    case Resume(v) => v in s.loop.waiters && s.loop.waiters[v].awaits in s.loop.resolved
    case Fire(id) => IsSleeping(s, id)
    case Callback(id) => id in s.loop.tasks && !s.loop.tasks[id].phase.Sleeping?
    case Get => s.q.queue != []
    case Done(k) => k in s.past.held
    case Cancel(_) => true
    case CloseCancel => true
    case CloseClear => true
  }

  function Apply(s: State, a: Action): State
    requires Enabled(s, a)
    requires a.Get? ==> s.q.queue[0] in s.q.dirty
  {
    match a
    case PutNow(k) => Write(Issue(s, k), k, |s.past.puts|)
    case PutDelayed(k) => ApplyPutDelayed(s, k)
    case Resume(v) =>
      var w := s.loop.waiters[v];
      StartTimer(s.(loop := s.loop.(waiters := s.loop.waiters - {v})), w.key, w.value)
    case Fire(id) =>
      Write(SetPhase(s, id, Finished), s.loop.tasks[id].key, s.loop.tasks[id].value)
    case Callback(id) => ApplyCallback(s, id)
    case Get =>
      var k := s.q.queue[0];
      s.(q := s.q.(queue := s.q.queue[1..], dirty := s.q.dirty - {k}),
         past := s.past.(held := s.past.held + {k}, gets := s.past.gets + [s.q.dirty[k]]))
    case Done(k) => s.(q := Finish(s.q, k), past := s.past.(held := s.past.held - {k}))
    case Cancel(k) => if k in s.q.timers then Stop(Discard(s, s.q.timers[k]), s.q.timers[k]) else s
    case CloseCancel =>
      var ids := SleepingTimers(s);
      s.(loop := s.loop.(tasks := map id | id in s.loop.tasks ::
                           if id in ids then s.loop.tasks[id].(phase := Cancelled) else s.loop.tasks[id]),
         past := s.past.(
           discarded := s.past.discarded + set id | id in ids && id in s.loop.tasks :: s.loop.tasks[id].value))
    case CloseClear => s.(q := s.q.(timers := map[]))
  }

  // ---------------------------------------------------------------------------------------------
  // Strict sequential processing
  // ---------------------------------------------------------------------------------------------

  /** Queued keys are dirty, dirty ones active, and every active key is either queued once or held. */
  ghost predicate Sequential(q: Fields, held: set<Key>) {
    && NoDuplicates(q.queue)
    && (forall k :: k in q.queue ==> k in q.dirty && k !in held)
    && (forall k :: k in q.dirty ==> k in q.active)
    && (forall k :: k in q.active <==> k in q.queue || k in held)
  }

  lemma PutKeyKeepsSequential(q: Fields, held: set<Key>, k: Key, v: Ticket)
    requires Sequential(q, held)
    ensures Sequential(PutKey(q, k, v), held)
  {
  }

  lemma GetKeepsSequential(q: Fields, held: set<Key>)
    requires Sequential(q, held) && q.queue != []
    ensures q.queue[0] in q.dirty && q.queue[0] !in held
    ensures Sequential(q.(queue := q.queue[1..], dirty := q.dirty - {q.queue[0]}), held + {q.queue[0]})
  {
    var k := q.queue[0];
    assert q.queue == [k] + q.queue[1..];
  }

  lemma FinishKeepsSequential(q: Fields, held: set<Key>, k: Key)
    requires Sequential(q, held) && k in held
    ensures Sequential(Finish(q, k), held - {k})
  {
  }

  lemma StepKeepsSequential(s: State, a: Action)
    requires Sequential(s.q, s.past.held) && Enabled(s, a)
    ensures a.Get? ==> s.q.queue[0] in s.q.dirty && s.q.queue[0] !in s.past.held
    ensures Sequential(Apply(s, a).q, Apply(s, a).past.held)
  {
    match a {
      case PutNow(k) => PutKeyKeepsSequential(s.q, s.past.held, k, |s.past.puts|);
      case Fire(id) => PutKeyKeepsSequential(s.q, s.past.held, s.loop.tasks[id].key, s.loop.tasks[id].value);
      case Get => GetKeepsSequential(s.q, s.past.held);
      case Done(k) => FinishKeepsSequential(s.q, s.past.held, k);
      case _ =>
    }
  }

  /** Runs of the queue, only the holder of a key calling `done` with it. */
  ghost predicate Run(ss: seq<State>, acts: seq<Action>) {
    && |ss| == |acts| + 1
    && ss[0] == INITIAL
    && forall i :: 0 <= i < |acts| ==> Step(ss[i], acts[i], ss[i + 1])
  }

  ghost predicate Step(s: State, a: Action, t: State) {
    Enabled(s, a) && (a.Get? ==> s.q.queue[0] in s.q.dirty) && t == Apply(s, a)
  }

  /**
   * In every reachable state the queue holds no key twice and none that a worker holds, so `get` always finds
   * a value and never hands out a key before `done`.
   */
  lemma {:induction false} EveryRunIsSequential(ss: seq<State>, acts: seq<Action>, n: nat)
    requires Run(ss, acts) && n < |ss|
    ensures Sequential(ss[n].q, ss[n].past.held)
    ensures ss[n].q.queue != [] ==> ss[n].q.queue[0] in ss[n].q.dirty && ss[n].q.queue[0] !in ss[n].past.held
  {
    if n > 0 {
      EveryRunIsSequential(ss, acts, n - 1);
      assert Step(ss[n - 1], acts[n - 1], ss[n]);
      StepKeepsSequential(ss[n - 1], acts[n - 1]);
    }
    if ss[n].q.queue != [] {
      GetKeepsSequential(ss[n].q, ss[n].past.held);
    }
  }

  // ---------------------------------------------------------------------------------------------
  // The queue itself
  // ---------------------------------------------------------------------------------------------

  /** One method per stretch between two awaits. `loop` is what asyncio keeps for the queue. */
  class WorkQueue {
    const debounce: real
    var dirty: map<Key, Ticket>
    var timers: map<Key, TaskId>
    var active: set<Key>
    var queue: seq<Key>
    var loop: Loop
    ghost var past: Past

    ghost function Snapshot(): State
      reads this
    {
      State(Fields(dirty, active, queue, timers), loop, past)
    }

    constructor (debounce: real)
      ensures Snapshot() == INITIAL && this.debounce == debounce
    {
      this.debounce := debounce;
      dirty, timers, active, queue := map[], map[], {}, [];
      loop := Loop(map[], map[], {}, 0);
      past := Past({}, [], [], map[], {});
    }

    method AddKeyToQueue(key: Key)
      modifies this`active, this`queue
      ensures active == old(active) + {key} && queue == old(queue) + [key]
    {
      active := active + {key};
      queue := queue + [key];
    }

    method PutKey(key: Key, value: Ticket)
      modifies this`dirty, this`active, this`queue, this`past
      ensures Snapshot() == Write(old(Snapshot()), key, value)
    {
      if key in dirty {
        past := past.(superseded := past.superseded[dirty[key] := value]);
      }
      dirty := dirty[key := value];
      if key !in active {
        AddKeyToQueue(key);
      }
    }

    method CreateTimer(key: Key, value: Ticket)
      modifies this`timers, this`loop
      ensures Snapshot() == StartTimer(old(Snapshot()), key, value)
    {
      var timer := loop.nextTask;
      loop := loop.(tasks := loop.tasks[timer := Task(key, value, Sleeping)], nextTask := timer + 1);
      timers := timers[key := timer];
    }

    method CancelTask(timer: TaskId)
      modifies this`loop
      ensures Snapshot() == Stop(old(Snapshot()), timer)
    {
      if timer in loop.tasks && loop.tasks[timer].phase.Sleeping? {
        loop := loop.(tasks := loop.tasks[timer := loop.tasks[timer].(phase := Cancelled)]);
      }
    }

    /** Up to its end, or to the await of the previous timer's removal. The value is the one the put brings. */
    method Put(key: Key, value: Ticket, delay: Option<real>) returns (waiting: bool)
      requires value == |past.puts|
      modifies this
      ensures var d := if delay.Some? then delay.value else debounce;
        && Snapshot() == Apply(old(Snapshot()), if d == 0.0 then PutNow(key) else PutDelayed(key))
        && (waiting <==> d != 0.0 && key in old(timers))
    {
      var d := if delay.Some? then delay.value else debounce;
      waiting := false;
      past := past.(puts := past.puts + [key]);
      if d == 0.0 {
        PutKey(key, value);
      } else if key in timers {
        var previous := timers[key];
        if previous in loop.tasks && loop.tasks[previous].phase.Sleeping? {
          past := past.(superseded := past.superseded[loop.tasks[previous].value := value]);
        }
        CancelTask(previous);
        loop := loop.(waiters := loop.waiters[value := Waiter(key, value, previous)]);
        waiting := true;
      } else {
        CreateTimer(key, value);
      }
    }

    /** A put goes on once the future it waits for is resolved. */
    method ResumePut(value: Ticket)
      requires Enabled(Snapshot(), Resume(value))
      modifies this
      ensures Snapshot() == Apply(old(Snapshot()), Resume(value))
    {
      var waiter := loop.waiters[value];
      loop := loop.(waiters := loop.waiters - {value});
      CreateTimer(waiter.key, waiter.value);
    }

    /** A debounce task wakes up. */
    method Debounced(timer: TaskId)
      requires Enabled(Snapshot(), Fire(timer))
      modifies this
      ensures Snapshot() == Apply(old(Snapshot()), Fire(timer))
    {
      var task := loop.tasks[timer];
      loop := loop.(tasks := loop.tasks[timer := task.(phase := Finished)]);
      PutKey(task.key, task.value);
    }

    /** The callback of a task that is over; a missing entry raises, and asyncio drops the error. */
    method RemoveTimer(timer: TaskId) returns (raised: bool)
      requires Enabled(Snapshot(), Callback(timer))
      modifies this
      ensures Snapshot() == Apply(old(Snapshot()), Callback(timer))
      ensures raised <==> old(Snapshot()).loop.tasks[timer].key !in old(timers)
    {
      var key := loop.tasks[timer].key;
      loop := loop.(tasks := loop.tasks - {timer});
      raised := key !in timers;
      if !raised {
        loop := loop.(resolved := loop.resolved + {timers[key]});
        timers := timers - {key};
      }
    }

    /** The key popped always has a value, and no worker holds it. */
    method Take() returns (key: Key, value: Ticket)
      requires Sequential(Snapshot().q, past.held) && queue != []
      modifies this
      ensures old(queue)[0] in old(dirty) && Snapshot() == Apply(old(Snapshot()), Get)
      ensures key == old(queue)[0] && value == old(dirty)[key] && key !in old(past.held)
      ensures Sequential(Snapshot().q, past.held)
    {
      GetKeepsSequential(Snapshot().q, past.held);
      key := queue[0];
      queue := queue[1..];
      value := dirty[key];
      dirty := dirty - {key};
      past := past.(held := past.held + {key}, gets := past.gets + [value]);
    }

    /** A key that was put meanwhile goes behind all keys that wait. */
    method Complete(key: Key)
      requires Sequential(Snapshot().q, past.held) && key in past.held
      modifies this
      ensures Snapshot() == Apply(old(Snapshot()), Done(key))
      ensures queue == if key in old(dirty) then old(queue) + [key] else old(queue)
      ensures Sequential(Snapshot().q, past.held)
    {
      FinishKeepsSequential(Snapshot().q, past.held, key);
      active := active - {key};
      if key in dirty {
        AddKeyToQueue(key);
      }
      past := past.(held := past.held - {key});
    }

    /** Up to the await of the timer's removal. */
    method CancelTimer(key: Key)
      modifies this
      ensures Snapshot() == Apply(old(Snapshot()), Cancel(key))
    {
      if key in timers {
        var timer := timers[key];
        if timer in loop.tasks && loop.tasks[timer].phase.Sleeping? {
          past := past.(discarded := past.discarded + {loop.tasks[timer].value});
        }
        CancelTask(timer);
      }
    }

    /** Cancels every pending timer, up to the await of the first of them. */
    method CancelTimers()
      modifies this`loop, this`past
      ensures Snapshot() == Apply(old(Snapshot()), CloseCancel)
    {
      ghost var was := Snapshot();
      var todo := timers.Keys;
      while todo != {}
        invariant todo <= timers.Keys
        invariant loop == was.loop.(tasks := loop.tasks) && loop.tasks.Keys == was.loop.tasks.Keys && past == was.past
        invariant forall id :: id in loop.tasks ==>
          loop.tasks[id] == if exists k :: k in timers.Keys - todo && timers[k] == id && IsSleeping(was, id)
                            then was.loop.tasks[id].(phase := Cancelled) else was.loop.tasks[id]
        decreases todo
      {
        var key :| key in todo;
        CancelTask(timers[key]);
        todo := todo - {key};
      }
      past := past.(discarded := past.discarded
        + set id | id in SleepingTimers(was) && id in was.loop.tasks :: was.loop.tasks[id].value);
      assert loop.tasks == Apply(was, CloseCancel).loop.tasks;
    }

    /** The end of closing, whatever timers there are by then. */
    method ForgetTimers()
      modifies this`timers
      ensures Snapshot() == Apply(old(Snapshot()), CloseClear) && timers == map[]
    {
      timers := map[];
    }

    method Empty() returns (empty: bool)
      ensures empty <==> forall k :: k !in dirty
    {
      empty := |dirty| == 0;
    }
  }
}
