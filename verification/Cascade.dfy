/**
 * Cascading deletion as a protocol: the API store, the watch events on their way to the garbage
 * collector, its dependency graph and work queue, its DELETED handlers and its workers. Every action
 * is one stretch of code between two awaits, or the moment an API call takes effect; actions of
 * different parties interleave freely.
 */
module Cascade {
  import opened Wrappers
  import opened Digraphs
  import opened Relationships
  import opened GraphRuns

  /** Finalizer names: the garbage collector's own, and everybody else's. */
  datatype Finalizer = CascadeDeletion | Foreign(name: string)

  /** What the protocol reads of a stored resource, and the stamp that tells apart what it does not read. */
  datatype Resource = Resource(owners: seq<ResourceRef>, finalizers: seq<Finalizer>, deleted: bool, modified: nat)

  predicate InDeletion(r: Resource) {
    r.deleted && r.finalizers != [] && r.finalizers[|r.finalizers| - 1] == CascadeDeletion
  }

  datatype Event = Event(kind: EventType, obj: Resource)

  /** A worker between two awaits. */
  datatype Worker =
    /** In the loop over the dependents: position in the live list, and the call under way if any. */
    | Marking(next: nat, target: Option<ResourceRef>)
    /** About to send the resource with its last finalizer popped. */
    | Dropping(body: Resource)

  /** A DELETED handler: the owners still to visit start at `next`; `answer` is the owner just read. */
  datatype Handler = Handler(owners: seq<ResourceRef>, next: nat, answer: Option<Resource>)

  /** The API: stored resources, and undelivered watch events, in order for each resource. */
  datatype Api = Api(store: map<ResourceRef, Resource>, events: map<ResourceRef, seq<Event>>)

  /** The garbage collector; its work queue is the values waiting and the keys held by workers. */
  datatype Collector = Collector(
    graph: Adjacency,
    queue: map<ResourceRef, Resource>,
    workers: map<ResourceRef, Worker>,
    handlers: map<ResourceRef, Handler>
  )

  /** Owners and creation order of every resource ever created, and those whose DELETED handler has finished. */
  datatype History = History(
    born: map<ResourceRef, seq<ResourceRef>>,
    age: map<ResourceRef, nat>,
    buried: set<ResourceRef>
  )

  datatype State = State(api: Api, gc: Collector, past: History)

  datatype Action =
    // Users and other controllers.
    | Create(ref: ResourceRef, owners: seq<ResourceRef>, finalizers: seq<Finalizer>)
    | Mark(ref: ResourceRef)
    | Write(ref: ResourceRef, finalizers: seq<Finalizer>, modified: nat)
    // Event handlers of the garbage collector.
    | Deliver(ref: ResourceRef, visited: set<ResourceRef>)
    | ReadOwner(ref: ResourceRef)
    | EnqueueOwner(ref: ResourceRef)
    // Workers of the garbage collector.
    | Take(ref: ResourceRef)
    | Call(ref: ResourceRef)
    | Continue(ref: ResourceRef)

  predicate IsCollector(a: Action) {
    !a.Create? && !a.Mark? && !a.Write?
  }

  const EMPTY := State(Api(map[], map[]), Collector(map[], map[], map[], map[]), History(map[], map[], {}))

  function Pending(s: State, r: ResourceRef): seq<Event> {
    if r in s.api.events then s.api.events[r] else []
  }

  function Post(s: State, r: ResourceRef, kind: EventType, obj: Resource): State {
    s.(api := s.api.(events := s.api.events[r := Pending(s, r) + [Event(kind, obj)]]))
  }

  /** The unforced DELETE handler of the API; None is a 404. */
  function ApiDelete(s: State, r: ResourceRef): Option<State> {
    if r !in s.api.store then None
    else if s.api.store[r].deleted then Some(s)
    else
      var marked := s.api.store[r].(deleted := true, finalizers := s.api.store[r].finalizers + [CascadeDeletion]);
      Some(Post(s.(api := s.api.(store := s.api.store[r := marked])), r, MODIFIED, marked))
  }

  /** Stores an object, or removes the key if it is deleted and holds no finalizer any more. */
  function StoreOrRemove(s: State, r: ResourceRef, obj: Resource): State
    requires r in s.api.store
  {
    if obj.deleted && obj.finalizers == [] then
      Post(s.(api := s.api.(store := s.api.store - {r})), r, DELETED, s.api.store[r])
    else
      Post(s.(api := s.api.(store := s.api.store[r := obj])), r, MODIFIED, obj)
  }

  /** Every update renews the stamp; time has gone on since the last one. */
  function Renewed(obj: Resource): Resource {
    obj.(modified := obj.modified + 1)
  }

  /** The PUT handler of the API; None is a 404, 409 or 400. The comparison is one of whole objects. */
  function ApiUpdate(s: State, r: ResourceRef, body: Resource): Option<State> {
    if r !in s.api.store then None
    else if s.api.store[r].deleted && !AllIn(body.finalizers, s.api.store[r].finalizers) then None
    else if body == s.api.store[r] then None
    else Some(StoreOrRemove(s, r, Renewed(s.api.store[r].(owners := body.owners, finalizers := body.finalizers))))
  }

  function Enqueue(s: State, r: ResourceRef, obj: Resource): (t: State)
    ensures t.api.store == s.api.store && t.past.born == s.past.born && t.gc.handlers == s.gc.handlers
  {
    if InDeletion(obj) then s.(gc := s.gc.(queue := s.gc.queue[r := obj])) else s
  }

  /** The end of a DELETED handler: the node goes, unless it still holds dependents. */
  ghost function Bury(s: State, r: ResourceRef): (t: State)
    ensures t.api.store == s.api.store && t.past.born == s.past.born
  {
    s.(gc := s.gc.(graph := Changed(s.gc.graph, Deleted(r)), handlers := s.gc.handlers - {r}),
       past := s.past.(buried := s.past.buried + {r}))
  }

  ghost function ApplyDelivery(s: State, r: ResourceRef, visited: set<ResourceRef>): (t: State)
    requires Pending(s, r) != []
    ensures t.api.store == s.api.store && t.past.born == s.past.born
  {
    var event := Pending(s, r)[0];
    var s := s.(api := s.api.(events := s.api.events[r := Pending(s, r)[1..]]));
    match event.kind
    case DELETED =>
      if event.obj.owners == [] then Bury(s, r)
      else s.(gc := s.gc.(handlers := s.gc.handlers[r := Handler(event.obj.owners, 0, None)]))
    case _ =>
      var owners := event.obj.owners;
      var g := Changed(s.gc.graph, if event.kind.ADDED? then Added(r, owners) else Modified(r, owners));
      var settled := s.(gc := s.gc.(graph := Settled(g, r, visited)));
      if TreeFrom(EdgesOf(g), r) then Enqueue(settled, r, event.obj) else settled
  }

  function CurrentOwner(h: Handler): ResourceRef
    requires h.next < |h.owners|
  {
    h.owners[h.next]
  }

  function ApplyRead(s: State, r: ResourceRef): State
    requires r in s.gc.handlers && s.gc.handlers[r].next < |s.gc.handlers[r].owners|
  {
    var h := s.gc.handlers[r];
    if CurrentOwner(h) in s.api.store then
      s.(gc := s.gc.(handlers := s.gc.handlers[r := h.(answer := Some(s.api.store[CurrentOwner(h)]))]))
    else
      // A 404 ends the handler before it removes the node.
      s.(gc := s.gc.(handlers := s.gc.handlers - {r}))
  }

  /** After an owner: on to the next one, or the end of the handler. */
  ghost function NextOwner(s: State, r: ResourceRef): (t: State)
    requires r in s.gc.handlers
    ensures t.api.store == s.api.store && t.past.born == s.past.born
  {
    var h := s.gc.handlers[r];
    if h.next + 1 >= |h.owners| then Bury(s, r)
    else s.(gc := s.gc.(handlers := s.gc.handlers[r := Handler(h.owners, h.next + 1, None)]))
  }

  ghost function ApplyEnqueueOwner(s: State, r: ResourceRef): State
    requires r in s.gc.handlers && s.gc.handlers[r].next < |s.gc.handlers[r].owners| && s.gc.handlers[r].answer.Some?
  {
    NextOwner(Enqueue(s, CurrentOwner(s.gc.handlers[r]), s.gc.handlers[r].answer.value), r)
  }

  function Popped(obj: Resource): Resource {
    if obj.finalizers == [] then obj
    else obj.(finalizers := obj.finalizers[..|obj.finalizers| - 1])
  }

  function ApplyTake(s: State, r: ResourceRef): State
    requires r in s.gc.queue
  {
    var dependents := Dependents(s.gc.graph, r);
    var worker := if dependents == [] then Dropping(Popped(s.gc.queue[r])) else Marking(0, Some(dependents[0]));
    s.(gc := s.gc.(graph := Touch(s.gc.graph, {r}), queue := s.gc.queue - {r}, workers := s.gc.workers[r := worker]))
  }

  /** The call for one dependent returned: the loop goes on from the next position. */
  function MarkingReturned(s: State, r: ResourceRef): State
    requires r in s.gc.workers && s.gc.workers[r].Marking?
  {
    s.(gc := s.gc.(workers := s.gc.workers[r := Marking(s.gc.workers[r].next + 1, None)]))
  }

  /** The last call returned, or an error ended the work: `done` is called either way. */
  function WorkEnded(s: State, r: ResourceRef): State {
    s.(gc := s.gc.(workers := s.gc.workers - {r}))
  }

  function ApplyCall(s: State, r: ResourceRef): State
    requires r in s.gc.workers && (s.gc.workers[r].Marking? ==> s.gc.workers[r].target.Some?)
  {
    match s.gc.workers[r]
    case Marking(_, target) =>
      (match ApiDelete(s, target.value)
       case None => WorkEnded(s, r)
       case Some(t) => MarkingReturned(t, r))
    case Dropping(body) =>
      (match ApiUpdate(s, r, body)
       case None => WorkEnded(s, r)
       case Some(t) => WorkEnded(t, r))
  }

  function ApplyContinue(s: State, r: ResourceRef): State
    requires r in s.gc.workers && s.gc.workers[r].Marking?
  {
    var n, dependents := s.gc.workers[r].next, Dependents(s.gc.graph, r);
    if n < |dependents| then s.(gc := s.gc.(workers := s.gc.workers[r := Marking(n, Some(dependents[n]))]))
    else WorkEnded(s, r)
  }

  /** Edges from owners to the resources created with them. */
  ghost function Ownership(born: map<ResourceRef, seq<ResourceRef>>): Edges<ResourceRef> {
    iset o: ResourceRef, c: ResourceRef | c in born && o in born[c] :: (o, c)
  }

  ghost predicate Undelivered(s: State, r: ResourceRef) {
    Pending(s, r) != [] && Pending(s, r)[0].kind.ADDED?
  }

  /** Everything ever owned by `k` is buried. */
  ghost predicate Spent(s: State, k: ResourceRef) {
    forall c :: c in s.past.born && k in s.past.born[c] ==> c in s.past.buried
  }

  /** The creation of everything owned by `k` has been delivered. */
  ghost predicate ChildrenAreKnown(s: State, k: ResourceRef) {
    forall c :: c in s.past.born && k in s.past.born[c] ==> !Undelivered(s, c)
  }

  /** A worker is about to drop the collector's finalizer of `o`, or it is gone already. */
  predicate Spending(s: State, o: ResourceRef) {
    || (o in s.gc.workers && s.gc.workers[o].Dropping?)
    || (o in s.api.store && s.api.store[o].deleted && CascadeDeletion !in s.api.store[o].finalizers)
  }

  /** The create handler of the API for a name that is free; it does not look at the owners. */
  function ApplyCreate(s: State, r: ResourceRef, owners: seq<ResourceRef>, finalizers: seq<Finalizer>): State {
    var obj := Resource(owners, finalizers, false, 0);
    var past := s.past.(born := s.past.born[r := owners], age := s.past.age[r := |s.past.born|]);
    Post(s.(api := s.api.(store := s.api.store[r := obj]), past := past), r, ADDED, obj)
  }

  /** A new name, stored owners, and no second path to any resource. */
  ghost predicate CreationOk(s: State, r: ResourceRef, owners: seq<ResourceRef>, finalizers: seq<Finalizer>) {
    && r !in s.past.born && CascadeDeletion !in finalizers && NoDuplicates(finalizers)
    && (forall o :: o in owners ==> o in s.api.store)
    && UniqueWalks(Ownership(s.past.born[r := owners]))
  }

  /** When an action may happen: whatever the code lets through. */
  ghost predicate Enabled(s: State, a: Action) {
    match a
    case Create(r, _, _) => r !in s.api.store
    case Mark(r) => r in s.api.store
    case Write(r, finalizers, modified) =>
      // What the API accepts. Every change of the finalizers renews the stamp, and so do some other writes.
      && r in s.api.store && s.api.store[r].modified <= modified
      && (finalizers != s.api.store[r].finalizers ==> s.api.store[r].modified < modified)
      && (s.api.store[r].deleted ==> AllIn(finalizers, s.api.store[r].finalizers))
    case Deliver(r, visited) =>
      && Pending(s, r) != []
      && var event := Pending(s, r)[0];
         (!event.kind.DELETED? ==>
           VisitedFrom(Changed(s.gc.graph, if event.kind.ADDED? then Added(r, event.obj.owners)
                                        else Modified(r, event.obj.owners)), r, visited))
    case ReadOwner(r) =>
      r in s.gc.handlers && s.gc.handlers[r].next < |s.gc.handlers[r].owners| && s.gc.handlers[r].answer.None?
    case EnqueueOwner(r) =>
      r in s.gc.handlers && s.gc.handlers[r].next < |s.gc.handlers[r].owners| && s.gc.handlers[r].answer.Some?
    case Take(r) => r in s.gc.queue && r !in s.gc.workers
    case Call(r) => r in s.gc.workers && (s.gc.workers[r].Marking? ==> s.gc.workers[r].target.Some?)
    case Continue(r) => r in s.gc.workers && s.gc.workers[r].Marking? && s.gc.workers[r].target.None?
  }

  /**
   * The three branches that can leave a dependent behind: a creation below an owner that is past the collector, an
   * update that takes the collector's finalizer off, and a worker that finds no dependents because it has not heard
   * of them.
   */
  ghost predicate Sound(s: State, a: Action) {
    match a
    case Create(r, owners, finalizers) =>
      CreationOk(s, r, owners, finalizers) && forall o :: o in owners ==> !Spending(s, o)
    case Write(r, finalizers, _) =>
      r in s.api.store ==>
        && NoDuplicates(finalizers)
        && (CascadeDeletion in finalizers ==> CascadeDeletion in s.api.store[r].finalizers)
        && (CascadeDeletion in s.api.store[r].finalizers && CascadeDeletion !in finalizers ==> Spent(s, r))
    case Take(r) => Dependents(s.gc.graph, r) == [] ==> ChildrenAreKnown(s, r)
    case _ => true
  }

  ghost predicate SoundStep(s: State, a: Action) {
    Enabled(s, a) && Sound(s, a)
  }

  ghost function Apply(s: State, a: Action): State
    requires Enabled(s, a)
  {
    match a
    case Create(r, owners, finalizers) => ApplyCreate(s, r, owners, finalizers)
    case Mark(r) => ApiDelete(s, r).value
    case Write(r, finalizers, modified) =>
      StoreOrRemove(s, r, s.api.store[r].(finalizers := finalizers, modified := modified))
    case Deliver(r, visited) => ApplyDelivery(s, r, visited)
    case ReadOwner(r) => ApplyRead(s, r)
    case EnqueueOwner(r) => ApplyEnqueueOwner(s, r)
    case Take(r) => ApplyTake(s, r)
    case Call(r) => ApplyCall(s, r)
    case Continue(r) => ApplyContinue(s, r)
  }

  /** Runs of the whole system, from an empty one, that keep out of the three branches. */
  ghost predicate Run(ss: seq<State>, acts: seq<Action>) {
    && |ss| == |acts| + 1
    && ss[0] == EMPTY
    && forall i :: 0 <= i < |acts| ==> SoundStep(ss[i], acts[i]) && ss[i + 1] == Apply(ss[i], acts[i])
  }

  /** Steps of the collector alone lead from `s` to `t`. */
  ghost predicate CollectorLeads(s: State, acts: seq<Action>, t: State)
    decreases |acts|
  {
    if acts == [] then t == s
    else IsCollector(acts[0]) && Enabled(s, acts[0]) && CollectorLeads(Apply(s, acts[0]), acts[1..], t)
  }

  /** Sound steps of the collector alone lead from `s` to `t`. */
  ghost predicate CollectorGoes(s: State, acts: seq<Action>, t: State)
    decreases |acts|
  {
    if acts == [] then t == s
    else IsCollector(acts[0]) && SoundStep(s, acts[0]) && CollectorGoes(Apply(s, acts[0]), acts[1..], t)
  }
}
