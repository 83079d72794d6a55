/** Any number of sessions at work on one key space, their reads and writes interleaved in any order. */
module SessionRuns {
  import opened Wrappers
  import opened Etcd
  import opened Sessions

  type Id = nat

  /** Objects held by sessions; for each write in the log, what its writer had read of the key. */
  datatype World<+V> = World(history: History<V>, held: map<Id, Held<V>>, replaced: seq<Option<Kv<V>>>)

  datatype Action<+V> =
    | Make(id: Id, value: V)
    | Load(id: Id, key: Key)
    | Assign(id: Id, value: V)
    | PutBy(id: Id)
    | DeleteBy(id: Id)

  /** Outcome of `put` on the log, the object and the record of what was replaced. */
  function AfterPut<V>(w: World<V>, id: Id, key: Key): World<V>
    requires id in w.held
  {
    var o := w.held[id];
    if !PutPasses(w.history, key, o.revision) then w
    else
      var h := w.history + [Put(key, o.value)];
      World(h, w.held[id := Held(o.value, Some(Predicted(key, o.revision, CurrentRevision(h))), Find(h, key))],
        w.replaced + [o.read])
  }

  function AfterDelete<V>(w: World<V>, id: Id, key: Key): World<V>
    requires id in w.held
  {
    var o := w.held[id];
    if o.revision.None? || ModRevision(w.history, key) != o.revision.value.modified then w
    else
      var h := w.history + [Delete(key)];
      var rev := o.revision.value.(modified := CurrentRevision(h), version := 0);
      World(h, w.held[id := Held(o.value, Some(rev), None)], w.replaced + [o.read])
  }

  function AfterLoad<V>(w: World<V>, id: Id, key: Key): World<V> {
    var kv := Find(w.history, key);
    if kv.None? then w
    else w.(held := w.held[id := Held(kv.value.value, Some(RevisionOf(key, kv.value)), kv)])
  }

  function Next<V>(keyOf: V -> Key, w: World<V>, a: Action<V>): World<V> {
    match a
    case Make(id, value) => w.(held := w.held[id := Held(value, None, None)])
    case Load(id, key) => AfterLoad(w, id, key)
    case Assign(id, value) => if id in w.held then w.(held := w.held[id := w.held[id].(value := value)]) else w
    case PutBy(id) => if id in w.held then AfterPut(w, id, keyOf(w.held[id].value)) else w
    case DeleteBy(id) => if id in w.held then AfterDelete(w, id, keyOf(w.held[id].value)) else w
  }

  ghost predicate Run<V>(keyOf: V -> Key, ws: seq<World<V>>, acts: seq<Action<V>>) {
    && |ws| == |acts| + 1
    && ws[0] == World([], map[], [])
    && forall i :: 0 <= i < |acts| ==> ws[i + 1] == Next(keyOf, ws[i], acts[i])
  }

  /** The log as a chain: every write replaced exactly what its writer had read. */
  ghost predicate Chained<V>(h: History<V>, replaced: seq<Option<Kv<V>>>) {
    && |replaced| == |h|
    && (forall i :: 0 <= i < |h| ==> replaced[i] == Find(h[..i], h[i].key))
    && (forall i :: 0 <= i < |h| && h[i].Delete? ==> replaced[i].Some?)
  }

  ghost predicate AllKnown<V(!new)>(w: World<V>) {
    forall id :: id in w.held ==> Known(w.history, w.held[id])
  }

  lemma ChainGrows<V>(h: History<V>, replaced: seq<Option<Kv<V>>>, w: Write<V>, read: Option<Kv<V>>)
    requires Chained(h, replaced) && read == Find(h, w.key) && (w.Delete? ==> read.Some?)
    ensures Chained(h + [w], replaced + [read])
  {
    var after := h + [w];
    forall i | 0 <= i < |after| ensures (replaced + [read])[i] == Find(after[..i], after[i].key) {
      assert after[..i] == h[..i];
      assert h[..|h|] == h;
    }
  }

  lemma WrittenIsKnown<V(!new)>(h: History<V>, k: Key, o: Held<V>)
    requires Known(h, o) && PutPasses(h, k, o.revision)
    ensures var after := h + [Put(k, o.value)];
      Known(after, Held(o.value, Some(Predicted(k, o.revision, CurrentRevision(after))), Find(after, k)))
  {
    var after := h + [Put(k, o.value)];
    PredictionIsExact(h, k, o.value, o);
    ModifiedByLastWrite(after, k);
    assert after[..|after|] == after;
  }

  lemma PutKeeps<V(!new)>(w: World<V>, id: Id, key: Key)
    requires AllKnown(w) && Chained(w.history, w.replaced) && id in w.held
    ensures AllKnown(AfterPut(w, id, key)) && Chained(AfterPut(w, id, key).history, AfterPut(w, id, key).replaced)
    ensures PutPasses(w.history, key, w.held[id].revision) ==>
      AfterPut(w, id, key).held[id].revision
        == Some(RevisionOf(key, Store(AfterPut(w, id, key).history)[key]))
  {
    var o := w.held[id];
    if PutPasses(w.history, key, o.revision) {
      var after := w.history + [Put(key, o.value)];
      PredictionIsExact(w.history, key, o.value, o);
      ChainGrows(w.history, w.replaced, Put(key, o.value), o.read);
      forall i | i in w.held ensures Known(after, w.held[i]) {
        KnownStays(w.history, Put(key, o.value), w.held[i]);
      }
      WrittenIsKnown(w.history, key, o);
    }
  }

  lemma DeleteKeeps<V(!new)>(w: World<V>, id: Id, key: Key)
    requires AllKnown(w) && Chained(w.history, w.replaced) && id in w.held
    ensures AllKnown(AfterDelete(w, id, key))
    ensures Chained(AfterDelete(w, id, key).history, AfterDelete(w, id, key).replaced)
  {
    var o := w.held[id];
    if o.revision.Some? && ModRevision(w.history, key) == o.revision.value.modified {
      DeletePassesOnlyUnchanged(w.history, key, o);
      ChainGrows(w.history, w.replaced, Delete(key), o.read);
      forall i | i in w.held ensures Known(w.history + [Delete(key)], w.held[i]) {
        KnownStays(w.history, Delete(key), w.held[i]);
      }
    }
  }

  lemma LoadKeeps<V(!new)>(w: World<V>, id: Id, key: Key)
    requires AllKnown(w)
    ensures AllKnown(AfterLoad(w, id, key))
  {
    if key in Store(w.history) {
      ModifiedByLastWrite(w.history, key);
      assert w.history[..|w.history|] == w.history;
    }
  }

  /**
   * No update is lost: in every run each committed write replaced exactly the version its writer had read, and
   * only existing keys are deleted.
   */
  lemma {:induction false} EveryRunIsAChain<V(!new)>(keyOf: V -> Key, ws: seq<World<V>>, acts: seq<Action<V>>, n: nat)
    requires Run(keyOf, ws, acts) && n < |ws|
    ensures Chained(ws[n].history, ws[n].replaced) && AllKnown(ws[n])
  {
    if n > 0 {
      EveryRunIsAChain(keyOf, ws, acts, n - 1);
      var w := ws[n - 1];
      match acts[n - 1] {
        case PutBy(id) =>
          if id in w.held {
            PutKeeps(w, id, keyOf(w.held[id].value));
          }
        case DeleteBy(id) =>
          if id in w.held {
            DeleteKeeps(w, id, keyOf(w.held[id].value));
          }
        case Load(id, key) => LoadKeeps(w, id, key);
        case _ =>
      }
    }
  }

  /** Whatever else goes on, the revision attached after a put is the one a read at that moment returns. */
  lemma EveryPutPredictsItsRevision<V(!new)>(keyOf: V -> Key, ws: seq<World<V>>, acts: seq<Action<V>>, n: nat)
    requires Run(keyOf, ws, acts) && n < |acts| && acts[n].PutBy? && ws[n + 1].history != ws[n].history
    ensures acts[n].id in ws[n].held
    ensures var id, key := acts[n].id, keyOf(ws[n].held[acts[n].id].value);
      && key in Store(ws[n + 1].history) && Store(ws[n + 1].history)[key].value == ws[n].held[id].value
      && ws[n + 1].held[id].revision == Some(RevisionOf(key, Store(ws[n + 1].history)[key]))
  {
    EveryRunIsAChain(keyOf, ws, acts, n);
    var id := acts[n].id;
    var key := keyOf(ws[n].held[id].value);
    PutKeeps(ws[n], id, key);
    PredictionIsExact(ws[n].history, key, ws[n].held[id].value, ws[n].held[id]);
  }
}
