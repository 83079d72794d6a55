/** Database sessions on a shared key space: optimistic writes, and revisions predicted without a read. */
module Sessions {
  import opened Wrappers
  import opened Etcd

  datatype Revision = Revision(key: Key, created: nat, modified: nat, version: nat)

  datatype SessionError = KeyExists | KeyModified | NoRevision

  /** An object in some session: its value, the attached revision, and what the store held when both agreed. */
  datatype Held<+V> = Held(value: V, revision: Option<Revision>, read: Option<Kv<V>>)

  function RevisionOf<V>(k: Key, kv: Kv<V>): Revision {
    Revision(k, kv.created, kv.modified, kv.version)
  }

  /** In comparisons a missing key has revisions zero. */
  function CreateRevision<V>(h: History<V>, k: Key): nat {
    if k in Store(h) then Store(h)[k].created else 0
  }

  function ModRevision<V>(h: History<V>, k: Key): nat {
    if k in Store(h) then Store(h)[k].modified else 0
  }

  predicate IsNew(rev: Option<Revision>) {
    rev.None? || rev.value.version == 0
  }

  /** The comparison of the transaction behind `put`. */
  predicate PutPasses<V>(h: History<V>, k: Key, rev: Option<Revision>) {
    if IsNew(rev) then CreateRevision(h, k) == 0 else ModRevision(h, k) == rev.value.modified
  }

  /** The revision `put` attaches, from the revision in the response header alone. */
  function Predicted(k: Key, rev: Option<Revision>, header: nat): Revision {
    if IsNew(rev) then Revision(k, header, header, 1)
    else rev.value.(modified := header, version := rev.value.version + 1)
  }

  /**
   * Attached revisions come from a read, from a write of one's own, or from a deletion of one's own; the log may
   * have grown in any way since.
   */
  ghost predicate Known<V(!new)>(h: History<V>, o: Held<V>) {
    match o.revision
    case None => o.read.None?
    case Some(r) =>
      if r.version == 0 then o.read.None? && 2 <= r.modified <= CurrentRevision(h) && h[r.modified - 2] == Delete(r.key)
      else
        && o.read.Some? && r == RevisionOf(r.key, o.read.value)
        && exists n: nat :: n <= |h| && Find(h[..n], r.key) == o.read
  }

  lemma KnownStays<V(!new)>(h: History<V>, w: Write<V>, o: Held<V>)
    requires Known(h, o)
    ensures Known(h + [w], o)
  {
    if !IsNew(o.revision) {
      var n: nat :| n <= |h| && Find(h[..n], o.revision.value.key) == o.read;
      assert (h + [w])[..n] == h[..n];
    }
  }

  lemma SameWriteSameKey<V(!new)>(h: History<V>, n: nat, j: Key, k: Key)
    requires n <= |h| && j in Store(h[..n]) && k in Store(h) && Store(h)[k].modified == Store(h[..n])[j].modified
    ensures j == k
  {
    ModifiedByLastWrite(h[..n], j);
    ModifiedByLastWrite(h, k);
  }

  /** Whoever passes the comparison has read exactly what is stored now. */
  lemma PassingMeansUnchanged<V(!new)>(h: History<V>, k: Key, o: Held<V>)
    requires Known(h, o) && !IsNew(o.revision) && ModRevision(h, k) == o.revision.value.modified
    ensures o.revision.value.key == k && Find(h, k) == o.read
  {
    var r := o.revision.value;
    var n: nat :| n <= |h| && Find(h[..n], r.key) == o.read;
    ModifiedByLastWrite(h[..n], r.key);
    SameWriteSameKey(h, n, r.key, k);
    NoAba(h, n, k);
  }

  /** A write held back since a read passes if and only if nobody has written the key in between. */
  lemma PassesIffNobodyWrote<V(!new)>(h: History<V>, n: nat, k: Key, o: Held<V>)
    requires !IsNew(o.revision) && n <= |h| && Find(h[..n], o.revision.value.key) == o.read
    requires o.read.Some? && o.revision.value == RevisionOf(o.revision.value.key, o.read.value)
    ensures PutPasses(h, k, o.revision) <==> k == o.revision.value.key && forall i :: n <= i < |h| ==> h[i].key != k
  {
    var r := o.revision.value;
    ChangedSince(h, n, r.key);
    ModifiedByLastWrite(h[..n], r.key);
    if PutPasses(h, k, o.revision) {
      assert Known(h, o);
      PassingMeansUnchanged(h, k, o);
    }
  }

  /** What `put` predicts is what a read after it returns, for new keys, updates, and puts after a delete. */
  lemma PredictionIsExact<V(!new)>(h: History<V>, k: Key, v: V, o: Held<V>)
    requires Known(h, o) && PutPasses(h, k, o.revision)
    ensures Find(h, k) == o.read
    ensures var after := h + [Put(k, v)];
      && Find(after, k).Some? && Find(after, k).value.value == v
      && RevisionOf(k, Find(after, k).value) == Predicted(k, o.revision, CurrentRevision(after))
  {
    StoreAfter(h, Put(k, v));
    if k in Store(h) {
      ModifiedByLastWrite(h, k);
    }
    if !IsNew(o.revision) {
      PassingMeansUnchanged(h, k, o);
    }
  }

  /** A second delete of the same object never passes, nor does one after somebody else's write. */
  lemma DeletePassesOnlyUnchanged<V(!new)>(h: History<V>, k: Key, o: Held<V>)
    requires Known(h, o) && o.revision.Some? && ModRevision(h, k) == o.revision.value.modified
    ensures o.revision.value.key == k && Find(h, k) == o.read && o.read.Some?
  {
    if IsNew(o.revision) {
      ModifiedByLastWrite(h, k);
      assert false;
    } else {
      PassingMeansUnchanged(h, k, o);
    }
  }

  /**
   * After a delete of one's own the object counts as new: put again, it passes exactly as long as nobody else has
   * stored the key, and its next revision starts a new incarnation.
   */
  lemma DeletedIsNewAgain<V(!new)>(h: History<V>, later: History<V>, k: Key, v: V, rev: Revision)
    requires h + [Delete(k)] <= later
    ensures var left := Some(rev.(modified := CurrentRevision(h + [Delete(k)]), version := 0));
      PutPasses(later, k, left) <==> k !in Store(later)
    ensures k !in Store(later) ==>
      var after := later + [Put(k, v)];
      Find(after, k).Some? && RevisionOf(k, Find(after, k).value)
        == Revision(k, CurrentRevision(after), CurrentRevision(after), 1)
  {
    StoreAfter(later, Put(k, v));
    if k in Store(later) {
      ModifiedByLastWrite(later, k);
    }
  }

  // ---------------------------------------------------------------------------------------------
  // The session, changing the key space and its objects in place
  // ---------------------------------------------------------------------------------------------

  class EtcdServer<V(!new)> {
    var history: History<V>

    constructor ()
      ensures history == []
    {
      history := [];
    }

    /** A transaction with one comparison of a modification or creation revision and one write. */
    method Commit(holds: bool, w: Write<V>) returns (succeeded: bool, header: nat)
      modifies this
      ensures succeeded == holds
      ensures history == if holds then old(history) + [w] else old(history)
      ensures header == CurrentRevision(history)
    {
      succeeded := holds;
      if holds {
        history := history + [w];
      }
      header := CurrentRevision(history);
    }
  }

  class Instance<V(!new)> {
    var value: V
    var revision: Option<Revision>
    ghost var read: Option<Kv<V>>

    ghost function State(): Held<V>
      reads this
    {
      Held(value, revision, read)
    }

    constructor (value: V)
      ensures State() == Held(value, None, None)
    {
      this.value, revision, read := value, None, None;
    }
  }

  class Session<V(!new)> {
    const client: EtcdServer<V>
    const keyOf: V -> Key

    constructor (client: EtcdServer<V>, keyOf: V -> Key)
      ensures this.client == client && this.keyOf == keyOf
    {
      this.client, this.keyOf := client, keyOf;
    }

    /** The object stored under a key, now or at a past revision, with its revision attached. */
    method GetByKey(key: Key, revision: Option<nat>) returns (instance: Option<Instance<V>>)
      requires revision.Some? ==> 1 <= revision.value <= CurrentRevision(client.history)
      ensures
        var kv := if revision.Some? then FindAt(client.history, key, revision.value) else Find(client.history, key);
        && (instance.Some? <==> kv.Some?)
        && (kv.Some? ==> instance.value.State() == Held(kv.value.value, Some(RevisionOf(key, kv.value)), kv))
      ensures instance.Some? ==> fresh(instance.value)
      ensures instance.Some? ==> Known(client.history, instance.value.State())
    {
      var kv := if revision.Some? then FindAt(client.history, key, revision.value) else Find(client.history, key);
      if kv.None? {
        return None;
      }
      var model := LoadInstance(key, kv.value);
      ghost var n := if revision.Some? then revision.value - 1 else |client.history|;
      assert client.history[..|client.history|] == client.history;
      ModifiedByLastWrite(client.history[..n], key);
      instance := Some(model);
    }

    method LoadInstance(key: Key, kv: Kv<V>) returns (model: Instance<V>)
      ensures fresh(model) && model.State() == Held(kv.value, Some(RevisionOf(key, kv)), Some(kv))
    {
      model := new Instance(kv.value);
      model.revision := Some(RevisionOf(key, kv));
      model.read := Some(kv);
    }

    /** Stores the object unless somebody else has written its key since it was read. */
    method Put(instance: Instance<V>) returns (error: Option<SessionError>)
      requires Known(client.history, instance.State())
      modifies client, instance`revision, instance`read
      ensures var key, rev := keyOf(instance.value), old(instance.revision);
        if PutPasses(old(client.history), key, rev) then
          && error == None
          && client.history == old(client.history) + [Etcd.Put(key, instance.value)]
          && Find(old(client.history), key) == old(instance.read)
          && Find(client.history, key).Some? && instance.read == Find(client.history, key)
          && instance.revision == Some(RevisionOf(key, Find(client.history, key).value))
        else
          && error == Some(if rev.None? then KeyExists else KeyModified)
          && client.history == old(client.history) && instance.State() == old(instance.State())
      ensures Known(client.history, instance.State())
    {
      var key := keyOf(instance.value);
      var rev := instance.revision;
      ghost var h := client.history;
      var holds := if rev.None? || rev.value.version == 0 then CreateRevision(client.history, key) == 0
                   else ModRevision(client.history, key) == rev.value.modified;
      if holds {
        PredictionIsExact(h, key, instance.value, instance.State());
      }
      var succeeded, header := client.Commit(holds, Etcd.Put(key, instance.value));
      if !succeeded {
        return Some(if rev.None? then KeyExists else KeyModified);
      }
      if rev.None? || rev.value.version == 0 {
        instance.revision := Some(Revision(key, header, header, 1));
      } else {
        instance.revision := Some(rev.value.(modified := header, version := rev.value.version + 1));
      }
      instance.read := Find(client.history, key);
      assert client.history[..|client.history|] == client.history;
      ModifiedByLastWrite(client.history, key);
      error := None;
    }

    method Delete(instance: Instance<V>) returns (error: Option<SessionError>)
      requires Known(client.history, instance.State())
      modifies client, instance`revision, instance`read
      ensures var key, rev := keyOf(instance.value), old(instance.revision);
        if rev.None? || ModRevision(old(client.history), key) != rev.value.modified then
          && error == Some(if rev.None? then NoRevision else KeyModified)
          && client.history == old(client.history) && instance.State() == old(instance.State())
        else
          && error == None && client.history == old(client.history) + [Etcd.Delete(key)]
          && Find(old(client.history), key) == old(instance.read) && old(instance.read).Some?
          && Find(client.history, key) == None
          && instance.revision == Some(rev.value.(modified := CurrentRevision(client.history), version := 0))
          && instance.read == None
      ensures Known(client.history, instance.State())
    {
      var key := keyOf(instance.value);
      var rev := instance.revision;
      if rev.None? {
        return Some(NoRevision);
      }
      ghost var h := client.history;
      var holds := ModRevision(client.history, key) == rev.value.modified;
      if holds {
        DeletePassesOnlyUnchanged(h, key, instance.State());
        StoreAfter(h, Etcd.Delete(key));
      }
      var succeeded, header := client.Commit(holds, Etcd.Delete(key));
      if !succeeded {
        return Some(KeyModified);
      }
      instance.revision := Some(rev.value.(modified := header, version := 0));
      instance.read := None;
      error := None;
    }
  }
}
