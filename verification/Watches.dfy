/** Watch streams: the events sent for a range of writes, and what a client can rebuild from them. */
module Watches {
  import opened Wrappers
  import opened Etcd
  import opened Sessions
  import opened SessionRuns

  datatype WatchEvent<+V> = WatchEvent(kind: EventType, key: Key, value: V)

  /**
   * The event sent for the write at index `i`. A delete carries no value, so the object is read again at the
   * revision before; without one there would be nothing to send.
   */
  function EventFor<V>(h: History<V>, i: nat): Option<WatchEvent<V>>
    requires i < |h|
  {
    var k := h[i].key;
    if h[i].Put? then
      var kv := Store(h[..i + 1])[k];
      Some(WatchEvent(if kv.created == kv.modified then ADDED else MODIFIED, k, kv.value))
    else
      var previous := FindAt(h, k, (i + 2) - 1);
      if previous.None? then None else Some(WatchEvent(DELETED, k, previous.value.value))
  }

  /** The stream for the selected keys from index `start` on; None once an event cannot be built. */
  function Stream<V>(h: History<V>, start: nat, stop: nat, selected: Key -> bool): Option<seq<WatchEvent<V>>>
    requires start <= stop <= |h|
    decreases stop - start
  {
    if start == stop then Some([])
    else
      var before := Stream(h, start, stop - 1, selected);
      if before.None? || !selected(h[stop - 1].key) then before
      else
        var event := EventFor(h, stop - 1);
        if event.None? then None else Some(before.value + [event.value])
  }

  /** The selected part of the store. */
  function View<V>(h: History<V>, selected: Key -> bool): map<Key, V> {
    map k | k in Store(h) && selected(k) :: Store(h)[k].value
  }

  /** A client that insists: only new keys are added, only known ones modified, and deleted with their last value. */
  function Applied<V(==)>(m: map<Key, V>, e: WatchEvent<V>): Option<map<Key, V>> {
    match e.kind
    case ADDED => if e.key in m then None else Some(m[e.key := e.value])
    case MODIFIED => if e.key in m then Some(m[e.key := e.value]) else None
    case DELETED => if e.key in m && m[e.key] == e.value then Some(m - {e.key}) else None
  }

  function Replay<V(==)>(m: map<Key, V>, events: seq<WatchEvent<V>>): Option<map<Key, V>> {
    if events == [] then Some(m)
    else
      var before := Replay(m, events[..|events| - 1]);
      if before.None? then None else Applied(before.value, events[|events| - 1])
  }

  /** One write seen through its event. */
  lemma EventShowsWrite<V>(h: History<V>, i: nat, selected: Key -> bool)
    requires i < |h| && NoVoidDelete(h, i)
    ensures EventFor(h, i).Some?
    ensures selected(h[i].key) ==>
      Applied(View(h[..i], selected), EventFor(h, i).value) == Some(View(h[..i + 1], selected))
    ensures !selected(h[i].key) ==> View(h[..i + 1], selected) == View(h[..i], selected)
  {
    var k := h[i].key;
    assert h[..i + 1] == h[..i] + [h[i]];
    StoreAfter(h[..i], h[i]);
    if k in Store(h[..i]) {
      ModifiedByLastWrite(h[..i], k);
    }
    var before, after := View(h[..i], selected), View(h[..i + 1], selected);
    if !selected(k) {
      assert after == before;
    } else if h[i].Put? {
      assert after == before[k := h[i].value];
    } else {
      assert after == before - {k};
    }
  }

  lemma ReplayOneMore<V>(m: map<Key, V>, events: seq<WatchEvent<V>>, e: WatchEvent<V>)
    ensures Replay(m, events + [e]) ==
      if Replay(m, events).None? then None else Applied(Replay(m, events).value, e)
  {
    assert (events + [e])[..|events|] == events;
  }

  /**
   * Replaying the stream on a snapshot taken when the watch began gives the selected part of the store at every
   * later revision: no event is missing, none is wrong, and none is misclassified.
   */
  lemma {:induction false} StreamReplays<V>(h: History<V>, start: nat, stop: nat, selected: Key -> bool)
    requires start <= stop <= |h|
    requires NoVoidDeletes(h)
    ensures Stream(h, start, stop, selected).Some?
    ensures Replay(View(h[..start], selected), Stream(h, start, stop, selected).value)
      == Some(View(h[..stop], selected))
    decreases stop
  {
    if start < stop {
      StreamReplays(h, start, stop - 1, selected);
      assert NoVoidDelete(h, stop - 1);
      ReplayStep(h, start, stop, selected);
    }
  }

  lemma ReplayStep<V>(h: History<V>, start: nat, stop: nat, selected: Key -> bool)
    requires start < stop <= |h| && NoVoidDelete(h, stop - 1) && Stream(h, start, stop - 1, selected).Some?
    requires Replay(View(h[..start], selected), Stream(h, start, stop - 1, selected).value)
      == Some(View(h[..stop - 1], selected))
    ensures Stream(h, start, stop, selected).Some?
    ensures Replay(View(h[..start], selected), Stream(h, start, stop, selected).value)
      == Some(View(h[..stop], selected))
  {
    var events := Stream(h, start, stop - 1, selected).value;
    EventShowsWrite(h, stop - 1, selected);
    if selected(h[stop - 1].key) {
      ReplayOneMore(View(h[..start], selected), events, EventFor(h, stop - 1).value);
    }
  }

  /** How many of the writes from `start` on are selected. */
  function Selections<V>(h: History<V>, start: nat, stop: nat, selected: Key -> bool): nat
    requires start <= stop <= |h|
    decreases stop - start
  {
    if start == stop then 0
    else Selections(h, start, stop - 1, selected) + (if selected(h[stop - 1].key) then 1 else 0)
  }

  /** A write as a client sees it: a key comes, changes, or goes with the value it had. */
  function Shown<V>(h: History<V>, i: nat): WatchEvent<V>
    requires i < |h| && NoVoidDelete(h, i)
  {
    var k := h[i].key;
    if h[i].Delete? then WatchEvent(DELETED, k, Store(h[..i])[k].value)
    else WatchEvent(if k in Store(h[..i]) then MODIFIED else ADDED, k, h[i].value)
  }

  lemma EventIsShown<V>(h: History<V>, i: nat)
    requires i < |h| && NoVoidDelete(h, i)
    ensures EventFor(h, i) == Some(Shown(h, i))
  {
    assert h[..i + 1] == h[..i] + [h[i]];
    StoreAfter(h[..i], h[i]);
    if h[i].key in Store(h[..i]) {
      ModifiedByLastWrite(h[..i], h[i].key);
    }
  }

  lemma {:induction false} SelectionsGrow<V>(h: History<V>, start: nat, i: nat, stop: nat, selected: Key -> bool)
    requires start <= i < stop <= |h| && selected(h[i].key)
    ensures Selections(h, start, i, selected) < Selections(h, start, stop, selected)
    decreases stop
  {
    if i < stop - 1 {
      SelectionsGrow(h, start, i, stop - 1, selected);
    }
  }

  lemma {:induction false} StreamCounts<V>(h: History<V>, start: nat, stop: nat, selected: Key -> bool)
    requires start <= stop <= |h| && NoVoidDeletes(h)
    ensures Stream(h, start, stop, selected).Some?
    ensures |Stream(h, start, stop, selected).value| == Selections(h, start, stop, selected)
    decreases stop
  {
    if start < stop {
      StreamCounts(h, start, stop - 1, selected);
      assert NoVoidDelete(h, stop - 1);
      EventIsShown(h, stop - 1);
    }
  }

  /**
   * The stream has as many events as there are selected writes; each write has its own, in the order of the writes,
   * and is shown by it.
   */
  lemma {:induction false} OneEventPerWrite<V>(h: History<V>, start: nat, stop: nat, selected: Key -> bool, i: nat)
    requires start <= i < stop <= |h| && NoVoidDeletes(h) && selected(h[i].key)
    ensures Stream(h, start, stop, selected).Some?
    ensures |Stream(h, start, stop, selected).value| == Selections(h, start, stop, selected)
    ensures Selections(h, start, i, selected) < Selections(h, start, stop, selected)
    ensures NoVoidDelete(h, i)
      && Stream(h, start, stop, selected).value[Selections(h, start, i, selected)] == Shown(h, i)
    decreases stop
  {
    assert NoVoidDelete(h, i);
    StreamCounts(h, start, stop, selected);
    SelectionsGrow(h, start, i, stop, selected);
    StreamCounts(h, start, stop - 1, selected);
    if i < stop - 1 {
      OneEventPerWrite(h, start, stop - 1, selected, i);
    } else {
      EventIsShown(h, i);
    }
  }

  /** The loop of the watch handler over the writes it is told about. */
  method WatchChanges<V>(h: History<V>, start: nat, selected: Key -> bool) returns (events: seq<WatchEvent<V>>)
    requires start <= |h| && NoVoidDeletes(h)
    ensures Stream(h, start, |h|, selected) == Some(events)
  {
    events := [];
    for i := start to |h|
      invariant Stream(h, start, i, selected) == Some(events)
    {
      var key := h[i].key;
      if selected(key) {
        assert NoVoidDelete(h, i);
        EventShowsWrite(h, i, selected);
        if h[i].Put? {
          StoreAfter(h[..i], h[i]);
          assert h[..i + 1] == h[..i] + [h[i]];
          var kv := Store(h[..i + 1])[key];
          events := events + [WatchEvent(if kv.created == kv.modified then ADDED else MODIFIED, key, kv.value)];
        } else {
          var previous := FindAt(h, key, i + 1);
          events := events + [WatchEvent(DELETED, key, previous.value.value)];
        }
      }
    }
  }

  lemma {:induction false} LogGrows<V(!new)>(keyOf: V -> Key, ws: seq<World<V>>, acts: seq<Action<V>>, n: nat, m: nat)
    requires Run(keyOf, ws, acts) && n <= m < |ws|
    ensures ws[n].history <= ws[m].history
    decreases m
  {
    if n < m {
      LogGrows(keyOf, ws, acts, n, m - 1);
      assert ws[m] == Next(keyOf, ws[m - 1], acts[m - 1]);
    }
  }

  /** Whatever the sessions do, a watch begun at one moment leads a client to the store of any later moment. */
  lemma EveryRunReplays<V(!new)>(
      keyOf: V -> Key, ws: seq<World<V>>, acts: seq<Action<V>>, n: nat, m: nat, selected: Key -> bool)
    requires Run(keyOf, ws, acts) && n <= m < |ws|
    ensures |ws[n].history| <= |ws[m].history|
    ensures var stream := Stream(ws[m].history, |ws[n].history|, |ws[m].history|, selected);
      stream.Some? && Replay(View(ws[n].history, selected), stream.value) == Some(View(ws[m].history, selected))
  {
    LogGrows(keyOf, ws, acts, n, m);
    EveryRunIsAChain(keyOf, ws, acts, m);
    var h := ws[m].history;
    assert h[..|ws[n].history|] == ws[n].history && h[..|h|] == h;
    forall i | 0 <= i < |h| ensures NoVoidDelete(h, i) {
      assert h[i].Delete? ==> ws[m].replaced[i].Some?;
    }
    StreamReplays(h, |ws[n].history|, |h|, selected);
  }
}
