/** The process-local reservation ledger as pure functions, and what they mean. */
module LedgerModel {
  import opened Base
  import opened AgentWork

  datatype WatchState = Pending | Finished | Failed

  /** A tokio `watch` channel: the latest value, and the callers holding a live receiver. */
  datatype Watch = Watch(state: WatchState, receivers: set<nat>)

  datatype Slot =
    | Done(fingerprint: Request, ack: Ack)
    | InFlight(fingerprint: Request, channel: nat)

  /** `channels` holds every watch channel created so far; a slot or a caller refers to one by index. */
  datatype Ledger = Ledger(entries: map<Key, Slot>, order: seq<Key>, channels: seq<Watch>)

  datatype Outcome = Fresh(channel: nat) | Cached(ack: Ack) | Joined(channel: nat) | Mismatch

  const CAPACITY: nat := 1024

  const EMPTY_LEDGER := Ledger(map[], [], [])

  /** `order` lists exactly the keys of `entries`, each once. */
  ghost predicate Indexed(entries: map<Key, Slot>, order: seq<Key>) {
    multiset(order) == multiset(entries.Keys)
  }

  ghost predicate WellFormed(l: Ledger) {
    && Indexed(l.entries, l.order)
    && (forall k :: k in l.entries && l.entries[k].InFlight? ==>
          l.entries[k].channel < |l.channels| && l.channels[l.entries[k].channel].state.Pending?)
    && (forall k, j :: k in l.entries && j in l.entries && l.entries[k].InFlight? && l.entries[j].InFlight? ==>
          (l.entries[k].channel == l.entries[j].channel ==> k == j))
  }

  /** `watch::Sender::send`: refuses, storing nothing, when no receiver is alive. */
  function Send(channels: seq<Watch>, channel: nat, state: WatchState): (res: seq<Watch>)
    ensures |res| == |channels|
    ensures forall i :: 0 <= i < |channels| && i != channel ==> res[i] == channels[i]
    ensures channel < |channels| ==>
      res[channel] ==
        if channels[channel].receivers == {} then channels[channel] else channels[channel].(state := state)
  {
    if channel < |channels| && channels[channel].receivers != {}
    then channels[channel := channels[channel].(state := state)] else channels
  }

  // ----- Eviction -----

  predicate Evictable(entries: map<Key, Slot>, key: Key) {
    key in entries ==> entries[key].Done?
  }

  /** The order queue without its first `k` evictable keys. */
  function DropDone(order: seq<Key>, entries: map<Key, Slot>, k: nat): (rest: seq<Key>) {
    if order == [] || k == 0 then order
    else if Evictable(entries, order[0]) then DropDone(order[1..], entries, k - 1)
    else [order[0]] + DropDone(order[1..], entries, k)
  }

  function Restrict(entries: map<Key, Slot>, order: seq<Key>): (kept: map<Key, Slot>) {
    map k | k in entries && k in order :: entries[k]
  }

  function Excess(entries: map<Key, Slot>, capacity: nat): nat {
    if |entries| > capacity then |entries| - capacity else 0
  }

  function Evict(l: Ledger, capacity: nat): Ledger {
    var order := DropDone(l.order, l.entries, Excess(l.entries, capacity));
    l.(entries := Restrict(l.entries, order), order := order)
  }

  lemma IndexedKeys(entries: map<Key, Slot>, order: seq<Key>)
    requires Indexed(entries, order)
    ensures |order| == |entries|
    ensures forall k :: k in order <==> k in entries
  {
    assert |multiset(order)| == |order| && |multiset(entries.Keys)| == |entries|;
    assert forall k :: k in order <==> k in multiset(order);
  }

  /** Taking one key out of the middle of the queue, and out of the map, keeps the index in step. */
  lemma RemoveOne(all: map<Key, Slot>, entries: map<Key, Slot>, before: seq<Key>, key: Key, after: seq<Key>)
    requires Indexed(entries, before + [key] + after)
    requires entries == Restrict(all, before + [key] + after)
    ensures Indexed(entries - {key}, before + after)
    ensures entries - {key} == Restrict(all, before + after)
    ensures |entries - {key}| == |entries| - 1
  {
    var order, rest := before + [key] + after, entries - {key};
    assert multiset(order) == multiset(before + after) + multiset{key};
    IndexedKeys(entries, order);
    assert key in order;
    assert entries.Keys == rest.Keys + {key};
    assert multiset(rest.Keys) == multiset(entries.Keys) - multiset{key};
    assert Indexed(rest, before + after);
    IndexedKeys(rest, before + after);
    assert forall k :: k in rest ==> k in order;
  }

  /** The scan loop's invariant: the keys `kept` have been stepped over, and evicting from `rest` on yields the
      queue `target` that evicting the whole queue at the start yields (`all` is the map then). */
  ghost predicate Scanning(all: map<Key, Slot>, target: seq<Key>, capacity: nat,
                           entries: map<Key, Slot>, kept: seq<Key>, rest: seq<Key>) {
    && Indexed(entries, kept + rest)
    && entries == Restrict(all, kept + rest)
    && kept + DropDone(rest, all, Excess(entries, capacity)) == target
  }

  lemma ScanStarts(entries: map<Key, Slot>, order: seq<Key>, capacity: nat)
    requires Indexed(entries, order)
    ensures Scanning(entries, DropDone(order, entries, Excess(entries, capacity)), capacity, entries, [], order)
  {
    IndexedKeys(entries, order);
    assert [] + order == order;
    var target := DropDone(order, entries, Excess(entries, capacity));
    assert [] + target == target;
  }

  /** A key still in both maps is evictable in both. */
  lemma SameEvictable(all: map<Key, Slot>, entries: map<Key, Slot>, order: seq<Key>, key: Key)
    requires Indexed(entries, order) && entries == Restrict(all, order) && key in order
    ensures Evictable(entries, key) == Evictable(all, key) && key in entries
  {
    IndexedKeys(entries, order);
  }

  lemma DropDoneHead(order: seq<Key>, entries: map<Key, Slot>, k: nat)
    requires order != [] && k > 0
    ensures DropDone(order, entries, k) == if Evictable(entries, order[0]) then DropDone(order[1..], entries, k - 1)
                                           else [order[0]] + DropDone(order[1..], entries, k)
  {
  }

  lemma ScanRemoves(all: map<Key, Slot>, target: seq<Key>, capacity: nat,
                    entries: map<Key, Slot>, kept: seq<Key>, rest: seq<Key>)
    requires Scanning(all, target, capacity, entries, kept, rest)
    requires |entries| > capacity && rest != [] && Evictable(entries, rest[0])
    ensures Scanning(all, target, capacity, entries - {rest[0]}, kept, rest[1..])
  {
    Parts(kept + rest, kept, rest);
    assert rest[0] == (kept + rest)[|kept|];
    SameEvictable(all, entries, kept + rest, rest[0]);
    RemoveOne(all, entries, kept, rest[0], rest[1..]);
    DropDoneHead(rest, all, Excess(entries, capacity));
    hide Indexed, Restrict, Evictable, DropDone;
  }

  lemma ScanSkips(all: map<Key, Slot>, target: seq<Key>, capacity: nat,
                  entries: map<Key, Slot>, kept: seq<Key>, rest: seq<Key>)
    requires Scanning(all, target, capacity, entries, kept, rest)
    requires |entries| > capacity && rest != [] && !Evictable(entries, rest[0])
    ensures Scanning(all, target, capacity, entries, kept + [rest[0]], rest[1..])
  {
    hide Indexed, Restrict, Evictable, DropDone, Excess;
    var k := Excess(entries, capacity);
    var tail := DropDone(rest[1..], all, k);
    Parts(kept + rest, kept, rest);
    assert (kept + rest)[|kept|] in kept + rest;
    SameEvictable(all, entries, kept + rest, rest[0]);
    ExcessPositive(entries, capacity);
    DropDoneHead(rest, all, k);
    Associative(kept, [rest[0]], tail);
  }

  lemma ExcessPositive(entries: map<Key, Slot>, capacity: nat)
    requires |entries| > capacity
    ensures Excess(entries, capacity) > 0
  {
  }

  lemma ScanEnds(all: map<Key, Slot>, target: seq<Key>, capacity: nat,
                 entries: map<Key, Slot>, kept: seq<Key>, rest: seq<Key>)
    requires Scanning(all, target, capacity, entries, kept, rest) && (|entries| <= capacity || rest == [])
    ensures kept + rest == target && entries == Restrict(all, target) && Indexed(entries, target)
  {
  }

  // ----- The three ledger operations -----

  function TryReserve(l: Ledger, capacity: nat, key: Key, fingerprint: Request): (Ledger, Outcome) {
    if key in l.entries then
      var slot := l.entries[key];
      if slot.fingerprint != fingerprint then (l, Mismatch)
      else if slot.Done? then (l, Cached(slot.ack))
      else (l, Joined(slot.channel))
    else
      var channel := |l.channels|;
      var inserted := Ledger(l.entries[key := InFlight(fingerprint, channel)], l.order + [key],
                             l.channels + [Watch(Pending, {})]);
      (Evict(inserted, capacity), Fresh(channel))
  }

  function CompleteWithDone(l: Ledger, key: Key, fingerprint: Request, ack: Ack): Ledger {
    if key in l.entries && l.entries[key].InFlight? then
      Ledger(l.entries[key := Done(fingerprint, ack)], l.order, Send(l.channels, l.entries[key].channel, Finished))
    else l
  }

  function Without(order: seq<Key>, key: Key): (rest: seq<Key>) {
    if order == [] then [] else (if order[0] == key then [] else [order[0]]) + Without(order[1..], key)
  }

  function ReleaseInFlight(l: Ledger, key: Key): Ledger {
    if key in l.entries && l.entries[key].InFlight? then
      Ledger(l.entries - {key}, Without(l.order, key), Send(l.channels, l.entries[key].channel, Failed))
    else l
  }

  // ----- What eviction removes -----

  function DoneCount(order: seq<Key>, entries: map<Key, Slot>): (n: nat)
    ensures n <= |order|
  {
    if order == [] then 0 else (if Evictable(entries, order[0]) then 1 else 0) + DoneCount(order[1..], entries)
  }

  /** Eviction cuts the queue at one point: before it every completed key goes and every reservation stays,
      in order; from it on nothing changes. The number of completed keys cut is the smaller of `k` and all. */
  lemma {:induction false} DropDoneCuts(order: seq<Key>, entries: map<Key, Slot>, k: nat) returns (cut: nat)
    ensures cut <= |order|
    ensures DropDone(order, entries, k) == Pinned(order[..cut], entries) + order[cut..]
    ensures DoneCount(order[..cut], entries) == Min(k, DoneCount(order, entries))
    ensures |DropDone(order, entries, k)| == |order| - Min(k, DoneCount(order, entries))
  {
    if order == [] || k == 0 {
      cut := 0;
      assert order[0..] == order;
    } else {
      var k' := if Evictable(entries, order[0]) then k - 1 else k;
      var c := DropDoneCuts(order[1..], entries, k');
      cut := c + 1;
      assert order[..cut][1..] == order[1..][..c];
      assert order[cut..] == order[1..][c..];
    }
  }

  /** The reservations among `order`, in order. */
  function Pinned(order: seq<Key>, entries: map<Key, Slot>): seq<Key> {
    if order == [] then []
    else (if Evictable(entries, order[0]) then [] else [order[0]]) + Pinned(order[1..], entries)
  }

  lemma {:induction false} DropDoneKeeps(order: seq<Key>, entries: map<Key, Slot>, k: nat)
    ensures multiset(DropDone(order, entries, k)) <= multiset(order)
    ensures forall x :: !Evictable(entries, x) ==> multiset(DropDone(order, entries, k))[x] == multiset(order)[x]
  {
    if order != [] && k != 0 {
      assert order == [order[0]] + order[1..];
      DropDoneKeeps(order[1..], entries, if Evictable(entries, order[0]) then k - 1 else k);
    }
  }

  lemma {:induction false} DropDoneFits(order: seq<Key>, entries: map<Key, Slot>, k: nat)
    ensures k <= DoneCount(order, entries) ==> |DropDone(order, entries, k)| == |order| - k
    ensures k >= DoneCount(order, entries) ==> forall x :: x in DropDone(order, entries, k) ==> !Evictable(entries, x)
  {
    if order == [] {
    } else if k == 0 {
      NoneEvictable(order, entries);
    } else if Evictable(entries, order[0]) {
      DropDoneFits(order[1..], entries, k - 1);
    } else {
      DropDoneFits(order[1..], entries, k);
    }
  }

  lemma {:induction false} NoneEvictable(order: seq<Key>, entries: map<Key, Slot>)
    ensures DoneCount(order, entries) == 0 ==> forall x :: x in order ==> !Evictable(entries, x)
  {
    if order != [] {
      NoneEvictable(order[1..], entries);
      assert forall x :: x in order <==> x == order[0] || x in order[1..];
    }
  }

  /** `e` is `l` after making room: reservations survive untouched, only completed entries go, and either the
      ledger then fits the capacity or nothing but reservations is left. */
  ghost predicate MadeRoom(l: Ledger, e: Ledger, capacity: nat) {
    && Indexed(e.entries, e.order)
    && e.channels == l.channels
    && (forall k :: k in e.entries ==> k in l.entries && e.entries[k] == l.entries[k])
    && (forall k :: k in l.entries && l.entries[k].InFlight? ==> k in e.entries)
    && (|e.entries| <= capacity || forall k :: k in e.entries ==> e.entries[k].InFlight?)
  }

  lemma EvictMakesRoom(l: Ledger, capacity: nat)
    requires Indexed(l.entries, l.order)
    ensures MadeRoom(l, Evict(l, capacity), capacity)
  {
    var n := Excess(l.entries, capacity);
    var e := Evict(l, capacity);
    IndexedKeys(l.entries, l.order);
    DropDoneKeeps(l.order, l.entries, n);
    DropDoneFits(l.order, l.entries, n);
    forall k ensures multiset(e.order)[k] == multiset(e.entries.Keys)[k] {
      InMultiset(e.order, k);
      InMultiset(l.order, k);
      assert multiset(l.order)[k] == multiset(l.entries.Keys)[k];
    }
    IndexedKeys(e.entries, e.order);
    forall k | k in l.entries && l.entries[k].InFlight? ensures k in e.entries {
      InMultiset(e.order, k);
    }
  }

  lemma {:induction false} WithoutKey(order: seq<Key>, key: Key)
    ensures multiset(Without(order, key)) == multiset(order)[key := 0]
  {
    if order != [] {
      assert order == [order[0]] + order[1..];
      WithoutKey(order[1..], key);
    }
  }

  /** A reservation attempt on a taken key changes nothing. */
  lemma TryReserveTaken(l: Ledger, capacity: nat, key: Key, fingerprint: Request)
    requires key in l.entries
    ensures TryReserve(l, capacity, key, fingerprint).0 == l
    ensures var out := TryReserve(l, capacity, key, fingerprint).1;
      && !out.Fresh?
      && (out.Cached? ==> l.entries[key] == Done(fingerprint, out.ack))
      && (out.Joined? ==> l.entries[key] == InFlight(fingerprint, out.channel))
  {
  }

  lemma TryReserveJoined(l: Ledger, capacity: nat, key: Key, fingerprint: Request)
    ensures TryReserve(l, capacity, key, fingerprint).1.Joined? ==> TryReserve(l, capacity, key, fingerprint).0 == l
  {
  }

  /** `l'` is `l` with a reservation of `key` installed on a new channel: every other reservation stays,
      completed entries are the only ones lost, and the ledger fits its capacity or holds reservations only. */
  ghost predicate Installed(l: Ledger, l': Ledger, capacity: nat, key: Key, fingerprint: Request) {
    && WellFormed(l') && key !in l.entries
    && l'.channels == l.channels + [Watch(Pending, {})]
    && key in l'.entries && l'.entries[key] == InFlight(fingerprint, |l.channels|)
    && (forall k :: k in l'.entries && k != key ==> k in l.entries && l'.entries[k] == l.entries[k])
    && (forall k :: k in l.entries && l.entries[k].InFlight? ==> k in l'.entries)
    && (|l'.entries| <= capacity || forall k :: k in l'.entries ==> l'.entries[k].InFlight?)
  }

  /** A reservation attempt on a free key. */
  lemma TryReserveFree(l: Ledger, capacity: nat, key: Key, fingerprint: Request)
    requires WellFormed(l) && key !in l.entries
    ensures TryReserve(l, capacity, key, fingerprint).1 == Fresh(|l.channels|)
    ensures Installed(l, TryReserve(l, capacity, key, fingerprint).0, capacity, key, fingerprint)
  {
    var slot := InFlight(fingerprint, |l.channels|);
    var inserted := Ledger(l.entries[key := slot], l.order + [key], l.channels + [Watch(Pending, {})]);
    InsertIndexed(l.entries, l.order, key, slot);
    EvictMakesRoom(inserted, capacity);
    RoomForReservation(l, inserted, Evict(inserted, capacity), capacity, key, fingerprint);
  }

  lemma RoomForReservation(l: Ledger, inserted: Ledger, e: Ledger, capacity: nat, key: Key, fingerprint: Request)
    requires WellFormed(l) && key !in l.entries
    requires inserted.entries == l.entries[key := InFlight(fingerprint, |l.channels|)]
    requires inserted.channels == l.channels + [Watch(Pending, {})]
    requires MadeRoom(inserted, e, capacity)
    ensures Installed(l, e, capacity, key, fingerprint)
  {
    hide Indexed;
  }

  lemma InsertIndexed(entries: map<Key, Slot>, order: seq<Key>, key: Key, slot: Slot)
    requires Indexed(entries, order) && key !in entries
    ensures Indexed(entries[key := slot], order + [key])
  {
    assert entries[key := slot].Keys == entries.Keys + {key};
  }

  lemma CompleteMeaning(l: Ledger, key: Key, fingerprint: Request, ack: Ack)
    requires WellFormed(l)
    ensures WellFormed(CompleteWithDone(l, key, fingerprint, ack))
  {
  }

  lemma ReleaseMeaning(l: Ledger, key: Key)
    requires WellFormed(l)
    ensures WellFormed(ReleaseInFlight(l, key))
  {
    WithoutKey(l.order, key);
    if key in l.entries {
      assert multiset((l.entries - {key}).Keys) == multiset(l.entries.Keys)[key := 0];
    }
  }
}
