/** The ledger's queue is the order of reservation; eviction takes the oldest completed entries, as few as needed. */
module LedgerOrder {
  import opened Base
  import opened AgentWork
  import opened LedgerModel
  import opened Admission
  import opened AdmissionInvariant
  import opened AdmissionRuns

  /** `x` stands before `y`. */
  predicate Before(order: seq<Key>, x: Key, y: Key) {
    exists p, q :: 0 <= p < q < |order| && order[p] == x && order[q] == y
  }

  // ----- One change of the queue -----

  lemma BeforeCons(first: Key, rest: seq<Key>, x: Key, y: Key)
    ensures Before([first] + rest, x, y) <==> (x == first && y in rest) || Before(rest, x, y)
  {
    var order := [first] + rest;
    if p, q :| 0 <= p < q < |order| && order[p] == x && order[q] == y {
      assert p > 0 ==> rest[p - 1] == x;
      assert rest[q - 1] == y;
    }
    if x == first && y in rest {
      var q :| 0 <= q < |rest| && rest[q] == y;
      assert order[0] == x && order[q + 1] == y;
    }
    if p, q :| 0 <= p < q < |rest| && rest[p] == x && rest[q] == y {
      assert order[p + 1] == x && order[q + 1] == y;
    }
  }

  lemma BeforeLast(front: seq<Key>, last: Key, x: Key, y: Key)
    requires last !in front
    ensures Before(front + [last], x, y) ==> x != last && (y == last || Before(front, x, y))
  {
    var order := front + [last];
    if p, q :| 0 <= p < q < |order| && order[p] == x && order[q] == y {
      assert front[p] == x;
      assert q < |front| ==> front[q] == y;
    }
  }

  /** Dropping completed keys keeps the order of the rest; whatever is dropped stood before every completed key kept. */
  lemma {:induction false} DropDoneOrder(order: seq<Key>, entries: map<Key, Slot>, k: nat, x: Key, y: Key)
    ensures var rest := DropDone(order, entries, k);
      && (y in rest ==> y in order)
      && (Before(rest, x, y) ==> Before(order, x, y))
      && (x in order && x !in rest && y in rest && Evictable(entries, y) ==> Before(order, x, y))
  {
    hide Before, Evictable;
    if order != [] && k > 0 {
      var first, tail := order[0], order[1..];
      assert order == [first] + tail;
      BeforeCons(first, tail, x, y);
      if Evictable(entries, first) {
        DropDoneOrder(tail, entries, k - 1, x, y);
      } else {
        DropDoneOrder(tail, entries, k, x, y);
        BeforeCons(first, DropDone(tail, entries, k), x, y);
      }
    }
  }

  lemma {:induction false} WithoutOrder(order: seq<Key>, key: Key, x: Key, y: Key)
    ensures var rest := Without(order, key);
      (y in rest ==> y in order) && (Before(rest, x, y) ==> Before(order, x, y))
  {
    hide Before;
    if order != [] {
      var first, tail := order[0], order[1..];
      assert order == [first] + tail;
      WithoutOrder(tail, key, x, y);
      BeforeCons(first, tail, x, y);
      BeforeCons(first, Without(tail, key), x, y);
      assert [] + Without(tail, key) == Without(tail, key);
    }
  }

  // ----- One step -----

  function Inserted(l: Ledger, key: Key, fingerprint: Request): map<Key, Slot> {
    l.entries[key := InFlight(fingerprint, |l.channels|)]
  }

  lemma AttemptQueue(l: Ledger, capacity: nat, key: Key, fingerprint: Request)
    requires key !in l.entries
    ensures var e := Inserted(l, key, fingerprint);
      TryReserve(l, capacity, key, fingerprint).0.order == DropDone(l.order + [key], e, Excess(e, capacity))
  {
  }

  lemma ReserveKeepsOrder(l: Ledger, capacity: nat, key: Key, fingerprint: Request, x: Key, y: Key)
    requires WellFormed(l) && key !in l.entries
    ensures Before(TryReserve(l, capacity, key, fingerprint).0.order, x, y) ==>
              x != key && (y == key || Before(l.order, x, y))
  {
    var e := Inserted(l, key, fingerprint);
    AttemptQueue(l, capacity, key, fingerprint);
    IndexedKeys(l.entries, l.order);
    DropDoneOrder(l.order + [key], e, Excess(e, capacity), x, y);
    BeforeLast(l.order, key, x, y);
  }

  /** The order of two keys was the same before, or the later one was reserved just now. */
  lemma StepKeepsOrder(s: System, capacity: nat, step: Step, x: Key, y: Key)
    requires Owned(s) && Enabled(s, step) && Before(Apply(s, capacity, step).ledger.order, x, y)
    ensures x in s.ledger.entries
    ensures y in s.ledger.entries ==> Before(s.ledger.order, x, y)
  {
    IndexedKeys(s.ledger.entries, s.ledger.order);
    if step.Reserve? || step.Rereserve? {
      AttemptKeepsOrder(s, capacity, step, x, y);
    } else {
      OthersKeepOrder(s, capacity, step, x, y);
    }
    hide Apply;
  }

  lemma AttemptKeepsOrder(s: System, capacity: nat, step: Step, x: Key, y: Key)
    requires Owned(s) && Enabled(s, step) && (step.Reserve? || step.Rereserve?)
    requires Before(Apply(s, capacity, step).ledger.order, x, y)
    ensures Before(s.ledger.order, x, y) || (y !in s.ledger.entries && x in s.ledger.order)
  {
    var r := s.callers[step.c].request;
    if LedgerKey(r) in s.ledger.entries {
      TryReserveTaken(s.ledger, capacity, LedgerKey(r), r);
    } else {
      ReserveKeepsOrder(s.ledger, capacity, LedgerKey(r), r, x, y);
      OnlyOldBefore(s.ledger, capacity, LedgerKey(r), r, x, y);
    }
    hide TryReserve, Before;
  }

  lemma OnlyOldBefore(l: Ledger, capacity: nat, key: Key, fingerprint: Request, x: Key, y: Key)
    requires WellFormed(l) && key !in l.entries
    ensures Before(TryReserve(l, capacity, key, fingerprint).0.order, x, y) ==> x in l.order
  {
    var e := Inserted(l, key, fingerprint);
    AttemptQueue(l, capacity, key, fingerprint);
    IndexedKeys(l.entries, l.order);
    DropDoneOrder(l.order + [key], e, Excess(e, capacity), x, y);
    BeforeLast(l.order, key, x, y);
  }

  lemma OthersKeepOrder(s: System, capacity: nat, step: Step, x: Key, y: Key)
    requires Enabled(s, step) && !step.Reserve? && !step.Rereserve?
    requires Before(Apply(s, capacity, step).ledger.order, x, y)
    ensures Before(s.ledger.order, x, y)
  {
    hide Without, Send, Before, RecordAcknowledgement, ClaimOrReuse;
    match step
    case RunRelease(r) => WithoutOrder(s.ledger.order, r.key, x, y);
    case Restart => assert !Before([], x, y) by { NothingBefore(x, y); }
    case Reject(c, _) => WithoutOrder(s.ledger.order, LedgerKey(s.callers[c].request), x, y);
    case RecordFails(c, _) => WithoutOrder(s.ledger.order, LedgerKey(s.callers[c].request), x, y);
    case Abandon(c, _) => WithoutOrder(s.ledger.order, LedgerKey(s.callers[c].request), x, y);
    case _ =>
  }

  lemma NothingBefore(x: Key, y: Key)
    ensures !Before([], x, y)
  {
  }

  // ----- Over runs -----

  /** The key was reserved at step `t` and has had a slot ever since. */
  ghost predicate HeldSince(states: seq<System>, i: nat, key: Key, t: nat)
    requires i < |states|
  {
    t < i && key !in states[t].ledger.entries && forall u :: t < u <= i ==> key in states[u].ledger.entries
  }

  /** In every reachable state the queue lists the keys by the steps at which they were reserved. */
  lemma {:induction false} QueueIsReservationOrder(states: seq<System>, steps: seq<Step>, capacity: nat, i: nat,
                                                   x: Key, y: Key, t: nat, u: nat)
    requires IsRun(states, steps, capacity) && i < |states| && Before(states[i].ledger.order, x, y)
    requires HeldSince(states, i, x, t) && HeldSince(states, i, y, u)
    ensures t < u
  {
    hide Apply, Enabled, Owned, Before;
    InvOwned(states, steps, capacity, i - 1);
    StepKeepsOrder(states[i - 1], capacity, steps[i - 1], x, y);
    if y in states[i - 1].ledger.entries {
      QueueIsReservationOrder(states, steps, capacity, i - 1, x, y, t, u);
    }
  }

  /** A key with a slot was reserved at some step and has had a slot since. */
  lemma {:induction false} ReservedAtSomeStep(states: seq<System>, steps: seq<Step>, capacity: nat, i: nat, key: Key)
    returns (t: nat)
    requires IsRun(states, steps, capacity) && i < |states| && key in states[i].ledger.entries
    ensures HeldSince(states, i, key, t)
  {
    hide Apply, Enabled;
    assert i > 0;
    t := i - 1;
    if key in states[i - 1].ledger.entries {
      t := ReservedAtSomeStep(states, steps, capacity, i - 1, key);
    }
  }

  /** An attempt that evicts `x` and keeps the completed entry `y` finds `x` reserved before `y`; and it evicts no more
      than the capacity asks for. */
  lemma OldestIsEvicted(states: seq<System>, steps: seq<Step>, capacity: nat, i: nat, x: Key, y: Key, t: nat, u: nat)
    requires IsRun(states, steps, capacity) && i < |steps| && (steps[i].Reserve? || steps[i].Rereserve?)
    requires HeldSince(states, i, x, t) && x !in states[i + 1].ledger.entries
    requires HeldSince(states, i, y, u) && y in states[i + 1].ledger.entries && states[i].ledger.entries[y].Done?
    ensures t < u
  {
    var s, step := states[i], steps[i];
    InvOwned(states, steps, capacity, i);
    EvictedStoodBefore(s, capacity, step, x, y);
    hide Apply, Enabled, Owned, Before;
    QueueIsReservationOrder(states, steps, capacity, i, x, y, t, u);
  }

  lemma EvictedStoodBefore(s: System, capacity: nat, step: Step, x: Key, y: Key)
    requires Owned(s) && Enabled(s, step) && (step.Reserve? || step.Rereserve?)
    requires x in s.ledger.entries && x !in Apply(s, capacity, step).ledger.entries
    requires y in s.ledger.entries && y in Apply(s, capacity, step).ledger.entries && s.ledger.entries[y].Done?
    ensures Before(s.ledger.order, x, y)
  {
    var l, r := s.ledger, s.callers[step.c].request;
    var key, e := LedgerKey(r), Inserted(s.ledger, LedgerKey(r), r);
    AttemptEffect(s, capacity, step);
    IndexedKeys(l.entries, l.order);
    AttemptQueue(l, capacity, key, r);
    var after := Attempt(s, capacity, step.c).0;
    IndexedKeys(after.entries, after.order);
    hide Apply, TryReserve, DropDone, Before;
    DropDoneOrder(l.order + [key], e, Excess(e, capacity), x, y);
    BeforeLast(l.order, key, x, y);
  }

  /** An attempt on a free key leaves at least as many entries as fit, if there were as many. */
  lemma EvictsNoMoreThanNeeded(l: Ledger, capacity: nat, key: Key, fingerprint: Request)
    requires WellFormed(l) && key !in l.entries
    ensures |TryReserve(l, capacity, key, fingerprint).0.entries| >= Min(|l.entries| + 1, capacity)
  {
    var e := Inserted(l, key, fingerprint);
    AttemptQueue(l, capacity, key, fingerprint);
    TryReserveFree(l, capacity, key, fingerprint);
    var after := TryReserve(l, capacity, key, fingerprint).0;
    hide TryReserve;
    IndexedKeys(l.entries, l.order);
    IndexedKeys(after.entries, after.order);
    var cut := DropDoneCuts(l.order + [key], e, Excess(e, capacity));
    assert |e| == |l.entries| + 1;
  }
}
