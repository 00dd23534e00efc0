/** The ledger and its guard as objects updated in place, each method equal to its function in LedgerModel. */
module WorkLedger {
  import opened Base
  import opened AgentWork
  import opened M = LedgerModel

  class AgentWorkLedger {
    var entries: map<Key, Slot>
    var order: seq<Key>
    var channels: seq<Watch>

    ghost function Model(): Ledger
      reads this
    {
      Ledger(entries, order, channels)
    }

    ghost predicate Valid()
      reads this
    {
      WellFormed(Model())
    }

    constructor ()
      ensures Valid() && Model() == EMPTY_LEDGER
    {
      entries, order, channels := map[], [], [];
    }

    method TryReserve(key: Key, fingerprint: Request) returns (outcome: Outcome)
      requires Valid()
      modifies this
      ensures Valid()
      ensures (Model(), outcome) == M.TryReserve(old(Model()), CAPACITY, key, fingerprint)
    {
      if key in entries {
        var slot := entries[key];
        if slot.fingerprint != fingerprint {
          return Mismatch;
        }
        match slot
        case Done(_, ack) => return Cached(ack);
        case InFlight(_, channel) => return Joined(channel);
      }
      var channel := |channels|;
      TryReserveFree(Model(), CAPACITY, key, fingerprint);
      InsertIndexed(entries, order, key, InFlight(fingerprint, channel));
      channels := channels + [Watch(Pending, {})];
      entries := entries[key := InFlight(fingerprint, channel)];
      order := order + [key];
      EvictIfOverCapacity();
      outcome := Fresh(channel);
    }

    method CompleteWithDone(key: Key, fingerprint: Request, ack: Ack)
      requires Valid()
      modifies this
      ensures Valid()
      ensures Model() == M.CompleteWithDone(old(Model()), key, fingerprint, ack)
    {
      CompleteMeaning(Model(), key, fingerprint, ack);
      if key in entries && entries[key].InFlight? {
        var channel := entries[key].channel;
        entries := entries[key := Done(fingerprint, ack)];
        channels := Send(channels, channel, Finished);
      }
    }

    method ReleaseInFlight(key: Key) returns (released: bool)
      requires Valid()
      modifies this
      ensures Valid()
      ensures released <==> key in old(entries) && old(entries)[key].InFlight?
      ensures Model() == M.ReleaseInFlight(old(Model()), key)
    {
      ReleaseMeaning(Model(), key);
      if key !in entries || entries[key].Done? {
        return false;
      }
      var channel := entries[key].channel;
      entries := entries - {key};
      order := Without(order, key);
      channels := Send(channels, channel, Failed);
      released := true;
    }

    /** The scan over the order queue. In-flight keys are stepped over, completed ones are removed in place. */
    method EvictIfOverCapacity()
      requires Indexed(entries, order)
      modifies this`entries, this`order
      ensures Model() == Evict(old(Model()), CAPACITY)
      ensures Indexed(entries, order)
    {
      hide Indexed, Scanning, DropDone, Restrict, Excess;
      ghost var all, target := entries, DropDone(order, entries, Excess(entries, CAPACITY));
      ghost var kept, rest := [], order;
      ScanStarts(entries, order, CAPACITY);
      var scan := 0;
      while |entries| > CAPACITY && scan < |order|
        invariant scan == |kept| && order == kept + rest
        invariant Scanning(all, target, CAPACITY, entries, kept, rest)
        decreases |rest|
      {
        Parts(order, kept, rest);
        var candidate := order[scan];
        if candidate !in entries || entries[candidate].Done? {
          ScanRemoves(all, target, CAPACITY, entries, kept, rest);
          order := order[..scan] + order[scan + 1..];
          entries := entries - {candidate};
        } else {
          ScanSkips(all, target, CAPACITY, entries, kept, rest);
          scan := scan + 1;
          kept := kept + [candidate];
        }
        rest := rest[1..];
      }
      ScanEnds(all, target, CAPACITY, entries, kept, rest);
    }
  }

  /** Holds a reservation; dropping it while armed releases the slot. */
  class InFlightGuard {
    const ledger: AgentWorkLedger
    const key: Key
    var armed: bool

    constructor (ledger: AgentWorkLedger, key: Key)
      ensures this.ledger == ledger && this.key == key && armed
    {
      this.ledger, this.key, armed := ledger, key, true;
    }

    method Disarm()
      modifies this
      ensures !armed
    {
      armed := false;
    }

    /** `lockFree` says whether `try_lock` succeeds. Otherwise, in a runtime, a job that releases the key later is
        spawned, and its key is returned; without one the drop waits for the lock and then releases. */
    method Drop(lockFree: bool, inRuntime: bool) returns (deferred: Option<Key>)
      requires ledger.Valid()
      modifies ledger
      ensures ledger.Valid()
      ensures deferred == if armed && !lockFree && inRuntime then Some(key) else None
      ensures ledger.Model() == if armed && (lockFree || !inRuntime) then M.ReleaseInFlight(old(ledger.Model()), key)
                                else old(ledger.Model())
    {
      if !armed {
        return None;
      }
      if lockFree {
        var _ := ledger.ReleaseInFlight(key);
        return None;
      }
      if inRuntime {
        return Some(key);
      }
      var _ := ledger.ReleaseInFlight(key);
      return None;
    }
  }
}
