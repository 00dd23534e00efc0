/** What every reachable state of the admission protocol satisfies. */
module AdmissionInvariant {
  import opened Base
  import opened AgentWork
  import opened LedgerModel
  import opened Admission

  // ----- Claims: the durable row behind every caller -----

  /** A caller's row exists, pins its payload, and carries the execution id the caller will report. */
  ghost predicate Claims(s: System) {
    && (forall d :: d in s.store ==> s.store[d].executionId == OpenabNative(d))
    && (forall c :: c in s.callers ==> c < s.nextCaller && ClaimHolds(s.store, s.callers[c]))
  }

  ghost predicate ClaimHolds(store: Store, caller: Caller) {
    && caller.request.dispatchId in store
    && store[caller.request.dispatchId].fingerprint == caller.request.payload
    && caller.executionId == OpenabNative(caller.request.dispatchId)
  }

  /** Rows are never deleted or re-pinned, and a stored acknowledgement never changes. */
  ghost predicate StoreGrows(a: Store, b: Store) {
    forall d :: d in a ==> d in b && b[d].fingerprint == a[d].fingerprint && b[d].executionId == a[d].executionId
                           && (a[d].acknowledgement.Some? ==> b[d] == a[d])
  }

  /** Old callers keep their request and execution id; at most one caller is new, under the next number. */
  ghost predicate SameCallers(s: System, s': System) {
    && s.nextCaller <= s'.nextCaller
    && forall c :: c in s'.callers ==>
         c in s.callers && s'.callers[c].request == s.callers[c].request
         && s'.callers[c].executionId == s.callers[c].executionId
  }

  lemma StepGrowsStore(s: System, capacity: nat, step: Step)
    requires Enabled(s, step)
    ensures StoreGrows(s.store, Apply(s, capacity, step).store)
  {
  }

  /** The ways a caller that does not leave can move in one step. */
  predicate Goes(s: System, capacity: nat, step: Step, c: nat, after: Caller)
    requires c in s.callers
  {
    var Caller(r, id, stage) := s.callers[c];
    && after.request == r && after.executionId == id
    && (after.stage == stage
        || match step
           case Reserve(b) => b == c && stage.Ready?
               && ((after.stage.Joining? && Attempt(s, capacity, c).1 == Joined(after.stage.channel))
                   || (after.stage.Holding? && Attempt(s, capacity, c).1 == Fresh(after.stage.channel)))
           case Subscribe(b) => b == c && stage.Joining? && Listens(after.stage) && after.stage.channel == stage.channel
           case Wake(b) => b == c && stage.Awaiting? && after.stage == Retrying(stage.channel)
           case Admit(b, admissionId) => b == c && stage.Holding? && after.stage == Admitted(stage.channel, admissionId)
           case Record(b) => b == c && stage.Admitted? && after.stage == Recorded(stage.channel, AckOf(s.callers[c]))
           case _ => false)
  }

  lemma CallerGoes(s: System, capacity: nat, step: Step, c: nat)
    requires Enabled(s, step) && !step.Claim? && c in Apply(s, capacity, step).callers
    ensures !step.Restart? && c in s.callers && Goes(s, capacity, step, c, Apply(s, capacity, step).callers[c])
  {
    if step.Reserve? || step.Rereserve? || step.Expire? {
      WaiterGoes(s, capacity, step, c);
    } else if step.Reject? || step.RecordFails? || step.Abandon? || step.Promote? {
      LeaverGoes(s, capacity, step, c);
    } else {
      hide ReleaseInFlight, RecordAcknowledgement, ClaimOrReuse, SetReceivers;
    }
  }

  lemma WaiterGoes(s: System, capacity: nat, step: Step, c: nat)
    requires Enabled(s, step) && c in Apply(s, capacity, step).callers
    requires step.Reserve? || step.Rereserve? || step.Expire?
    ensures c in s.callers && Goes(s, capacity, step, c, Apply(s, capacity, step).callers[c])
  {
    hide Attempt, SetReceivers;
  }

  lemma LeaverGoes(s: System, capacity: nat, step: Step, c: nat)
    requires Enabled(s, step) && c in Apply(s, capacity, step).callers
    requires step.Reject? || step.RecordFails? || step.Abandon? || step.Promote?
    ensures c in s.callers && Apply(s, capacity, step).callers[c] == s.callers[c]
  {
    hide ReleaseInFlight, CompleteWithDone, SetReceivers;
  }

  lemma StepKeepsCallers(s: System, capacity: nat, step: Step)
    requires Enabled(s, step) && !step.Claim?
    ensures SameCallers(s, Apply(s, capacity, step))
  {
    hide Apply, Enabled;
    NumberStays(s, capacity, step);
    forall c | c in Apply(s, capacity, step).callers
      ensures c in s.callers && Goes(s, capacity, step, c, Apply(s, capacity, step).callers[c])
    {
      CallerGoes(s, capacity, step, c);
    }
  }

  lemma NumberStays(s: System, capacity: nat, step: Step)
    requires Enabled(s, step) && !step.Claim?
    ensures Apply(s, capacity, step).nextCaller == s.nextCaller
  {
    hide Attempt, ReleaseInFlight, CompleteWithDone, RecordAcknowledgement, ClaimOrReuse, SetReceivers;
  }

  lemma StepKeepsClaims(s: System, capacity: nat, step: Step)
    requires Claims(s) && Enabled(s, step)
    ensures Claims(Apply(s, capacity, step))
  {
    StepGrowsStore(s, capacity, step);
    var s' := Apply(s, capacity, step);
    if step.Claim? {
      ClaimKeepsClaims(s, step.request);
    } else {
      StepKeepsCallers(s, capacity, step);
      assert forall d :: d in s'.store ==> d in s.store || s'.store[d].executionId == OpenabNative(d);
    }
  }

  lemma ClaimKeepsClaims(s: System, r: Request)
    requires Claims(s)
    ensures Claims(DoClaim(s, r))
  {
  }

  /** The caller a step is about, if any. */
  predicate Concerns(step: Step, c: nat) {
    match step
    case Reserve(b) => b == c
    case Subscribe(b) => b == c
    case Wake(b) => b == c
    case Expire(b) => b == c
    case Rereserve(b) => b == c
    case Reject(b, _) => b == c
    case Admit(b, _) => b == c
    case RecordFails(b, _) => b == c
    case Record(b) => b == c
    case Promote(b) => b == c
    case Abandon(b, _) => b == c
    case _ => false
  }

  lemma OthersStand(s: System, capacity: nat, step: Step, c: nat)
    requires Enabled(s, step) && c in s.callers && c < s.nextCaller && !step.Restart? && !Concerns(step, c)
    ensures c in Apply(s, capacity, step).callers && Apply(s, capacity, step).callers[c] == s.callers[c]
  {
    hide Attempt, ReleaseInFlight, CompleteWithDone, RecordAcknowledgement, ClaimOrReuse, SetReceivers;
    if step.Reject? || step.RecordFails? || step.Abandon? || step.Promote? {
    } else {
    }
  }

  // ----- What a step does to the ledger -----

  /** The key whose reservation a step promotes or gives up. */
  predicate Touches(s: System, step: Step, key: Key) {
    match step
    case Promote(c) => c in s.callers && key == LedgerKey(s.callers[c].request)
    case Reject(c, _) => c in s.callers && key == LedgerKey(s.callers[c].request)
    case RecordFails(c, _) => c in s.callers && key == LedgerKey(s.callers[c].request)
    case Abandon(c, _) => c in s.callers && Owns(s.callers[c].stage) && key == LedgerKey(s.callers[c].request)
    case RunRelease(r) => key == r.key
    case _ => false
  }

  /** Apart from attempts and restarts, a step promotes or removes at most the reservation it touches. */
  lemma OthersTouchOne(s: System, capacity: nat, step: Step)
    requires Enabled(s, step) && !step.Reserve? && !step.Rereserve? && !step.Restart?
    ensures var e, e' := s.ledger.entries, Apply(s, capacity, step).ledger.entries;
      && (forall k :: k in e && (e[k].Done? || !Touches(s, step, k)) ==> k in e' && e'[k] == e[k])
      && (forall k :: k in e' ==> k in e && (e'[k] == e[k] || (step.Promote? && Touches(s, step, k) && e[k].InFlight?
                                      && e'[k] == Done(s.callers[step.c].request, s.callers[step.c].stage.ack))))
  {
    hide Attempt, ClaimOrReuse, RecordAcknowledgement, Send, Without;
    if step.Abandon? || step.Reject? || step.RecordFails? {
      GuardTouchesOne(s, capacity, step);
    } else {
    }
  }

  lemma GuardTouchesOne(s: System, capacity: nat, step: Step)
    requires Enabled(s, step) && (step.Reject? || step.RecordFails? || step.Abandon?)
    ensures var e, e' := s.ledger.entries, Apply(s, capacity, step).ledger.entries;
      && (forall k :: k in e && (e[k].Done? || !Touches(s, step, k)) ==> k in e' && e'[k] == e[k])
      && (forall k :: k in e' ==> k in e && e'[k] == e[k])
  {
    hide Send, Without;
  }

  lemma RestartEmpties(s: System, capacity: nat)
    ensures Apply(s, capacity, Restart).ledger.entries == map[]
  {
  }

  // ----- Ownership: who answers for an in-flight slot -----

  /** A reservation is answered for by the caller that made it, until its guard hands it to a deferred release. */
  datatype Keeper = ByCaller(c: nat) | ByRelease(release: Release)

  predicate Keeps(s: System, k: Keeper) {
    match k
    case ByCaller(c) => c in s.callers && Owns(s.callers[c].stage)
    case ByRelease(r) => r in s.deferred
  }

  function KeptKey(s: System, k: Keeper): Key
    requires Keeps(s, k)
  {
    if k.ByCaller? then LedgerKey(s.callers[k.c].request) else k.release.key
  }

  function KeptChannel(s: System, k: Keeper): nat
    requires Keeps(s, k)
  {
    if k.ByCaller? then s.callers[k.c].stage.channel else k.release.channel
  }

  ghost predicate Carries(l: Ledger, key: Key, channel: nat) {
    key in l.entries && l.entries[key].InFlight? && l.entries[key].channel == channel
  }

  /** Every keeper's slot is in the ledger, and no two keepers stand for one reservation. */
  ghost predicate Owned(s: System) {
    && WellFormed(s.ledger)
    && (forall k :: Keeps(s, k) ==> Carries(s.ledger, KeptKey(s, k), KeptChannel(s, k)))
    && (forall j, k :: Keeps(s, j) && Keeps(s, k) && KeptChannel(s, j) == KeptChannel(s, k) ==> j == k)
  }

  /** In-flight slots, other than `key`'s, are untouched. */
  ghost predicate OthersStay(l: Ledger, l': Ledger, key: Option<Key>) {
    forall k :: k in l.entries && l.entries[k].InFlight? && Some(k) != key ==>
      k in l'.entries && l'.entries[k] == l.entries[k]
  }

  /** Apart from `fresh`, every keeper in `s'` already kept the same slot in `s`. */
  ghost predicate NoNewKeepers(s: System, s': System, added: Option<Keeper>) {
    forall k :: Keeps(s', k) && Some(k) != added ==>
      Keeps(s, k) && KeptKey(s', k) == KeptKey(s, k) && KeptChannel(s', k) == KeptChannel(s, k)
  }

  lemma KeepersUnchanged(s: System, s': System)
    requires Owned(s) && WellFormed(s'.ledger)
    requires NoNewKeepers(s, s', None) && OthersStay(s.ledger, s'.ledger, None)
    ensures Owned(s')
  {
    forall k | Keeps(s', k) ensures Carries(s'.ledger, KeptKey(s', k), KeptChannel(s', k)) {
      assert Carries(s.ledger, KeptKey(s, k), KeptChannel(s, k));
    }
  }

  /** `k` gains the slot just installed on a new channel. */
  lemma KeeperGained(s: System, s': System, capacity: nat, k: Keeper, fingerprint: Request)
    requires Owned(s) && Keeps(s', k) && KeptChannel(s', k) == |s.ledger.channels|
    requires NoNewKeepers(s, s', Some(k))
    requires Installed(s.ledger, s'.ledger, capacity, KeptKey(s', k), fingerprint)
    ensures Owned(s')
  {
    forall j | Keeps(s', j) && j != k
      ensures Carries(s'.ledger, KeptKey(s', j), KeptChannel(s', j)) && KeptChannel(s', j) < |s.ledger.channels|
    {
      assert Carries(s.ledger, KeptKey(s, j), KeptChannel(s, j));
    }
  }

  /** `k` stops keeping its slot; no other reservation is touched. */
  lemma KeeperLost(s: System, s': System, k: Keeper)
    requires Owned(s) && WellFormed(s'.ledger) && Keeps(s, k) && !Keeps(s', k)
    requires NoNewKeepers(s, s', None) && OthersStay(s.ledger, s'.ledger, Some(KeptKey(s, k)))
    ensures Owned(s')
  {
    forall j | Keeps(s', j) ensures Carries(s'.ledger, KeptKey(s', j), KeptChannel(s', j)) {
      assert Carries(s.ledger, KeptKey(s, j), KeptChannel(s, j));
      assert KeptChannel(s, j) != KeptChannel(s, k);
    }
  }

  /** `k` hands its slot over to `j`. */
  lemma KeeperReplaced(s: System, s': System, k: Keeper, j: Keeper)
    requires Owned(s) && WellFormed(s'.ledger) && Keeps(s, k) && !Keeps(s', k)
    requires Keeps(s', j) && KeptKey(s', j) == KeptKey(s, k) && KeptChannel(s', j) == KeptChannel(s, k)
    requires NoNewKeepers(s, s', Some(j)) && OthersStay(s.ledger, s'.ledger, None)
    ensures Owned(s')
  {
    forall i | Keeps(s', i) ensures Carries(s'.ledger, KeptKey(s', i), KeptChannel(s', i)) {
      assert Carries(s.ledger, KeptKey(s, k), KeptChannel(s, k));
      assert Keeps(s, i) ==> Carries(s.ledger, KeptKey(s, i), KeptChannel(s, i));
    }
  }

  lemma StepKeepsOwned(s: System, capacity: nat, step: Step)
    requires Owned(s) && Enabled(s, step)
    ensures Owned(Apply(s, capacity, step))
  {
    match step
    case Reserve(c) => ReserveKeepsOwned(s, capacity, c);
    case Rereserve(c) => RereserveKeepsOwned(s, capacity, c);
    case Reject(c, lockFree) => GuardKeepsOwned(s, Apply(s, capacity, step), c, lockFree);
    case RecordFails(c, lockFree) => GuardKeepsOwned(s, Apply(s, capacity, step), c, lockFree);
    case Promote(c) => PromoteKeepsOwned(s, c);
    case Abandon(c, lockFree) => AbandonKeepsOwned(s, capacity, c, lockFree);
    case RunRelease(r) => ReleaseKeepsOwned(s, capacity, r);
    case Expire(c) => WaiterLeaves(s, Apply(s, capacity, step), c);
    case Restart =>
    case Subscribe(c) => SubscribeKeepsOwned(s, c);
    case _ => QuietKeepsOwned(s, capacity, step);
  }

  lemma SubscribeKeepsOwned(s: System, c: nat)
    requires Owned(s) && Enabled(s, Subscribe(c))
    ensures Owned(DoSubscribe(s, c))
  {
    KeepersUnchanged(s, DoSubscribe(s, c));
  }

  /** Steps that leave the ledger alone: claiming, waking, and an owner moving forward. */
  lemma QuietKeepsOwned(s: System, capacity: nat, step: Step)
    requires Owned(s) && Enabled(s, step)
    requires step.Claim? || step.ClaimFails? || step.Wake? || step.Admit? || step.Record?
    ensures Owned(Apply(s, capacity, step))
  {
    var s' := Apply(s, capacity, step);
    assert s'.ledger == s.ledger && s'.deferred == s.deferred;
    assert forall c :: c in s'.callers && Owns(s'.callers[c].stage) ==>
        c in s.callers && Owns(s.callers[c].stage) && s'.callers[c].request == s.callers[c].request
        && s'.callers[c].stage.channel == s.callers[c].stage.channel;
    KeepersUnchanged(s, s');
  }

  lemma PromoteKeepsOwned(s: System, c: nat)
    requires Owned(s) && Enabled(s, Promote(c))
    ensures Owned(DoPromote(s, c))
  {
    var Caller(r, _, stage) := s.callers[c];
    CompleteMeaning(s.ledger, LedgerKey(r), r, stage.ack);
    KeeperLost(s, DoPromote(s, c), ByCaller(c));
  }

  lemma ReleaseKeepsOwned(s: System, capacity: nat, r: Release)
    requires Owned(s) && r in s.deferred
    ensures Owned(Apply(s, capacity, RunRelease(r)))
  {
    ReleaseMeaning(s.ledger, r.key);
    KeeperLost(s, Apply(s, capacity, RunRelease(r)), ByRelease(r));
  }

  lemma ReserveKeepsOwned(s: System, capacity: nat, c: nat)
    requires Owned(s) && Enabled(s, Reserve(c))
    ensures Owned(DoReserve(s, capacity, c))
  {
    hide TryReserve, Owned, Installed;
    var s', r := DoReserve(s, capacity, c), s.callers[c].request;
    if LedgerKey(r) in s.ledger.entries {
      TryReserveTaken(s.ledger, capacity, LedgerKey(r), r);
      OwnedIsWellFormed(s);
      KeepersUnchanged(s, s');
    } else {
      OwnedIsWellFormed(s);
      TryReserveFree(s.ledger, capacity, LedgerKey(r), r);
      KeeperGained(s, s', capacity, ByCaller(c), r);
    }
  }

  lemma OwnedIsWellFormed(s: System)
    requires Owned(s)
    ensures WellFormed(s.ledger)
  {
  }

  lemma RereserveKeepsOwned(s: System, capacity: nat, c: nat)
    requires Owned(s) && Enabled(s, Rereserve(c))
    ensures Owned(DoRereserve(s, capacity, c))
  {
    var r := s.callers[c].request;
    var l := TryReserve(s.ledger, capacity, LedgerKey(r), r).0;
    if LedgerKey(r) in s.ledger.entries {
      TryReserveTaken(s.ledger, capacity, LedgerKey(r), r);
    } else {
      TryReserveFree(s.ledger, capacity, LedgerKey(r), r);
    }
    KeepersUnchanged(s, WithLedger(s, l));
    WaiterLeaves(WithLedger(s, l), DoRereserve(s, capacity, c), c);
  }

  lemma WaiterLeaves(s: System, s': System, c: nat)
    requires Owned(s) && c in s.callers && !Owns(s.callers[c].stage)
    requires s'.callers == s.callers - {c} && s'.deferred == s.deferred && s'.ledger == Unsubscribe(s, c).ledger
    ensures Owned(s')
  {
    KeepersUnchanged(s, s');
  }

  /** `s'` is `s` without owner `c`, whose guard was dropped. */
  lemma GuardKeepsOwned(s: System, s': System, c: nat, lockFree: bool)
    requires Owned(s) && Keeps(s, ByCaller(c))
    requires s'.callers == s.callers - {c}
    requires s'.ledger == DropGuard(s, c, lockFree).ledger && s'.deferred == DropGuard(s, c, lockFree).deferred
    ensures Owned(s')
  {
    var key := KeptKey(s, ByCaller(c));
    if lockFree {
      ReleaseMeaning(s.ledger, key);
      KeeperLost(s, s', ByCaller(c));
    } else {
      KeeperReplaced(s, s', ByCaller(c), ByRelease(Release(key, s.callers[c].stage.channel)));
    }
  }

  lemma AbandonKeepsOwned(s: System, capacity: nat, c: nat, lockFree: bool)
    requires Owned(s) && c in s.callers
    ensures Owned(Apply(s, capacity, Abandon(c, lockFree)))
  {
    var s' := Apply(s, capacity, Abandon(c, lockFree));
    if Owns(s.callers[c].stage) {
      GuardKeepsOwned(s, s', c, lockFree);
    } else {
      WaiterLeaves(s, s', c);
    }
  }
}
