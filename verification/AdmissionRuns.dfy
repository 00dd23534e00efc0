/** Further run-wide guarantees of `agent.work`: who owns a slot, what a success response carries, how large the
    ledger gets, and which waiters are woken. */
module AdmissionRuns {
  import opened Base
  import opened AgentWork
  import opened LedgerModel
  import opened Admission
  import opened AdmissionInvariant
  import opened AdmissionTruth
  import opened AtMostOnce

  // ----- Ownership of slots -----

  ghost predicate Kept(s: System, channel: nat) {
    exists k :: Keeps(s, k) && KeptChannel(s, k) == channel
  }

  /** An in-flight slot that no caller and no deferred release answers for. */
  ghost predicate Orphan(s: System, key: Key, channel: nat) { Carries(s.ledger, key, channel) && !Kept(s, channel) }

  /** Step `step` is a waiter's second reservation attempt, and it creates the slot. */
  predicate LeakedBy(s: System, step: Step, key: Key, channel: nat) {
    && step.Rereserve? && step.c in s.callers
    && key == LedgerKey(s.callers[step.c].request) && key !in s.ledger.entries && channel == |s.ledger.channels|
  }

  lemma ReleaseKeeps(s: System, capacity: nat, step: Step, k: Keeper)
    requires Enabled(s, step) && Keeps(s, k) && k.ByRelease? && !step.Restart? && step != RunRelease(k.release)
    ensures Keeps(Apply(s, capacity, step), k)
  {
    hide TryReserve, ReleaseInFlight, CompleteWithDone, RecordAcknowledgement, ClaimOrReuse;
  }

  lemma ReleaseEnds(s: System, capacity: nat, step: Step, key: Key, channel: nat)
    requires Enabled(s, step) && (step.Restart? || (step.RunRelease? && step.release.key == key))
    ensures !Carries(Apply(s, capacity, step).ledger, key, channel)
  {
  }

  lemma OtherGuardKeeps(s: System, capacity: nat, step: Step, k: Keeper)
    requires Enabled(s, step) && Keeps(s, k) && k.ByCaller?
    requires (step.Reject? || step.RecordFails? || step.Abandon?) && step.c != k.c
    ensures var s' := Apply(s, capacity, step); Keeps(s', k) && KeptChannel(s', k) == KeptChannel(s, k)
  {
    hide ReleaseInFlight;
  }

  lemma OwnGuardKeeps(s: System, capacity: nat, step: Step, c: nat)
    requires Enabled(s, step) && Keeps(s, ByCaller(c))
    requires (step.Reject? || step.RecordFails? || step.Abandon?) && step.c == c
    ensures var s', key := Apply(s, capacity, step), LedgerKey(s.callers[c].request);
      Carries(s'.ledger, key, s.callers[c].stage.channel) ==> Kept(s', s.callers[c].stage.channel)
  {
    hide ReleaseInFlight;
    GuardHandsOver(s, Apply(s, capacity, step), c, step.lockFree, s.callers[c].stage.channel);
  }

  /** As long as a kept slot is in flight, somebody keeps it. */
  lemma KeeperFollowsSlot(s: System, capacity: nat, step: Step, k: Keeper)
    requires Claims(s) && Owned(s) && Enabled(s, step) && Keeps(s, k)
    ensures var s' := Apply(s, capacity, step);
      Carries(s'.ledger, KeptKey(s, k), KeptChannel(s, k)) ==> Kept(s', KeptChannel(s, k))
  {
    hide Apply, Claims, Owned, Carries;
    if k.ByRelease? {
      if step.Restart? || step == RunRelease(k.release) {
        ReleaseEnds(s, capacity, step, KeptKey(s, k), KeptChannel(s, k));
      } else {
        ReleaseKeeps(s, capacity, step, k);
      }
    } else if step.Reject? || step.RecordFails? || step.Abandon? {
      if step.c == k.c {
        OwnGuardKeeps(s, capacity, step, k.c);
      } else {
        OtherGuardKeeps(s, capacity, step, k);
      }
    } else {
      CallerKeeps(s, capacity, step, k);
    }
  }

  lemma GuardHandsOver(s: System, s': System, c: nat, lockFree: bool, channel: nat)
    requires c in s.callers && Owns(s.callers[c].stage) && s.callers[c].stage.channel == channel
    requires s'.ledger == DropGuard(s, c, lockFree).ledger && s'.deferred == DropGuard(s, c, lockFree).deferred
    ensures Carries(s'.ledger, LedgerKey(s.callers[c].request), channel) ==> Kept(s', channel)
  {
    var key := LedgerKey(s.callers[c].request);
    if !lockFree {
      assert Keeps(s', ByRelease(Release(key, channel)));
    }
  }

  lemma CallerKeeps(s: System, capacity: nat, step: Step, k: Keeper)
    requires Enabled(s, step) && Keeps(s, k) && k.ByCaller?
    requires !step.Reject? && !step.RecordFails? && !step.Abandon?
    requires Claims(s) && Owned(s)
    ensures var s' := Apply(s, capacity, step);
      Carries(s'.ledger, KeptKey(s, k), KeptChannel(s, k)) ==> Kept(s', KeptChannel(s, k))
  {
    hide TryReserve, RecordAcknowledgement, ClaimOrReuse, ReleaseInFlight, Send;
    var s' := Apply(s, capacity, step);
    if step.Promote? && step.c == k.c {
    } else if !step.Restart? {
      assert Keeps(s', k) && KeptChannel(s', k) == KeptChannel(s, k);
    }
  }

  /** The ledger after the reservation attempt that `step` makes: unchanged, or one slot installed. */
  ghost predicate Attempted(s: System, capacity: nat, step: Step) {
    && (step.Reserve? || step.Rereserve?) && step.c in s.callers
    && var r, (l, out) := s.callers[step.c].request, Attempt(s, capacity, step.c);
       if LedgerKey(r) in s.ledger.entries then l == s.ledger && !out.Fresh?
       else Installed(s.ledger, l, capacity, LedgerKey(r), r) && out == Fresh(|s.ledger.channels|)
  }

  lemma AttemptEffect(s: System, capacity: nat, step: Step)
    requires Owned(s) && Enabled(s, step) && (step.Reserve? || step.Rereserve?)
    ensures Attempted(s, capacity, step)
    ensures Apply(s, capacity, step).ledger.entries == Attempt(s, capacity, step.c).0.entries
  {
    hide TryReserve, Owned, Installed;
    var r := s.callers[step.c].request;
    OwnedIsWellFormed(s);
    if LedgerKey(r) in s.ledger.entries {
      TryReserveTaken(s.ledger, capacity, LedgerKey(r), r);
    } else {
      TryReserveFree(s.ledger, capacity, LedgerKey(r), r);
    }
  }

  /** A slot that is newly in flight was installed by a reservation attempt; a first attempt keeps it. */
  lemma NewSlot(s: System, capacity: nat, step: Step, key: Key, channel: nat)
    requires Owned(s) && Enabled(s, step)
    requires (step.Reserve? || step.Rereserve?) ==> Attempted(s, capacity, step)
    requires !Carries(s.ledger, key, channel) && Carries(Apply(s, capacity, step).ledger, key, channel)
    ensures LeakedBy(s, step, key, channel) || (step.Reserve? && Kept(Apply(s, capacity, step), channel))
  {
    hide Attempt;
    var s' := Apply(s, capacity, step);
    if step.Reserve? {
      assert Keeps(s', ByCaller(step.c)) && KeptChannel(s', ByCaller(step.c)) == channel;
    } else if step.Rereserve? || step.Restart? {
    } else {
      OthersTouchOne(s, capacity, step);
      hide Apply;
    }
  }

  /** An orphan was an orphan before, or a waiter's second attempt has just created it. */
  lemma OrphanOrigin(s: System, capacity: nat, step: Step, key: Key, channel: nat)
    requires Claims(s) && Owned(s) && Enabled(s, step)
    requires Orphan(Apply(s, capacity, step), key, channel)
    ensures !step.Restart?
    ensures Orphan(s, key, channel) || LeakedBy(s, step, key, channel)
  {
    if Carries(s.ledger, key, channel) {
      if Kept(s, channel) {
        var k :| Keeps(s, k) && KeptChannel(s, k) == channel;
        assert Carries(s.ledger, KeptKey(s, k), channel);
        KeeperFollowsSlot(s, capacity, step, k);
      }
    } else {
      if step.Reserve? || step.Rereserve? {
        AttemptEffect(s, capacity, step);
      }
      NewSlot(s, capacity, step, key, channel);
    }
  }

  // ----- Orphans stay -----

  lemma NewKeeperHasNewChannel(s: System, capacity: nat, step: Step, channel: nat)
    requires Owned(s) && Enabled(s, step) && channel < |s.ledger.channels| && !Kept(s, channel)
    ensures !Kept(Apply(s, capacity, step), channel)
  {
    if step.Reserve? || step.Rereserve? {
      AttemptEffect(s, capacity, step);
      AttemptAddsNoKeeper(s, capacity, step, channel);
    } else {
      OtherAddsNoKeeper(s, capacity, step, channel);
    }
  }

  lemma AttemptAddsNoKeeper(s: System, capacity: nat, step: Step, channel: nat)
    requires Enabled(s, step) && Attempted(s, capacity, step) && channel < |s.ledger.channels| && !Kept(s, channel)
    ensures !Kept(Apply(s, capacity, step), channel)
  {
    hide TryReserve;
    var s' := Apply(s, capacity, step);
    forall k | Keeps(s', k) ensures KeptChannel(s', k) != channel {
      assert (Keeps(s, k) && KeptChannel(s, k) == KeptChannel(s', k)) || KeptChannel(s', k) == |s.ledger.channels|;
    }
  }

  lemma OtherAddsNoKeeper(s: System, capacity: nat, step: Step, channel: nat)
    requires Enabled(s, step) && !step.Reserve? && !step.Rereserve? && !Kept(s, channel)
    ensures !Kept(Apply(s, capacity, step), channel)
  {
    hide TryReserve, ReleaseInFlight, CompleteWithDone, RecordAcknowledgement, ClaimOrReuse;
    var s' := Apply(s, capacity, step);
    forall k | Keeps(s', k) ensures KeptChannel(s', k) != channel {
      if k.ByCaller? {
        assert Keeps(s, k) && KeptChannel(s, k) == KeptChannel(s', k);
      } else if !Keeps(s, k) {
        assert Keeps(s, ByCaller(step.c)) && KeptChannel(s, ByCaller(step.c)) == k.release.channel;
      }
    }
  }

  /** Only its keeper ends a reservation, short of a restart. */
  lemma SlotStays(s: System, capacity: nat, step: Step, key: Key, channel: nat)
    requires Owned(s) && Enabled(s, step) && !step.Restart? && Orphan(s, key, channel)
    ensures Carries(Apply(s, capacity, step).ledger, key, channel)
  {
    if step.Reserve? || step.Rereserve? {
      AttemptEffect(s, capacity, step);
      hide Apply, TryReserve;
    } else {
      forall k | Keeps(s, k) ensures KeptKey(s, k) != key {
        assert Carries(s.ledger, KeptKey(s, k), KeptChannel(s, k));
      }
      UnkeptSlotStays(s, capacity, step, key, channel);
    }
  }

  lemma UnkeptSlotStays(s: System, capacity: nat, step: Step, key: Key, channel: nat)
    requires Carries(s.ledger, key, channel) && Enabled(s, step)
    requires !step.Reserve? && !step.Rereserve? && !step.Restart?
    requires forall k :: Keeps(s, k) ==> KeptKey(s, k) != key
    ensures Carries(Apply(s, capacity, step).ledger, key, channel)
  {
    OthersTouchOne(s, capacity, step);
    hide Apply;
    assert step.RunRelease? ==> Keeps(s, ByRelease(step.release));
    assert step.Reject? || step.RecordFails? || step.Promote? || (step.Abandon? && Owns(s.callers[step.c].stage)) ==>
      Keeps(s, ByCaller(step.c)) && KeptKey(s, ByCaller(step.c)) == LedgerKey(s.callers[step.c].request);
  }

  lemma OrphanStays(s: System, capacity: nat, step: Step, key: Key, channel: nat)
    requires Claims(s) && Owned(s) && Enabled(s, step) && !step.Restart?
    requires Orphan(s, key, channel)
    ensures Orphan(Apply(s, capacity, step), key, channel)
  {
    SlotStays(s, capacity, step, key, channel);
    NewKeeperHasNewChannel(s, capacity, step, channel);
  }

  lemma InvOwned(states: seq<System>, steps: seq<Step>, capacity: nat, i: nat)
    requires IsRun(states, steps, capacity) && i < |states|
    ensures Claims(states[i]) && Owned(states[i])
  {
    RunKeepsInv(states, steps, capacity, i);
  }

  /** Run-wide: an in-flight slot without a keeper was leaked by a waiter's second attempt at an earlier step, and
      there has been no restart since. Every other in-flight slot has exactly one keeper. */
  lemma {:induction false} Ownership(states: seq<System>, steps: seq<Step>, capacity: nat, i: nat, key: Key,
                                     channel: nat)
    returns (leak: nat)
    requires IsRun(states, steps, capacity) && i < |states|
    requires Carries(states[i].ledger, key, channel)
    ensures var s := states[i];
      forall j, k :: Keeps(s, j) && Keeps(s, k) && KeptKey(s, j) == KeptKey(s, k) ==> j == k
    ensures Kept(states[i], channel)
         || (leak < i && LeakedBy(states[leak], steps[leak], key, channel)
             && forall t :: leak < t < i ==> !steps[t].Restart?)
  {
    hide Apply, Enabled, Claims, Owned, Keeps, LeakedBy;
    InvOwned(states, steps, capacity, i);
    OneKeeperPerKey(states[i]);
    leak := 0;
    if !Kept(states[i], channel) {
      assert i > 0;
      InvOwned(states, steps, capacity, i - 1);
      OrphanOrigin(states[i - 1], capacity, steps[i - 1], key, channel);
      if LeakedBy(states[i - 1], steps[i - 1], key, channel) {
        leak := i - 1;
      } else {
        leak := Ownership(states, steps, capacity, i - 1, key, channel);
      }
    }
  }

  /** A slot leaked is an orphan at once. */
  lemma LeakedIsOrphan(s: System, capacity: nat, step: Step, key: Key, channel: nat)
    requires Claims(s) && Owned(s) && Enabled(s, step) && LeakedBy(s, step, key, channel)
    ensures Orphan(Apply(s, capacity, step), key, channel)
  {
    AttemptEffect(s, capacity, step);
    hide TryReserve;
    var s' := Apply(s, capacity, step);
    forall k | Keeps(s', k) ensures KeptChannel(s', k) != channel {
      assert Keeps(s, k) && KeptChannel(s, k) == KeptChannel(s', k);
      assert Carries(s.ledger, KeptKey(s, k), KeptChannel(s, k));
    }
  }

  /** The slot was leaked at step `leak`, and there has been no restart from there to state `i`. */
  ghost predicate LeakedSince(states: seq<System>, steps: seq<Step>, i: nat, key: Key, channel: nat, leak: nat)
    requires |states| == |steps| + 1 && i < |states|
  {
    leak < i && LeakedBy(states[leak], steps[leak], key, channel) && forall t :: leak < t < i ==> !steps[t].Restart?
  }

  lemma {:induction false} LeakedStaysOrphan(states: seq<System>, steps: seq<Step>, capacity: nat, i: nat, key: Key,
                                             channel: nat, leak: nat)
    requires IsRun(states, steps, capacity) && i < |states| && LeakedSince(states, steps, i, key, channel, leak)
    ensures Orphan(states[i], key, channel)
  {
    hide Apply, Enabled, Claims, Owned, Keeps, LeakedBy, Orphan;
    InvOwned(states, steps, capacity, i - 1);
    if leak == i - 1 {
      LeakedIsOrphan(states[leak], capacity, steps[leak], key, channel);
    } else {
      LeakedStaysOrphan(states, steps, capacity, i - 1, key, channel, leak);
      OrphanStays(states[i - 1], capacity, steps[i - 1], key, channel);
    }
  }

  /** In every reachable state, the in-flight slots without a keeper are exactly those leaked by a waiter's second
      attempt since the last restart. */
  lemma OrphansAreLeaks(states: seq<System>, steps: seq<Step>, capacity: nat, i: nat, key: Key, channel: nat)
    requires IsRun(states, steps, capacity) && i < |states|
    ensures Orphan(states[i], key, channel) <==> exists leak :: LeakedSince(states, steps, i, key, channel, leak)
  {
    if Orphan(states[i], key, channel) {
      var leak := Ownership(states, steps, capacity, i, key, channel);
      assert LeakedSince(states, steps, i, key, channel, leak);
    }
    if leak :| LeakedSince(states, steps, i, key, channel, leak) {
      LeakedStaysOrphan(states, steps, capacity, i, key, channel, leak);
    }
  }

  /** A promotion finds the holder's own slot and caches the acknowledgement that was stored. */
  lemma PromotionTakesEffect(states: seq<System>, steps: seq<Step>, capacity: nat, i: nat, c: nat)
    requires IsRun(states, steps, capacity) && i < |states| && Enabled(states[i], Promote(c))
    ensures var caller, s' := states[i].callers[c], DoPromote(states[i], c);
      && LedgerKey(caller.request) in s'.ledger.entries
      && s'.ledger.entries[LedgerKey(caller.request)] == Done(caller.request, caller.stage.ack)
      && Genuine(s'.admissions, caller.request.dispatchId, caller.request.payload, caller.stage.ack)
  {
    RunKeepsInv(states, steps, capacity, i);
    var s := states[i];
    assert Keeps(s, ByCaller(c)) && Carries(s.ledger, KeptKey(s, ByCaller(c)), KeptChannel(s, ByCaller(c)));
    assert CallerTrue(s, s.callers[c]);
  }

  // ----- Truthful replay -----

  /** Every WORK_ACCEPTED, on whichever path it was sent, carries an acknowledgement built from an accepted
      admission of that dispatch id with that payload, under the execution id of the dispatch. */
  lemma TruthfulReplay(states: seq<System>, steps: seq<Step>, capacity: nat, i: nat, a: Answer)
    requires IsRun(states, steps, capacity) && i < |states|
    requires a in states[i].answers && a.reply.Accepted?
    ensures Genuine(states[i].admissions, a.request.dispatchId, a.request.payload, a.reply.ack)
    ensures var ack, payload := a.reply.ack, a.request.payload;
      && ack.dispatchId == a.request.dispatchId && ack.executionId == OpenabNative(a.request.dispatchId)
      && ack.workflowRunId == payload.workflowRunId && ack.role == payload.role
      && ack.conversationKey == payload.conversationKey
      && exists accept :: accept in states[i].admissions && accept.request.dispatchId == a.request.dispatchId
                          && accept.request.payload == payload && accept.admissionId == ack.admissionId
  {
    RunKeepsInv(states, steps, capacity, i);
  }

  /** If only one admission of a dispatch was accepted, all its WORK_ACCEPTED responses are identical. */
  lemma OneAdmissionOneAck(states: seq<System>, steps: seq<Step>, capacity: nat, i: nat, a: Answer, b: Answer,
                           only: Accept)
    requires IsRun(states, steps, capacity) && i < |states|
    requires a in states[i].answers && b in states[i].answers && a.reply.Accepted? && b.reply.Accepted?
    requires a.request.dispatchId == b.request.dispatchId
    requires forall x :: x in states[i].admissions && x.request.dispatchId == a.request.dispatchId ==> x == only
    ensures a.reply == b.reply
  {
    TruthfulReplay(states, steps, capacity, i, a);
    TruthfulReplay(states, steps, capacity, i, b);
  }

  // ----- Size of the ledger -----

  function InFlightKeys(l: Ledger): set<Key> {
    set k | k in l.entries && l.entries[k].InFlight?
  }

  lemma SizeStep(s: System, capacity: nat, step: Step)
    requires Owned(s) && Enabled(s, step)
    ensures var l' := Apply(s, capacity, step).ledger;
      |l'.entries| <= |s.ledger.entries| || |l'.entries| <= Max(capacity, |InFlightKeys(l')|)
  {
    hide Apply, Enabled, Attempt, Owned;
    var l' := Apply(s, capacity, step).ledger;
    if step.Reserve? || step.Rereserve? {
      AttemptEffect(s, capacity, step);
      if |l'.entries| > capacity && LedgerKey(s.callers[step.c].request) !in s.ledger.entries {
        assert InFlightKeys(l') == l'.entries.Keys;
      }
    } else {
      if !step.Restart? {
        OthersTouchOne(s, capacity, step);
      } else {
        RestartEmpties(s, capacity);
      }
      SubsetSize(l'.entries.Keys, s.ledger.entries.Keys);
    }
  }

  lemma {:induction false} SubsetSize<T>(a: set<T>, b: set<T>)
    requires a <= b
    ensures |a| <= |b|
  {
    assert b == a + (b - a);
  }

  /** The ledger never outgrows the larger of its capacity and the most reservations held at once so far. */
  lemma {:induction false} SizeBound(states: seq<System>, steps: seq<Step>, capacity: nat, i: nat) returns (peak: nat)
    requires IsRun(states, steps, capacity) && i < |states|
    ensures peak <= i
    ensures |states[i].ledger.entries| <= Max(capacity, |InFlightKeys(states[peak].ledger)|)
  {
    hide Apply, Enabled, Inv;
    peak := i;
    if i > 0 {
      InvOwned(states, steps, capacity, i - 1);
      SizeStep(states[i - 1], capacity, steps[i - 1]);
      if |states[i].ledger.entries| > Max(capacity, |InFlightKeys(states[i].ledger)|) {
        peak := SizeBound(states, steps, capacity, i - 1);
      }
    }
  }
}
