/** Which deliveries are refused as payload conflicts. */
module Conflicts {
  import opened Base
  import opened AgentWork
  import opened LedgerModel
  import opened Admission
  import opened AdmissionInvariant
  import opened AdmissionTruth
  import opened AtMostOnce
  import opened AdmissionRuns
  import opened Readmission

  // ----- Whose request a slot stands for -----

  /** Every slot is at the key of the request it was made for, whose payload its dispatch's row pins. */
  ghost predicate SlotsPinned(s: System) {
    forall k :: k in s.ledger.entries ==> SlotPinned(s.store, k, s.ledger.entries[k].fingerprint)
  }

  ghost predicate SlotPinned(store: Store, k: Key, r: Request) {
    k == LedgerKey(r) && r.dispatchId in store && store[r.dispatchId].fingerprint == r.payload
  }

  /** A slot whose request changes gets that of a caller at its key. */
  lemma SlotOrigin(s: System, capacity: nat, step: Step, k: Key) returns (c: nat)
    requires Owned(s) && Enabled(s, step)
    requires k in Apply(s, capacity, step).ledger.entries
    requires k in s.ledger.entries ==>
      Apply(s, capacity, step).ledger.entries[k].fingerprint != s.ledger.entries[k].fingerprint
    ensures c in s.callers && k == LedgerKey(s.callers[c].request)
    ensures Apply(s, capacity, step).ledger.entries[k].fingerprint == s.callers[c].request
  {
    if step.Reserve? || step.Rereserve? {
      c := step.c;
      AttemptEffect(s, capacity, step);
      hide Apply, Attempt;
    } else if step.Restart? {
      RestartEmpties(s, capacity);
    } else {
      OthersTouchOne(s, capacity, step);
      c := step.c;
      hide Apply;
    }
  }

  lemma {:induction false} RunKeepsSlotsPinned(states: seq<System>, steps: seq<Step>, capacity: nat, i: nat)
    requires IsRun(states, steps, capacity) && i < |states|
    ensures SlotsPinned(states[i])
  {
    hide Apply, Enabled, Owned;
    if i > 0 {
      var s, s', step := states[i - 1], states[i], steps[i - 1];
      RunKeepsSlotsPinned(states, steps, capacity, i - 1);
      InvOwned(states, steps, capacity, i - 1);
      StepGrowsStore(s, capacity, step);
      forall k | k in s'.ledger.entries ensures SlotPinned(s'.store, k, s'.ledger.entries[k].fingerprint) {
        if k in s.ledger.entries && s'.ledger.entries[k].fingerprint == s.ledger.entries[k].fingerprint {
          assert SlotPinned(s.store, k, s.ledger.entries[k].fingerprint);
        } else {
          var c := SlotOrigin(s, capacity, step, k);
          assert ClaimHolds(s.store, s.callers[c]);
        }
      }
    }
  }

  // ----- Conflicts -----

  /** `step` answers `r` with a payload conflict. */
  ghost predicate Conflicts(s: System, capacity: nat, step: Step, r: Request)
    requires Enabled(s, step)
  {
    Apply(s, capacity, step).answers == s.answers + [Answer(r, Refused(PayloadConflict))]
  }

  /** The dispatch of `r` was claimed with another payload. */
  predicate OtherPayload(s: System, r: Request) {
    r.dispatchId in s.store && s.store[r.dispatchId].fingerprint != r.payload
  }

  predicate SlotOfAnother(s: System, r: Request) {
    LedgerKey(r) in s.ledger.entries && s.ledger.entries[LedgerKey(r)].fingerprint != r
  }

  /** The slot at the key of `r` was made for the same dispatch and payload under another lease. */
  predicate OtherLease(s: System, r: Request) {
    && SlotOfAnother(s, r)
    && var other := s.ledger.entries[LedgerKey(r)].fingerprint;
       other.dispatchId == r.dispatchId && other.payload == r.payload
  }

  /** The slot at the key of `r` was made for another dispatch, whose key is the same. */
  predicate OtherDispatch(s: System, r: Request) {
    SlotOfAnother(s, r) && s.ledger.entries[LedgerKey(r)].fingerprint.dispatchId != r.dispatchId
  }

  /** The last answer of `t`, which has one more than `s`. */
  lemma OneMore(s: System, t: System, a: Answer, b: Answer)
    requires t.answers == s.answers + [a]
    ensures t.answers == s.answers + [b] <==> a == b
  {
    assert t.answers[|s.answers|] == a;
  }

  lemma ClaimConflicts(s: System, capacity: nat, c: Request, r: Request)
    ensures Conflicts(s, capacity, Claim(c), r) <==> c == r && OtherPayload(s, r)
  {
    var t := Apply(s, capacity, Claim(c));
    if t.answers != s.answers {
      OneMore(s, t, t.answers[|s.answers|], Answer(r, Refused(PayloadConflict)));
    }
  }

  lemma ReserveConflicts(s: System, capacity: nat, c: nat, r: Request)
    requires Enabled(s, Reserve(c))
    ensures Conflicts(s, capacity, Reserve(c), r) <==> s.callers[c].request == r && SlotOfAnother(s, r)
  {
    hide Evict;
    var t := Apply(s, capacity, Reserve(c));
    if t.answers != s.answers {
      OneMore(s, t, t.answers[|s.answers|], Answer(r, Refused(PayloadConflict)));
    }
  }

  lemma OthersDoNotConflict(s: System, capacity: nat, step: Step, r: Request)
    requires Enabled(s, step) && !step.Claim? && !step.Reserve?
    ensures !Conflicts(s, capacity, step, r)
  {
    hide Attempt, ReleaseInFlight, CompleteWithDone, RecordAcknowledgement, ClaimOrReuse, SetReceivers;
    var t := Apply(s, capacity, step);
    assert t.answers != s.answers ==> t.answers[|s.answers|].reply != Refused(PayloadConflict);
  }

  /** In every run, a delivery of `r` is refused as a payload conflict exactly if its dispatch was claimed with another
      payload, or, past the claim, the slot at its key was made under another lease of the same dispatch and payload
      or for another dispatch with the same key. */
  lemma ConflictsExactly(states: seq<System>, steps: seq<Step>, capacity: nat, i: nat, r: Request)
    requires IsRun(states, steps, capacity) && i < |steps|
    requires Enabled(states[i], steps[i])
    ensures var s, step := states[i], steps[i];
      Conflicts(s, capacity, step, r) <==>
        || (step == Claim(r) && OtherPayload(s, r))
        || (step.Reserve? && s.callers[step.c].request == r && (OtherLease(s, r) || OtherDispatch(s, r)))
  {
    hide Apply, Conflicts;
    var s, step := states[i], steps[i];
    if step.Claim? {
      ClaimConflicts(s, capacity, step.request, r);
    } else if step.Reserve? {
      ReserveConflicts(s, capacity, step.c, r);
      InvOwned(states, steps, capacity, i);
      RunKeepsSlotsPinned(states, steps, capacity, i);
      assert ClaimHolds(s.store, s.callers[step.c]);
      assert SlotOfAnother(s, r) ==> SlotPinned(s.store, LedgerKey(r), s.ledger.entries[LedgerKey(r)].fingerprint);
    } else {
      OthersDoNotConflict(s, capacity, step, r);
    }
  }

  lemma ReclaimAddsReader(s: System, capacity: nat, r: Request)
    requires r.dispatchId in s.store && s.store[r.dispatchId] == Row(r.payload, OpenabNative(r.dispatchId), None)
    ensures var t := Apply(s, capacity, Claim(r));
      && s.nextCaller in t.callers && t.callers[s.nextCaller] == Caller(r, OpenabNative(r.dispatchId), Ready)
      && t.ledger == s.ledger && t.store == s.store && t.answers == s.answers
  {
    assert s.store[r.dispatchId := s.store[r.dispatchId]] == s.store;
  }

  /** After any run, delivering a claimed and unanswered dispatch again with its payload, under any lease, is refused
      as a payload conflict exactly if the slot at its key is another request's; then no admission is made. */
  lemma RedeliveryConflictsExactly(states: seq<System>, steps: seq<Step>, capacity: nat, r: Request)
    returns (states': seq<System>, steps': seq<Step>)
    requires IsRun(states, steps, capacity) && r.dispatchId in states[|steps|].store
    requires var row := states[|steps|].store[r.dispatchId]; row.acknowledgement.None? && row.fingerprint == r.payload
    ensures IsRun(states', steps', capacity) && Extends(states, steps, states', steps')
    ensures steps' == steps + [Claim(r), Reserve(states[|steps|].nextCaller)]
    ensures var s, t := states[|steps|], states'[|steps'|];
      t.answers == s.answers + [Answer(r, Refused(PayloadConflict))] <==> OtherLease(s, r) || OtherDispatch(s, r)
  {
    var s := states[|steps|];
    InvOwned(states, steps, capacity, |steps|);
    RunKeepsSlotsPinned(states, steps, capacity, |steps|);
    ReclaimAddsReader(s, capacity, r);
    assert SlotOfAnother(s, r) ==> SlotPinned(s.store, LedgerKey(r), s.ledger.entries[LedgerKey(r)].fingerprint);
    hide Apply, Owned;
    states', steps' := Extend(states, steps, capacity, Claim(r));
    ReserveConflicts(states'[|steps'|], capacity, s.nextCaller, r);
    states', steps' := Extend(states', steps', capacity, Reserve(s.nextCaller));
    assert steps + [Claim(r)] + [Reserve(s.nextCaller)] == steps + [Claim(r), Reserve(s.nextCaller)];
  }

  /** At every capacity, a dispatch in flight that is delivered again under a re-claimed lease is refused so. */
  lemma ReclaimedLeaseConflicts(r: Request, again: Request, capacity: nat)
    returns (states: seq<System>, steps: seq<Step>)
    requires again.dispatchId == r.dispatchId && again.payload == r.payload && again != r
    ensures IsRun(states, steps, capacity)
    ensures states[|steps|].answers == [Answer(again, Refused(PayloadConflict))]
  {
    hide Apply;
    states, steps := AddHolder([START], [], capacity, r);
    states, steps := RedeliveryConflictsExactly(states, steps, capacity, again);
  }
}
