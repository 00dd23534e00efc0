/** Every acknowledgement anywhere in the system was built after an accepted admission of that dispatch. */
module AdmissionTruth {
  import opened Base
  import opened AgentWork
  import opened LedgerModel
  import opened Admission
  import opened AdmissionInvariant

  ghost predicate BuiltFrom(a: Accept, d: DispatchId, payload: Payload, ack: Ack) {
    && a.request.dispatchId == d && a.request.payload == payload
    && ack == BuildAck(a.request, a.admissionId, OpenabNative(d))
  }

  ghost predicate Genuine(admissions: seq<Accept>, d: DispatchId, payload: Payload, ack: Ack) {
    exists a :: a in admissions && BuiltFrom(a, d, payload, ack)
  }

  /** A genuine acknowledgement whose dispatch also has one in the durable store. */
  ghost predicate Backed(s: System, r: Request, ack: Ack) {
    && r.dispatchId in s.store && s.store[r.dispatchId].acknowledgement.Some?
    && Genuine(s.admissions, r.dispatchId, r.payload, ack)
  }

  ghost predicate StoreTrue(s: System) {
    forall d :: d in s.store && s.store[d].acknowledgement.Some? ==>
      Genuine(s.admissions, d, s.store[d].fingerprint, s.store[d].acknowledgement.value)
  }

  ghost predicate LedgerTrue(s: System) {
    forall k :: k in s.ledger.entries ==> SlotTrue(s, k, s.ledger.entries[k])
  }

  ghost predicate SlotTrue(s: System, k: Key, slot: Slot) {
    && k == LedgerKey(slot.fingerprint)
    && (slot.Done? ==> Backed(s, slot.fingerprint, slot.ack))
  }

  ghost predicate CallerTrue(s: System, caller: Caller) {
    && (caller.stage.Admitted? ==> Accept(caller.request, caller.stage.admissionId) in s.admissions)
    && (caller.stage.Recorded? ==> Backed(s, caller.request, caller.stage.ack))
  }

  ghost predicate CallersTrue(s: System) {
    forall c :: c in s.callers ==> CallerTrue(s, s.callers[c])
  }

  ghost predicate AnswersTrue(s: System) {
    forall a :: a in s.answers && a.reply.Accepted? ==>
      Genuine(s.admissions, a.request.dispatchId, a.request.payload, a.reply.ack)
  }

  ghost predicate Truthful(s: System) {
    StoreTrue(s) && LedgerTrue(s) && CallersTrue(s) && AnswersTrue(s)
  }

  /** What only grows: the admissions made and the acknowledgements stored. */
  ghost predicate Later(s: System, s': System) {
    && StoreGrows(s.store, s'.store)
    && forall a :: a in s.admissions ==> a in s'.admissions
  }

  lemma GenuineLater(s: System, s': System, d: DispatchId, p: Payload, ack: Ack)
    requires Later(s, s') && Genuine(s.admissions, d, p, ack)
    ensures Genuine(s'.admissions, d, p, ack)
  {
    var a :| a in s.admissions && BuiltFrom(a, d, p, ack);
    assert a in s'.admissions;
  }

  lemma StepIsLater(s: System, capacity: nat, step: Step)
    requires Enabled(s, step)
    ensures Later(s, Apply(s, capacity, step))
  {
    StepGrowsStore(s, capacity, step);
  }

  /** Whatever is in `s'` was already true in `s`, or is true now. */
  lemma TruthPersists(s: System, s': System)
    requires Truthful(s) && Later(s, s')
    requires forall d :: d in s'.store && s'.store[d].acknowledgement.Some? ==>
      (d in s.store && s.store[d] == s'.store[d])
      || Genuine(s'.admissions, d, s'.store[d].fingerprint, s'.store[d].acknowledgement.value)
    requires forall k :: k in s'.ledger.entries ==>
      (k in s.ledger.entries && s.ledger.entries[k] == s'.ledger.entries[k]) || SlotTrue(s', k, s'.ledger.entries[k])
    requires forall c :: c in s'.callers ==>
      (c in s.callers && s.callers[c] == s'.callers[c]) || CallerTrue(s', s'.callers[c])
    requires forall a :: a in s'.answers && a.reply.Accepted? ==>
      a in s.answers || Genuine(s'.admissions, a.request.dispatchId, a.request.payload, a.reply.ack)
    ensures Truthful(s')
  {
    forall d, p, ack | Genuine(s.admissions, d, p, ack) ensures Genuine(s'.admissions, d, p, ack) {
      GenuineLater(s, s', d, p, ack);
    }
  }

  /** Nothing new except, perhaps, one genuine answer. */
  lemma TruthShrinks(s: System, s': System)
    requires Truthful(s) && s'.store == s.store && s'.admissions == s.admissions
    requires forall k :: k in s'.ledger.entries ==> k in s.ledger.entries && s.ledger.entries[k] == s'.ledger.entries[k]
    requires forall c :: c in s'.callers && (s'.callers[c].stage.Admitted? || s'.callers[c].stage.Recorded?) ==>
      c in s.callers && s.callers[c] == s'.callers[c]
    requires forall a :: a in s'.answers && a.reply.Accepted? ==>
      a in s.answers || Genuine(s.admissions, a.request.dispatchId, a.request.payload, a.reply.ack)
    ensures Truthful(s')
  {
  }

  lemma StepKeepsTruth(s: System, capacity: nat, step: Step)
    requires Claims(s) && Owned(s) && Truthful(s) && Enabled(s, step)
    ensures Truthful(Apply(s, capacity, step))
  {
    StepIsLater(s, capacity, step);
    match step
    case Reserve(c) => ReserveKeepsTruth(s, capacity, c);
    case Rereserve(c) => RereserveKeepsTruth(s, capacity, c);
    case Record(c) => RecordKeepsTruth(s, c);
    case Promote(c) => PromoteKeepsTruth(s, c);
    case Claim(_) => ClaimKeepsTruth(s, capacity, step);
    case ClaimFails(_, _) => ClaimKeepsTruth(s, capacity, step);
    case Admit(_, _) => AdmitKeepsTruth(s, capacity, step);
    case _ =>
      if step.Subscribe? || step.Wake? || step.Expire? {
        WaitKeepsTruth(s, capacity, step);
      } else if step.RunRelease? || step.Restart? {
        ReleaseKeepsTruth(s, capacity, step);
      } else {
        GuardKeepsTruth(s, capacity, step);
      }
  }

  lemma ClaimKeepsTruth(s: System, capacity: nat, step: Step)
    requires Truthful(s) && (step.Claim? || step.ClaimFails?) && Later(s, Apply(s, capacity, step))
    ensures Truthful(Apply(s, capacity, step))
  {
    TruthPersists(s, Apply(s, capacity, step));
  }

  lemma PromoteKeepsTruth(s: System, c: nat)
    requires Truthful(s) && Enabled(s, Promote(c)) && Later(s, DoPromote(s, c))
    ensures Truthful(DoPromote(s, c))
  {
    assert CallerTrue(s, s.callers[c]);
    TruthPersists(s, DoPromote(s, c));
  }

  lemma GuardAnswers(s: System, capacity: nat, step: Step)
    requires Enabled(s, step) && (step.Reject? || step.RecordFails? || step.Abandon?)
    ensures var s' := Apply(s, capacity, step);
      && s'.store == s.store && s'.admissions == s.admissions
      && forall a :: a in s'.answers ==> a in s.answers || a.reply.Refused?
  {
    hide ReleaseInFlight, SetReceivers;
  }

  lemma GuardKeepsTruth(s: System, capacity: nat, step: Step)
    requires Truthful(s) && Enabled(s, step)
    requires step.Reject? || step.RecordFails? || step.Abandon?
    ensures Truthful(Apply(s, capacity, step))
  {
    var s' := Apply(s, capacity, step);
    GuardAnswers(s, capacity, step);
    OthersTouchOne(s, capacity, step);
    hide Apply, Enabled, Truthful;
    forall c | c in s'.callers ensures c in s.callers && s.callers[c] == s'.callers[c] {
      CallerGoes(s, capacity, step, c);
    }
    TruthShrinks(s, s');
  }

  lemma ReleaseKeepsTruth(s: System, capacity: nat, step: Step)
    requires Truthful(s) && Enabled(s, step)
    requires step.RunRelease? || step.Restart?
    ensures Truthful(Apply(s, capacity, step))
  {
    TruthShrinks(s, Apply(s, capacity, step));
  }

  lemma WaitKeepsTruth(s: System, capacity: nat, step: Step)
    requires Truthful(s) && Enabled(s, step)
    requires step.Subscribe? || step.Wake? || step.Expire?
    ensures Truthful(Apply(s, capacity, step))
  {
    TruthShrinks(s, Apply(s, capacity, step));
  }

  lemma AdmitKeepsTruth(s: System, capacity: nat, step: Step)
    requires Truthful(s) && step.Admit? && Enabled(s, step) && Later(s, Apply(s, capacity, step))
    ensures Truthful(Apply(s, capacity, step))
  {
    TruthPersists(s, Apply(s, capacity, step));
  }

  /** The ledger after a reservation attempt, with the caller not yet moved. */
  lemma AttemptKeepsTruth(s: System, capacity: nat, c: nat)
    requires Owned(s) && Truthful(s) && c in s.callers
    ensures Truthful(WithLedger(s, Attempt(s, capacity, c).0))
    ensures var out := Attempt(s, capacity, c).1;
      out.Cached? ==> Genuine(s.admissions, s.callers[c].request.dispatchId, s.callers[c].request.payload, out.ack)
  {
    var r := s.callers[c].request;
    if LedgerKey(r) in s.ledger.entries {
      TryReserveTaken(s.ledger, capacity, LedgerKey(r), r);
      assert SlotTrue(s, LedgerKey(r), s.ledger.entries[LedgerKey(r)]);
    } else {
      TryReserveFree(s.ledger, capacity, LedgerKey(r), r);
    }
    TruthPersists(s, WithLedger(s, Attempt(s, capacity, c).0));
  }

  lemma ReserveKeepsTruth(s: System, capacity: nat, c: nat)
    requires Owned(s) && Truthful(s) && Enabled(s, Reserve(c))
    ensures Truthful(DoReserve(s, capacity, c))
  {
    AttemptKeepsTruth(s, capacity, c);
    var (l, out) := Attempt(s, capacity, c);
    match out
    case Fresh(channel) => MoveKeepsTruth(WithLedger(s, l), c, Holding(channel));
    case Cached(ack) => FinishKeepsTruth(s, c, Accepted(ack));
    case Joined(channel) => MoveKeepsTruth(s, c, Joining(channel));
    case Mismatch => FinishKeepsTruth(s, c, Refused(PayloadConflict));
  }

  lemma MoveKeepsTruth(s: System, c: nat, stage: Stage)
    requires Truthful(s) && c in s.callers && !stage.Admitted? && !stage.Recorded?
    ensures Truthful(Move(s, c, stage))
  {
    TruthShrinks(s, Move(s, c, stage));
  }

  lemma FinishKeepsTruth(s: System, c: nat, reply: Reply)
    requires Truthful(s) && c in s.callers
    requires reply.Accepted? ==>
      Genuine(s.admissions, s.callers[c].request.dispatchId, s.callers[c].request.payload, reply.ack)
    ensures Truthful(Finish(s, c, reply))
  {
    TruthShrinks(s, Finish(s, c, reply));
  }

  lemma RereserveKeepsTruth(s: System, capacity: nat, c: nat)
    requires Owned(s) && Truthful(s) && Enabled(s, Rereserve(c))
    ensures Truthful(DoRereserve(s, capacity, c))
  {
    AttemptKeepsTruth(s, capacity, c);
    TruthShrinks(WithLedger(s, Attempt(s, capacity, c).0), DoRereserve(s, capacity, c));
  }

  lemma RecordKeepsTruth(s: System, c: nat)
    requires Claims(s) && Truthful(s) && Enabled(s, Record(c)) && Later(s, DoRecord(s, c))
    ensures Truthful(DoRecord(s, c))
  {
    var caller := s.callers[c];
    assert BuiltFrom(Accept(caller.request, caller.stage.admissionId), caller.request.dispatchId,
                     caller.request.payload, AckOf(caller));
    TruthPersists(s, DoRecord(s, c));
  }
}
