/** When a dispatch is answered with another acknowledgement than the stored one: the step that begins it, and the
    exact condition under which it can still happen. */
module Divergence {
  import opened Base
  import opened AgentWork
  import opened LedgerModel
  import opened Admission
  import opened AdmissionInvariant
  import opened AdmissionTruth
  import opened AtMostOnce
  import opened AdmissionRuns
  import opened Readmission

  predicate IsStored(s: System, d: DispatchId, ack: Ack) {
    AckStored(s, d) && s.store[d].acknowledgement.value == ack
  }

  /** `step` finds an acknowledgement of `d` stored that is not the one it was to store. */
  predicate Diverges(s: System, step: Step, d: DispatchId) {
    && step.Record? && Enabled(s, step) && IsFor(s, step.c, d)
    && AckStored(s, d) && !IsStored(s, d, AckOf(s.callers[step.c]))
  }

  /** The slot at `k` caches an acknowledgement of `d`. */
  predicate CachedFor(s: System, k: Key, d: DispatchId) {
    k in s.ledger.entries && s.ledger.entries[k].Done? && s.ledger.entries[k].fingerprint.dispatchId == d
  }

  /** Whatever was answered for `d`, is cached for it or is about to be answered is the stored acknowledgement. */
  ghost predicate Agrees(s: System, d: DispatchId) {
    && (forall a :: a in s.answers && a.request.dispatchId == d && a.reply.Accepted? ==> IsStored(s, d, a.reply.ack))
    && (forall k :: CachedFor(s, k, d) ==> IsStored(s, d, s.ledger.entries[k].ack))
    && (forall c :: IsFor(s, c, d) && s.callers[c].stage.Recorded? ==> IsStored(s, d, s.callers[c].stage.ack))
  }

  // ----- Where acknowledgements come from -----

  /** An attempt of caller `c` that is answered from the cache. */
  predicate ReadsCache(s: System, c: nat, a: Answer)
    requires a.reply.Accepted?
  {
    && c in s.callers && a.request == s.callers[c].request && LedgerKey(a.request) in s.ledger.entries
    && s.ledger.entries[LedgerKey(a.request)] == Done(a.request, a.reply.ack)
  }

  /** `a` is what `step` answers: the stored acknowledgement, the holder's own, or a cached one. */
  predicate AnsweredBy(s: System, step: Step, a: Answer)
    requires a.reply.Accepted?
  {
    match step
    case Claim(r) => a.request == r && IsStored(s, r.dispatchId, a.reply.ack)
        && s.store[r.dispatchId].fingerprint == r.payload
    case Promote(c) => c in s.callers && a.request == s.callers[c].request
        && s.callers[c].stage.Recorded? && s.callers[c].stage.ack == a.reply.ack
    case Reserve(c) => ReadsCache(s, c, a)
    case Rereserve(c) => ReadsCache(s, c, a)
    case _ => false
  }

  lemma AnswerOrigin(s: System, capacity: nat, step: Step, a: Answer)
    requires Enabled(s, step)
    requires a in Apply(s, capacity, step).answers && a !in s.answers && a.reply.Accepted?
    ensures AnsweredBy(s, step, a)
  {
    hide ReleaseInFlight, CompleteWithDone, RecordAcknowledgement, SetReceivers;
    if step.Reserve? || step.Rereserve? {
      AttemptAnswer(s, capacity, step, a);
    } else if step.Claim? {
      hide Attempt;
    } else {
      hide Attempt, ClaimOrReuse;
    }
  }

  lemma AttemptAnswer(s: System, capacity: nat, step: Step, a: Answer)
    requires Enabled(s, step) && (step.Reserve? || step.Rereserve?)
    requires a in Apply(s, capacity, step).answers && a !in s.answers && a.reply.Accepted?
    ensures ReadsCache(s, step.c, a)
  {
    var r := s.callers[step.c].request;
    if LedgerKey(r) in s.ledger.entries {
      TryReserveTaken(s.ledger, capacity, LedgerKey(r), r);
    }
    hide Evict, SetReceivers;
  }

  lemma CacheOrigin(s: System, capacity: nat, step: Step, k: Key)
    requires Owned(s) && Enabled(s, step)
    requires k in Apply(s, capacity, step).ledger.entries && Apply(s, capacity, step).ledger.entries[k].Done?
    requires k in s.ledger.entries ==> Apply(s, capacity, step).ledger.entries[k] != s.ledger.entries[k]
    ensures step.Promote?
    ensures var caller := s.callers[step.c];
      Apply(s, capacity, step).ledger.entries[k] == Done(caller.request, caller.stage.ack)
  {
    if step.Reserve? || step.Rereserve? {
      AttemptEffect(s, capacity, step);
      hide Apply, Attempt;
    } else if step.Restart? {
      RestartEmpties(s, capacity);
    } else {
      OthersTouchOne(s, capacity, step);
      hide Apply;
    }
  }

  lemma RecordedOrigin(s: System, capacity: nat, step: Step, c: nat)
    requires Claims(s) && Enabled(s, step)
    requires c in Apply(s, capacity, step).callers && Apply(s, capacity, step).callers[c].stage.Recorded?
    ensures c in s.callers && Apply(s, capacity, step).callers[c].request == s.callers[c].request
    ensures step == Record(c) || Apply(s, capacity, step).callers[c] == s.callers[c]
    ensures step == Record(c) ==> Apply(s, capacity, step).callers[c].stage.ack == AckOf(s.callers[c])
  {
    if !step.Claim? {
      CallerGoes(s, capacity, step, c);
      hide Apply, Attempt;
    }
  }

  // ----- Divergence is exactly where agreement ends -----

  lemma RecordStores(s: System, capacity: nat, c: nat, d: DispatchId)
    requires Enabled(s, Record(c)) && IsFor(s, c, d)
    ensures var s' := Apply(s, capacity, Record(c));
      IsStored(s', d, AckOf(s.callers[c])) <==> !Diverges(s, Record(c), d)
  {
  }

  lemma RecordedAgrees(s: System, capacity: nat, step: Step, d: DispatchId, c: nat)
    requires Claims(s) && Enabled(s, step) && Agrees(s, d) && !Diverges(s, step, d)
    requires IsFor(Apply(s, capacity, step), c, d) && Apply(s, capacity, step).callers[c].stage.Recorded?
    ensures IsStored(Apply(s, capacity, step), d, Apply(s, capacity, step).callers[c].stage.ack)
  {
    RecordedOrigin(s, capacity, step, c);
    StepGrowsStore(s, capacity, step);
    if step == Record(c) {
      RecordStores(s, capacity, c, d);
    }
    hide Apply, Enabled, Diverges, Claims;
  }

  lemma CachedAgrees(s: System, capacity: nat, step: Step, d: DispatchId, k: Key)
    requires Owned(s) && Enabled(s, step) && Agrees(s, d) && CachedFor(Apply(s, capacity, step), k, d)
    ensures IsStored(Apply(s, capacity, step), d, Apply(s, capacity, step).ledger.entries[k].ack)
  {
    var s' := Apply(s, capacity, step);
    StepGrowsStore(s, capacity, step);
    if k !in s.ledger.entries || s'.ledger.entries[k] != s.ledger.entries[k] {
      CacheOrigin(s, capacity, step, k);
    }
    hide Apply, Owned;
  }

  lemma AnswerAgrees(s: System, capacity: nat, step: Step, d: DispatchId, a: Answer)
    requires Enabled(s, step) && Agrees(s, d)
    requires a in Apply(s, capacity, step).answers && a.request.dispatchId == d && a.reply.Accepted?
    ensures IsStored(Apply(s, capacity, step), d, a.reply.ack)
  {
    StepGrowsStore(s, capacity, step);
    if a !in s.answers {
      AnswerOrigin(s, capacity, step, a);
    }
    hide Apply, Enabled;
  }

  lemma AgreesStays(s: System, capacity: nat, step: Step, d: DispatchId)
    requires Claims(s) && Owned(s) && Enabled(s, step) && Agrees(s, d) && !Diverges(s, step, d)
    ensures Agrees(Apply(s, capacity, step), d)
  {
    var s' := Apply(s, capacity, step);
    forall c | IsFor(s', c, d) && s'.callers[c].stage.Recorded? ensures IsStored(s', d, s'.callers[c].stage.ack) {
      RecordedAgrees(s, capacity, step, d, c);
    }
    forall k | CachedFor(s', k, d) ensures IsStored(s', d, s'.ledger.entries[k].ack) {
      CachedAgrees(s, capacity, step, d, k);
    }
    forall a | a in s'.answers && a.request.dispatchId == d && a.reply.Accepted? ensures IsStored(s', d, a.reply.ack) {
      AnswerAgrees(s, capacity, step, d, a);
    }
    hide Apply, Diverges, Enabled, Claims, Owned, IsStored, IsFor;
  }

  lemma DivergenceDisagrees(s: System, capacity: nat, step: Step, d: DispatchId)
    requires Diverges(s, step, d)
    ensures !Agrees(Apply(s, capacity, step), d)
  {
    RecordStores(s, capacity, step.c, d);
    var s' := Apply(s, capacity, step);
    assert IsFor(s', step.c, d) && s'.callers[step.c].stage.ack == AckOf(s.callers[step.c]);
  }

  lemma {:induction false} AgreesUntilDivergence(states: seq<System>, steps: seq<Step>, capacity: nat, i: nat,
                                                 d: DispatchId)
    requires IsRun(states, steps, capacity) && i < |states|
    requires forall k :: 0 <= k < i ==> !Diverges(states[k], steps[k], d)
    ensures Agrees(states[i], d)
  {
    hide Apply, Enabled, Diverges;
    if i > 0 {
      hide Agrees;
      AgreesUntilDivergence(states, steps, capacity, i - 1, d);
      InvOwned(states, steps, capacity, i - 1);
      AgreesStays(states[i - 1], capacity, steps[i - 1], d);
    }
  }

  /** Over any run, every answer, cached entry and pending answer of `d` is the stored acknowledgement at all times
      exactly if no second holder came to record another one. */
  lemma AgreeExactlyIfNoneDiverges(states: seq<System>, steps: seq<Step>, capacity: nat, i: nat, d: DispatchId)
    requires IsRun(states, steps, capacity) && i < |states|
    ensures (forall j :: 0 <= j <= i ==> Agrees(states[j], d))
       <==> (forall k :: 0 <= k < i ==> !Diverges(states[k], steps[k], d))
  {
    hide Apply, Enabled, Diverges, Agrees;
    if k :| 0 <= k < i && Diverges(states[k], steps[k], d) {
      DivergenceDisagrees(states[k], capacity, steps[k], d);
      assert !Agrees(states[k + 1], d);
    } else {
      forall j | 0 <= j <= i ensures Agrees(states[j], d) {
        AgreesUntilDivergence(states, steps, capacity, j, d);
      }
    }
  }

  // ----- When a differing answer can still be sent -----

  /** `d` was answered with another acknowledgement than the stored one. */
  ghost predicate Differs(s: System, d: DispatchId) {
    exists a :: a in s.answers && a.request.dispatchId == d && a.reply.Accepted? && !IsStored(s, d, a.reply.ack)
  }

  ghost predicate CanDiffer(states: seq<System>, steps: seq<Step>, capacity: nat, d: DispatchId)
    requires |states| == |steps| + 1
  {
    exists states', steps' ::
      IsRun(states', steps', capacity) && Extends(states, steps, states', steps') && Differs(states'[|steps'|], d)
  }

  /** Caller `c` was admitted and is about to answer with another acknowledgement than the stored one. */
  predicate Strays(s: System, c: nat, d: DispatchId) {
    && IsFor(s, c, d)
    && ((s.callers[c].stage.Admitted? && !IsStored(s, d, AckOf(s.callers[c])))
        || (s.callers[c].stage.Recorded? && !IsStored(s, d, s.callers[c].stage.ack)))
  }

  /** `d` was answered otherwise, can still be admitted, or has an admitted caller that strays. */
  ghost predicate Loose(s: System, d: DispatchId) {
    Differs(s, d) || Open(s, d) || exists c :: Strays(s, c, d)
  }

  /** Every cached acknowledgement has been answered. */
  ghost predicate CacheAnswered(s: System) {
    forall k :: k in s.ledger.entries && s.ledger.entries[k].Done? ==> WasAnswered(s, s.ledger.entries[k])
  }

  ghost predicate WasAnswered(s: System, slot: Slot)
    requires slot.Done?
  {
    Answer(slot.fingerprint, Accepted(slot.ack)) in s.answers
  }

  lemma AnswersStay(s: System, capacity: nat, step: Step)
    requires Enabled(s, step)
    ensures s.answers <= Apply(s, capacity, step).answers
  {
    hide Attempt, ReleaseInFlight, CompleteWithDone, RecordAcknowledgement, ClaimOrReuse, SetReceivers;
  }

  lemma PromoteAnswers(s: System, capacity: nat, c: nat)
    requires Enabled(s, Promote(c))
    ensures var t := Apply(s, capacity, Promote(c));
      t.store == s.store
      && t.answers == s.answers + [Answer(s.callers[c].request, Accepted(s.callers[c].stage.ack))]
  {
  }

  lemma {:induction false} RunKeepsCacheAnswered(states: seq<System>, steps: seq<Step>, capacity: nat, i: nat)
    requires IsRun(states, steps, capacity) && i < |states|
    ensures CacheAnswered(states[i])
  {
    hide Apply, Enabled, Owned;
    if i > 0 {
      var s, s' := states[i - 1], states[i];
      RunKeepsCacheAnswered(states, steps, capacity, i - 1);
      InvOwned(states, steps, capacity, i - 1);
      AnswersStay(s, capacity, steps[i - 1]);
      forall k | k in s'.ledger.entries && s'.ledger.entries[k].Done? ensures WasAnswered(s', s'.ledger.entries[k]) {
        if k !in s.ledger.entries || s'.ledger.entries[k] != s.ledger.entries[k] {
          CacheOrigin(s, capacity, steps[i - 1], k);
          PromoteAnswers(s, capacity, steps[i - 1].c);
        } else {
          assert WasAnswered(s, s.ledger.entries[k]);
        }
      }
    }
  }

  /** An admission starts from a holder. */
  lemma AdmittedOrigin(s: System, capacity: nat, step: Step, c: nat)
    requires Claims(s) && Enabled(s, step)
    requires c in Apply(s, capacity, step).callers && Apply(s, capacity, step).callers[c].stage.Admitted?
    ensures c in s.callers && Apply(s, capacity, step).callers[c].request == s.callers[c].request
    ensures s.callers[c].stage.Holding? || Apply(s, capacity, step).callers[c] == s.callers[c]
  {
    if !step.Claim? {
      CallerGoes(s, capacity, step, c);
      hide Apply, Attempt;
    }
  }

  lemma NoneStrays(s: System, capacity: nat, step: Step, c: nat, d: DispatchId)
    requires Claims(s) && Owned(s) && Enabled(s, step) && !Loose(s, d)
    ensures !Strays(Apply(s, capacity, step), c, d)
  {
    var s' := Apply(s, capacity, step);
    StepGrowsStore(s, capacity, step);
    assert !Strays(s, c, d);
    assert AckStored(s, d);
    hide Apply, Enabled;
    if IsFor(s', c, d) && s'.callers[c].stage.Admitted? {
      AdmittedOrigin(s, capacity, step, c);
      if s.callers[c].stage.Holding? {
        HolderIsOpen(s, c, d);
      }
    } else if IsFor(s', c, d) && s'.callers[c].stage.Recorded? {
      RecordedOrigin(s, capacity, step, c);
    }
  }

  lemma TightStays(s: System, capacity: nat, step: Step, d: DispatchId)
    requires Claims(s) && Owned(s) && CacheAnswered(s) && Enabled(s, step) && !Loose(s, d)
    ensures !Loose(Apply(s, capacity, step), d)
  {
    var s' := Apply(s, capacity, step);
    StepGrowsStore(s, capacity, step);
    ClosedStays(s, capacity, step, d);
    forall c ensures !Strays(s', c, d) {
      NoneStrays(s, capacity, step, c, d);
    }
    hide Apply, Enabled, Open, Owned, Claims;
    forall a | a in s'.answers && a.request.dispatchId == d && a.reply.Accepted? ensures IsStored(s', d, a.reply.ack) {
      if a !in s.answers {
        AnswerOrigin(s, capacity, step, a);
        OriginIsStored(s, step, a, d);
      }
    }
  }

  lemma OriginIsStored(s: System, step: Step, a: Answer, d: DispatchId)
    requires CacheAnswered(s) && !Loose(s, d) && a.reply.Accepted? && a.request.dispatchId == d
    requires AnsweredBy(s, step, a)
    ensures IsStored(s, d, a.reply.ack)
  {
    hide Open;
    if step.Reserve? || step.Rereserve? {
      assert WasAnswered(s, s.ledger.entries[LedgerKey(a.request)]);
    } else if step.Promote? {
      assert !Strays(s, step.c, d);
    }
  }

  lemma {:induction false} TightForever(states: seq<System>, steps: seq<Step>, capacity: nat, i: nat, j: nat,
                                        d: DispatchId)
    requires IsRun(states, steps, capacity) && i <= j < |states| && !Loose(states[i], d)
    ensures !Loose(states[j], d)
  {
    hide Apply, Enabled, Loose, Claims, Owned, CacheAnswered;
    if i < j {
      TightForever(states, steps, capacity, i, j - 1, d);
      InvOwned(states, steps, capacity, j - 1);
      RunKeepsCacheAnswered(states, steps, capacity, j - 1);
      TightStays(states[j - 1], capacity, steps[j - 1], d);
    }
  }

  /** Caller `c` answers with what it has recorded. */
  lemma PromoteSends(states: seq<System>, steps: seq<Step>, capacity: nat, c: nat)
    returns (states': seq<System>, steps': seq<Step>)
    requires IsRun(states, steps, capacity) && Enabled(states[|steps|], Promote(c))
    ensures IsRun(states', steps', capacity) && Extends(states, steps, states', steps')
    ensures steps' == steps + [Promote(c)]
    ensures var s, t := states[|steps|], states'[|steps'|];
      t.store == s.store
      && t.answers == s.answers + [Answer(s.callers[c].request, Accepted(s.callers[c].stage.ack))]
  {
    PromoteAnswers(states[|steps|], capacity, c);
    states', steps' := Extend(states, steps, capacity, Promote(c));
  }

  /** After any run that ends where a holder is to record another acknowledgement than the stored one, recording it
      and promoting the slot answers with the other one. */
  lemma DivergenceIsAnswered(states: seq<System>, steps: seq<Step>, capacity: nat, c: nat, d: DispatchId)
    returns (states': seq<System>, steps': seq<Step>)
    requires IsRun(states, steps, capacity) && Diverges(states[|steps|], Record(c), d)
    ensures IsRun(states', steps', capacity) && Extends(states, steps, states', steps')
    ensures steps' == steps + [Record(c), Promote(c)]
    ensures var s, t, caller := states[|steps|], states'[|steps'|], states[|steps|].callers[c];
      t.store == s.store && t.answers == s.answers + [Answer(caller.request, Accepted(AckOf(caller)))]
    ensures Differs(states'[|steps'|], d)
  {
    var caller := states[|steps|].callers[c];
    RecordKeepsStored(states[|steps|], capacity, c, d);
    states', steps' := Extend(states, steps, capacity, Record(c));
    hide Apply;
    states', steps' := PromoteSends(states', steps', capacity, c);
    assert steps + [Record(c)] + [Promote(c)] == steps + [Record(c), Promote(c)];
    assert Answer(caller.request, Accepted(AckOf(caller))) in states'[|steps'|].answers;
  }

  lemma RecordKeepsStored(s: System, capacity: nat, c: nat, d: DispatchId)
    requires Diverges(s, Record(c), d)
    ensures var t := Apply(s, capacity, Record(c));
      && t.store == s.store && t.answers == s.answers && Enabled(t, Promote(c))
      && t.callers[c].request == s.callers[c].request && t.callers[c].stage.ack == AckOf(s.callers[c])
  {
    assert s.store[d := s.store[d]] == s.store;
  }

  /** A holder of a dispatch whose acknowledgement is stored diverges once it is admitted under another id. */
  lemma HolderDiverges(states: seq<System>, steps: seq<Step>, capacity: nat, c: nat, d: DispatchId, id: string)
    returns (states': seq<System>, steps': seq<Step>)
    requires IsRun(states, steps, capacity) && AckStored(states[|steps|], d)
    requires IsFor(states[|steps|], c, d) && states[|steps|].callers[c].stage.Holding?
    requires id != states[|steps|].store[d].acknowledgement.value.admissionId
    ensures IsRun(states', steps', capacity) && Extends(states, steps, states', steps')
    ensures var s, t, caller := states[|steps|], states'[|steps'|], states[|steps|].callers[c];
      && Diverges(t, Record(c), d) && t.store == s.store && t.answers == s.answers
      && t.callers[c].request == caller.request
      && AckOf(t.callers[c]) == BuildAck(caller.request, id, caller.executionId)
  {
    states', steps' := Extend(states, steps, capacity, Admit(c, id));
    assert AckOf(states'[|steps'|].callers[c]).admissionId == id;
  }

  /** Callers `b` and `c` have claimed `r`, no acknowledgement of it is stored, and nothing is at its key. */
  ghost predicate BothReady(s: System, b: nat, c: nat, r: Request) {
    && b != c && b in s.callers && c in s.callers
    && s.callers[b] == Caller(r, OpenabNative(r.dispatchId), Ready) && s.callers[c] == s.callers[b]
    && LedgerKey(r) !in s.ledger.entries
    && r.dispatchId in s.store && s.store[r.dispatchId].acknowledgement.None?
  }

  lemma TwoClaims(s: System, capacity: nat, r: Request)
    requires Claims(s) && !AckStored(s, r.dispatchId)
    requires r.dispatchId in s.store ==> s.store[r.dispatchId].fingerprint == r.payload
    ensures var t := Apply(Apply(Apply(s, capacity, Restart), capacity, Claim(r)), capacity, Claim(r));
      BothReady(t, s.nextCaller, s.nextCaller + 1, r) && t.answers == s.answers
  {
  }

  lemma RestartedReaders(states: seq<System>, steps: seq<Step>, capacity: nat, r: Request)
    returns (states': seq<System>, steps': seq<Step>)
    requires IsRun(states, steps, capacity) && !AckStored(states[|steps|], r.dispatchId)
    requires r.dispatchId in states[|steps|].store ==> states[|steps|].store[r.dispatchId].fingerprint == r.payload
    ensures IsRun(states', steps', capacity) && Extends(states, steps, states', steps')
    ensures var s, t := states[|steps|], states'[|steps'|];
      BothReady(t, s.nextCaller, s.nextCaller + 1, r) && t.answers == s.answers
  {
    InvOwned(states, steps, capacity, |steps|);
    TwoClaims(states[|steps|], capacity, r);
    hide Apply, BothReady;
    states', steps' := Extend(states, steps, capacity, Restart);
    states', steps' := Extend(states', steps', capacity, Claim(r));
    states', steps' := Extend(states', steps', capacity, Claim(r));
  }

  /** `s'` is `s` with `b` gone and `stored` acknowledged; `c`, the answers and the key of `r` are as in `BothReady`. */
  ghost predicate Dropped(s: System, s': System, c: nat, r: Request, stored: Ack) {
    && IsStored(s', r.dispatchId, stored) && c in s.callers && c in s'.callers && s'.callers[c] == s.callers[c]
    && LedgerKey(r) !in s'.ledger.entries && s'.answers == s.answers
  }

  /** Nothing but caller `b` has changed between `s` and `t`; it moved to `stage`. */
  ghost predicate Moved(s: System, t: System, b: nat, stage: Stage) {
    && b in s.callers && t.callers == s.callers[b := s.callers[b].(stage := stage)]
    && t.ledger == s.ledger && t.answers == s.answers
  }

  lemma AdmitMoves(s: System, capacity: nat, b: nat, id: string)
    requires b in s.callers && s.callers[b].stage.Holding?
    ensures var t := Apply(s, capacity, Admit(b, id));
      Moved(s, t, b, Admitted(s.callers[b].stage.channel, id)) && t.store == s.store
  {
  }

  lemma RecordMoves(s: System, capacity: nat, b: nat, d: DispatchId)
    requires Enabled(s, Record(b)) && IsFor(s, b, d) && !AckStored(s, d)
    ensures var t := Apply(s, capacity, Record(b));
      && Moved(s, t, b, Recorded(s.callers[b].stage.channel, AckOf(s.callers[b])))
      && IsStored(t, d, AckOf(s.callers[b]))
  {
  }

  lemma AbandonFrees(s: System, capacity: nat, b: nat)
    requires b in s.callers && s.callers[b].stage.Recorded?
    requires Carries(s.ledger, LedgerKey(s.callers[b].request), s.callers[b].stage.channel)
    ensures var t := Apply(s, capacity, Abandon(b, true));
      && t.callers == s.callers - {b} && t.store == s.store && t.answers == s.answers
      && LedgerKey(s.callers[b].request) !in t.ledger.entries
  {
    hide Send, Without;
  }

  lemma StoredThenDropped(states: seq<System>, steps: seq<Step>, capacity: nat, b: nat, c: nat, r: Request, id: string)
    returns (states': seq<System>, steps': seq<Step>)
    requires IsRun(states, steps, capacity) && BothReady(states[|steps|], b, c, r)
    ensures IsRun(states', steps', capacity) && Extends(states, steps, states', steps')
    ensures Dropped(states[|steps|], states'[|steps'|], c, r, BuildAck(r, id, OpenabNative(r.dispatchId)))
  {
    hide Apply, LedgerKey;
    LedgerIsWellFormed(states, steps, capacity);
    ReserveInstalls(states[|steps|], capacity, b);
    states', steps' := Extend(states, steps, capacity, Reserve(b));
    AdmitMoves(states'[|steps'|], capacity, b, id);
    states', steps' := Extend(states', steps', capacity, Admit(b, id));
    RecordMoves(states'[|steps'|], capacity, b, r.dispatchId);
    states', steps' := Extend(states', steps', capacity, Record(b));
    AbandonFrees(states'[|steps'|], capacity, b);
    states', steps' := Extend(states', steps', capacity, Abandon(b, true));
  }

  /** From every run without a stored acknowledgement of the dispatch, some continuation stores one and has another
      holder besides: two callers claim it, and the first is dropped once its acknowledgement was stored. */
  lemma StoredBesideHolder(states: seq<System>, steps: seq<Step>, capacity: nat, r: Request, id: string)
    returns (states': seq<System>, steps': seq<Step>, c: nat)
    requires IsRun(states, steps, capacity) && !AckStored(states[|steps|], r.dispatchId)
    requires r.dispatchId in states[|steps|].store ==> states[|steps|].store[r.dispatchId].fingerprint == r.payload
    ensures IsRun(states', steps', capacity) && Extends(states, steps, states', steps')
    ensures var s, t := states[|steps|], states'[|steps'|];
      && IsStored(t, r.dispatchId, BuildAck(r, id, OpenabNative(r.dispatchId))) && t.answers == s.answers
      && c in t.callers && t.callers[c].request == r && t.callers[c].stage.Holding?
      && t.callers[c].executionId == OpenabNative(r.dispatchId)
  {
    hide Apply, LedgerKey;
    var b := states[|steps|].nextCaller;
    c := b + 1;
    states', steps' := RestartedReaders(states, steps, capacity, r);
    states', steps' := StoredThenDropped(states', steps', capacity, b, c, r, id);
    LedgerIsWellFormed(states', steps', capacity);
    ReserveInstalls(states'[|steps'|], capacity, c);
    states', steps' := Extend(states', steps', capacity, Reserve(c));
  }

  lemma StraySent(s: System, t: System, c: nat, d: DispatchId)
    requires Strays(s, c, d) && s.callers[c].stage.Recorded? && t.store == s.store
    requires t.answers == s.answers + [Answer(s.callers[c].request, Accepted(s.callers[c].stage.ack))]
    ensures Differs(t, d)
  {
    assert Answer(s.callers[c].request, Accepted(s.callers[c].stage.ack)) in t.answers;
  }

  lemma LooseDiffers(states: seq<System>, steps: seq<Step>, capacity: nat, d: DispatchId)
    returns (states': seq<System>, steps': seq<Step>)
    requires IsRun(states, steps, capacity) && Loose(states[|steps|], d)
    ensures IsRun(states', steps', capacity) && Extends(states, steps, states', steps')
    ensures Differs(states'[|steps'|], d)
  {
    var s := states[|steps|];
    hide Apply, Differs, OpenNow;
    if Differs(s, d) {
      states', steps' := states, steps;
    } else if Open(s, d) {
      states', steps' := OpenDiffers(states, steps, capacity, d);
    } else {
      var c :| Strays(s, c, d);
      if s.callers[c].stage.Recorded? {
        states', steps' := PromoteSends(states, steps, capacity, c);
        StraySent(s, states'[|steps'|], c, d);
      } else {
        states', steps' := DivergenceIsAnswered(states, steps, capacity, c, d);
      }
    }
  }

  lemma {:induction false} AckStaysStored(states: seq<System>, steps: seq<Step>, capacity: nat, i: nat, j: nat,
                                          d: DispatchId)
    requires IsRun(states, steps, capacity) && i <= j < |states| && AckStored(states[i], d)
    ensures AckStored(states[j], d)
  {
    hide Apply, Enabled;
    if i < j {
      AckStaysStored(states, steps, capacity, i, j - 1, d);
      StepGrowsStore(states[j - 1], capacity, steps[j - 1]);
    }
  }

  lemma OpenDiffers(states: seq<System>, steps: seq<Step>, capacity: nat, d: DispatchId)
    returns (states': seq<System>, steps': seq<Step>)
    requires IsRun(states, steps, capacity) && Open(states[|steps|], d)
    ensures IsRun(states', steps', capacity) && Extends(states, steps, states', steps')
    ensures Differs(states'[|steps'|], d)
  {
    hide Apply, Differs, OpenNow;
    var s, c := states[|steps|], 0;
    if AckStored(s, d) {
      states', steps', c := OpenNowIsHeld(states, steps, capacity, d);
      AckStaysStored(states', steps', capacity, |steps|, |steps'|, d);
    } else {
      var payload := if d in s.store then s.store[d].fingerprint else Payload("", "", "", "", "");
      states', steps', c := StoredBesideHolder(states, steps, capacity, Request(d, "", 0, payload), "");
    }
    var other := states'[|steps'|].store[d].acknowledgement.value.admissionId + "'";
    states', steps' := HolderDiverges(states', steps', capacity, c, d, other);
    states', steps' := DivergenceIsAnswered(states', steps', capacity, c, d);
  }

  /** In every reachable state, some continuation has answered `d` with another acknowledgement than the stored one
      exactly if it was so answered already, `d` can still be admitted, or an admitted caller of it strays. */
  lemma DiffersExactlyIfLoose(states: seq<System>, steps: seq<Step>, capacity: nat, d: DispatchId)
    requires IsRun(states, steps, capacity)
    ensures CanDiffer(states, steps, capacity, d) <==> Loose(states[|steps|], d)
  {
    hide Apply, Differs, OpenNow, Strays;
    if Loose(states[|steps|], d) {
      var states', steps' := LooseDiffers(states, steps, capacity, d);
    } else if states', steps' :| IsRun(states', steps', capacity) && Extends(states, steps, states', steps')
                                && Differs(states'[|steps'|], d) {
      assert states'[|steps|] == states[|steps|];
      TightForever(states', steps', capacity, |steps|, |steps'|, d);
    }
  }

  /** At every capacity and for every request, a run whose only WORK_ACCEPTED answer is not the acknowledgement it
      stored: the first holder was dropped after storing its own. */
  lemma SecondHolderDiffers(r: Request, capacity: nat) returns (states: seq<System>, steps: seq<Step>)
    ensures IsRun(states, steps, capacity) && Differs(states[|steps|], r.dispatchId)
    ensures var s, id := states[|steps|], OpenabNative(r.dispatchId);
      && IsStored(s, r.dispatchId, BuildAck(r, "first", id))
      && s.answers == [Answer(r, Accepted(BuildAck(r, "second", id)))]
  {
    hide Apply, Differs, Diverges;
    var c;
    states, steps, c := StoredBesideHolder([START], [], capacity, r, "first");
    states, steps := HolderDiverges(states, steps, capacity, c, r.dispatchId, "second");
    states, steps := DivergenceIsAnswered(states, steps, capacity, c, r.dispatchId);
  }
}
