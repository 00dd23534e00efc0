/** The guarantees of `agent.work` over whole runs: any interleaving, any failures, any restarts. */
module AtMostOnce {
  import opened Base
  import opened AgentWork
  import opened LedgerModel
  import opened Admission
  import opened AdmissionInvariant
  import opened AdmissionTruth

  ghost predicate Inv(s: System) { Claims(s) && Owned(s) && Truthful(s) }

  lemma StepKeepsInv(s: System, capacity: nat, step: Step)
    requires Inv(s) && Enabled(s, step)
    ensures Inv(Apply(s, capacity, step))
  {
    StepKeepsClaims(s, capacity, step);
    StepKeepsOwned(s, capacity, step);
    StepKeepsTruth(s, capacity, step);
  }

  lemma {:induction false} RunKeepsInv(states: seq<System>, steps: seq<Step>, capacity: nat, i: nat)
    requires IsRun(states, steps, capacity) && i < |states|
    ensures Inv(states[i])
  {
    if i > 0 {
      RunKeepsInv(states, steps, capacity, i - 1);
      StepKeepsInv(states[i - 1], capacity, steps[i - 1]);
    }
  }

  // ----- Mutual exclusion -----

  /** Callers past the durable claim for one dispatch id share one ledger key, whatever their leases. */
  lemma SameDispatchSameKey(s: System, b: nat, c: nat)
    requires Claims(s) && b in s.callers && c in s.callers
    requires s.callers[b].request.dispatchId == s.callers[c].request.dispatchId
    ensures LedgerKey(s.callers[b].request) == LedgerKey(s.callers[c].request)
  {
    assert ClaimHolds(s.store, s.callers[b]) && ClaimHolds(s.store, s.callers[c]);
  }

  /** In every reachable state at most one caller of a dispatch id is between its reservation and its promotion
      or release, and then no deferred release for that key is outstanding. */
  lemma MutualExclusion(states: seq<System>, steps: seq<Step>, capacity: nat, i: nat, b: nat, c: nat)
    requires IsRun(states, steps, capacity) && i < |states|
    requires Keeps(states[i], ByCaller(b)) && c in states[i].callers
    requires states[i].callers[b].request.dispatchId == states[i].callers[c].request.dispatchId
    ensures Keeps(states[i], ByCaller(c)) ==> b == c
    ensures forall r :: r in states[i].deferred ==> r.key != LedgerKey(states[i].callers[c].request)
  {
    RunKeepsInv(states, steps, capacity, i);
    SameDispatchSameKey(states[i], b, c);
    OneKeeperPerKey(states[i]);
    assert forall r :: r in states[i].deferred ==> Keeps(states[i], ByRelease(r));
  }

  lemma OneKeeperPerKey(s: System)
    requires Owned(s)
    ensures forall j, k :: Keeps(s, j) && Keeps(s, k) && KeptKey(s, j) == KeptKey(s, k) ==> j == k
  {
    forall j, k | Keeps(s, j) && Keeps(s, k) && KeptKey(s, j) == KeptKey(s, k) ensures j == k {
      assert Carries(s.ledger, KeptKey(s, j), KeptChannel(s, j));
      assert Carries(s.ledger, KeptKey(s, k), KeptChannel(s, k));
    }
  }

  // ----- At most one accepted admission -----

  /** The steps after which caller `c` no longer answers for its reservation. */
  predicate Ends(step: Step, c: nat) {
    match step
    case Promote(b) => b == c
    case Reject(b, _) => b == c
    case RecordFails(b, _) => b == c
    case Abandon(b, _) => b == c
    case Restart => true
    case _ => false
  }

  predicate AckStored(s: System, d: DispatchId) { d in s.store && s.store[d].acknowledgement.Some? }

  predicate IsFor(s: System, c: nat, d: DispatchId) { c in s.callers && s.callers[c].request.dispatchId == d }

  predicate CachedAt(s: System, key: Key) { key in s.ledger.entries && s.ledger.entries[key].Done? }

  /** Caller `c` can no longer come to hold a reservation for `d`. */
  predicate Barred(s: System, d: DispatchId, c: nat) {
    && AckStored(s, d)
    && (IsFor(s, c, d) ==> s.callers[c].stage.Joining? || Listens(s.callers[c].stage))
  }

  /** Caller `c` read an empty acknowledgement of `d` before one was stored, and has not reserved yet. */
  predicate Stale(s: System, d: DispatchId, c: nat) {
    AckStored(s, d) && IsFor(s, c, d) && s.callers[c].stage.Ready?
  }

  /** `c` is stale, and the cached acknowledgement still answers for its key. */
  predicate Shielded(s: System, d: DispatchId, c: nat) {
    Stale(s, d, c) && CachedAt(s, LedgerKey(s.callers[c].request))
  }

  /** A reservation made for another key evicts the cached acknowledgement of `d` while `c` is stale. */
  predicate EvictsShield(s: System, step: Step, s': System, d: DispatchId, c: nat) {
    && (step.Reserve? || step.Rereserve?) && step.c != c
    && Shielded(s, d, c) && LedgerKey(s.callers[c].request) !in s'.ledger.entries
  }

  lemma BarredStays(s: System, capacity: nat, step: Step, d: DispatchId, c: nat)
    requires Barred(s, d, c) && Enabled(s, step)
    ensures Barred(Apply(s, capacity, step), d, c)
  {
    StepGrowsStore(s, capacity, step);
    if step.Claim? {
      hide Attempt;
    } else {
      if c in Apply(s, capacity, step).callers {
        CallerGoes(s, capacity, step, c);
      }
      hide Apply, Enabled, Attempt;
    }
  }

  lemma ShieldedStep(s: System, capacity: nat, step: Step, d: DispatchId, c: nat)
    requires Owned(s) && Shielded(s, d, c) && Enabled(s, step)
    ensures var s' := Apply(s, capacity, step);
      Shielded(s', d, c) || Barred(s', d, c) || EvictsShield(s, step, s', d, c)
  {
    StepGrowsStore(s, capacity, step);
    if step.Reserve? || step.Rereserve? {
      var r := s.callers[step.c].request;
      if LedgerKey(r) in s.ledger.entries {
        TryReserveTaken(s.ledger, capacity, LedgerKey(r), r);
      } else {
        TryReserveFree(s.ledger, capacity, LedgerKey(r), r);
      }
      AttemptUnderShield(s, capacity, step, d, c);
    } else {
      OtherUnderShield(s, capacity, step, d, c);
    }
  }

  lemma AttemptUnderShield(s: System, capacity: nat, step: Step, d: DispatchId, c: nat)
    requires Shielded(s, d, c) && Enabled(s, step) && (step.Reserve? || step.Rereserve?)
    requires StoreGrows(s.store, Apply(s, capacity, step).store)
    requires var r := s.callers[step.c].request;
      LedgerKey(r) in s.ledger.entries || Installed(s.ledger, Attempt(s, capacity, step.c).0, capacity, LedgerKey(r), r)
    ensures var s' := Apply(s, capacity, step);
      Shielded(s', d, c) || Barred(s', d, c) || EvictsShield(s, step, s', d, c)
  {
    hide Evict;
  }

  lemma OtherUnderShield(s: System, capacity: nat, step: Step, d: DispatchId, c: nat)
    requires Shielded(s, d, c) && Enabled(s, step) && !step.Reserve? && !step.Rereserve?
    requires StoreGrows(s.store, Apply(s, capacity, step).store)
    ensures var s' := Apply(s, capacity, step); Shielded(s', d, c) || Barred(s', d, c)
  {
    if step.Claim? {
      hide Attempt;
    } else if !step.Restart? {
      OthersTouchOne(s, capacity, step);
      if c in Apply(s, capacity, step).callers {
        CallerGoes(s, capacity, step, c);
      }
      hide Apply, Attempt;
    }
  }

  /** From a barred or shielded state, `c` can come to hold a reservation for `d` only after the shield is evicted. */
  lemma {:induction false} HoldingNeedsEviction(states: seq<System>, steps: seq<Step>, capacity: nat, m: nat, j: nat,
                                                d: DispatchId, c: nat) returns (k: nat)
    requires IsRun(states, steps, capacity) && m <= j < |states|
    requires Shielded(states[m], d, c) || Barred(states[m], d, c)
    requires IsFor(states[j], c, d) && Owns(states[j].callers[c].stage)
    ensures m <= k < j && EvictsShield(states[k], steps[k], states[k + 1], d, c)
    decreases j - m
  {
    assert m < j;
    RunKeepsInv(states, steps, capacity, m);
    if Barred(states[m], d, c) {
      BarredStays(states[m], capacity, steps[m], d, c);
    } else {
      ShieldedStep(states[m], capacity, steps[m], d, c);
      if EvictsShield(states[m], steps[m], states[m + 1], d, c) {
        return m;
      }
    }
    k := HoldingNeedsEviction(states, steps, capacity, m + 1, j, d, c);
  }

  predicate Accepting(s: System, c: nat, r: Request) {
    c in s.callers && s.callers[c].request == r && (s.callers[c].stage.Admitted? || s.callers[c].stage.Recorded?)
  }

  lemma AcceptingStays(s: System, capacity: nat, step: Step, c: nat, r: Request)
    requires Claims(s) && Accepting(s, c, r) && Enabled(s, step) && !Ends(step, c)
    ensures Accepting(Apply(s, capacity, step), c, r)
  {
    if Concerns(step, c) {
      hide TryReserve, ReleaseInFlight, CompleteWithDone, RecordAcknowledgement;
    } else {
      OthersStand(s, capacity, step, c);
      hide Apply;
    }
  }

  /** An admitted caller stays so until the step `m` that ends it, or to the end `j`. */
  lemma {:induction false} AcceptingUntil(states: seq<System>, steps: seq<Step>, capacity: nat, i: nat, j: nat,
                                          c: nat, r: Request) returns (m: nat)
    requires IsRun(states, steps, capacity) && i <= j < |states|
    requires Accepting(states[i], c, r)
    ensures i <= m <= j && Accepting(states[m], c, r)
    ensures m < j ==> Ends(steps[m], c)
    decreases j - i
  {
    if i == j || Ends(steps[i], c) {
      return i;
    }
    RunKeepsInv(states, steps, capacity, i);
    AcceptingStays(states[i], capacity, steps[i], c, r);
    m := AcceptingUntil(states, steps, capacity, i + 1, j, c, r);
  }

  /** After a promotion every other caller of the dispatch is barred or shielded. */
  lemma PromotionShields(s: System, capacity: nat, b: nat, c: nat)
    requires Inv(s) && Enabled(s, Promote(b))
    ensures var d, s' := s.callers[b].request.dispatchId, DoPromote(s, b);
      Shielded(s', d, c) || Barred(s', d, c)
  {
    var d, s' := s.callers[b].request.dispatchId, DoPromote(s, b);
    assert CallerTrue(s, s.callers[b]);
    assert Keeps(s, ByCaller(b)) && Carries(s.ledger, KeptKey(s, ByCaller(b)), KeptChannel(s, ByCaller(b)));
    if c != b && IsFor(s, c, d) {
      SameDispatchSameKey(s, b, c);
      OneKeeperPerKey(s);
      assert !Keeps(s, ByCaller(c));
    }
  }

  lemma {:induction false} BarredForever(states: seq<System>, steps: seq<Step>, capacity: nat, m: nat, j: nat,
                                         d: DispatchId, c: nat)
    requires IsRun(states, steps, capacity) && m <= j < |states| && Barred(states[m], d, c)
    ensures Barred(states[j], d, c)
  {
    hide Apply, Enabled;
    if m < j {
      BarredForever(states, steps, capacity, m, j - 1, d, c);
      BarredStays(states[j - 1], capacity, steps[j - 1], d, c);
    }
  }

  lemma EndBars(s: System, capacity: nat, step: Step, b: nat, c: nat, r: Request)
    requires Enabled(s, step) && Accepting(s, b, r) && Ends(step, b) && AckStored(s, r.dispatchId)
    requires c == b || step.Restart?
    ensures Barred(Apply(s, capacity, step), r.dispatchId, c)
  {
    hide ReleaseInFlight, CompleteWithDone, SetReceivers;
  }

  /** If the acknowledgement was stored when a holder ended, only a caller that was stale then can come to hold
      the dispatch, and only without a restart. */
  lemma OnlyStaleComesToHold(states: seq<System>, steps: seq<Step>, capacity: nat, m: nat, j: nat, b: nat, c: nat,
                             r: Request)
    requires IsRun(states, steps, capacity) && m < j < |states|
    requires Accepting(states[m], b, r) && Ends(steps[m], b) && AckStored(states[m], r.dispatchId)
    requires IsFor(states[j], c, r.dispatchId) && Owns(states[j].callers[c].stage)
    ensures Stale(states[m], r.dispatchId, c) && !steps[m].Restart?
  {
    hide Apply;
    var d := r.dispatchId;
    RunKeepsInv(states, steps, capacity, m);
    if c == b || steps[m].Restart? {
      EndBars(states[m], capacity, steps[m], b, c, r);
      BarredForever(states, steps, capacity, m + 1, j, d, c);
    } else if !Stale(states[m], d, c) {
      if IsFor(states[m], c, d) && Owns(states[m].callers[c].stage) {
        MutualExclusion(states, steps, capacity, m, b, c);
      }
      BarredForever(states, steps, capacity, m, j, d, c);
    }
  }

  /** Why two admissions were accepted. The first holder ended at step `m`. Had its acknowledgement been stored by
      then, the second holder had read an empty one before and not yet reserved, and `m` was no restart; and if the
      first was promoted, its cached acknowledgement was evicted while the second was still to reserve. */
  ghost predicate Excused(states: seq<System>, steps: seq<Step>, i: nat, j: nat, m: nat)
    requires |states| == |steps| + 1 && i < j < |steps| && steps[i].Admit? && steps[j].Admit?
    requires steps[i].c in states[i].callers
  {
    var d := states[i].callers[steps[i].c].request.dispatchId;
    && i < m < j && Ends(steps[m], steps[i].c)
    && (AckStored(states[m], d) ==> Stale(states[m], d, steps[j].c) && !steps[m].Restart?)
    && (steps[m].Promote? ==> exists k :: m < k < j && EvictsShield(states[k], steps[k], states[k + 1], d, steps[j].c))
  }

  /** At most once: two accepted admissions of one dispatch id, at steps `i < j`, always have such an excuse. */
  lemma AtMostOnceAdmission(states: seq<System>, steps: seq<Step>, capacity: nat, i: nat, j: nat)
    requires IsRun(states, steps, capacity) && i < j < |steps|
    requires steps[i].Admit? && steps[j].Admit?
    requires Enabled(states[i], steps[i]) && Enabled(states[j], steps[j])
    requires states[i].callers[steps[i].c].request.dispatchId == states[j].callers[steps[j].c].request.dispatchId
    ensures exists m :: Excused(states, steps, i, j, m)
  {
    var b, c, r := steps[i].c, steps[j].c, states[i].callers[steps[i].c].request;
    assert Accepting(states[i + 1], b, r);
    var m := AcceptingUntil(states, steps, capacity, i + 1, j, b, r);
    RunKeepsInv(states, steps, capacity, m);
    if m == j {
      MutualExclusion(states, steps, capacity, j, b, c);
      assert false;
    }
    if AckStored(states[m], r.dispatchId) {
      OnlyStaleComesToHold(states, steps, capacity, m, j, b, c, r);
    }
    if steps[m].Promote? {
      PromotionShields(states[m], capacity, b, c);
      var k := HoldingNeedsEviction(states, steps, capacity, m + 1, j, r.dispatchId, c);
    }
    assert Excused(states, steps, i, j, m);
  }
}
