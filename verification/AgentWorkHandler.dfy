/** One `agent.work` call that runs without others in between: the ledger, its guard and the store driven in place,
    the same call as a run of the step relation, and what repeating it gives. */
module AgentWorkHandler {
  import opened Base
  import opened AgentWork
  import LedgerModel
  import opened WorkLedger
  import opened Admission
  import opened AdmissionTruth
  import opened AdmissionInvariant
  import AtMostOnce
  import opened AdmissionRuns
  import opened Waiters
  import opened Divergence

  /** What the surroundings answer: a storage failure at the claim, before or after the row was inserted, any
      rejection between the reservation and an accepted admission, the admission's id, a storage failure at the
      acknowledgement, and whether a dropped guard finds the ledger unlocked. */
  datatype Surroundings = Surroundings(claimFails: bool, inserted: bool, rejected: bool, admissionId: string,
                                       recordFails: bool, lockFree: bool)

  /** A call's effect: `admitted` if an admission was accepted, `deferred` if its guard left a release to do. */
  datatype Handled = Handled(store: Store, ledger: LedgerModel.Ledger, reply: Reply, admitted: Option<string>,
                             deferred: Option<Key>)

  function Handle(store: Store, ledger: LedgerModel.Ledger, capacity: nat, r: Request, env: Surroundings): Handled {
    var (claimed, claim) := ClaimOrReuse(store, r.dispatchId, DurableFingerprint(r));
    if env.claimFails then
      Handled(if env.inserted then claimed else store, ledger, Refused(StorageFailed), None, None)
    else if claim.Conflict? then Handled(claimed, ledger, Refused(PayloadConflict), None, None)
    else if claim.row.acknowledgement.Some? then
      Handled(claimed, ledger, Accepted(claim.row.acknowledgement.value), None, None)
    else HandleClaimed(claimed, claim.row.executionId, ledger, capacity, r, env)
  }

  function HandleClaimed(store: Store, id: ExecutionId, ledger: LedgerModel.Ledger, capacity: nat, r: Request,
                         env: Surroundings): Handled
    requires r.dispatchId in store
  {
    var (reserved, out) := LedgerModel.TryReserve(ledger, capacity, LedgerKey(r), Fingerprint(r));
    match out
    case Cached(ack) => Handled(store, reserved, Accepted(ack), None, None)
    case Mismatch => Handled(store, reserved, Refused(PayloadConflict), None, None)
    case Joined(_) => Handled(store, ledger, Refused(TimedOut), None, None)
    case Fresh(_) => HandleHolding(store, id, reserved, r, env)
  }

  function HandleHolding(store: Store, id: ExecutionId, ledger: LedgerModel.Ledger, r: Request,
                         env: Surroundings): Handled
    requires r.dispatchId in store
  {
    if env.rejected || env.recordFails then
      Handled(store, if env.lockFree then LedgerModel.ReleaseInFlight(ledger, LedgerKey(r)) else ledger,
              Refused(if env.rejected then NotAdmitted else StorageFailed),
              if env.rejected then None else Some(env.admissionId), if env.lockFree then None else Some(LedgerKey(r)))
    else
      var ack := BuildAck(r, env.admissionId, id);
      Handled(RecordAcknowledgement(store, r.dispatchId, ack),
              LedgerModel.CompleteWithDone(ledger, LedgerKey(r), Fingerprint(r), ack),
              Accepted(ack), Some(env.admissionId), None)
  }

  class RuntimeHandler {
    const ledger: AgentWorkLedger
    var store: Store

    constructor (ledger: AgentWorkLedger)
      ensures this.ledger == ledger && store == map[]
    {
      this.ledger, store := ledger, map[];
    }

    method HandleAgentWork(r: Request, env: Surroundings)
      returns (reply: Reply, admitted: Option<string>, deferred: Option<Key>)
      requires ledger.Valid()
      modifies this, ledger
      ensures ledger.Valid()
      ensures Handle(old(store), old(ledger.Model()), LedgerModel.CAPACITY, r, env)
           == Handled(store, ledger.Model(), reply, admitted, deferred)
    {
      hide LedgerModel.TryReserve, LedgerModel.WellFormed, LedgerModel.ReleaseInFlight, LedgerModel.CompleteWithDone;
      admitted, deferred := None, None;
      var (claimed, claim) := ClaimOrReuse(store, r.dispatchId, DurableFingerprint(r));
      if env.claimFails {
        store := if env.inserted then claimed else store;
        return Refused(StorageFailed), None, None;
      }
      store := claimed;
      if claim.Conflict? {
        return Refused(PayloadConflict), None, None;
      }
      if claim.row.acknowledgement.Some? {
        return Accepted(claim.row.acknowledgement.value), None, None;
      }
      var key := LedgerKey(r);
      var out := ledger.TryReserve(key, Fingerprint(r));
      match out
      case Cached(ack) => reply := Accepted(ack);
      case Mismatch => reply := Refused(PayloadConflict);
      case Joined(_) =>
        LedgerModel.TryReserveJoined(old(ledger.Model()), LedgerModel.CAPACITY, key, Fingerprint(r));
        reply := Refused(TimedOut);
      case Fresh(_) =>
        reply, admitted, deferred := AdmitHolding(r, claim.row.executionId, env);
    }

    /** The guarded part: the guard's drop releases the slot on every way out but the last. */
    method AdmitHolding(r: Request, id: ExecutionId, env: Surroundings)
      returns (reply: Reply, admitted: Option<string>, deferred: Option<Key>)
      requires ledger.Valid() && r.dispatchId in store
      modifies this, ledger
      ensures ledger.Valid()
      ensures HandleHolding(old(store), id, old(ledger.Model()), r, env)
           == Handled(store, ledger.Model(), reply, admitted, deferred)
    {
      hide LedgerModel.WellFormed, LedgerModel.ReleaseInFlight, LedgerModel.CompleteWithDone;
      var guard := new InFlightGuard(ledger, LedgerKey(r));
      if env.rejected {
        deferred := guard.Drop(env.lockFree, true);
        return Refused(NotAdmitted), None, deferred;
      }
      admitted := Some(env.admissionId);
      var ack := BuildAck(r, env.admissionId, id);
      if env.recordFails {
        deferred := guard.Drop(env.lockFree, true);
        return Refused(StorageFailed), admitted, deferred;
      }
      store := RecordAcknowledgement(store, r.dispatchId, ack);
      ledger.CompleteWithDone(LedgerKey(r), Fingerprint(r), ack);
      guard.Disarm();
      deferred := guard.Drop(env.lockFree, true);
      reply := Accepted(ack);
    }
  }

  // ----- The call as part of a run -----

  /** `t` is `s` after the call of `r` that had effect `h`. */
  ghost predicate Called(s: System, t: System, r: Request, h: Handled) {
    && t.store == h.store && t.ledger == h.ledger && t.callers == s.callers
    && t.answers == s.answers + [Answer(r, h.reply)]
    && t.admissions == s.admissions + (match h.admitted case None => [] case Some(id) => [Accept(r, id)])
    && t.deferred == s.deferred
                   + (match h.deferred case None => {} case Some(key) => {Release(key, |s.ledger.channels|)})
  }

  /** Nobody is registered under the number the next caller gets. */
  ghost predicate NextIsNew(s: System) {
    && s.nextCaller !in s.callers
    && forall ch :: 0 <= ch < |s.ledger.channels| ==> s.nextCaller !in s.ledger.channels[ch].receivers
  }

  lemma ReachableNextIsNew(states: seq<System>, steps: seq<Step>, capacity: nat)
    requires IsRun(states, steps, capacity)
    ensures NextIsNew(states[|steps|]) && LedgerModel.WellFormed(states[|steps|].ledger)
  {
    var s := states[|steps|];
    InvOwned(states, steps, capacity, |steps|);
    RunKeepsListening(states, steps, capacity, |steps|);
    forall ch | 0 <= ch < |s.ledger.channels| ensures s.nextCaller !in s.ledger.channels[ch].receivers {
      assert !ListensTo(s, s.nextCaller, ch);
    }
  }

  /** `t` is `s` with the call of `r` under way as the next caller, at `stage`. */
  ghost predicate UnderWay(s: System, t: System, r: Request, id: ExecutionId, stage: Stage) {
    && t.callers == s.callers[s.nextCaller := Caller(r, id, stage)]
    && t.answers == s.answers && t.deferred == s.deferred
  }

  lemma ReserveAnswers(s: System, t: System, capacity: nat, r: Request, id: ExecutionId)
    requires NextIsNew(s) && UnderWay(s, t, r, id, Ready) && t.admissions == s.admissions && r.dispatchId in t.store
    requires var out := LedgerModel.TryReserve(t.ledger, capacity, LedgerKey(r), Fingerprint(r)).1;
      out.Cached? || out.Mismatch?
    ensures Enabled(t, Reserve(s.nextCaller))
    ensures forall env ::
      Called(s, Apply(t, capacity, Reserve(s.nextCaller)), r, HandleClaimed(t.store, id, t.ledger, capacity, r, env))
  {
    hide LedgerModel.TryReserve;
    AttemptOutcome(t.ledger, capacity, r);
  }

  lemma AttemptOutcome(l: LedgerModel.Ledger, capacity: nat, r: Request)
    ensures var (l', out) := LedgerModel.TryReserve(l, capacity, LedgerKey(r), Fingerprint(r));
      if out.Fresh? then out.channel == |l.channels| else l' == l
  {
  }

  /** A call that finds a reservation in flight waits in vain, or finds it ended and reserves again in vain. */
  lemma JoinAnswers(states: seq<System>, steps: seq<Step>, s: System, t: System, capacity: nat, r: Request,
                    id: ExecutionId)
    returns (states': seq<System>, steps': seq<Step>)
    requires IsRun(states, steps, capacity) && t == states[|steps|]
    requires NextIsNew(s) && UnderWay(s, t, r, id, Ready) && t.admissions == s.admissions && r.dispatchId in t.store
    requires t.ledger == s.ledger && LedgerModel.WellFormed(s.ledger)
    requires LedgerModel.TryReserve(t.ledger, capacity, LedgerKey(r), Fingerprint(r)).1.Joined?
    ensures IsRun(states', steps', capacity) && Extends(states, steps, states', steps')
    ensures forall env :: Called(s, states'[|steps'|], r, HandleClaimed(t.store, id, t.ledger, capacity, r, env))
  {
    var c := s.nextCaller;
    states', steps' := Extend(states, steps, capacity, Reserve(c));
    states', steps' := Extend(states', steps', capacity, Subscribe(c));
    var v := states'[|steps'|];
    if v.callers[c].stage.Awaiting? {
      states', steps' := Extend(states', steps', capacity, Expire(c));
    } else {
      states', steps' := Extend(states', steps', capacity, Rereserve(c));
    }
  }

  lemma ReserveHolds(s: System, t: System, capacity: nat, r: Request, id: ExecutionId)
    requires UnderWay(s, t, r, id, Ready)
    requires LedgerModel.TryReserve(t.ledger, capacity, LedgerKey(r), Fingerprint(r)).1.Fresh?
    ensures var (l, out) := LedgerModel.TryReserve(t.ledger, capacity, LedgerKey(r), Fingerprint(r));
      var u := Apply(t, capacity, Reserve(s.nextCaller));
      UnderWay(s, u, r, id, Holding(out.channel)) && u == t.(callers := u.callers, ledger := l)
  {
    hide LedgerModel.TryReserve;
  }

  /** A rejected or failing holder leaves through its guard. */
  lemma GuardLeaves(s: System, u: System, capacity: nat, r: Request, id: ExecutionId, stage: Stage, lockFree: bool,
                    step: Step)
    requires NextIsNew(s) && UnderWay(s, u, r, id, stage)
    requires (stage.Holding? && step == Reject(s.nextCaller, lockFree))
          || (stage.Admitted? && step == RecordFails(s.nextCaller, lockFree))
    ensures Enabled(u, step)
    ensures var t := Apply(u, capacity, step);
      && t.store == u.store && t.callers == s.callers && t.admissions == u.admissions
      && t.answers == s.answers + [Answer(r, Refused(if stage.Holding? then NotAdmitted else StorageFailed))]
      && t.ledger == (if lockFree then LedgerModel.ReleaseInFlight(u.ledger, LedgerKey(r)) else u.ledger)
      && t.deferred == s.deferred + (if lockFree then {} else {Release(LedgerKey(r), stage.channel)})
  {
    hide LedgerModel.ReleaseInFlight;
  }

  lemma AdmitStep(s: System, u: System, capacity: nat, r: Request, id: ExecutionId, ch: nat, admissionId: string)
    requires UnderWay(s, u, r, id, Holding(ch)) && u.admissions == s.admissions
    ensures var t := Apply(u, capacity, Admit(s.nextCaller, admissionId));
      && UnderWay(s, t, r, id, Admitted(ch, admissionId)) && t == u.(callers := t.callers, admissions := t.admissions)
      && t.admissions == s.admissions + [Accept(r, admissionId)]
  {
  }

  lemma RecordStep(s: System, u: System, capacity: nat, r: Request, id: ExecutionId, ch: nat, admissionId: string)
    requires UnderWay(s, u, r, id, Admitted(ch, admissionId)) && r.dispatchId in u.store
    ensures Enabled(u, Record(s.nextCaller))
    ensures var t, ack := Apply(u, capacity, Record(s.nextCaller)), BuildAck(r, admissionId, id);
      && UnderWay(s, t, r, id, Recorded(ch, ack)) && t == u.(callers := t.callers, store := t.store)
      && t.store == RecordAcknowledgement(u.store, r.dispatchId, ack)
  {
  }

  lemma PromoteLeaves(s: System, u: System, capacity: nat, r: Request, id: ExecutionId, ch: nat, ack: Ack)
    requires NextIsNew(s) && UnderWay(s, u, r, id, Recorded(ch, ack))
    ensures var t := Apply(u, capacity, Promote(s.nextCaller));
      && t.store == u.store && t.callers == s.callers && t.admissions == u.admissions && t.deferred == s.deferred
      && t.answers == s.answers + [Answer(r, Accepted(ack))]
      && t.ledger == LedgerModel.CompleteWithDone(u.ledger, LedgerKey(r), Fingerprint(r), ack)
  {
    hide LedgerModel.CompleteWithDone;
  }

  /** A holder is rejected, fails to store its acknowledgement, or is promoted. */
  lemma HolderAnswers(states: seq<System>, steps: seq<Step>, s: System, u: System, capacity: nat, r: Request,
                      id: ExecutionId, env: Surroundings)
    returns (states': seq<System>, steps': seq<Step>)
    requires IsRun(states, steps, capacity) && u == states[|steps|] && r.dispatchId in u.store
    requires NextIsNew(s) && UnderWay(s, u, r, id, Holding(|s.ledger.channels|)) && u.admissions == s.admissions
    ensures IsRun(states', steps', capacity) && Extends(states, steps, states', steps')
    ensures Called(s, states'[|steps'|], r, HandleHolding(u.store, id, u.ledger, r, env))
  {
    hide LedgerModel.ReleaseInFlight, LedgerModel.CompleteWithDone, Apply, Enabled, NextIsNew;
    var c, ch := s.nextCaller, |s.ledger.channels|;
    HolderMay(s, u, r, id, Holding(ch));
    if env.rejected {
      GuardLeaves(s, u, capacity, r, id, Holding(ch), env.lockFree, Reject(c, env.lockFree));
      states', steps' := Extend(states, steps, capacity, Reject(c, env.lockFree));
      return;
    }
    AdmitStep(s, u, capacity, r, id, ch, env.admissionId);
    states', steps' := Extend(states, steps, capacity, Admit(c, env.admissionId));
    var v := states'[|steps'|];
    if env.recordFails {
      GuardLeaves(s, v, capacity, r, id, Admitted(ch, env.admissionId), env.lockFree, RecordFails(c, env.lockFree));
      states', steps' := Extend(states', steps', capacity, RecordFails(c, env.lockFree));
      return;
    }
    RecordStep(s, v, capacity, r, id, ch, env.admissionId);
    states', steps' := Extend(states', steps', capacity, Record(c));
    var w, ack := states'[|steps'|], BuildAck(r, env.admissionId, id);
    HolderMay(s, w, r, id, Recorded(ch, ack));
    PromoteLeaves(s, w, capacity, r, id, ch, ack);
    states', steps' := Extend(states', steps', capacity, Promote(c));
  }

  lemma HoldAnswers(states: seq<System>, steps: seq<Step>, s: System, t: System, capacity: nat, r: Request,
                    id: ExecutionId, env: Surroundings)
    returns (states': seq<System>, steps': seq<Step>)
    requires IsRun(states, steps, capacity) && t == states[|steps|]
    requires NextIsNew(s) && UnderWay(s, t, r, id, Ready) && t.admissions == s.admissions && r.dispatchId in t.store
    requires t.ledger == s.ledger
    requires LedgerModel.TryReserve(t.ledger, capacity, LedgerKey(r), Fingerprint(r)).1.Fresh?
    ensures IsRun(states', steps', capacity) && Extends(states, steps, states', steps')
    ensures Called(s, states'[|steps'|], r, HandleClaimed(t.store, id, t.ledger, capacity, r, env))
  {
    hide LedgerModel.TryReserve, Apply, Enabled, NextIsNew, HandleHolding, Called;
    AttemptOutcome(t.ledger, capacity, r);
    ReserveHolds(s, t, capacity, r, id);
    HolderMay(s, t, r, id, Ready);
    states', steps' := Extend(states, steps, capacity, Reserve(s.nextCaller));
    states', steps' := HolderAnswers(states', steps', s, states'[|steps'|], capacity, r, id, env);
  }

  /** The steps open to a caller at each stage. */
  lemma HolderMay(s: System, t: System, r: Request, id: ExecutionId, stage: Stage)
    requires UnderWay(s, t, r, id, stage)
    ensures s.nextCaller in t.callers && t.callers[s.nextCaller].stage == stage
    ensures stage.Ready? ==> Enabled(t, Reserve(s.nextCaller))
    ensures stage.Holding? ==> forall a :: Enabled(t, Admit(s.nextCaller, a))
    ensures stage.Recorded? ==> Enabled(t, Promote(s.nextCaller))
  {
  }

  lemma ClaimedGoesOn(states: seq<System>, steps: seq<Step>, s: System, t: System, capacity: nat, r: Request,
                      id: ExecutionId, env: Surroundings)
    returns (states': seq<System>, steps': seq<Step>)
    requires IsRun(states, steps, capacity) && t == states[|steps|]
    requires NextIsNew(s) && UnderWay(s, t, r, id, Ready) && t.admissions == s.admissions && r.dispatchId in t.store
    requires t.ledger == s.ledger && LedgerModel.WellFormed(s.ledger)
    ensures IsRun(states', steps', capacity) && Extends(states, steps, states', steps')
    ensures Called(s, states'[|steps'|], r, HandleClaimed(t.store, id, t.ledger, capacity, r, env))
  {
    hide Apply, Enabled, NextIsNew, LedgerModel.TryReserve, LedgerModel.WellFormed, HandleClaimed, UnderWay;
    var out := LedgerModel.TryReserve(t.ledger, capacity, LedgerKey(r), Fingerprint(r)).1;
    if out.Fresh? {
      states', steps' := HoldAnswers(states, steps, s, t, capacity, r, id, env);
    } else if out.Joined? {
      states', steps' := JoinAnswers(states, steps, s, t, capacity, r, id);
    } else {
      ReserveAnswers(s, t, capacity, r, id);
      states', steps' := Extend(states, steps, capacity, Reserve(s.nextCaller));
    }
  }

  /** After any run, a call that runs alone is a continuation of the run by steps of the protocol, with the effect of
      `Handle`. */
  lemma HandleExtendsRun(states: seq<System>, steps: seq<Step>, capacity: nat, r: Request, env: Surroundings)
    returns (states': seq<System>, steps': seq<Step>)
    requires IsRun(states, steps, capacity)
    ensures IsRun(states', steps', capacity) && Extends(states, steps, states', steps')
    ensures var s := states[|steps|];
      Called(s, states'[|steps'|], r, Handle(s.store, s.ledger, capacity, r, env))
  {
    hide HandleClaimed, NextIsNew, LedgerModel.WellFormed;
    var s := states[|steps|];
    ReachableNextIsNew(states, steps, capacity);
    var (claimed, claim) := ClaimOrReuse(s.store, r.dispatchId, DurableFingerprint(r));
    if env.claimFails {
      states', steps' := Extend(states, steps, capacity, ClaimFails(r, env.inserted));
    } else {
      states', steps' := Extend(states, steps, capacity, Claim(r));
      if claim.Claimed? && claim.row.acknowledgement.None? {
        hide Apply;
        var t := states'[|steps'|];
        states', steps' := ClaimedGoesOn(states', steps', s, t, capacity, r, claim.row.executionId, env);
      }
    }
  }

  // ----- Repeating a call -----

  /** In a reachable state, repeating a dispatch that was ever answered WORK_ACCEPTED, under any lease and after any
      restart, is accepted again without a new admission, whatever the surroundings, unless the claim itself fails. */
  lemma RetryIsNotAdmittedAgain(states: seq<System>, steps: seq<Step>, capacity: nat, i: nat, first: Answer, r: Request,
                                env: Surroundings, ledger: LedgerModel.Ledger)
    requires IsRun(states, steps, capacity) && i < |states|
    requires first in states[i].answers && first.reply.Accepted?
    requires r.dispatchId == first.request.dispatchId && r.payload == first.request.payload && !env.claimFails
    ensures var h := Handle(states[i].store, ledger, capacity, r, env);
      && h.admitted.None? && h.reply.Accepted? && h.store == states[i].store && h.ledger == ledger
      && Genuine(states[i].admissions, r.dispatchId, r.payload, h.reply.ack)
  {
    AnsweredIsStored(states, steps, capacity, i, first);
    AtMostOnce.RunKeepsInv(states, steps, capacity, i);
  }

  ghost predicate Answerable(store: Store, r: Request) {
    && r.dispatchId in store && store[r.dispatchId].acknowledgement.Some?
    && store[r.dispatchId].fingerprint == r.payload
  }

  lemma NewAnswerIsStored(s: System, capacity: nat, step: Step, a: Answer)
    requires AtMostOnce.Inv(s) && Enabled(s, step)
    requires a in Apply(s, capacity, step).answers && a !in s.answers && a.reply.Accepted?
    ensures Answerable(Apply(s, capacity, step).store, a.request)
  {
    AnswerOrigin(s, capacity, step, a);
    StepGrowsStore(s, capacity, step);
    hide Apply, Owned;
    if !step.Claim? {
      assert ClaimHolds(s.store, s.callers[step.c]) && CallerTrue(s, s.callers[step.c]);
      assert step.Reserve? || step.Rereserve? ==>
        SlotTrue(s, LedgerKey(a.request), s.ledger.entries[LedgerKey(a.request)]);
    }
  }

  /** A dispatch is answered WORK_ACCEPTED only once its acknowledgement is stored. */
  lemma {:induction false} AnsweredIsStored(states: seq<System>, steps: seq<Step>, capacity: nat, i: nat, a: Answer)
    requires IsRun(states, steps, capacity) && i < |states|
    requires a in states[i].answers && a.reply.Accepted?
    ensures Answerable(states[i].store, a.request)
  {
    hide Apply, Enabled;
    assert i > 0;
    if a in states[i - 1].answers {
      AnsweredIsStored(states, steps, capacity, i - 1, a);
      StepIsLater(states[i - 1], capacity, steps[i - 1]);
    } else {
      AtMostOnce.RunKeepsInv(states, steps, capacity, i - 1);
      NewAnswerIsStored(states[i - 1], capacity, steps[i - 1], a);
    }
  }
}
