/** `handle_agent_work` as a step relation: callers interleave at every await, share one ledger and one durable
    store, fail, are dropped, or lose the whole process. */
module Admission {
  import opened Base
  import opened AgentWork
  import opened LedgerModel

  /** Where a caller stands after it has claimed its dispatch id and read an empty acknowledgement. */
  datatype Stage =
    | Ready                                          // about to reserve
    | Joining(channel: nat)                          // told that a reservation is in flight, not yet subscribed
    | Awaiting(channel: nat)                         // subscribed, saw Pending
    | Retrying(channel: nat)                         // saw a final state, about to reserve again
    | Holding(channel: nat)                          // owns the reservation, guard armed
    | Admitted(channel: nat, admissionId: string)    // admission accepted, acknowledgement not yet stored
    | Recorded(channel: nat, ack: Ack)               // acknowledgement stored, slot not yet promoted

  datatype Caller = Caller(request: Request, executionId: ExecutionId, stage: Stage)

  /** A release spawned by a guard that found the ledger locked. Only the key takes part in the release; the
      channel names the reservation the guard stood for. */
  datatype Release = Release(key: Key, channel: nat)

  /** The error codes a caller is refused with: DUPLICATE_DISPATCH_CONFLICT, DURABLE_ACCEPTANCE_FAILED,
      IN_FLIGHT_RETRY, IN_FLIGHT_TIMEOUT, and any code for a request that is not admitted. */
  datatype Reason = PayloadConflict | StorageFailed | RetryLater | TimedOut | NotAdmitted

  datatype Reply = Accepted(ack: Ack) | Refused(reason: Reason)

  datatype Answer = Answer(request: Request, reply: Reply)

  datatype Accept = Accept(request: Request, admissionId: string)

  /** `admissions` lists every accepted admission and `answers` every response sent, oldest first. */
  datatype System = System(store: Store, ledger: Ledger, callers: map<nat, Caller>, nextCaller: nat,
                           deferred: set<Release>, admissions: seq<Accept>, answers: seq<Answer>)

  const START := System(map[], EMPTY_LEDGER, map[], 0, {}, [], [])

  datatype Step =
    | Claim(request: Request)                        // claim_or_reuse and the acknowledgement check
    | ClaimFails(request: Request, inserted: bool)   // storage error, before or after the row was inserted
    | Reserve(c: nat)
    | Subscribe(c: nat)
    | Wake(c: nat)
    | Expire(c: nat)                                 // five seconds without a final state
    | Rereserve(c: nat)
    | Reject(c: nat, lockFree: bool)                 // any error between the reservation and an accepted admission
    | Admit(c: nat, admissionId: string)
    | RecordFails(c: nat, lockFree: bool)
    | Record(c: nat)
    | Promote(c: nat)
    | Abandon(c: nat, lockFree: bool)                // the caller's future is dropped
    | RunRelease(release: Release)                   // a deferred release gets the ledger lock
    | Restart                                        // the process is replaced; only the store survives

  predicate Owns(stage: Stage) { stage.Holding? || stage.Admitted? || stage.Recorded? }

  predicate Listens(stage: Stage) { stage.Awaiting? || stage.Retrying? }

  predicate Enabled(s: System, step: Step) {
    match step
    case Claim(_) => true
    case ClaimFails(_, _) => true
    case Reserve(c) => c in s.callers && s.callers[c].stage.Ready?
    case Subscribe(c) => c in s.callers && s.callers[c].stage.Joining?
    case Wake(c) => c in s.callers && s.callers[c].stage.Awaiting?
        && s.callers[c].stage.channel < |s.ledger.channels|
        && !s.ledger.channels[s.callers[c].stage.channel].state.Pending?
    case Expire(c) => c in s.callers && s.callers[c].stage.Awaiting?
    case Rereserve(c) => c in s.callers && s.callers[c].stage.Retrying?
    case Reject(c, _) => c in s.callers && s.callers[c].stage.Holding?
    case Admit(c, _) => c in s.callers && s.callers[c].stage.Holding?
    case RecordFails(c, _) => c in s.callers && s.callers[c].stage.Admitted?
    case Record(c) => c in s.callers && s.callers[c].stage.Admitted? && s.callers[c].request.dispatchId in s.store
    case Promote(c) => c in s.callers && s.callers[c].stage.Recorded?
    case Abandon(c, _) => c in s.callers
    case RunRelease(r) => r in s.deferred
    case Restart => true
  }

  function Move(s: System, c: nat, stage: Stage): System
    requires c in s.callers
  {
    s.(callers := s.callers[c := s.callers[c].(stage := stage)])
  }

  /** Caller `c` returns `reply`. */
  function Finish(s: System, c: nat, reply: Reply): System
    requires c in s.callers
  {
    s.(callers := s.callers - {c}, answers := s.answers + [Answer(s.callers[c].request, reply)])
  }

  function WithLedger(s: System, ledger: Ledger): System { s.(ledger := ledger) }

  function SetReceivers(l: Ledger, channel: nat, receivers: set<nat>): Ledger
    requires channel < |l.channels|
  {
    l.(channels := l.channels[channel := l.channels[channel].(receivers := receivers)])
  }

  /** Caller `c` drops its receiver, if it has one. */
  function Unsubscribe(s: System, c: nat): System
    requires c in s.callers
  {
    var stage := s.callers[c].stage;
    if Listens(stage) && stage.channel < |s.ledger.channels| then
      WithLedger(s, SetReceivers(s.ledger, stage.channel, s.ledger.channels[stage.channel].receivers - {c}))
    else s
  }

  /** The armed guard of caller `c`, if it has one, is dropped. */
  function DropGuard(s: System, c: nat, lockFree: bool): System
    requires c in s.callers
  {
    var Caller(r, _, stage) := s.callers[c];
    if !Owns(stage) then s
    else if lockFree then WithLedger(s, ReleaseInFlight(s.ledger, LedgerKey(r)))
    else s.(deferred := s.deferred + {Release(LedgerKey(r), stage.channel)})
  }

  function DoClaim(s: System, r: Request): System {
    var (store, claim) := ClaimOrReuse(s.store, r.dispatchId, DurableFingerprint(r));
    var s' := s.(store := store);
    if claim.Conflict? then s'.(answers := s.answers + [Answer(r, Refused(PayloadConflict))])
    else if claim.row.acknowledgement.Some? then
      s'.(answers := s.answers + [Answer(r, Accepted(claim.row.acknowledgement.value))])
    else
      s'.(callers := s.callers[s.nextCaller := Caller(r, claim.row.executionId, Ready)],
          nextCaller := s.nextCaller + 1)
  }

  function Attempt(s: System, capacity: nat, c: nat): (Ledger, Outcome)
    requires c in s.callers
  {
    var r := s.callers[c].request;
    TryReserve(s.ledger, capacity, LedgerKey(r), Fingerprint(r))
  }

  function DoReserve(s: System, capacity: nat, c: nat): System
    requires c in s.callers
  {
    var (l, out) := Attempt(s, capacity, c);
    match out
    case Fresh(channel) => Move(WithLedger(s, l), c, Holding(channel))
    case Cached(ack) => Finish(s, c, Accepted(ack))
    case Joined(channel) => Move(s, c, Joining(channel))
    case Mismatch => Finish(s, c, Refused(PayloadConflict))
  }

  /** A waiter that saw a final state reserves again, and keeps a cached acknowledgement only. A slot that this
      attempt creates gets no guard. */
  function DoRereserve(s: System, capacity: nat, c: nat): System
    requires c in s.callers
  {
    var (l, out) := Attempt(s, capacity, c);
    var s' := Unsubscribe(WithLedger(s, l), c);
    Finish(s', c, if out.Cached? then Accepted(out.ack) else Refused(RetryLater))
  }

  function DoSubscribe(s: System, c: nat): System
    requires c in s.callers && s.callers[c].stage.Joining?
  {
    var ch := s.callers[c].stage.channel;
    if ch >= |s.ledger.channels| then s
    else
      var watch := s.ledger.channels[ch];
      Move(WithLedger(s, SetReceivers(s.ledger, ch, watch.receivers + {c})), c,
           if watch.state.Pending? then Awaiting(ch) else Retrying(ch))
  }

  function AckOf(caller: Caller): Ack
    requires caller.stage.Admitted?
  {
    BuildAck(caller.request, caller.stage.admissionId, caller.executionId)
  }

  function DoRecord(s: System, c: nat): System
    requires Enabled(s, Record(c))
  {
    var caller := s.callers[c];
    var store := RecordAcknowledgement(s.store, caller.request.dispatchId, AckOf(caller));
    Move(s.(store := store), c, Recorded(caller.stage.channel, AckOf(caller)))
  }

  function DoPromote(s: System, c: nat): System
    requires Enabled(s, Promote(c))
  {
    var Caller(r, _, stage) := s.callers[c];
    Finish(WithLedger(s, CompleteWithDone(s.ledger, LedgerKey(r), Fingerprint(r), stage.ack)), c, Accepted(stage.ack))
  }

  function Apply(s: System, capacity: nat, step: Step): System
    requires Enabled(s, step)
  {
    match step
    case Claim(r) => DoClaim(s, r)
    case ClaimFails(r, inserted) =>
      s.(store := if inserted then ClaimOrReuse(s.store, r.dispatchId, DurableFingerprint(r)).0 else s.store,
         answers := s.answers + [Answer(r, Refused(StorageFailed))])
    case Reserve(c) => DoReserve(s, capacity, c)
    case Subscribe(c) => DoSubscribe(s, c)
    case Wake(c) => Move(s, c, Retrying(s.callers[c].stage.channel))
    case Expire(c) => Finish(Unsubscribe(s, c), c, Refused(TimedOut))
    case Rereserve(c) => DoRereserve(s, capacity, c)
    case Reject(c, lockFree) => Finish(DropGuard(s, c, lockFree), c, Refused(NotAdmitted))
    case Admit(c, id) =>
      Move(s.(admissions := s.admissions + [Accept(s.callers[c].request, id)]), c,
           Admitted(s.callers[c].stage.channel, id))
    case RecordFails(c, lockFree) => Finish(DropGuard(s, c, lockFree), c, Refused(StorageFailed))
    case Record(c) => DoRecord(s, c)
    case Promote(c) => DoPromote(s, c)
    case Abandon(c, lockFree) =>
      var s' := DropGuard(Unsubscribe(s, c), c, lockFree);
      s'.(callers := s'.callers - {c})
    case RunRelease(r) =>
      WithLedger(s, ReleaseInFlight(s.ledger, r.key)).(deferred := s.deferred - {r})
    case Restart => s.(ledger := EMPTY_LEDGER, callers := map[], deferred := {})
  }

  /** A run: the states passed through and the steps between them, from the empty system. */
  ghost predicate IsRun(states: seq<System>, steps: seq<Step>, capacity: nat) {
    && |states| == |steps| + 1
    && states[0] == START
    && forall i :: 0 <= i < |steps| ==>
         Enabled(states[i], steps[i]) && states[i + 1] == Apply(states[i], capacity, steps[i])
  }

  ghost predicate Extends(states: seq<System>, steps: seq<Step>, states': seq<System>, steps': seq<Step>) {
    states <= states' && steps <= steps'
  }

  /** A run goes on with any enabled step. */
  lemma Extend(states: seq<System>, steps: seq<Step>, capacity: nat, step: Step)
    returns (states': seq<System>, steps': seq<Step>)
    requires IsRun(states, steps, capacity) && Enabled(states[|steps|], step)
    ensures IsRun(states', steps', capacity) && Extends(states, steps, states', steps')
    ensures states' == states + [Apply(states[|steps|], capacity, step)] && steps' == steps + [step]
  {
    hide Apply, Enabled;
    states', steps' := states + [Apply(states[|steps|], capacity, step)], steps + [step];
  }
}
