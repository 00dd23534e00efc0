/** What every step answers, and that a waiter can be answered with its holder's acknowledgement. */
module Replies {
  import opened Base
  import opened AgentWork
  import opened LedgerModel
  import opened Admission
  import opened AdmissionInvariant
  import opened AtMostOnce
  import opened AdmissionRuns
  import opened Waiters

  // ----- Reservation attempts -----

  /** What is at the key of a request. */
  predicate IsFree(l: Ledger, r: Request) { LedgerKey(r) !in l.entries }

  predicate HasAck(l: Ledger, r: Request, ack: Ack) { !IsFree(l, r) && l.entries[LedgerKey(r)] == Done(r, ack) }

  predicate HasReservation(l: Ledger, r: Request, channel: nat) {
    !IsFree(l, r) && l.entries[LedgerKey(r)] == InFlight(r, channel)
  }

  predicate HasOther(l: Ledger, r: Request) { !IsFree(l, r) && l.entries[LedgerKey(r)].fingerprint != r }

  /** `c` has left with this reply. */
  ghost predicate Leaves(s: System, t: System, c: nat, reply: Reply) {
    c in s.callers && t.callers == s.callers - {c} && t.answers == s.answers + [Answer(s.callers[c].request, reply)]
  }

  /** `c` has moved to this stage; nothing was answered. */
  ghost predicate Moves(s: System, t: System, c: nat, stage: Stage) {
    c in s.callers && t.callers == s.callers[c := s.callers[c].(stage := stage)] && t.answers == s.answers
  }

  lemma FirstAttempt(s: System, capacity: nat, c: nat)
    requires Owned(s) && Enabled(s, Reserve(c))
    ensures var t, l, r := Apply(s, capacity, Reserve(c)), s.ledger, s.callers[c].request;
      && (forall ack :: HasAck(l, r, ack) ==> Leaves(s, t, c, Accepted(ack)))
      && (HasOther(l, r) ==> Leaves(s, t, c, Refused(PayloadConflict)))
      && (forall channel :: HasReservation(l, r, channel) ==> Moves(s, t, c, Joining(channel)))
      && (IsFree(l, r) ==> Moves(s, t, c, Holding(|l.channels|)) && HasReservation(t.ledger, r, |l.channels|))
      && (!IsFree(l, r) ==> t.ledger == l)
  {
    hide Evict;
    AttemptEffect(s, capacity, Reserve(c));
  }

  lemma SecondAttempt(s: System, capacity: nat, c: nat)
    requires Owned(s) && Enabled(s, Rereserve(c))
    ensures var t, l, r := Apply(s, capacity, Rereserve(c)), s.ledger, s.callers[c].request;
      && (forall ack :: HasAck(l, r, ack) ==> Leaves(s, t, c, Accepted(ack)))
      && ((forall ack :: !HasAck(l, r, ack)) ==> Leaves(s, t, c, Refused(RetryLater)))
  {
    hide Evict, SetReceivers;
    var l, r := s.ledger, s.callers[c].request;
    assert !IsFree(l, r) && l.entries[LedgerKey(r)].Done? && l.entries[LedgerKey(r)].fingerprint == r ==>
      HasAck(l, r, l.entries[LedgerKey(r)].ack);
  }

  /** Over any run, an attempt of caller `c` answers with an acknowledgement exactly if the slot at its key is its
      very request's with that acknowledgement. */
  lemma CachedAckIsAnswered(states: seq<System>, steps: seq<Step>, capacity: nat, i: nat, ack: Ack)
    requires IsRun(states, steps, capacity) && i < |steps| && (steps[i].Reserve? || steps[i].Rereserve?)
    requires Enabled(states[i], steps[i])
    ensures var s, t, r := states[i], states[i + 1], states[i].callers[steps[i].c].request;
      t.answers == s.answers + [Answer(r, Accepted(ack))] <==> HasAck(s.ledger, r, ack)
  {
    var s, t, c := states[i], states[i + 1], steps[i].c;
    InvOwned(states, steps, capacity, i);
    hide Apply, Owned;
    var r := s.callers[c].request;
    if steps[i].Reserve? {
      FirstAttempt(s, capacity, c);
    } else {
      SecondAttempt(s, capacity, c);
    }
    SlotCases(s.ledger, r);
    if t.answers == s.answers + [Answer(r, Accepted(ack))] {
      assert t.answers[|s.answers|] == Answer(r, Accepted(ack));
    }
  }

  /** Otherwise a first attempt makes the caller the holder of a free key, lets it join a reservation of its own
      request, and refuses it if the slot is another request's; a second attempt only tells the caller to retry. */
  lemma OtherAttempts(states: seq<System>, steps: seq<Step>, capacity: nat, i: nat)
    requires IsRun(states, steps, capacity) && i < |steps| && (steps[i].Reserve? || steps[i].Rereserve?)
    requires Enabled(states[i], steps[i])
    requires forall ack :: !HasAck(states[i].ledger, states[i].callers[steps[i].c].request, ack)
    ensures var s, t, c, r := states[i], states[i + 1], steps[i].c, states[i].callers[steps[i].c].request;
      if steps[i].Rereserve? then Leaves(s, t, c, Refused(RetryLater))
      else if HasOther(s.ledger, r) then Leaves(s, t, c, Refused(PayloadConflict))
      else if IsFree(s.ledger, r) then
        Moves(s, t, c, Holding(|s.ledger.channels|)) && HasReservation(t.ledger, r, |s.ledger.channels|)
      else exists channel :: HasReservation(s.ledger, r, channel) && Moves(s, t, c, Joining(channel))
  {
    var s, c := states[i], steps[i].c;
    InvOwned(states, steps, capacity, i);
    hide Apply, Owned;
    SlotCases(s.ledger, s.callers[c].request);
    if steps[i].Reserve? {
      FirstAttempt(s, capacity, c);
    } else {
      SecondAttempt(s, capacity, c);
    }
  }

  lemma SlotCases(l: Ledger, r: Request)
    ensures !IsFree(l, r) && !HasOther(l, r) ==>
      (exists ack :: HasAck(l, r, ack)) || exists channel :: HasReservation(l, r, channel)
  {
    if !IsFree(l, r) && !HasOther(l, r) {
      var slot := l.entries[LedgerKey(r)];
      assert if slot.Done? then HasAck(l, r, slot.ack) else HasReservation(l, r, slot.channel);
    }
  }

  // ----- All other steps -----

  /** What a step that is no attempt answers. */
  function SentBy(s: System, step: Step): seq<Answer>
    requires Enabled(s, step)
  {
    match step
    case Claim(r) =>
      if r.dispatchId !in s.store then []
      else
        var row := s.store[r.dispatchId];
        if row.fingerprint != r.payload then [Answer(r, Refused(PayloadConflict))]
        else if row.acknowledgement.Some? then [Answer(r, Accepted(row.acknowledgement.value))]
        else []
    case ClaimFails(r, _) => [Answer(r, Refused(StorageFailed))]
    case Expire(c) => [Answer(s.callers[c].request, Refused(TimedOut))]
    case Reject(c, _) => [Answer(s.callers[c].request, Refused(NotAdmitted))]
    case RecordFails(c, _) => [Answer(s.callers[c].request, Refused(StorageFailed))]
    case Promote(c) => [Answer(s.callers[c].request, Accepted(s.callers[c].stage.ack))]
    case _ => []
  }

  /** Every other step answers with its reply, if it has one, and whoever is answered leaves. */
  lemma OthersReply(s: System, capacity: nat, step: Step)
    requires Enabled(s, step) && !step.Reserve? && !step.Rereserve?
    ensures var t := Apply(s, capacity, step);
      && t.answers == s.answers + SentBy(s, step)
      && (!step.Claim? && !step.ClaimFails? && SentBy(s, step) != [] ==> t.callers == s.callers - {step.c})
      && (step.Abandon? ==> t.callers == s.callers - {step.c})
  {
    hide Attempt, ReleaseInFlight, CompleteWithDone, SetReceivers, RecordAcknowledgement;
    assert s.answers + [] == s.answers;
  }

  // ----- The store, the admissions and the way of a caller -----

  /** The request whose row a step inserts, if its dispatch has none. */
  predicate Inserts(step: Step, r: Request) { step == Claim(r) || step == ClaimFails(r, true) }

  /** A step adds an empty row for the dispatch it claims, or stores the acknowledgement that a holder built where none
      was stored, and does nothing else to the store. */
  lemma StoreChanges(s: System, capacity: nat, step: Step, d: DispatchId)
    requires Enabled(s, step)
    ensures var t := Apply(s, capacity, step);
      && (d in t.store <==> d in s.store || exists r :: Inserts(step, r) && r.dispatchId == d)
      && (forall r :: d !in s.store && Inserts(step, r) && r.dispatchId == d ==>
            t.store[d] == Row(r.payload, OpenabNative(d), None))
      && (d in s.store ==>
            t.store[d] == if step.Record? && IsFor(s, step.c, d) && s.store[d].acknowledgement.None?
                          then s.store[d].(acknowledgement := Some(AckOf(s.callers[step.c]))) else s.store[d])
  {
    hide Attempt, ReleaseInFlight, CompleteWithDone, SetReceivers;
    assert forall r :: Inserts(step, r) ==> step.request == r;
    assert step.Claim? || (step.ClaimFails? && step.inserted) ==> Inserts(step, step.request);
  }

  /** Only an admission adds one, and only for its holder. */
  lemma AdmissionsChange(s: System, capacity: nat, step: Step)
    requires Enabled(s, step)
    ensures Apply(s, capacity, step).admissions
         == s.admissions + if step.Admit? then [Accept(s.callers[step.c].request, step.admissionId)] else []
  {
    hide Attempt, ReleaseInFlight, CompleteWithDone, SetReceivers, RecordAcknowledgement, ClaimOrReuse;
    assert s.admissions + [] == s.admissions;
  }

  /** A joiner that subscribes awaits a pending channel, and retries at once if the channel is settled. */
  lemma SubscriberWaits(s: System, capacity: nat, c: nat)
    requires Enabled(s, Subscribe(c)) && s.callers[c].stage.channel < |s.ledger.channels|
    ensures var ch := s.callers[c].stage.channel;
      Moves(s, Apply(s, capacity, Subscribe(c)), c,
            if s.ledger.channels[ch].state.Pending? then Awaiting(ch) else Retrying(ch))
  {
  }

  // ----- A waiter and its holder -----

  /** The reservation on a caller's channel, if one is in flight, was made for that caller's very request. */
  ghost predicate Matched(s: System) {
    forall c, k :: c in s.callers && !s.callers[c].stage.Ready? && Carries(s.ledger, k, s.callers[c].stage.channel) ==>
      s.ledger.entries[k].fingerprint == s.callers[c].request
  }

  /** Every channel a caller has is one that was created. */
  ghost predicate InRange(s: System) {
    forall c :: c in s.callers && !s.callers[c].stage.Ready? ==> s.callers[c].stage.channel < |s.ledger.channels|
  }

  lemma ChannelsInRange(s: System)
    requires Owned(s) && Listening(s)
    ensures InRange(s)
  {
    forall c | c in s.callers && Owns(s.callers[c].stage) ensures s.callers[c].stage.channel < |s.ledger.channels| {
      assert Keeps(s, ByCaller(c)) && Carries(s.ledger, KeptKey(s, ByCaller(c)), KeptChannel(s, ByCaller(c)));
    }
  }

  lemma OldSlot(s: System, capacity: nat, step: Step, k: Key, channel: nat)
    requires Owned(s) && Enabled(s, step) && channel < |s.ledger.channels|
    requires Carries(Apply(s, capacity, step).ledger, k, channel)
    ensures k in s.ledger.entries && Apply(s, capacity, step).ledger.entries[k] == s.ledger.entries[k]
  {
    if step.Reserve? || step.Rereserve? {
      AttemptEffect(s, capacity, step);
      hide Apply, Attempt;
    } else if step.Restart? {
      RestartEmpties(s, capacity);
    } else {
      OthersTouchOne(s, capacity, step);
      hide Apply;
    }
  }

  lemma CallerMatches(s: System, capacity: nat, step: Step, c: nat, k: Key)
    requires Owned(s) && InRange(s) && Matched(s) && Enabled(s, step) && !step.Claim?
    requires var t := Apply(s, capacity, step);
      c in t.callers && !t.callers[c].stage.Ready? && Carries(t.ledger, k, t.callers[c].stage.channel)
    ensures Apply(s, capacity, step).ledger.entries[k].fingerprint == Apply(s, capacity, step).callers[c].request
  {
    CallerGoes(s, capacity, step, c);
    if s.callers[c].stage.Ready? {
      NewlyMatched(s, capacity, step, c, k);
    } else {
      OldSlot(s, capacity, step, k, s.callers[c].stage.channel);
    }
    hide Apply, Attempt, Owned;
  }

  lemma NewlyMatched(s: System, capacity: nat, step: Step, c: nat, k: Key)
    requires Owned(s) && Enabled(s, step) && c in s.callers && s.callers[c].stage.Ready?
    requires var t := Apply(s, capacity, step);
      c in t.callers && Goes(s, capacity, step, c, t.callers[c]) && !t.callers[c].stage.Ready?
      && Carries(t.ledger, k, t.callers[c].stage.channel)
    ensures Apply(s, capacity, step).ledger.entries[k].fingerprint == s.callers[c].request
  {
    AttemptEffect(s, capacity, step);
    JoinedSlot(s, capacity, c);
    hide Apply, Attempt;
  }

  lemma JoinedSlot(s: System, capacity: nat, c: nat)
    requires c in s.callers
    ensures var out, r := Attempt(s, capacity, c).1, s.callers[c].request;
      (out.Joined? ==> HasReservation(s.ledger, r, out.channel)) && (out.Fresh? ==> IsFree(s.ledger, r))
  {
    hide Evict;
  }

  lemma {:induction false} RunKeepsMatched(states: seq<System>, steps: seq<Step>, capacity: nat, i: nat)
    requires IsRun(states, steps, capacity) && i < |states|
    ensures Matched(states[i])
  {
    hide Apply, Enabled, Owned, Listening, Claims, InRange;
    if i > 0 {
      var s, t, step := states[i - 1], states[i], steps[i - 1];
      RunKeepsMatched(states, steps, capacity, i - 1);
      InvOwned(states, steps, capacity, i - 1);
      RunKeepsListening(states, steps, capacity, i - 1);
      ChannelsInRange(s);
      if step.Claim? {
        ClaimMatches(s, capacity, step);
      } else {
        forall c, k | c in t.callers && !t.callers[c].stage.Ready? && Carries(t.ledger, k, t.callers[c].stage.channel)
          ensures t.ledger.entries[k].fingerprint == t.callers[c].request
        {
          CallerMatches(s, capacity, step, c, k);
        }
      }
    }
  }

  lemma ClaimMatches(s: System, capacity: nat, step: Step)
    requires Matched(s) && step.Claim?
    ensures Matched(Apply(s, capacity, step))
  {
  }

  /** Caller `b` has moved to `stage`; caller `c` and the ledger are as before. */
  ghost predicate Advanced(s: System, t: System, b: nat, c: nat, stage: Stage) {
    && b in s.callers && b in t.callers && t.callers[b] == s.callers[b].(stage := stage)
    && c in s.callers && c in t.callers && t.callers[c] == s.callers[c]
    && t.ledger == s.ledger
  }

  lemma AdmitAdvances(s: System, capacity: nat, b: nat, c: nat, id: string)
    requires b != c && b in s.callers && c in s.callers && s.callers[b].stage.Holding?
    ensures Advanced(s, Apply(s, capacity, Admit(b, id)), b, c, Admitted(s.callers[b].stage.channel, id))
  {
  }

  lemma RecordAdvances(s: System, capacity: nat, b: nat, c: nat)
    requires b != c && c in s.callers && Enabled(s, Record(b))
    ensures Advanced(s, Apply(s, capacity, Record(b)), b, c,
                     Recorded(s.callers[b].stage.channel, AckOf(s.callers[b])))
  {
  }

  /** The holder's slot becomes its acknowledgement, and the waiter on its channel may wake. */
  lemma PromoteWakes(s: System, capacity: nat, b: nat, c: nat)
    requires Owned(s) && Listening(s) && Matched(s) && Enabled(s, Promote(b))
    requires c in s.callers && s.callers[c].stage == Awaiting(s.callers[b].stage.channel)
    ensures var t := Apply(s, capacity, Promote(b));
      && c in t.callers && t.callers[c] == s.callers[c] && Enabled(t, Wake(c))
      && HasAck(t.ledger, s.callers[c].request, s.callers[b].stage.ack)
  {
    var k := ByCaller(b);
    assert Keeps(s, k) && Carries(s.ledger, KeptKey(s, k), KeptChannel(s, k));
    assert s.ledger.entries[KeptKey(s, k)].fingerprint == s.callers[b].request == s.callers[c].request;
    assert ListensTo(s, c, s.callers[b].stage.channel);
  }

  lemma WakeMoves(s: System, capacity: nat, c: nat)
    requires Enabled(s, Wake(c))
    ensures var t := Apply(s, capacity, Wake(c));
      Moves(s, t, c, Retrying(s.callers[c].stage.channel)) && t.ledger == s.ledger && Enabled(t, Rereserve(c))
  {
  }

  /** A waiter that may wake while the slot holds its acknowledgement is answered with it. */
  lemma WaiterReads(states: seq<System>, steps: seq<Step>, capacity: nat, c: nat, ack: Ack)
    returns (states': seq<System>, steps': seq<Step>)
    requires IsRun(states, steps, capacity) && Enabled(states[|steps|], Wake(c))
    requires HasAck(states[|steps|].ledger, states[|steps|].callers[c].request, ack)
    ensures IsRun(states', steps', capacity) && Extends(states, steps, states', steps')
    ensures steps' == steps + [Wake(c), Rereserve(c)]
    ensures Answer(states[|steps|].callers[c].request, Accepted(ack)) in states'[|steps'|].answers
  {
    WakeMoves(states[|steps|], capacity, c);
    hide Apply, Owned, HasAck, Enabled;
    states', steps' := Extend(states, steps, capacity, Wake(c));
    InvOwned(states', steps', capacity, |steps'|);
    SecondAttempt(states'[|steps'|], capacity, c);
    states', steps' := Extend(states', steps', capacity, Rereserve(c));
    assert steps + [Wake(c)] + [Rereserve(c)] == steps + [Wake(c), Rereserve(c)];
  }

  lemma RecordedAnswersWaiter(states: seq<System>, steps: seq<Step>, capacity: nat, b: nat, c: nat)
    returns (states': seq<System>, steps': seq<Step>)
    requires IsRun(states, steps, capacity) && Enabled(states[|steps|], Promote(b)) && c in states[|steps|].callers
    requires states[|steps|].callers[c].stage == Awaiting(states[|steps|].callers[b].stage.channel)
    ensures IsRun(states', steps', capacity) && Extends(states, steps, states', steps') && |steps'| == |steps| + 3
    ensures var s := states[|steps|];
      Answer(s.callers[c].request, Accepted(s.callers[b].stage.ack)) in states'[|steps'|].answers
  {
    var s := states[|steps|];
    InvOwned(states, steps, capacity, |steps|);
    RunKeepsListening(states, steps, capacity, |steps|);
    RunKeepsMatched(states, steps, capacity, |steps|);
    PromoteWakes(s, capacity, b, c);
    hide Apply, Owned, Listening, Matched, Claims, HasAck;
    states', steps' := Extend(states, steps, capacity, Promote(b));
    hide Enabled;
    states', steps' := WaiterReads(states', steps', capacity, c, s.callers[b].stage.ack);
  }

  lemma AdmittedAnswersWaiter(states: seq<System>, steps: seq<Step>, capacity: nat, b: nat, c: nat)
    returns (states': seq<System>, steps': seq<Step>)
    requires IsRun(states, steps, capacity) && b in states[|steps|].callers && c in states[|steps|].callers
    requires states[|steps|].callers[b].stage.Admitted?
    requires states[|steps|].callers[c].stage == Awaiting(states[|steps|].callers[b].stage.channel)
    ensures IsRun(states', steps', capacity) && Extends(states, steps, states', steps') && |steps'| == |steps| + 4
    ensures var s := states[|steps|];
      Answer(s.callers[c].request, Accepted(AckOf(s.callers[b]))) in states'[|steps'|].answers
  {
    var s := states[|steps|];
    InvOwned(states, steps, capacity, |steps|);
    assert ClaimHolds(s.store, s.callers[b]);
    RecordAdvances(s, capacity, b, c);
    hide Apply, Owned, Claims;
    states', steps' := Extend(states, steps, capacity, Record(b));
    states', steps' := RecordedAnswersWaiter(states', steps', capacity, b, c);
  }

  /** The acknowledgement a holder will answer with, if it is admitted under `id` or was admitted before. */
  function AckToBe(caller: Caller, id: string): Ack
    requires Owns(caller.stage)
  {
    match caller.stage
    case Holding(_) => BuildAck(caller.request, id, caller.executionId)
    case Admitted(_, admitted) => BuildAck(caller.request, admitted, caller.executionId)
    case Recorded(_, ack) => ack
  }

  /** From every reachable state in which caller `c` awaits the channel of holder `b`, the holder can go on to its
      promotion, the waiter wakes, and it is answered with the holder's acknowledgement. */
  lemma WaiterIsAnswered(states: seq<System>, steps: seq<Step>, capacity: nat, b: nat, c: nat, id: string)
    returns (states': seq<System>, steps': seq<Step>)
    requires IsRun(states, steps, capacity) && b in states[|steps|].callers && c in states[|steps|].callers
    requires Owns(states[|steps|].callers[b].stage)
    requires states[|steps|].callers[c].stage == Awaiting(states[|steps|].callers[b].stage.channel)
    ensures IsRun(states', steps', capacity) && Extends(states, steps, states', steps')
    ensures |steps'| <= |steps| + 5
    ensures var s := states[|steps|];
      Answer(s.callers[c].request, Accepted(AckToBe(s.callers[b], id))) in states'[|steps'|].answers
  {
    var s := states[|steps|];
    hide Apply;
    match s.callers[b].stage
    case Holding(_) =>
      AdmitAdvances(s, capacity, b, c, id);
      states', steps' := Extend(states, steps, capacity, Admit(b, id));
      states', steps' := AdmittedAnswersWaiter(states', steps', capacity, b, c);
    case Admitted(_, _) => states', steps' := AdmittedAnswersWaiter(states, steps, capacity, b, c);
    case Recorded(_, _) => states', steps' := RecordedAnswersWaiter(states, steps, capacity, b, c);
  }
}
