/** Waiters and their watch channels: who is woken when a reservation ends, and who can never be. Also runs that show
    the limits of the protocol. */
module Waiters {
  import opened Base
  import opened AgentWork
  import opened LedgerModel
  import opened Admission
  import opened AdmissionInvariant
  import opened AtMostOnce
  import opened AdmissionRuns

  ghost predicate ListensTo(s: System, c: nat, channel: nat) {
    c in s.callers && Listens(s.callers[c].stage) && s.callers[c].stage.channel == channel
  }

  /** The receivers of a channel are exactly the callers listening to it. */
  ghost predicate Listening(s: System) {
    && (forall c :: c in s.callers && (s.callers[c].stage.Joining? || Listens(s.callers[c].stage)) ==>
          s.callers[c].stage.channel < |s.ledger.channels|)
    && (forall c: nat, channel: nat :: channel < |s.ledger.channels| ==>
          (c in s.ledger.channels[channel].receivers <==> ListensTo(s, c, channel)))
  }

  lemma ListeningUnchanged(s: System, s': System)
    requires Listening(s)
    requires |s'.ledger.channels| >= |s.ledger.channels|
    requires forall i :: 0 <= i < |s.ledger.channels| ==>
      s'.ledger.channels[i].receivers == s.ledger.channels[i].receivers
    requires forall i :: |s.ledger.channels| <= i < |s'.ledger.channels| ==> s'.ledger.channels[i].receivers == {}
    requires forall c :: c in s'.callers && s'.callers[c].stage.Joining? ==>
      s'.callers[c].stage.channel < |s'.ledger.channels|
    requires forall c: nat, i: nat :: ListensTo(s', c, i) <==> ListensTo(s, c, i)
    ensures Listening(s')
  {
    forall c: nat, i: nat | ListensTo(s', c, i) ensures i < |s.ledger.channels| {
      assert ListensTo(s, c, i);
    }
    forall c | c in s'.callers && Listens(s'.callers[c].stage)
      ensures s'.callers[c].stage.channel < |s'.ledger.channels|
    {
      assert ListensTo(s', c, s'.callers[c].stage.channel);
    }
  }

  lemma StepKeepsListening(s: System, capacity: nat, step: Step)
    requires Claims(s) && Owned(s) && Listening(s) && Enabled(s, step)
    ensures Listening(Apply(s, capacity, step))
  {
    match step
    case Subscribe(c) => SubscribeKeepsListening(s, c);
    case Expire(c) => LeaveKeepsListening(s, Apply(s, capacity, step), c);
    case Rereserve(c) => RereserveKeepsListening(s, capacity, c);
    case Abandon(c, lockFree) => AbandonKeepsListening(s, capacity, c, lockFree);
    case Restart =>
    case Reserve(c) => ReserveKeepsListening(s, capacity, c);
    case Claim(_) => ClaimKeepsListening(s, capacity, step);
    case Wake(c) => WakeKeepsListening(s, capacity, step);
    case _ => QuietKeepsListening(s, capacity, step);
  }

  lemma QuietKeepsListening(s: System, capacity: nat, step: Step)
    requires Claims(s) && Listening(s) && Enabled(s, step)
    requires !step.Subscribe? && !step.Expire? && !step.Rereserve? && !step.Abandon? && !step.Restart? && !step.Reserve?
    requires !step.Claim? && !step.Wake?
    ensures Listening(Apply(s, capacity, step))
  {
    hide Claims;
    ReceiversStay(s, capacity, step);
    ListenersStay(s, capacity, step);
    hide Apply, Enabled;
    ListeningUnchanged(s, Apply(s, capacity, step));
  }

  lemma ListenersStay(s: System, capacity: nat, step: Step)
    requires Enabled(s, step)
    requires step.ClaimFails? || step.Reject? || step.Admit? || step.RecordFails? || step.Record? || step.Promote?
          || step.RunRelease?
    ensures var s' := Apply(s, capacity, step);
      && (forall c: nat, i: nat :: ListensTo(s', c, i) <==> ListensTo(s, c, i))
      && (forall c :: c in s'.callers && s'.callers[c].stage.Joining? ==>
            c in s.callers && s.callers[c].stage == s'.callers[c].stage)
  {
    hide ReleaseInFlight, CompleteWithDone, RecordAcknowledgement, ClaimOrReuse;
  }

  lemma ReceiversStay(s: System, capacity: nat, step: Step)
    requires Enabled(s, step)
    requires step.ClaimFails? || step.Reject? || step.Admit? || step.RecordFails? || step.Record? || step.Promote?
          || step.RunRelease?
    ensures var l, l' := s.ledger, Apply(s, capacity, step).ledger;
      && |l'.channels| == |l.channels|
      && forall i :: 0 <= i < |l.channels| ==> l'.channels[i].receivers == l.channels[i].receivers
  {
    hide Without, ClaimOrReuse, RecordAcknowledgement;
  }

  lemma ClaimKeepsListening(s: System, capacity: nat, step: Step)
    requires Claims(s) && Listening(s) && step.Claim?
    ensures Listening(Apply(s, capacity, step))
  {
    ListeningUnchanged(s, Apply(s, capacity, step));
  }

  lemma WakeKeepsListening(s: System, capacity: nat, step: Step)
    requires Listening(s) && step.Wake? && Enabled(s, step)
    ensures Listening(Apply(s, capacity, step))
  {
    ListeningUnchanged(s, Apply(s, capacity, step));
  }

  lemma SubscribeKeepsListening(s: System, c: nat)
    requires Listening(s) && Enabled(s, Subscribe(c))
    ensures Listening(DoSubscribe(s, c))
  {
  }

  /** Caller `c` leaves and drops its receiver, if it has one. */
  lemma LeaveKeepsListening(s: System, s': System, c: nat)
    requires Listening(s) && c in s.callers
    requires s'.callers == s.callers - {c}
    requires |s'.ledger.channels| == |s.ledger.channels|
    requires forall i :: 0 <= i < |s.ledger.channels| ==>
      s'.ledger.channels[i].receivers == s.ledger.channels[i].receivers - (if ListensTo(s, c, i) then {c} else {})
    ensures Listening(s')
  {
  }

  lemma ReserveKeepsListening(s: System, capacity: nat, c: nat)
    requires Owned(s) && Listening(s) && Enabled(s, Reserve(c))
    ensures Listening(DoReserve(s, capacity, c))
  {
    AttemptKeepsListening(s, capacity, c);
    AttemptAnswers(s, capacity, c);
    hide Attempt, Owned;
    ListeningUnchanged(WithLedger(s, Attempt(s, capacity, c).0), DoReserve(s, capacity, c));
  }

  lemma AttemptAnswers(s: System, capacity: nat, c: nat)
    requires Owned(s) && c in s.callers
    ensures var (l, out) := Attempt(s, capacity, c);
      (!out.Fresh? ==> l == s.ledger) && (out.Joined? ==> out.channel < |l.channels|)
  {
    hide TryReserve;
    var r := s.callers[c].request;
    if LedgerKey(r) in s.ledger.entries {
      TryReserveTaken(s.ledger, capacity, LedgerKey(r), Fingerprint(r));
    } else {
      TryReserveFree(s.ledger, capacity, LedgerKey(r), Fingerprint(r));
    }
  }

  lemma RereserveKeepsListening(s: System, capacity: nat, c: nat)
    requires Owned(s) && Listening(s) && Enabled(s, Rereserve(c))
    ensures Listening(DoRereserve(s, capacity, c))
  {
    AttemptKeepsListening(s, capacity, c);
    hide Attempt, Owned, Listening;
    LeaveKeepsListening(WithLedger(s, Attempt(s, capacity, c).0), DoRereserve(s, capacity, c), c);
  }

  lemma AttemptKeepsListening(s: System, capacity: nat, c: nat)
    requires Owned(s) && Listening(s) && c in s.callers
    ensures Listening(WithLedger(s, Attempt(s, capacity, c).0))
  {
    var r := s.callers[c].request;
    if LedgerKey(r) in s.ledger.entries {
      TryReserveTaken(s.ledger, capacity, LedgerKey(r), Fingerprint(r));
    } else {
      TryReserveFree(s.ledger, capacity, LedgerKey(r), Fingerprint(r));
    }
    hide TryReserve, Owned;
    ListeningUnchanged(s, WithLedger(s, Attempt(s, capacity, c).0));
  }

  lemma AbandonKeepsListening(s: System, capacity: nat, c: nat, lockFree: bool)
    requires Listening(s) && Enabled(s, Abandon(c, lockFree))
    ensures Listening(Apply(s, capacity, Abandon(c, lockFree)))
  {
    LeaveKeepsListening(s, Apply(s, capacity, Abandon(c, lockFree)), c);
  }

  lemma {:induction false} RunKeepsListening(states: seq<System>, steps: seq<Step>, capacity: nat, i: nat)
    requires IsRun(states, steps, capacity) && i < |states|
    ensures Listening(states[i])
  {
    hide Apply, Enabled, Claims, Owned;
    if i > 0 {
      RunKeepsListening(states, steps, capacity, i - 1);
      InvOwned(states, steps, capacity, i - 1);
      StepKeepsListening(states[i - 1], capacity, steps[i - 1]);
    }
  }

  /** When a reservation stops being in flight, other than by a restart, its channel gets a final state exactly if
      somebody is listening to it then: Finished if it was promoted, Failed otherwise. */
  lemma SettlementReachesListeners(states: seq<System>, steps: seq<Step>, capacity: nat, i: nat, key: Key, channel: nat)
    requires IsRun(states, steps, capacity) && i < |steps| && !steps[i].Restart?
    requires Carries(states[i].ledger, key, channel) && !Carries(states[i + 1].ledger, key, channel)
    ensures channel < |states[i + 1].ledger.channels|
    ensures states[i + 1].ledger.channels[channel].state.Pending? <==> forall c :: !ListensTo(states[i], c, channel)
    ensures states[i + 1].ledger.channels[channel].state in {Pending, if steps[i].Promote? then Finished else Failed}
  {
    InvOwned(states, steps, capacity, i);
    RunKeepsListening(states, steps, capacity, i);
    SettleStep(states[i], capacity, steps[i], key, channel);
  }

  lemma SettleStep(s: System, capacity: nat, step: Step, key: Key, channel: nat)
    requires Owned(s) && Listening(s) && Enabled(s, step) && !step.Restart?
    requires Carries(s.ledger, key, channel) && !Carries(Apply(s, capacity, step).ledger, key, channel)
    ensures var l' := Apply(s, capacity, step).ledger;
      && channel < |l'.channels| && (l'.channels[channel].state.Pending? <==> forall c :: !ListensTo(s, c, channel))
      && l'.channels[channel].state in {Pending, if step.Promote? then Finished else Failed}
  {
    if step.Reserve? || step.Rereserve? {
      AttemptEffect(s, capacity, step);
      hide Apply;
      assert false;
    }
    SettledState(s, capacity, step, key, channel);
    hide Apply, Enabled;
    var watch := s.ledger.channels[channel];
    if watch.receivers == {} {
      assert forall c :: c !in watch.receivers;
    } else {
      var c :| c in watch.receivers;
      assert ListensTo(s, c, channel);
    }
  }

  lemma SettledState(s: System, capacity: nat, step: Step, key: Key, channel: nat)
    requires Owned(s) && Enabled(s, step) && !step.Restart? && !step.Reserve? && !step.Rereserve?
    requires Carries(s.ledger, key, channel) && !Carries(Apply(s, capacity, step).ledger, key, channel)
    ensures var l' := Apply(s, capacity, step).ledger;
      && channel < |s.ledger.channels| && channel < |l'.channels|
      && (l'.channels[channel].state.Pending? <==> s.ledger.channels[channel].receivers == {})
      && l'.channels[channel].state in {Pending, if step.Promote? then Finished else Failed}
  {
    hide TryReserve, RecordAcknowledgement, ClaimOrReuse, Without;
    if step.Reject? || step.RecordFails? || step.Abandon? {
      GuardSettles(s, capacity, step, key, channel);
    } else if step.Promote? {
    } else if step.RunRelease? {
    } else {
    }
  }

  lemma GuardSettles(s: System, capacity: nat, step: Step, key: Key, channel: nat)
    requires Owned(s) && Enabled(s, step) && (step.Reject? || step.RecordFails? || step.Abandon?)
    requires Carries(s.ledger, key, channel) && !Carries(Apply(s, capacity, step).ledger, key, channel)
    ensures var l' := Apply(s, capacity, step).ledger;
      && channel < |s.ledger.channels| && channel < |l'.channels|
      && (l'.channels[channel].state.Pending? <==> s.ledger.channels[channel].receivers == {})
      && l'.channels[channel].state in {Pending, Failed}
  {
    hide Without;
  }

  // ----- Who can still be woken -----

  predicate SameState(l: Ledger, l': Ledger, channel: nat) {
    && channel < |l.channels| && channel < |l'.channels|
    && l'.channels[channel].state == l.channels[channel].state
  }

  lemma GuardSendsOn(s: System, c: nat, lockFree: bool, channel: nat)
    requires Owned(s) && c in s.callers && channel < |s.ledger.channels| && !Kept(s, channel)
    ensures SameState(s.ledger, DropGuard(s, c, lockFree).ledger, channel)
  {
    if Owns(s.callers[c].stage) {
      assert Keeps(s, ByCaller(c)) && KeptChannel(s, ByCaller(c)) != channel;
      hide ReleaseInFlight;
    }
  }

  lemma PromoteSendsOn(s: System, c: nat, channel: nat)
    requires Owned(s) && Enabled(s, Promote(c)) && channel < |s.ledger.channels| && !Kept(s, channel)
    ensures SameState(s.ledger, DoPromote(s, c).ledger, channel)
  {
    assert Keeps(s, ByCaller(c)) && KeptChannel(s, ByCaller(c)) != channel;
    assert Carries(s.ledger, LedgerKey(s.callers[c].request), s.callers[c].stage.channel);
  }

  lemma TryReserveSendsNothing(l: Ledger, capacity: nat, r: Request, channel: nat)
    requires WellFormed(l) && channel < |l.channels|
    ensures SameState(l, TryReserve(l, capacity, LedgerKey(r), Fingerprint(r)).0, channel)
  {
    hide TryReserve;
    if LedgerKey(r) in l.entries {
      TryReserveTaken(l, capacity, LedgerKey(r), Fingerprint(r));
    } else {
      TryReserveFree(l, capacity, LedgerKey(r), Fingerprint(r));
    }
  }

  lemma ReserveSendsNothing(s: System, capacity: nat, c: nat, channel: nat)
    requires Owned(s) && c in s.callers && channel < |s.ledger.channels|
    ensures SameState(s.ledger, DoReserve(s, capacity, c).ledger, channel)
  {
    TryReserveSendsNothing(s.ledger, capacity, s.callers[c].request, channel);
    hide TryReserve, Owned;
  }

  lemma RereserveSendsNothing(s: System, capacity: nat, c: nat, channel: nat)
    requires Owned(s) && c in s.callers && channel < |s.ledger.channels|
    ensures SameState(s.ledger, DoRereserve(s, capacity, c).ledger, channel)
  {
    TryReserveSendsNothing(s.ledger, capacity, s.callers[c].request, channel);
    hide TryReserve, Owned;
  }

  lemma OthersSendNothing(s: System, capacity: nat, step: Step, channel: nat)
    requires Enabled(s, step) && channel < |s.ledger.channels|
    requires step.Claim? || step.ClaimFails? || step.Admit? || step.Record?
          || step.Subscribe? || step.Wake? || step.Expire?
    ensures SameState(s.ledger, Apply(s, capacity, step).ledger, channel)
  {
    hide ClaimOrReuse, RecordAcknowledgement;
  }

  /** Only a reservation's keeper sends on its channel. */
  lemma OnlyKeepersSend(s: System, capacity: nat, step: Step, channel: nat)
    requires Owned(s) && Enabled(s, step) && !step.Restart? && channel < |s.ledger.channels| && !Kept(s, channel)
    ensures SameState(s.ledger, Apply(s, capacity, step).ledger, channel)
  {
    hide SameState, Kept, DropGuard, DoPromote, DoReserve, DoRereserve, Owned;
    match step
    case Reserve(c) => ReserveSendsNothing(s, capacity, c, channel);
    case Rereserve(c) => RereserveSendsNothing(s, capacity, c, channel);
    case RunRelease(r) => RunReleaseSendsOn(s, r, channel);
    case Promote(c) => PromoteSendsOn(s, c, channel);
    case Reject(c, lockFree) => GuardSendsOn(s, c, lockFree, channel);
    case RecordFails(c, lockFree) => GuardSendsOn(s, c, lockFree, channel);
    case Abandon(c, lockFree) => AbandonSendsOn(s, capacity, c, lockFree, channel);
    case _ => OthersSendNothing(s, capacity, step, channel);
  }

  lemma RunReleaseSendsOn(s: System, r: Release, channel: nat)
    requires Owned(s) && r in s.deferred && channel < |s.ledger.channels| && !Kept(s, channel)
    ensures SameState(s.ledger, ReleaseInFlight(s.ledger, r.key), channel)
  {
    assert Keeps(s, ByRelease(r));
  }

  lemma AbandonSendsOn(s: System, capacity: nat, c: nat, lockFree: bool, channel: nat)
    requires Owned(s) && Enabled(s, Abandon(c, lockFree)) && channel < |s.ledger.channels| && !Kept(s, channel)
    ensures SameState(s.ledger, Apply(s, capacity, Abandon(c, lockFree)).ledger, channel)
  {
    if Owns(s.callers[c].stage) {
      GuardSendsOn(s, c, lockFree, channel);
      hide DropGuard;
    }
  }

  /** Caller `c` waits on a Pending channel that no keeper will ever send on. */
  ghost predicate Stranded(s: System, c: nat, channel: nat) {
    && c in s.callers && s.callers[c].stage == Awaiting(channel)
    && channel < |s.ledger.channels| && s.ledger.channels[channel].state.Pending? && !Kept(s, channel)
  }

  ghost predicate Gone(s: System, c: nat) { c < s.nextCaller && c !in s.callers }

  lemma StrandedStep(s: System, capacity: nat, step: Step, c: nat, channel: nat)
    requires Claims(s) && Owned(s) && Enabled(s, step) && (Stranded(s, c, channel) || Gone(s, c))
    ensures var s' := Apply(s, capacity, step); Stranded(s', c, channel) || Gone(s', c)
  {
    var s' := Apply(s, capacity, step);
    CallerStaysOrGoes(s, capacity, step, c);
    if c in s'.callers {
      OnlyKeepersSend(s, capacity, step, channel);
      NewKeeperHasNewChannel(s, capacity, step, channel);
    }
  }

  lemma CallerStaysOrGoes(s: System, capacity: nat, step: Step, c: nat)
    requires Enabled(s, step) && c < s.nextCaller
    requires c in s.callers ==> s.callers[c].stage.Awaiting?
    requires step != Wake(c)
    ensures var s' := Apply(s, capacity, step);
      c < s'.nextCaller && (c in s'.callers ==> c in s.callers && s'.callers[c] == s.callers[c] && !step.Restart?)
  {
    if step.Claim? {
      hide Attempt;
    } else {
      NumberStays(s, capacity, step);
      if c in Apply(s, capacity, step).callers {
        CallerGoes(s, capacity, step, c);
      }
      hide Apply, Enabled, Attempt;
    }
  }

  /** A stranded caller is never woken: in every later state it still waits, or it has gone. */
  lemma {:induction false} StrandedForever(states: seq<System>, steps: seq<Step>, capacity: nat, i: nat, j: nat,
                                           c: nat, channel: nat)
    requires IsRun(states, steps, capacity) && i <= j < |states| && Stranded(states[i], c, channel)
    ensures Stranded(states[j], c, channel) || Gone(states[j], c)
    ensures !Enabled(states[j], Wake(c))
  {
    hide Apply, Claims, Owned, Stranded, Gone, Enabled;
    if i < j {
      StrandedForever(states, steps, capacity, i, j - 1, c, channel);
      InvOwned(states, steps, capacity, j - 1);
      StrandedStep(states[j - 1], capacity, steps[j - 1], c, channel);
    }
    NotWoken(states[j], c, channel);
  }

  lemma NotWoken(s: System, c: nat, channel: nat)
    requires Stranded(s, c, channel) || Gone(s, c)
    ensures !Enabled(s, Wake(c))
  {
  }

  /** Some continuation of the run wakes caller `c`. */
  ghost predicate CanBeWoken(states: seq<System>, steps: seq<Step>, capacity: nat, c: nat)
    requires |states| == |steps| + 1
  {
    exists states', steps' ::
      && IsRun(states', steps', capacity) && Extends(states, steps, states', steps')
      && Enabled(states'[|steps'|], Wake(c))
  }

  /** The step by which a keeper gives up its slot. */
  function GivesUp(k: Keeper): Step { if k.ByCaller? then Abandon(k.c, true) else RunRelease(k.release) }

  lemma KeeperGivesUp(s: System, capacity: nat, k: Keeper)
    requires Owned(s) && Keeps(s, k)
    ensures Enabled(s, GivesUp(k))
    ensures var s' := Apply(s, capacity, GivesUp(k));
      && s'.ledger == ReleaseInFlight(s.ledger, KeptKey(s, k))
      && KeptKey(s, k) !in s'.ledger.entries && s'.store == s.store && s'.admissions == s.admissions
      && (forall c :: c in s.callers && k != ByCaller(c) ==> c in s'.callers && s'.callers[c] == s.callers[c])
  {
    assert Carries(s.ledger, KeptKey(s, k), KeptChannel(s, k));
  }

  /** Whoever waits on a keeper's channel can be woken once the keeper has given its slot up. */
  lemma GivingUpWakes(s: System, capacity: nat, k: Keeper, c: nat, channel: nat)
    requires Owned(s) && Listening(s) && Keeps(s, k) && KeptChannel(s, k) == channel
    requires c in s.callers && s.callers[c].stage == Awaiting(channel)
    ensures Enabled(s, GivesUp(k)) && Enabled(Apply(s, capacity, GivesUp(k)), Wake(c))
  {
    var s' := Apply(s, capacity, GivesUp(k));
    KeeperGivesUp(s, capacity, k);
    assert k != ByCaller(c);
    assert ListensTo(s, c, channel);
    assert Carries(s.ledger, KeptKey(s, k), channel);
    assert s'.ledger.channels == Send(s.ledger.channels, channel, Failed);
    assert s'.ledger.channels[channel].state == Failed;
  }

  /** Exactly the waiters whose channel already has its final state or whose reservation has a keeper can be woken. */
  lemma WokenExactlyIfKept(states: seq<System>, steps: seq<Step>, capacity: nat, c: nat, channel: nat)
    requires IsRun(states, steps, capacity) && c in states[|steps|].callers
    requires states[|steps|].callers[c].stage == Awaiting(channel)
    ensures channel < |states[|steps|].ledger.channels|
    ensures CanBeWoken(states, steps, capacity, c) <==>
              !states[|steps|].ledger.channels[channel].state.Pending? || Kept(states[|steps|], channel)
  {
    var s := states[|steps|];
    InvOwned(states, steps, capacity, |steps|);
    RunKeepsListening(states, steps, capacity, |steps|);
    if !s.ledger.channels[channel].state.Pending? {
      assert Enabled(s, Wake(c)) && Extends(states, steps, states, steps);
    } else if Kept(s, channel) {
      var k :| Keeps(s, k) && KeptChannel(s, k) == channel;
      GivingUpWakes(s, capacity, k, c, channel);
      var states', steps' := Extend(states, steps, capacity, GivesUp(k));
      assert states'[|steps'|] == Apply(s, capacity, GivesUp(k));
      assert Enabled(states'[|steps'|], Wake(c));
    } else if CanBeWoken(states, steps, capacity, c) {
      var states', steps' :| IsRun(states', steps', capacity) && Extends(states, steps, states', steps')
                             && Enabled(states'[|steps'|], Wake(c));
      assert states'[|steps|] == s;
      StrandedForever(states', steps', capacity, |steps|, |steps'|, c, channel);
    }
  }

  // ----- Some runs -----

  /** The ledger with one slot, in its one order position, on its one channel. */
  function Single(r: Request, slot: Slot, watch: Watch): Ledger {
    Ledger(map[LedgerKey(r) := slot], [LedgerKey(r)], [watch])
  }

  function Stored(r: Request, ack: Option<Ack>): Store {
    map[r.dispatchId := Row(r.payload, OpenabNative(r.dispatchId), ack)]
  }

  function Agent(r: Request, stage: Stage): Caller { Caller(r, OpenabNative(r.dispatchId), stage) }

  lemma FirstHolder(r: Request, capacity: nat) returns (states: seq<System>, steps: seq<Step>)
    requires capacity > 0
    ensures IsRun(states, steps, capacity)
    ensures states[|states| - 1] == System(Stored(r, None), Single(r, InFlight(r, 0), Watch(Pending, {})),
                                           map[0 := Agent(r, Holding(0))], 1, {}, [], [])
  {
    states, steps := [START], [];
    states, steps := Extend(states, steps, capacity, Claim(r));
    var s := states[1];
    assert s == START.(store := Stored(r, None), callers := map[0 := Agent(r, Ready)], nextCaller := 1);
    states, steps := Extend(states, steps, capacity, Reserve(0));
  }

  lemma HolderAndJoiner(r: Request, capacity: nat) returns (states: seq<System>, steps: seq<Step>)
    requires capacity > 0
    ensures IsRun(states, steps, capacity)
    ensures states[|states| - 1] == System(Stored(r, None), Single(r, InFlight(r, 0), Watch(Pending, {})),
                                           map[0 := Agent(r, Holding(0)), 1 := Agent(r, Joining(0))], 2, {}, [], [])
  {
    states, steps := FirstHolder(r, capacity);
    states, steps := Extend(states, steps, capacity, Claim(r));
    states, steps := Extend(states, steps, capacity, Reserve(1));
  }

  lemma HolderRecords(r: Request, id: string, capacity: nat) returns (states: seq<System>, steps: seq<Step>)
    requires capacity > 0
    ensures IsRun(states, steps, capacity)
    ensures var ack := BuildAck(r, id, OpenabNative(r.dispatchId));
      states[|states| - 1] == System(Stored(r, Some(ack)), Single(r, InFlight(r, 0), Watch(Pending, {})),
                                     map[0 := Agent(r, Recorded(0, ack)), 1 := Agent(r, Joining(0))], 2, {},
                                     [Accept(r, id)], [])
  {
    states, steps := HolderAndJoiner(r, capacity);
    states, steps := Extend(states, steps, capacity, Admit(0, id));
    states, steps := Extend(states, steps, capacity, Record(0));
  }

  /** A waiter that subscribes after the promotion finds Pending although the acknowledgement is cached, and is
      stranded: by `StrandedForever` nothing will ever wake it. */
  lemma LateSubscriberIsStranded(r: Request, id: string, capacity: nat) returns (states: seq<System>, steps: seq<Step>)
    requires capacity > 0
    ensures IsRun(states, steps, capacity)
    ensures var s := states[|states| - 1];
      && CachedAt(s, LedgerKey(r)) && 1 in s.callers && s.callers[1] == Agent(r, Awaiting(0))
      && (forall k :: !Carries(s.ledger, k, 0))
      && Stranded(s, 1, 0)
  {
    states, steps := HolderRecords(r, id, capacity);
    states, steps := Extend(states, steps, capacity, Promote(0));
    states, steps := Extend(states, steps, capacity, Subscribe(1));
  }

  /** The holder is dropped after its admission was accepted: a retry is admitted a second time. */
  lemma DroppedHolderIsAdmittedTwice(r: Request, capacity: nat) returns (states: seq<System>, steps: seq<Step>)
    requires capacity > 0
    ensures IsRun(states, steps, capacity)
    ensures states[|states| - 1].admissions == [Accept(r, "first"), Accept(r, "second")]
  {
    states, steps := DroppedHolder(r, capacity);
    states, steps := Extend(states, steps, capacity, Claim(r));
    states, steps := Extend(states, steps, capacity, Reserve(1));
    states, steps := Extend(states, steps, capacity, Admit(1, "second"));
  }

  lemma DroppedHolder(r: Request, capacity: nat) returns (states: seq<System>, steps: seq<Step>)
    requires capacity > 0
    ensures IsRun(states, steps, capacity)
    ensures states[|states| - 1] == System(Stored(r, None), Ledger(map[], [], [Watch(Pending, {})]), map[], 1, {},
                                           [Accept(r, "first")], [])
  {
    states, steps := FirstHolder(r, capacity);
    states, steps := Extend(states, steps, capacity, Admit(0, "first"));
    var s := states[|states| - 1];
    assert s.ledger.entries - {LedgerKey(r)} == map[] && Without(s.ledger.order, LedgerKey(r)) == [];
    assert s.callers - {0} == map[];
    states, steps := Extend(states, steps, capacity, Abandon(0, true));
  }

  /** A waiter that is woken by a released reservation reserves again and leaves: the slot it creates has nobody
      to release it. */
  lemma RetriedSlotIsOrphaned(r: Request, capacity: nat) returns (states: seq<System>, steps: seq<Step>)
    requires capacity > 0
    ensures IsRun(states, steps, capacity)
    ensures var s := states[|states| - 1];
      && s.callers == map[] && s.deferred == {}
      && Carries(s.ledger, LedgerKey(r), 1)
      && s.answers == [Answer(r, Refused(NotAdmitted)), Answer(r, Refused(RetryLater))]
  {
    states, steps := WokenWaiter(r, capacity);
    var s := states[|states| - 1];
    var after := Ledger(map[LedgerKey(r) := InFlight(r, 1)], [LedgerKey(r)], [Watch(Failed, {1}), Watch(Pending, {})]);
    assert s.callers - {1} == map[];
    states, steps := Extend(states, steps, capacity, Rereserve(1));
  }

  /** The holder was rejected while caller 1 was waiting, and caller 1 has seen it. */
  lemma WokenWaiter(r: Request, capacity: nat) returns (states: seq<System>, steps: seq<Step>)
    requires capacity > 0
    ensures IsRun(states, steps, capacity)
    ensures states[|states| - 1] == System(Stored(r, None), Ledger(map[], [], [Watch(Failed, {1})]),
                                           map[1 := Agent(r, Retrying(0))], 2, {}, [],
                                           [Answer(r, Refused(NotAdmitted))])
  {
    states, steps := HolderAndJoiner(r, capacity);
    states, steps := Extend(states, steps, capacity, Subscribe(1));
    var s := states[|states| - 1];
    assert {} + {1} == {1};
    assert s.ledger.channels[0] == Watch(Pending, {1});
    assert s.ledger.channels == [Watch(Pending, {1})];
    assert s.callers == map[0 := Agent(r, Holding(0)), 1 := Agent(r, Awaiting(0))];
    RejectReleases(s, r, capacity);
    states, steps := Extend(states, steps, capacity, Reject(0, true));
    var t := states[|states| - 1];
    assert t.callers[1 := Agent(r, Retrying(0))] == map[1 := Agent(r, Retrying(0))];
    states, steps := Extend(states, steps, capacity, Wake(1));
  }

  lemma RejectReleases(s: System, r: Request, capacity: nat)
    requires s.ledger == Single(r, InFlight(r, 0), Watch(Pending, {1}))
    requires s.callers == map[0 := Agent(r, Holding(0)), 1 := Agent(r, Awaiting(0))]
    ensures Apply(s, capacity, Reject(0, true)) == s.(ledger := Ledger(map[], [], [Watch(Failed, {1})]),
                                                      callers := map[1 := Agent(r, Awaiting(0))],
                                                      answers := s.answers + [Answer(r, Refused(NotAdmitted))])
  {
    assert s.ledger.entries - {LedgerKey(r)} == map[] && Without(s.ledger.order, LedgerKey(r)) == [];
    assert s.callers - {0} == map[1 := Agent(r, Awaiting(0))];
    assert ReleaseInFlight(s.ledger, LedgerKey(r)) == Ledger(map[], [], [Watch(Failed, {1})]);
  }
}
