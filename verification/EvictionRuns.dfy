/** What eviction does and does not do, at every capacity: a cached acknowledgement evicted too early lets a stale
    caller be admitted again, and completed entries can outnumber the capacity until the next reservation. */
module EvictionRuns {
  import opened Base
  import opened AgentWork
  import opened LedgerModel
  import opened Admission
  import opened AdmissionInvariant
  import opened AtMostOnce
  import opened AdmissionRuns
  import opened Waiters
  import opened Readmission

  // ----- A cached acknowledgement evicted too early -----

  lemma RecordThenPromote(states: seq<System>, steps: seq<Step>, capacity: nat, c: nat, channel: nat, id: string)
    returns (states': seq<System>, steps': seq<Step>)
    requires IsRun(states, steps, capacity) && c in states[|steps|].callers
    requires states[|steps|].callers[c].stage == Admitted(channel, id)
    ensures IsRun(states', steps', capacity) && Extends(states, steps, states', steps')
    ensures |steps'| == |steps| + 2 && steps'[|steps| + 1] == Promote(c)
    ensures var s, t, r := states[|steps|], states'[|steps'|], states[|steps|].callers[c].request;
      && t.callers == s.callers - {c} && t.admissions == s.admissions && AckStored(t, r.dispatchId)
      && t.ledger.entries.Keys == s.ledger.entries.Keys
      && LedgerKey(r) in t.ledger.entries && t.ledger.entries[LedgerKey(r)].Done?
      && LedgerKey(r) in s.ledger.entries && s.ledger.entries[LedgerKey(r)].InFlight?
      && forall k :: k in s.ledger.entries && k != LedgerKey(r) ==>
           k in t.ledger.entries && t.ledger.entries[k] == s.ledger.entries[k]
  {
    var s := states[|steps|];
    InvOwned(states, steps, capacity, |steps|);
    assert Keeps(s, ByCaller(c)) && Carries(s.ledger, KeptKey(s, ByCaller(c)), KeptChannel(s, ByCaller(c)));
    hide Apply, Owned, DoRecord, DoPromote;
    RecordEffect(s, c, channel, id);
    states', steps' := Extend(states, steps, capacity, Record(c));
    ApplyIs(s, capacity, c);
    PromoteEffect(s, states'[|steps'|], c);
    states', steps' := Extend(states', steps', capacity, Promote(c));
    ApplyIs(states'[|steps| + 1], capacity, c);
  }

  lemma ApplyIs(s: System, capacity: nat, c: nat)
    ensures Enabled(s, Record(c)) ==> Apply(s, capacity, Record(c)) == DoRecord(s, c)
    ensures Enabled(s, Promote(c)) ==> Apply(s, capacity, Promote(c)) == DoPromote(s, c)
  {
  }

  lemma RecordEffect(s: System, c: nat, channel: nat, id: string)
    requires Claims(s) && c in s.callers && s.callers[c].stage == Admitted(channel, id)
    ensures Enabled(s, Record(c))
    ensures var t := DoRecord(s, c);
      && c in t.callers && t.callers == s.callers[c := t.callers[c]] && t.callers[c].request == s.callers[c].request
      && t.callers[c].stage.Recorded?
      && t.ledger == s.ledger && t.admissions == s.admissions && AckStored(t, s.callers[c].request.dispatchId)
  {
  }

  lemma PromoteEffect(s: System, m: System, c: nat)
    requires c in s.callers && c in m.callers && m.callers == s.callers[c := m.callers[c]]
    requires m.callers[c].stage.Recorded?
    requires m.callers[c].request == s.callers[c].request && m.ledger == s.ledger && m.admissions == s.admissions
    requires LedgerKey(s.callers[c].request) in s.ledger.entries
    requires s.ledger.entries[LedgerKey(s.callers[c].request)].InFlight?
    ensures Enabled(m, Promote(c))
    ensures var t, r := DoPromote(m, c), s.callers[c].request;
      && t.callers == s.callers - {c} && t.admissions == s.admissions && t.store == m.store
      && t.ledger.entries.Keys == s.ledger.entries.Keys
      && LedgerKey(r) in t.ledger.entries && t.ledger.entries[LedgerKey(r)].Done?
      && forall k :: k in s.ledger.entries && k != LedgerKey(r) ==>
           k in t.ledger.entries && t.ledger.entries[k] == s.ledger.entries[k]
  {
  }

  /** Two callers claim `r` before either reserves. */
  lemma TwoReaders(r: Request, capacity: nat) returns (states: seq<System>, steps: seq<Step>)
    ensures IsRun(states, steps, capacity) && |steps| == 2
    ensures var s := states[|steps|];
      && s.callers == map[0 := Agent(r, Ready), 1 := Agent(r, Ready)] && s.store == Stored(r, None)
      && s.ledger == EMPTY_LEDGER && s.admissions == []
  {
    states, steps := Extend([START], [], capacity, Claim(r));
    states, steps := Extend(states, steps, capacity, Claim(r));
  }

  /** The first has been admitted and promoted; the second has read an empty acknowledgement and not yet reserved. */
  lemma PromotedBesideReader(r: Request, id: string, capacity: nat) returns (states: seq<System>, steps: seq<Step>)
    ensures IsRun(states, steps, capacity) && |steps| == 6 && steps[3] == Admit(0, id) && steps[5] == Promote(0)
    ensures var s := states[|steps|];
      && s.callers == map[1 := Agent(r, Ready)] && s.admissions == [Accept(r, id)]
      && AckStored(s, r.dispatchId) && CachedAt(s, LedgerKey(r))
  {
    states, steps := TwoReaders(r, capacity);
    hide Apply;
    states, steps := ReserveAndAdmit(states, steps, capacity, 0, id);
    var s := states[|steps|];
    StillBeside(states, steps, capacity, r, id);
    states, steps := RecordThenPromote(states, steps, capacity, 0, s.callers[0].stage.channel, id);
    assert s.callers - {0} == map[1 := Agent(r, Ready)];
  }

  lemma StillBeside(states: seq<System>, steps: seq<Step>, capacity: nat, r: Request, id: string)
    requires IsRun(states, steps, capacity) && |steps| == 4 && steps[2] == Reserve(0) && steps[3] == Admit(0, id)
    requires states[2].callers == map[0 := Agent(r, Ready), 1 := Agent(r, Ready)]
    ensures var s := states[4];
      && s.callers.Keys == {0, 1} && s.callers[1] == Agent(r, Ready)
      && s.callers[0].request == r && s.callers[0].stage.Admitted? && s.callers[0].stage.admissionId == id
  {
    hide Attempt;
    assert states[3] == Apply(states[2], capacity, steps[2]);
    assert states[4] == Apply(states[3], capacity, steps[3]);
  }

  /** At every capacity a dispatch can be admitted twice although its first holder was promoted: enough other
      reservations evict its cached acknowledgement while a caller that had read an empty one is still to reserve. */
  lemma EvictedShieldIsAdmittedTwice(r: Request, capacity: nat) returns (states: seq<System>, steps: seq<Step>)
    ensures IsRun(states, steps, capacity) && |steps| > 6 && steps[5] == Promote(0)
    ensures states[|steps|].admissions == [Accept(r, "first"), Accept(r, "second")]
  {
    hide Apply, Enabled;
    states, steps := PromotedBesideReader(r, "first", capacity);
    states, steps := EvictCompleted(states, steps, capacity, 1);
    states, steps := ReserveAndAdmit(states, steps, capacity, 1, "second");
    assert [Accept(r, "first")] + [Accept(r, "second")] == [Accept(r, "first"), Accept(r, "second")];
  }

  // ----- Completed entries and the capacity -----

  function DoneKeys(l: Ledger): set<Key> { set k | k in l.entries && l.entries[k].Done? }

  ghost predicate Exceeded(s: System, capacity: nat) { |DoneKeys(s.ledger)| > capacity }

  /** Right after a new reservation the completed entries fit the capacity. */
  lemma CompletedFitAfterReservation(l: Ledger, capacity: nat, key: Key, fingerprint: Request)
    requires WellFormed(l) && key !in l.entries
    ensures |DoneKeys(TryReserve(l, capacity, key, fingerprint).0)| <= capacity
  {
    var after := TryReserve(l, capacity, key, fingerprint).0;
    TryReserveFree(l, capacity, key, fingerprint);
    hide TryReserve;
    if |after.entries| <= capacity {
      SubsetSize(DoneKeys(after), after.entries.Keys);
      assert |after.entries.Keys| == |after.entries|;
    } else {
      assert DoneKeys(after) == {};
    }
  }

  lemma CompleteHolder(states: seq<System>, steps: seq<Step>, capacity: nat, c: nat)
    returns (states': seq<System>, steps': seq<Step>)
    requires IsRun(states, steps, capacity) && c in states[|steps|].callers && states[|steps|].callers[c].stage.Holding?
    ensures IsRun(states', steps', capacity) && Extends(states, steps, states', steps')
    ensures states'[|steps'|].callers == states[|steps|].callers - {c}
    ensures |DoneKeys(states'[|steps'|].ledger)| == |DoneKeys(states[|steps|].ledger)| + 1
  {
    var s, key := states[|steps|], LedgerKey(states[|steps|].callers[c].request);
    states', steps' := Extend(states, steps, capacity, Admit(c, ""));
    var m := states'[|steps'|];
    assert m.callers - {c} == s.callers - {c} && m.ledger == s.ledger;
    hide Apply, Enabled;
    states', steps' := RecordThenPromote(states', steps', capacity, c, m.callers[c].stage.channel, "");
    assert DoneKeys(states'[|steps'|].ledger) == DoneKeys(s.ledger) + {key};
  }

  lemma {:induction false} CompleteHolders(states: seq<System>, steps: seq<Step>, capacity: nat, holders: set<nat>)
    returns (states': seq<System>, steps': seq<Step>)
    requires IsRun(states, steps, capacity)
    requires forall c :: c in holders ==> c in states[|steps|].callers && states[|steps|].callers[c].stage.Holding?
    ensures IsRun(states', steps', capacity) && Extends(states, steps, states', steps')
    ensures |DoneKeys(states'[|steps'|].ledger)| == |DoneKeys(states[|steps|].ledger)| + |holders|
    decreases holders
  {
    hide Apply, Enabled, DoneKeys;
    states', steps' := states, steps;
    if holders != {} {
      var c :| c in holders;
      states', steps' := CompleteHolder(states, steps, capacity, c);
      states', steps' := CompleteHolders(states', steps', capacity, holders - {c});
      assert |holders - {c}| == |holders| - 1;
    }
  }

  /** At every capacity some run leaves more completed entries in the ledger than the capacity. */
  lemma CompletedExceedCapacity(capacity: nat) returns (states: seq<System>, steps: seq<Step>)
    ensures IsRun(states, steps, capacity) && Exceeded(states[|steps|], capacity)
  {
    hide Apply, Enabled, DoneKeys;
    var holders;
    states, steps, holders := AddHolders([START], [], capacity, Key(""), capacity + 1);
    states, steps := CompleteHolders(states, steps, capacity, holders);
  }

  /** The steps after which the completed entries fit, whatever was before: a restart, and a reservation attempt on a
      free key. */
  predicate MakesFit(s: System, step: Step) {
    || step.Restart?
    || ((step.Reserve? || step.Rereserve?) && step.c in s.callers
        && LedgerKey(s.callers[step.c].request) !in s.ledger.entries)
  }

  /** A promotion with as many completed entries as the capacity. */
  ghost predicate Overfills(s: System, capacity: nat, step: Step) {
    step.Promote? && |DoneKeys(s.ledger)| == capacity
  }

  lemma FitStep(s: System, capacity: nat, step: Step)
    requires Owned(s) && Enabled(s, step) && MakesFit(s, step)
    ensures !Exceeded(Apply(s, capacity, step), capacity)
  {
    if step.Restart? {
      assert DoneKeys(Apply(s, capacity, step).ledger) == {};
    } else {
      var r := s.callers[step.c].request;
      CompletedFitAfterReservation(s.ledger, capacity, LedgerKey(r), r);
      AttemptEffect(s, capacity, step);
      hide Apply, TryReserve;
    }
  }

  lemma PromoteAddsOne(s: System, capacity: nat, c: nat)
    requires Owned(s) && Enabled(s, Promote(c))
    ensures |DoneKeys(Apply(s, capacity, Promote(c)).ledger)| == |DoneKeys(s.ledger)| + 1
  {
    var key := LedgerKey(s.callers[c].request);
    assert Keeps(s, ByCaller(c)) && Carries(s.ledger, KeptKey(s, ByCaller(c)), KeptChannel(s, ByCaller(c)));
    assert key in Apply(s, capacity, Promote(c)).ledger.entries;
    assert Apply(s, capacity, Promote(c)).ledger.entries[key].Done?;
    OthersTouchOne(s, capacity, Promote(c));
    hide Apply;
    assert DoneKeys(Apply(s, capacity, Promote(c)).ledger) == DoneKeys(s.ledger) + {key};
  }

  lemma OthersKeepCompleted(s: System, capacity: nat, step: Step)
    requires Owned(s) && Enabled(s, step) && !step.Promote? && !MakesFit(s, step)
    ensures DoneKeys(Apply(s, capacity, step).ledger) == DoneKeys(s.ledger)
  {
    if step.Reserve? || step.Rereserve? {
      AttemptEffect(s, capacity, step);
      hide Apply, Attempt;
    } else {
      OthersTouchOne(s, capacity, step);
      hide Apply;
    }
  }

  /** One step: the completed entries exceed the capacity after it exactly if they did before and it does not make
      them fit, or it is a promotion that overfills. */
  lemma ExceededStep(s: System, capacity: nat, step: Step)
    requires Owned(s) && Enabled(s, step)
    ensures Exceeded(Apply(s, capacity, step), capacity) <==>
              (Exceeded(s, capacity) && !MakesFit(s, step)) || Overfills(s, capacity, step)
  {
    hide Apply, Enabled, DoneKeys;
    if MakesFit(s, step) {
      FitStep(s, capacity, step);
    } else if step.Promote? {
      PromoteAddsOne(s, capacity, step.c);
    } else {
      OthersKeepCompleted(s, capacity, step);
    }
  }

  /** A promotion at step `k` overfilled, and nothing made the completed entries fit from there to state `i`. */
  ghost predicate OverfilledSince(states: seq<System>, steps: seq<Step>, capacity: nat, i: nat, k: nat)
    requires |states| == |steps| + 1 && i < |states|
  {
    k < i && Overfills(states[k], capacity, steps[k]) && forall t :: k < t < i ==> !MakesFit(states[t], steps[t])
  }

  /** In every reachable state the completed entries exceed the capacity exactly if, since the last reservation
      attempt on a free key or restart, a promotion came when they were as many as the capacity. */
  lemma {:induction false} ExceededExactlyIfOverfilled(states: seq<System>, steps: seq<Step>, capacity: nat, i: nat)
    requires IsRun(states, steps, capacity) && i < |states|
    ensures Exceeded(states[i], capacity) <==> exists k :: OverfilledSince(states, steps, capacity, i, k)
  {
    hide Apply, Enabled, Owned, MakesFit, Overfills;
    if i == 0 {
      assert DoneKeys(states[0].ledger) == {};
    } else {
      hide Exceeded;
      var j := i - 1;
      ExceededExactlyIfOverfilled(states, steps, capacity, j);
      InvOwned(states, steps, capacity, i - 1);
      ExceededStep(states[i - 1], capacity, steps[i - 1]);
      if !MakesFit(states[i - 1], steps[i - 1]) {
        if k :| OverfilledSince(states, steps, capacity, j, k) {
          assert OverfilledSince(states, steps, capacity, i, k);
        }
      }
      if Overfills(states[i - 1], capacity, steps[i - 1]) {
        assert OverfilledSince(states, steps, capacity, i, i - 1);
      }
      if k :| OverfilledSince(states, steps, capacity, i, k) {
        assert k == j || OverfilledSince(states, steps, capacity, j, k);
      }
    }
  }
}
