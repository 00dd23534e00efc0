/** When a dispatch can be admitted again: the exact condition on the store, its readers and their slots. */
module Readmission {
  import opened Base
  import opened AgentWork
  import opened LedgerModel
  import opened Admission
  import opened AdmissionInvariant
  import opened AtMostOnce
  import opened AdmissionRuns
  import opened Waiters

  // ----- The condition -----

  ghost predicate OrphanAt(s: System, key: Key) { exists channel :: Orphan(s, key, channel) }

  /** The ledger key that every caller of the claimed dispatch `d` has. */
  function KeyOf(store: Store, d: DispatchId): Key
    requires d in store
  {
    LedgerKey(Request(d, "", 0, store[d].fingerprint))
  }

  /** `d` may be admitted before the next restart: it is unclaimed, or no ownerless slot is at its key and either no
      acknowledgement of it is stored or a caller of it has still to reserve or holds a reservation. */
  ghost predicate OpenNow(s: System, d: DispatchId) {
    || d !in s.store
    || (!OrphanAt(s, KeyOf(s.store, d))
        && (s.store[d].acknowledgement.None?
            || exists c :: IsFor(s, c, d) && (s.callers[c].stage.Ready? || s.callers[c].stage.Holding?)))
  }

  /** `d` may be admitted, be it after a restart: no acknowledgement of it is stored, or it is open now. */
  ghost predicate Open(s: System, d: DispatchId) { !AckStored(s, d) || OpenNow(s, d) }

  /** Some continuation of the run accepts an admission of `d`. */
  ghost predicate CanBeAdmitted(states: seq<System>, steps: seq<Step>, capacity: nat, d: DispatchId) {
    exists states', steps', j :: Admits(states, steps, capacity, d, states', steps', j)
  }

  ghost predicate Admits(states: seq<System>, steps: seq<Step>, capacity: nat, d: DispatchId,
                         states': seq<System>, steps': seq<Step>, j: nat) {
    && IsRun(states', steps', capacity) && Extends(states, steps, states', steps')
    && |steps| <= j < |steps'| && steps'[j].Admit? && IsFor(states'[j], steps'[j].c, d)
  }

  /** Some continuation of the run accepts an admission of `d` with no restart before it. */
  ghost predicate CanBeAdmittedNow(states: seq<System>, steps: seq<Step>, capacity: nat, d: DispatchId) {
    exists states', steps', j ::
      Admits(states, steps, capacity, d, states', steps', j) && NoRestart(steps', |steps|, j)
  }

  /** No restart from state `i` to state `j`. */
  predicate NoRestart(steps: seq<Step>, i: nat, j: nat) { forall t :: i <= t < j && t < |steps| ==> !steps[t].Restart? }

  lemma NoRestartJoins(steps: seq<Step>, steps': seq<Step>, i: nat)
    requires steps <= steps' && NoRestart(steps, i, |steps|) && NoRestart(steps', |steps|, |steps'|)
    ensures NoRestart(steps', i, |steps'|)
  {
  }

  // ----- Closed dispatches stay closed -----

  lemma KeyOfCaller(s: System, c: nat)
    requires Claims(s) && c in s.callers
    ensures s.callers[c].request.dispatchId in s.store
    ensures LedgerKey(s.callers[c].request) == KeyOf(s.store, s.callers[c].request.dispatchId)
  {
    assert ClaimHolds(s.store, s.callers[c]);
  }

  /** A holder's own slot is at its key, so no ownerless one is. */
  lemma HolderIsOpen(s: System, c: nat, d: DispatchId)
    requires Claims(s) && Owned(s) && IsFor(s, c, d) && s.callers[c].stage.Holding?
    ensures OpenNow(s, d)
  {
    KeyOfCaller(s, c);
    assert Keeps(s, ByCaller(c)) && Carries(s.ledger, KeptKey(s, ByCaller(c)), KeptChannel(s, ByCaller(c)));
  }

  lemma OrphanAtStays(s: System, capacity: nat, step: Step, key: Key)
    requires Claims(s) && Owned(s) && Enabled(s, step) && !step.Restart? && OrphanAt(s, key)
    ensures OrphanAt(Apply(s, capacity, step), key)
  {
    hide Apply, Orphan;
    var channel :| Orphan(s, key, channel);
    OrphanStays(s, capacity, step, key, channel);
  }

  /** Only a caller that is about to reserve, or holds already, is or holds after the next step. */
  lemma CallerMoves(s: System, capacity: nat, step: Step, c: nat)
    requires Enabled(s, step) && c in s.callers && c in Apply(s, capacity, step).callers && c < s.nextCaller
    ensures var before, after := s.callers[c].stage, Apply(s, capacity, step).callers[c].stage;
      after.Ready? || after.Holding? ==> before.Ready? || before.Holding?
  {
    if step.Claim? {
      hide Attempt;
    } else {
      CallerGoes(s, capacity, step, c);
      hide Apply, Enabled, Attempt;
    }
  }

  /** With the acknowledgement stored, a claim makes no caller of the dispatch. */
  lemma NoNewReader(s: System, capacity: nat, step: Step, c: nat, d: DispatchId)
    requires Claims(s) && Enabled(s, step) && AckStored(s, d) && IsFor(Apply(s, capacity, step), c, d)
    ensures IsFor(s, c, d)
  {
    if !step.Claim? {
      StepKeepsCallers(s, capacity, step);
      hide Apply;
    }
  }

  lemma ShutStays(s: System, capacity: nat, step: Step, d: DispatchId)
    requires Claims(s) && Owned(s) && Enabled(s, step) && !step.Restart? && !OpenNow(s, d)
    ensures !OpenNow(Apply(s, capacity, step), d)
  {
    StepGrowsStore(s, capacity, step);
    var s' := Apply(s, capacity, step);
    if OrphanAt(s, KeyOf(s.store, d)) {
      OrphanAtStays(s, capacity, step, KeyOf(s.store, d));
    } else {
      forall c | IsFor(s', c, d) ensures !s'.callers[c].stage.Ready? && !s'.callers[c].stage.Holding? {
        NoNewReader(s, capacity, step, c, d);
        CallerMoves(s, capacity, step, c);
      }
    }
    hide Apply, Enabled, OrphanAt, KeyOf;
  }

  lemma {:induction false} ShutUntilRestart(states: seq<System>, steps: seq<Step>, capacity: nat, i: nat, j: nat,
                                            d: DispatchId)
    requires IsRun(states, steps, capacity) && i <= j < |states| && !OpenNow(states[i], d) && NoRestart(steps, i, j)
    ensures !OpenNow(states[j], d)
  {
    hide Apply, Enabled, OpenNow, Claims, Owned;
    if i < j {
      ShutUntilRestart(states, steps, capacity, i, j - 1, d);
      InvOwned(states, steps, capacity, j - 1);
      ShutStays(states[j - 1], capacity, steps[j - 1], d);
    }
  }

  lemma ClosedStays(s: System, capacity: nat, step: Step, d: DispatchId)
    requires Claims(s) && Owned(s) && Enabled(s, step) && !Open(s, d)
    ensures !Open(Apply(s, capacity, step), d)
  {
    StepGrowsStore(s, capacity, step);
    if !step.Restart? {
      ShutStays(s, capacity, step, d);
    }
    hide OrphanAt, KeyOf;
  }

  lemma {:induction false} ClosedForever(states: seq<System>, steps: seq<Step>, capacity: nat, i: nat, j: nat,
                                         d: DispatchId)
    requires IsRun(states, steps, capacity) && i <= j < |states| && !Open(states[i], d)
    ensures !Open(states[j], d)
  {
    hide Apply, Enabled, Open, Claims, Owned;
    if i < j {
      ClosedForever(states, steps, capacity, i, j - 1, d);
      InvOwned(states, steps, capacity, j - 1);
      ClosedStays(states[j - 1], capacity, steps[j - 1], d);
    }
  }

  // ----- New dispatches -----

  lemma {:induction false} LongerThanAll(texts: set<string>) returns (longer: string)
    ensures forall t :: t in texts ==> |t| < |longer|
  {
    longer := "a";
    if texts != {} {
      var t :| t in texts;
      var rest := LongerThanAll(texts - {t});
      longer := rest + t + "a";
    }
  }

  /** There is always another dispatch, with an unused id and an unused ledger key. */
  lemma AnotherDispatch(store: Store, entries: map<Key, Slot>, reserved: Key) returns (r: Request)
    ensures r.dispatchId !in store && LedgerKey(r) !in entries && LedgerKey(r) != reserved
  {
    var texts := (set d | d in store :: d.text) + (set k | k in entries :: k.text) + {reserved.text};
    var longer := LongerThanAll(texts);
    r := Request(DispatchId(longer), "", 0, Payload("", "", "", "", ""));
    assert |LedgerKey(r).text| >= |longer|;
    assert r.dispatchId in store ==> r.dispatchId.text in texts;
    assert LedgerKey(r) in entries ==> LedgerKey(r).text in texts;
    assert reserved.text in texts;
  }

  /** What a new caller of an unclaimed dispatch, once it holds a reservation, leaves as it was. */
  ghost predicate HolderAdded(s: System, t: System, capacity: nat, r: Request) {
    && t.callers == s.callers[s.nextCaller := Caller(r, OpenabNative(r.dispatchId), Holding(|s.ledger.channels|))]
    && t.store == s.store[r.dispatchId := Row(r.payload, OpenabNative(r.dispatchId), None)]
    && t.admissions == s.admissions && t.answers == s.answers
    && Installed(s.ledger, t.ledger, capacity, LedgerKey(r), Fingerprint(r))
  }

  lemma ReserveInstalls(s: System, capacity: nat, c: nat)
    requires WellFormed(s.ledger) && Enabled(s, Reserve(c)) && LedgerKey(s.callers[c].request) !in s.ledger.entries
    ensures var t, r := Apply(s, capacity, Reserve(c)), s.callers[c].request;
      && t.callers == s.callers[c := s.callers[c].(stage := Holding(|s.ledger.channels|))]
      && t.store == s.store && t.admissions == s.admissions && t.answers == s.answers
      && Installed(s.ledger, t.ledger, capacity, LedgerKey(r), Fingerprint(r))
  {
    TryReserveFree(s.ledger, capacity, LedgerKey(s.callers[c].request), Fingerprint(s.callers[c].request));
    hide TryReserve, Installed;
  }

  lemma LedgerIsWellFormed(states: seq<System>, steps: seq<Step>, capacity: nat)
    requires IsRun(states, steps, capacity)
    ensures WellFormed(states[|steps|].ledger)
  {
    InvOwned(states, steps, capacity, |steps|);
  }

  lemma AddHolder(states: seq<System>, steps: seq<Step>, capacity: nat, r: Request)
    returns (states': seq<System>, steps': seq<Step>)
    requires IsRun(states, steps, capacity)
    requires r.dispatchId !in states[|steps|].store && LedgerKey(r) !in states[|steps|].ledger.entries
    ensures IsRun(states', steps', capacity) && Extends(states, steps, states', steps')
    ensures NoRestart(steps', |steps|, |steps'|) && HolderAdded(states[|steps|], states'[|steps'|], capacity, r)
  {
    var s := states[|steps|];
    hide Apply, Installed, Claims, Owned, WellFormed, LedgerKey;
    LedgerIsWellFormed(states, steps, capacity);
    ClaimAddsReader(s, capacity, r);
    states', steps' := Extend(states, steps, capacity, Claim(r));
    ReserveInstalls(states'[|steps'|], capacity, s.nextCaller);
    states', steps' := Extend(states', steps', capacity, Reserve(s.nextCaller));
  }

  lemma ClaimAddsReader(s: System, capacity: nat, r: Request)
    requires r.dispatchId !in s.store
    ensures var t := Apply(s, capacity, Claim(r));
      && t.callers == s.callers[s.nextCaller := Caller(r, OpenabNative(r.dispatchId), Ready)]
      && t.store == s.store[r.dispatchId := Row(r.payload, OpenabNative(r.dispatchId), None)]
      && t.admissions == s.admissions && t.answers == s.answers && t.ledger == s.ledger
  {
  }

  /** `t` comes after `s`: old callers, rows and admissions as before, `holders` new callers that hold reservations,
      at least as many slots in flight as they are, and at `reserved` nothing that was not there. */
  ghost predicate HoldersAdded(s: System, t: System, capacity: nat, reserved: Key, holders: set<nat>) {
    && (forall c :: c in s.callers ==> c in t.callers && t.callers[c] == s.callers[c])
    && (forall d :: d in s.store ==> d in t.store && t.store[d] == s.store[d])
    && t.admissions == s.admissions && holders !! s.callers.Keys
    && (forall c :: c in holders ==> c in t.callers && t.callers[c].stage.Holding?)
    && |holders| <= |InFlightKeys(t.ledger)|
    && (reserved in t.ledger.entries ==>
          reserved in s.ledger.entries && t.ledger.entries[reserved] == s.ledger.entries[reserved])
    && (holders != {} ==>
          |t.ledger.entries| <= capacity || forall k :: k in t.ledger.entries ==> t.ledger.entries[k].InFlight?)
  }

  lemma InstalledCounts(l: Ledger, l': Ledger, capacity: nat, key: Key, fingerprint: Request)
    requires Installed(l, l', capacity, key, fingerprint)
    ensures |InFlightKeys(l')| >= |InFlightKeys(l)| + 1
  {
    var more := InFlightKeys(l) + {key};
    assert key !in InFlightKeys(l);
    assert more <= InFlightKeys(l');
    SubsetSize(more, InFlightKeys(l'));
  }

  lemma OneHolderMore(s: System, m: System, t: System, capacity: nat, reserved: Key, holders: set<nat>, r: Request)
    requires HoldersAdded(s, m, capacity, reserved, holders) && HolderAdded(m, t, capacity, r)
    requires m.nextCaller !in m.callers && r.dispatchId !in m.store && LedgerKey(r) != reserved
    ensures HoldersAdded(s, t, capacity, reserved, holders + {m.nextCaller}) && m.nextCaller !in holders
  {
    InstalledCounts(m.ledger, t.ledger, capacity, LedgerKey(r), Fingerprint(r));
  }

  /** Any run goes on to one with `n` more holders. */
  lemma {:induction false} AddHolders(states: seq<System>, steps: seq<Step>, capacity: nat, reserved: Key, n: nat)
    returns (states': seq<System>, steps': seq<Step>, holders: set<nat>)
    requires IsRun(states, steps, capacity)
    ensures IsRun(states', steps', capacity) && Extends(states, steps, states', steps')
    ensures NoRestart(steps', |steps|, |steps'|)
    ensures |holders| == n && HoldersAdded(states[|steps|], states'[|steps'|], capacity, reserved, holders)
  {
    hide Apply, Enabled;
    if n == 0 {
      states', steps', holders := states, steps, {};
    } else {
      states', steps', holders := AddHolders(states, steps, capacity, reserved, n - 1);
      var m := states'[|steps'|];
      InvOwned(states', steps', capacity, |steps'|);
      var r := AnotherDispatch(m.store, m.ledger.entries, reserved);
      var before := steps';
      states', steps' := AddHolder(states', steps', capacity, r);
      NoRestartJoins(before, steps', |steps|);
      OneHolderMore(states[|steps|], m, states'[|steps'|], capacity, reserved, holders, r);
      holders := holders + {m.nextCaller};
    }
  }

  // ----- Freeing a key -----

  /** `t` is `s` with nothing at caller `c`'s key; the caller, its row and the admissions are as before. */
  ghost predicate KeyFreed(s: System, t: System, c: nat) {
    && c in s.callers && c in t.callers && t.callers[c] == s.callers[c]
    && LedgerKey(s.callers[c].request) !in t.ledger.entries && t.admissions == s.admissions
  }

  /** Enough other reservations evict any completed entry, at any capacity. */
  lemma EvictCompleted(states: seq<System>, steps: seq<Step>, capacity: nat, c: nat)
    returns (states': seq<System>, steps': seq<Step>)
    requires IsRun(states, steps, capacity) && c in states[|steps|].callers
    requires CachedAt(states[|steps|], LedgerKey(states[|steps|].callers[c].request))
    ensures IsRun(states', steps', capacity) && Extends(states, steps, states', steps')
    ensures NoRestart(steps', |steps|, |steps'|) && KeyFreed(states[|steps|], states'[|steps'|], c)
  {
    var s := states[|steps|];
    var key := LedgerKey(s.callers[c].request);
    var holders;
    states', steps', holders := AddHolders(states, steps, capacity, key, capacity + 1);
    var t := states'[|steps'|];
    SubsetSize(InFlightKeys(t.ledger), t.ledger.entries.Keys);
    assert |t.ledger.entries.Keys| == |t.ledger.entries| > capacity;
  }

  /** The key of a caller about to reserve can be freed unless an ownerless slot blocks it. */
  lemma FreeKey(states: seq<System>, steps: seq<Step>, capacity: nat, c: nat)
    returns (states': seq<System>, steps': seq<Step>)
    requires IsRun(states, steps, capacity) && c in states[|steps|].callers && states[|steps|].callers[c].stage.Ready?
    requires !OrphanAt(states[|steps|], LedgerKey(states[|steps|].callers[c].request))
    ensures IsRun(states', steps', capacity) && Extends(states, steps, states', steps')
    ensures NoRestart(steps', |steps|, |steps'|) && KeyFreed(states[|steps|], states'[|steps'|], c)
  {
    hide Apply, Enabled;
    var s := states[|steps|];
    var key := LedgerKey(s.callers[c].request);
    InvOwned(states, steps, capacity, |steps|);
    if key !in s.ledger.entries {
      states', steps' := states, steps;
    } else if s.ledger.entries[key].Done? {
      states', steps' := EvictCompleted(states, steps, capacity, c);
    } else {
      var channel := s.ledger.entries[key].channel;
      assert Carries(s.ledger, key, channel) && !Orphan(s, key, channel);
      var k :| Keeps(s, k) && KeptChannel(s, k) == channel;
      assert Carries(s.ledger, KeptKey(s, k), channel) && KeptKey(s, k) == key;
      KeeperGivesUp(s, capacity, k);
      states', steps' := Extend(states, steps, capacity, GivesUp(k));
    }
  }

  // ----- Open dispatches can be admitted -----

  lemma AdmitHolder(states: seq<System>, steps: seq<Step>, capacity: nat, c: nat, id: string)
    returns (states': seq<System>, steps': seq<Step>)
    requires IsRun(states, steps, capacity) && c in states[|steps|].callers && states[|steps|].callers[c].stage.Holding?
    ensures IsRun(states', steps', capacity) && Extends(states, steps, states', steps')
    ensures |steps'| == |steps| + 1 && steps'[|steps|] == Admit(c, id) && states'[|steps|] == states[|steps|]
    ensures states'[|steps'|].admissions == states[|steps|].admissions
          + [Accept(states[|steps|].callers[c].request, id)]
  {
    states', steps' := Extend(states, steps, capacity, Admit(c, id));
  }

  /** A caller whose key is free reserves and is admitted. */
  lemma ReserveAndAdmit(states: seq<System>, steps: seq<Step>, capacity: nat, c: nat, id: string)
    returns (states': seq<System>, steps': seq<Step>)
    requires IsRun(states, steps, capacity) && c in states[|steps|].callers && states[|steps|].callers[c].stage.Ready?
    requires LedgerKey(states[|steps|].callers[c].request) !in states[|steps|].ledger.entries
    ensures IsRun(states', steps', capacity) && Extends(states, steps, states', steps') && |steps'| == |steps| + 2
    ensures var r := states[|steps|].callers[c].request;
      && steps'[|steps|] == Reserve(c) && steps'[|steps| + 1] == Admit(c, id)
      && IsFor(states'[|steps| + 1], c, r.dispatchId)
      && states'[|steps'|].admissions == states[|steps|].admissions + [Accept(r, id)]
  {
    InvOwned(states, steps, capacity, |steps|);
    ReserveInstalls(states[|steps|], capacity, c);
    states', steps' := Extend(states, steps, capacity, Reserve(c));
    hide Apply, Installed;
    states', steps' := AdmitHolder(states', steps', capacity, c, id);
  }

  lemma RestartThenClaim(s: System, capacity: nat, r: Request)
    requires !AckStored(s, r.dispatchId)
    requires r.dispatchId in s.store ==> s.store[r.dispatchId].fingerprint == r.payload
    ensures var t := Apply(Apply(s, capacity, Restart), capacity, Claim(r));
      && s.nextCaller in t.callers && t.callers[s.nextCaller].request == r && t.callers[s.nextCaller].stage.Ready?
      && t.ledger == EMPTY_LEDGER && t.admissions == s.admissions
  {
  }

  /** Without a stored acknowledgement a restart lets the dispatch be claimed and admitted, again or for the first
      time, with the payload its row pins if it has one. */
  lemma RestartReadmits(states: seq<System>, steps: seq<Step>, capacity: nat, r: Request, id: string)
    returns (states': seq<System>, steps': seq<Step>)
    requires IsRun(states, steps, capacity) && !AckStored(states[|steps|], r.dispatchId)
    requires r.dispatchId in states[|steps|].store ==> states[|steps|].store[r.dispatchId].fingerprint == r.payload
    ensures IsRun(states', steps', capacity) && Extends(states, steps, states', steps') && |steps'| == |steps| + 4
    ensures steps'[|steps| + 3].Admit? && IsFor(states'[|steps| + 3], steps'[|steps| + 3].c, r.dispatchId)
    ensures states'[|steps'|].admissions == states[|steps|].admissions + [Accept(r, id)]
  {
    hide Apply;
    RestartThenClaim(states[|steps|], capacity, r);
    states', steps' := Extend(states, steps, capacity, Restart);
    states', steps' := Extend(states', steps', capacity, Claim(r));
    var c := states[|steps|].nextCaller;
    states', steps' := ReserveAndAdmit(states', steps', capacity, c, id);
  }

  /** An unclaimed dispatch can always be claimed with a payload whose key is free. */
  lemma FreePayload(entries: map<Key, Slot>, d: DispatchId) returns (r: Request)
    ensures r.dispatchId == d && LedgerKey(r) !in entries
  {
    var texts := set k | k in entries :: k.text;
    var longer := LongerThanAll(texts);
    r := Request(d, "", 0, Payload("", "", longer, "", ""));
    assert LedgerKey(r) in entries ==> LedgerKey(r).text in texts;
  }

  lemma UnclaimedIsHeld(states: seq<System>, steps: seq<Step>, capacity: nat, d: DispatchId)
    returns (states': seq<System>, steps': seq<Step>, c: nat)
    requires IsRun(states, steps, capacity) && d !in states[|steps|].store
    ensures IsRun(states', steps', capacity) && Extends(states, steps, states', steps')
    ensures NoRestart(steps', |steps|, |steps'|)
    ensures IsFor(states'[|steps'|], c, d) && states'[|steps'|].callers[c].stage.Holding?
  {
    hide Apply, Enabled, Installed;
    var r := FreePayload(states[|steps|].ledger.entries, d);
    states', steps' := AddHolder(states, steps, capacity, r);
    c := states[|steps|].nextCaller;
  }

  /** Claiming a dispatch without a stored acknowledgement again makes another reader, and no ownerless slot. */
  lemma ClaimedIsReady(states: seq<System>, steps: seq<Step>, capacity: nat, d: DispatchId)
    returns (states': seq<System>, steps': seq<Step>, c: nat)
    requires IsRun(states, steps, capacity) && d in states[|steps|].store
    requires states[|steps|].store[d].acknowledgement.None?
    requires !OrphanAt(states[|steps|], KeyOf(states[|steps|].store, d))
    ensures IsRun(states', steps', capacity) && Extends(states, steps, states', steps')
    ensures NoRestart(steps', |steps|, |steps'|)
    ensures IsFor(states'[|steps'|], c, d) && states'[|steps'|].callers[c].stage.Ready?
    ensures !OrphanAt(states'[|steps'|], LedgerKey(states'[|steps'|].callers[c].request))
  {
    var s := states[|steps|];
    var r := Request(d, "", 0, s.store[d].fingerprint);
    InvOwned(states, steps, capacity, |steps|);
    states', steps' := Extend(states, steps, capacity, Claim(r));
    c := s.nextCaller;
    if channel :| Orphan(states'[|steps'|], LedgerKey(r), channel) {
      OrphanOrigin(s, capacity, Claim(r), LedgerKey(r), channel);
    }
  }

  lemma ReadyIsHeld(states: seq<System>, steps: seq<Step>, capacity: nat, b: nat, d: DispatchId)
    returns (states': seq<System>, steps': seq<Step>, c: nat)
    requires IsRun(states, steps, capacity) && IsFor(states[|steps|], b, d) && states[|steps|].callers[b].stage.Ready?
    requires !OrphanAt(states[|steps|], LedgerKey(states[|steps|].callers[b].request))
    ensures IsRun(states', steps', capacity) && Extends(states, steps, states', steps')
    ensures NoRestart(steps', |steps|, |steps'|)
    ensures IsFor(states'[|steps'|], c, d) && states'[|steps'|].callers[c].stage.Holding?
  {
    hide Apply, Installed;
    c := b;
    states', steps' := FreeKey(states, steps, capacity, b);
    LedgerIsWellFormed(states', steps', capacity);
    ReserveInstalls(states'[|steps'|], capacity, b);
    var before := steps';
    states', steps' := Extend(states', steps', capacity, Reserve(b));
    NoRestartJoins(before, steps', |steps|);
  }

  lemma OpenNowIsHeld(states: seq<System>, steps: seq<Step>, capacity: nat, d: DispatchId)
    returns (states': seq<System>, steps': seq<Step>, c: nat)
    requires IsRun(states, steps, capacity) && OpenNow(states[|steps|], d)
    ensures IsRun(states', steps', capacity) && Extends(states, steps, states', steps')
    ensures NoRestart(steps', |steps|, |steps'|)
    ensures IsFor(states'[|steps'|], c, d) && states'[|steps'|].callers[c].stage.Holding?
  {
    hide Apply, Enabled, OrphanAt, KeyOf, NoRestart;
    var s := states[|steps|];
    InvOwned(states, steps, capacity, |steps|);
    NoRestartYet(steps);
    if d !in s.store {
      states', steps', c := UnclaimedIsHeld(states, steps, capacity, d);
    } else if b :| IsFor(s, b, d) && s.callers[b].stage.Holding? {
      states', steps', c := states, steps, b;
    } else if b :| IsFor(s, b, d) && s.callers[b].stage.Ready? {
      KeyOfCaller(s, b);
      states', steps', c := ReadyIsHeld(states, steps, capacity, b, d);
    } else {
      states', steps', c := ClaimedIsReady(states, steps, capacity, d);
      var before := steps';
      states', steps', c := ReadyIsHeld(states', steps', capacity, c, d);
      NoRestartJoins(before, steps', |steps|);
    }
  }

  lemma NoRestartYet(steps: seq<Step>)
    ensures NoRestart(steps, |steps|, |steps|)
  {
  }

  /** In every reachable state, a dispatch can be admitted without a restart before exactly if it is open now. So
      while an ownerless slot is at its key, a claimed dispatch waits for a restart. */
  lemma AdmittedNowExactlyIfOpenNow(states: seq<System>, steps: seq<Step>, capacity: nat, d: DispatchId)
    requires IsRun(states, steps, capacity)
    ensures CanBeAdmittedNow(states, steps, capacity, d) <==> OpenNow(states[|steps|], d)
  {
    hide Apply, OrphanAt;
    if OpenNow(states[|steps|], d) {
      hide OpenNow;
      var states', steps', c := OpenNowIsHeld(states, steps, capacity, d);
      var j := |steps'|;
      states', steps' := AdmitHolder(states', steps', capacity, c, "");
      assert NoRestart(steps', |steps|, j);
      assert Admits(states, steps, capacity, d, states', steps', j);
    } else if CanBeAdmittedNow(states, steps, capacity, d) {
      hide OpenNow;
      var states': seq<System>, steps': seq<Step>, j: nat :|
        Admits(states, steps, capacity, d, states', steps', j) && NoRestart(steps', |steps|, j);
      assert states'[|steps|] == states[|steps|] && Enabled(states'[j], steps'[j]);
      ShutUntilRestart(states', steps', capacity, |steps|, j, d);
      InvOwned(states', steps', capacity, j);
      HolderIsOpen(states'[j], steps'[j].c, d);
    }
  }

  lemma OpenIsAdmitted(states: seq<System>, steps: seq<Step>, capacity: nat, d: DispatchId)
    returns (states': seq<System>, steps': seq<Step>, j: nat)
    requires IsRun(states, steps, capacity) && Open(states[|steps|], d)
    ensures Admits(states, steps, capacity, d, states', steps', j)
  {
    hide Apply, Enabled, OpenNow;
    var s := states[|steps|];
    if !AckStored(s, d) {
      var payload := if d in s.store then s.store[d].fingerprint else Payload("", "", "", "", "");
      states', steps' := RestartReadmits(states, steps, capacity, Request(d, "", 0, payload), "");
      j := |steps| + 3;
    } else {
      var c;
      states', steps', c := OpenNowIsHeld(states, steps, capacity, d);
      j := |steps'|;
      states', steps' := AdmitHolder(states', steps', capacity, c, "");
    }
  }

  /** In every reachable state, a dispatch can be admitted, for the first time or again, exactly if it is open. */
  lemma AdmittedExactlyIfOpen(states: seq<System>, steps: seq<Step>, capacity: nat, d: DispatchId)
    requires IsRun(states, steps, capacity)
    ensures CanBeAdmitted(states, steps, capacity, d) <==> Open(states[|steps|], d)
  {
    hide Apply, OpenNow;
    if Open(states[|steps|], d) {
      var states', steps', j := OpenIsAdmitted(states, steps, capacity, d);
    } else if CanBeAdmitted(states, steps, capacity, d) {
      var states': seq<System>, steps': seq<Step>, j: nat :| Admits(states, steps, capacity, d, states', steps', j);
      assert states'[|steps|] == states[|steps|] && Enabled(states'[j], steps'[j]);
      ClosedForever(states', steps', capacity, |steps|, j, d);
      InvOwned(states', steps', capacity, j);
      HolderIsOpen(states'[j], steps'[j].c, d);
    }
  }
}
