/** What discovery keeps over every run. */
module DiscoveryRuns {
  import opened Base
  import opened Names
  import opened CatalogModel
  import opened Discovery

  // ----- Single flight -----

  /** One running fetch per raised flag, and no other. */
  ghost predicate SingleFlight(f: Fetcher) {
    && (forall t :: t in f.tasks ==> t < f.next && f.tasks[t].key in f.inflight)
    && (forall t, u :: t in f.tasks && u in f.tasks && f.tasks[t].key == f.tasks[u].key ==> t == u)
    && (forall k :: k in f.inflight ==> exists t :: t in f.tasks && f.tasks[t].key == k)
  }

  lemma SpawnKeepsSingleFlight(f: Fetcher, key: Key, id: ServerId)
    requires SingleFlight(f)
    ensures SingleFlight(Spawn(f, key, id))
  {
    var g := Spawn(f, key, id);
    if key !in f.inflight {
      assert forall t :: t in f.tasks ==> t in g.tasks && g.tasks[t] == f.tasks[t];
      assert f.next in g.tasks && g.tasks[f.next].key == key;
      forall k | k in g.inflight ensures exists t :: t in g.tasks && g.tasks[t].key == k {
        if k != key {
          var t :| t in f.tasks && f.tasks[t].key == k;
          assert t in g.tasks;
        }
      }
    }
  }

  lemma LandKeepsSingleFlight(f: Fetcher, ticket: nat, fetched: Option<seq<Tool>>)
    requires SingleFlight(f) && ticket in f.tasks
    ensures SingleFlight(Land(f, ticket, fetched))
  {
    var g := Land(f, ticket, fetched);
    assert forall t :: t in g.tasks <==> t in f.tasks;
    assert forall t :: t in f.tasks ==> g.tasks[t].key == f.tasks[t].key;
    forall k | k in g.inflight ensures exists t :: t in g.tasks && g.tasks[t].key == k {
      var t :| t in f.tasks && f.tasks[t].key == k;
      assert t in g.tasks;
    }
  }

  lemma ClearKeepsSingleFlight(f: Fetcher, ticket: nat)
    requires SingleFlight(f) && ticket in f.tasks
    ensures SingleFlight(Clear(f, ticket))
  {
    var g := Clear(f, ticket);
    forall k | k in g.inflight ensures exists t :: t in g.tasks && g.tasks[t].key == k {
      var t :| t in f.tasks && f.tasks[t].key == k;
      assert t in g.tasks;
    }
  }

  /** In every reachable state: at most one running fetch per key, and the flags are exactly their keys. */
  lemma {:induction false} RunKeepsSingleFlight(states: seq<System>, steps: seq<Step>, n: nat)
    requires IsRun(states, steps) && n < |states|
    ensures SingleFlight(states[n].fetcher)
  {
    if n > 0 {
      RunKeepsSingleFlight(states, steps, n - 1);
      var s := states[n - 1];
      match steps[n - 1]
      case SpawnFetch(r) => SpawnKeepsSingleFlight(s.fetcher, s.rounds[r].pending.value.0, s.rounds[r].pending.value.1);
      case LandFetch(t, fetched) => LandKeepsSingleFlight(s.fetcher, t, fetched);
      case ClearFlag(t) => ClearKeepsSingleFlight(s.fetcher, t);
      case _ =>
    }
  }

  // ----- The cache -----

  /** The step caches a tool set for `key`. */
  predicate Fills(s: System, step: Step, key: Key) {
    step.LandFetch? && step.fetched.Some? && step.ticket in s.fetcher.tasks && s.fetcher.tasks[step.ticket].key == key
  }

  /** The step caches a tool set for some server of the channel. */
  predicate FillsChannel(s: System, step: Step, channel: Name) {
    && step.LandFetch? && step.fetched.Some?
    && step.ticket in s.fetcher.tasks && s.fetcher.tasks[step.ticket].key.channel == channel
  }

  /** Cached names never disappear, and an entry changes only when a fetch for its key succeeds. */
  lemma {:induction false} CacheOnlyGrows(states: seq<System>, steps: seq<Step>, a: nat, b: nat, key: Key)
    requires IsRun(states, steps) && a <= b < |states| && key in states[a].fetcher.cache
    ensures key in states[b].fetcher.cache
    ensures (forall i :: a <= i < b ==> !Fills(states[i], steps[i], key))
            ==> states[b].fetcher.cache[key] == states[a].fetcher.cache[key]
  {
    if a < b {
      CacheOnlyGrows(states, steps, a, b - 1, key);
      if !Fills(states[b - 1], steps[b - 1], key) {
      }
    }
  }

  lemma FilledStays(states: seq<System>, steps: seq<Step>, m: nat, n: nat, key: Key)
    requires IsRun(states, steps) && m < n < |states| && Fills(states[m], steps[m], key)
    ensures key in states[n].fetcher.cache
  {
    CacheOnlyGrows(states, steps, m + 1, n, key);
  }

  /** A cached set is the result of the latest successful fetch for its key. */
  lemma {:induction false} CacheIsLatestFetch(states: seq<System>, steps: seq<Step>, n: nat, key: Key) returns (m: nat)
    requires IsRun(states, steps) && n < |states| && key in states[n].fetcher.cache
    ensures m < n && Fills(states[m], steps[m], key)
    ensures states[n].fetcher.cache[key] == Stamped(states[m].fetcher.tasks[steps[m].ticket].id, steps[m].fetched.value)
    ensures forall i :: m < i < n ==> !Fills(states[i], steps[i], key)
  {
    if Fills(states[n - 1], steps[n - 1], key) {
      m := n - 1;
    } else {
      m := CacheIsLatestFetch(states, steps, n - 1, key);
    }
  }

  /** A round resolves a name to the connection attached at that moment; its fetch asks that connection. */
  lemma {:induction false} PendingOrigin(states: seq<System>, steps: seq<Step>, n: nat, r: nat) returns (j: nat)
    requires IsRun(states, steps) && n < |states| && r in states[n].rounds && states[n].rounds[r].pending.Some?
    ensures j <= n
    ensures var (key, id) := states[n].rounds[r].pending.value;
      key in states[j].registry && states[j].registry[key] == id
  {
    var s := states[n - 1];
    if steps[n - 1].Resolve? && steps[n - 1].round == r {
      j := n - 1;
    } else {
      assert r in s.rounds && s.rounds[r].pending == states[n].rounds[r].pending;
      j := PendingOrigin(states, steps, n - 1, r);
    }
  }

  lemma NewTask(s: System, step: Step, t: nat)
    requires Enabled(s, step) && SingleFlight(s.fetcher) && t in Apply(s, step).fetcher.tasks
    ensures var task := Apply(s, step).fetcher.tasks[t];
      if t in s.fetcher.tasks then task.key == s.fetcher.tasks[t].key && task.id == s.fetcher.tasks[t].id
      else step.SpawnFetch? && s.rounds[step.round].pending == Some((task.key, task.id))
  {
    if step.SpawnFetch? {
      var (key, id) := s.rounds[step.round].pending.value;
      assert s.rounds[step.round].pending == Some((key, id));
    }
  }

  lemma {:induction false} TaskOrigin(states: seq<System>, steps: seq<Step>, n: nat, t: nat) returns (j: nat)
    requires IsRun(states, steps) && n < |states| && t in states[n].fetcher.tasks
    ensures j <= n
    ensures states[n].fetcher.tasks[t].key in states[j].registry
    ensures states[j].registry[states[n].fetcher.tasks[t].key] == states[n].fetcher.tasks[t].id
  {
    assert n > 0;
    RunKeepsSingleFlight(states, steps, n - 1);
    assert states[n] == Apply(states[n - 1], steps[n - 1]);
    NewTask(states[n - 1], steps[n - 1], t);
    var task := states[n].fetcher.tasks[t];
    if t in states[n - 1].fetcher.tasks {
      j := TaskOrigin(states, steps, n - 1, t);
    } else {
      assert states[n - 1].rounds[steps[n - 1].round].pending.value == (task.key, task.id);
      j := PendingOrigin(states, steps, n - 1, steps[n - 1].round);
    }
  }

  /** Whatever is cached for a server was listed by a connection once attached under that server's name. */
  lemma CachedSetHasPublisher(states: seq<System>, steps: seq<Step>, n: nat, key: Key) returns (m: nat, j: nat)
    requires IsRun(states, steps) && n < |states| && key in states[n].fetcher.cache
    ensures j <= m < n && key in states[j].registry && states[j].registry[key] == states[n].fetcher.cache[key].id
    ensures Fills(states[m], steps[m], key) && steps[m].fetched == Some(states[n].fetcher.cache[key].tools)
  {
    m := CacheIsLatestFetch(states, steps, n, key);
    j := TaskOrigin(states, steps, m, steps[m].ticket);
  }

  // ----- Landing order -----

  /** Every fetch for `key` still to land was spawned after `ticket`. */
  ghost predicate LandedUpTo(f: Fetcher, key: Key, ticket: nat) {
    && ticket < f.next
    && forall t :: t in f.tasks && f.tasks[t].key == key && !f.tasks[t].landed ==> ticket < t
  }

  lemma {:induction false} StaysLandedUpTo(states: seq<System>, steps: seq<Step>, a: nat, b: nat, key: Key, ticket: nat)
    requires IsRun(states, steps) && a <= b < |states| && LandedUpTo(states[a].fetcher, key, ticket)
    ensures LandedUpTo(states[b].fetcher, key, ticket)
  {
    if a < b {
      StaysLandedUpTo(states, steps, a, b - 1, key, ticket);
    }
  }

  /** Fetches for one key land in the order they were spawned. */
  lemma LandingOrder(states: seq<System>, steps: seq<Step>, a: nat, b: nat, key: Key)
    requires IsRun(states, steps) && a < b < |steps|
    requires steps[a].LandFetch? && states[a].fetcher.tasks[steps[a].ticket].key == key
    requires steps[b].LandFetch? && states[b].fetcher.tasks[steps[b].ticket].key == key
    ensures steps[a].ticket < steps[b].ticket
  {
    RunKeepsSingleFlight(states, steps, a);
    StaysLandedUpTo(states, steps, a + 1, b, key, steps[a].ticket);
  }

  // ----- Settling -----

  /** `id` is the only connection `key` can still be fetched from, and its set is cached. */
  ghost predicate Settled(s: System, key: Key, id: ServerId) {
    && key in s.fetcher.cache && s.fetcher.cache[key].id == id
    && (key in s.registry ==> s.registry[key] == id)
    && NothingStale(s, key, id)
  }

  /** No fetch of `key` from another connection is running or about to be spawned. */
  ghost predicate NothingStale(s: System, key: Key, id: ServerId) {
    && NothingPending(s, key, id)
    && forall t :: t in s.fetcher.tasks && s.fetcher.tasks[t].key == key && s.fetcher.tasks[t].id != id
                   ==> s.fetcher.tasks[t].landed
  }

  ghost predicate NothingPending(s: System, key: Key, id: ServerId) {
    forall r :: r in s.rounds && s.rounds[r].pending.Some? && s.rounds[r].pending.value.0 == key
                ==> s.rounds[r].pending.value.1 == id
  }

  /** `key` is attached again under another connection. */
  predicate Replaces(step: Step, key: Key, id: ServerId) {
    step.Attach? && step.key == key && step.id != id
  }

  lemma StepKeepsSettled(s: System, step: Step, key: Key, id: ServerId)
    requires Enabled(s, step) && Settled(s, key, id) && !Replaces(step, key, id)
    ensures Settled(Apply(s, step), key, id)
  {
  }

  /** Once the attached connection's set has landed, with no older fetch left over, the key is settled. */
  lemma CurrentFetchSettles(s: System, step: Step, key: Key, id: ServerId)
    requires Enabled(s, step) && SingleFlight(s.fetcher) && Fills(s, step, key)
    requires s.fetcher.tasks[step.ticket].id == id && (key in s.registry ==> s.registry[key] == id)
    requires NothingPending(s, key, id)
    ensures Settled(Apply(s, step), key, id)
  {
  }

  /** Round `r` has no reason to fetch `key`. */
  ghost predicate Quiet(s: System, r: nat, key: Key, id: ServerId) {
    && r in s.rounds
    && (s.rounds[r].pending.Some? ==> s.rounds[r].pending.value.0 != key)
    && (s.rounds[r].channel == key.channel ==> !Due(s.rounds[r].discovered, key, id))
  }

  lemma StepKeepsQuiet(s: System, step: Step, r: nat, key: Key, id: ServerId)
    requires Enabled(s, step) && Settled(s, key, id) && Quiet(s, r, key, id)
    ensures Quiet(Apply(s, step), r, key, id)
  {
  }

  lemma {:induction false} StaysQuiet(states: seq<System>, steps: seq<Step>, a: nat, b: nat, r: nat, key: Key,
                                      id: ServerId)
    requires IsRun(states, steps) && a <= b < |states|
    requires Settled(states[a], key, id) && Quiet(states[a], r, key, id)
    requires forall i :: a <= i < b ==> !Replaces(steps[i], key, id)
    ensures Settled(states[b], key, id) && Quiet(states[b], r, key, id)
  {
    if a < b {
      StaysQuiet(states, steps, a, b - 1, r, key, id);
      StepKeepsSettled(states[b - 1], steps[b - 1], key, id);
      StepKeepsQuiet(states[b - 1], steps[b - 1], r, key, id);
    }
  }

  lemma {:induction false} StaysSettled(states: seq<System>, steps: seq<Step>, a: nat, b: nat, key: Key, id: ServerId)
    requires IsRun(states, steps) && a <= b < |states| && Settled(states[a], key, id)
    requires forall i :: a <= i < b ==> !Replaces(steps[i], key, id)
    ensures Settled(states[b], key, id)
  {
    if a < b {
      StaysSettled(states, steps, a, b - 1, key, id);
      StepKeepsSettled(states[b - 1], steps[b - 1], key, id);
    }
  }

  /** Until the server reconnects under a new id, rounds begun after it settled never fetch it again. */
  lemma SettledRoundsFetchNothing(states: seq<System>, steps: seq<Step>, a: nat, i: nat, j: nat, key: Key, id: ServerId)
    requires IsRun(states, steps) && a <= i < j < |steps| && Settled(states[a], key, id)
    requires forall k :: a <= k < j ==> !Replaces(steps[k], key, id)
    requires steps[i].TakeSnapshot? && steps[j].SpawnFetch? && steps[i].round == steps[j].round
    ensures states[j].rounds[steps[j].round].pending.value.0 != key
  {
    StaysSettled(states, steps, a, i + 1, key, id);
    StaysSettled(states, steps, a, i, key, id);
    StaysQuiet(states, steps, i + 1, j, steps[i].round, key, id);
  }

  /** A successful fetch from the attached connection is the last one: as long as that connection stays and no
      round holds an older resolution, no later round fetches the key again. */
  lemma LandedFetchIsTheLast(states: seq<System>, steps: seq<Step>, a: nat, i: nat, j: nat, key: Key, id: ServerId)
    requires IsRun(states, steps) && a < i < j < |steps|
    requires Fills(states[a], steps[a], key) && states[a].fetcher.tasks[steps[a].ticket].id == id
    requires key in states[a].registry && states[a].registry[key] == id
    requires NothingPending(states[a], key, id)
    requires forall k :: a <= k < j ==> !Replaces(steps[k], key, id)
    requires steps[i].TakeSnapshot? && steps[j].SpawnFetch? && steps[i].round == steps[j].round
    ensures states[j].rounds[steps[j].round].pending.value.0 != key
  {
    RunKeepsSingleFlight(states, steps, a);
    CurrentFetchSettles(states[a], steps[a], key, id);
    SettledRoundsFetchNothing(states, steps, a + 1, i, j, key, id);
  }

  /** A stamp that disagrees with the attached connection makes the next visit fetch from that connection, unless a
      fetch for the key is already running. */
  lemma StaleStampIsRefetched(s: System, r: nat, name: Name)
    requires Enabled(s, Resolve(r, name)) && SingleFlight(s.fetcher)
    ensures var key := Key(s.rounds[r].channel, name);
      var visited := Apply(s, Resolve(r, name));
      if key in s.registry && Due(s.rounds[r].discovered, key, s.registry[key]) then
        && Enabled(visited, SpawnFetch(r))
        && var f := Apply(visited, SpawnFetch(r)).fetcher;
           if key in s.fetcher.inflight then f == s.fetcher
           else s.fetcher.next in f.tasks && f.tasks[s.fetcher.next] == Task(key, s.registry[key], false)
                && f.tasks.Keys == s.fetcher.tasks.Keys + {s.fetcher.next}
      else visited.rounds[r].pending.None? && visited.fetcher == s.fetcher
  {
  }

  // ----- The registry and the flags -----

  /** Step `j` attached the connection, and none since has attached or detached the key. */
  ghost predicate AttachedSince(steps: seq<Step>, n: nat, key: Key, id: ServerId, j: nat)
    requires n <= |steps|
  {
    && j < n && steps[j] == Attach(key, id)
    && forall k :: j < k < n ==> steps[k] != Detach(key) && !(steps[k].Attach? && steps[k].key == key)
  }

  /** Over any run, the registry holds a connection exactly if it was attached last and not detached since. */
  lemma {:induction false} RegistryIsLatest(states: seq<System>, steps: seq<Step>, n: nat, key: Key, id: ServerId)
    requires IsRun(states, steps) && n < |states|
    ensures key in states[n].registry && states[n].registry[key] == id
       <==> exists j :: AttachedSince(steps, n, key, id, j)
  {
    if n > 0 {
      var m := n - 1;
      RegistryIsLatest(states, steps, m, key, id);
      assert states[n] == Apply(states[m], steps[m]);
      if steps[m].Attach? && steps[m].key == key {
        assert steps[m].id == id ==> AttachedSince(steps, n, key, id, m);
      } else if steps[m] != Detach(key) {
        forall j ensures AttachedSince(steps, n, key, id, j) <==> AttachedSince(steps, m, key, id, j) {
        }
      }
    }
  }

  /** A fetch whose flag is still up although it is marked as landed has returned at an earlier step. */
  lemma {:induction false} LandedAtSomeStep(states: seq<System>, steps: seq<Step>, n: nat, t: nat) returns (j: nat)
    requires IsRun(states, steps) && n < |states| && t in states[n].fetcher.tasks && states[n].fetcher.tasks[t].landed
    ensures j < n && steps[j].LandFetch? && steps[j].ticket == t
  {
    assert n > 0;
    j := n - 1;
    if !(steps[j].LandFetch? && steps[j].ticket == t) {
      assert states[n] == Apply(states[n - 1], steps[n - 1]);
      j := LandedAtSomeStep(states, steps, n - 1, t);
    }
  }

  /** A flag is lowered only after its fetch has returned, with a result or without. */
  lemma ClearedHasLanded(states: seq<System>, steps: seq<Step>, n: nat) returns (j: nat)
    requires IsRun(states, steps) && n < |steps| && steps[n].ClearFlag?
    ensures j < n && steps[j].LandFetch? && steps[j].ticket == steps[n].ticket
  {
    assert Enabled(states[n], steps[n]);
    j := LandedAtSomeStep(states, steps, n, steps[n].ticket);
  }

  // ----- What a round visits -----

  /** A round keeps the channel and the snapshot it was begun with. */
  lemma {:induction false} SnapshotOrigin(states: seq<System>, steps: seq<Step>, n: nat, r: nat) returns (j: nat)
    requires IsRun(states, steps) && n < |states| && r in states[n].rounds
    ensures j < n && steps[j].TakeSnapshot? && steps[j].round == r
    ensures states[n].rounds[r].channel == steps[j].channel
    ensures states[n].rounds[r].discovered == OnChannel(states[j].fetcher.cache, steps[j].channel)
  {
    assert n > 0;
    j := n - 1;
    if r in states[n - 1].rounds {
      j := SnapshotOrigin(states, steps, n - 1, r);
    }
  }

  /** The names a round lists are those attached in its channel then and those cached at its snapshot. */
  lemma RoundLists(states: seq<System>, steps: seq<Step>, i: nat, name: Name) returns (j: nat)
    requires IsRun(states, steps) && i < |steps| && steps[i].ListNames? && steps[i].round in states[i].rounds
    ensures var r := steps[i].round;
      && j < i && steps[j] == TakeSnapshot(r, states[i].rounds[r].channel)
      && r in states[i + 1].rounds && states[i + 1].rounds[r].names.Some?
      && var key := Key(states[i].rounds[r].channel, name);
         name in states[i + 1].rounds[r].names.value <==> key in states[i].registry || key in states[j].fetcher.cache
  {
    var r := steps[i].round;
    j := SnapshotOrigin(states, steps, i, r);
    var round := states[i].rounds[r];
    var key := Key(round.channel, name);
    assert states[i + 1] == Apply(states[i], steps[i]);
    assert key in states[j].fetcher.cache ==> key in round.discovered;
    assert forall k :: k in round.discovered && k.server == name ==> k == key;
    assert forall k :: k in states[i].registry && k.channel == round.channel && k.server == name ==> k == key;
  }

  lemma {:induction false} VisitedStays(states: seq<System>, steps: seq<Step>, a: nat, b: nat, r: nat, name: Name)
    requires IsRun(states, steps) && a <= b < |states| && r in states[a].rounds
    requires states[a].rounds[r].names.Some? && name !in states[a].rounds[r].names.value
    ensures r in states[b].rounds && states[b].rounds[r].names.Some? && name !in states[b].rounds[r].names.value
  {
    if a < b {
      VisitedStays(states, steps, a, b - 1, r, name);
      hide NamesOf, Wanted, OnChannel;
      assert states[b] == Apply(states[b - 1], steps[b - 1]);
    }
  }

  /** A round resolves each name at most once. */
  lemma VisitedOnce(states: seq<System>, steps: seq<Step>, i: nat, j: nat)
    requires IsRun(states, steps) && i < j < |steps|
    requires steps[i].Resolve? && steps[j].Resolve? && steps[i].round == steps[j].round
    ensures steps[i].name != steps[j].name
  {
    assert Enabled(states[i], steps[i]) && Enabled(states[j], steps[j]);
    assert states[i + 1] == Apply(states[i], steps[i]);
    VisitedStays(states, steps, i + 1, j, steps[i].round, steps[i].name);
  }

  lemma {:induction false} PendingUntilSpawned(states: seq<System>, steps: seq<Step>, a: nat, b: nat, r: nat)
    returns (k: nat)
    requires IsRun(states, steps) && a <= b < |states| && r in states[a].rounds && states[a].rounds[r].pending.Some?
    requires r in states[b].rounds && states[b].rounds[r].pending != states[a].rounds[r].pending
    ensures a <= k < b && steps[k] == SpawnFetch(r) && states[k].rounds[r].pending == states[a].rounds[r].pending
    decreases b - a
  {
    hide NamesOf, Wanted, OnChannel;
    assert a < b && Enabled(states[a], steps[a]) && states[a + 1] == Apply(states[a], steps[a]);
    k := a;
    if steps[a] != SpawnFetch(r) {
      k := PendingUntilSpawned(states, steps, a + 1, b, r);
    }
  }

  /** A round spawns the fetch it is about to before it resolves another name. */
  lemma DueFetchIsSpawnedFirst(states: seq<System>, steps: seq<Step>, i: nat, j: nat) returns (k: nat)
    requires IsRun(states, steps) && i < j < |steps|
    requires steps[i].Resolve? && steps[j].Resolve? && steps[i].round == steps[j].round
    requires steps[i].round in states[i + 1].rounds && states[i + 1].rounds[steps[i].round].pending.Some?
    ensures i < k < j && steps[k] == SpawnFetch(steps[i].round)
    ensures states[k].rounds[steps[i].round].pending == states[i + 1].rounds[steps[i].round].pending
  {
    assert Enabled(states[j], steps[j]);
    k := PendingUntilSpawned(states, steps, i + 1, j, steps[i].round);
  }

  // ----- A fetch can be overtaken by a reconnect -----

  /** Round `r` takes its snapshot and visits one attached server; nothing but the round changes. */
  lemma Visit(states: seq<System>, steps: seq<Step>, r: nat, key: Key)
    returns (states': seq<System>, steps': seq<Step>)
    requires IsRun(states, steps) && r !in states[|steps|].rounds && key in states[|steps|].registry
    ensures IsRun(states', steps') && |steps'| == |steps| + 3 && steps <= steps' && states <= states'
    ensures steps'[|steps|] == TakeSnapshot(r, key.channel)
    ensures forall i :: |steps| <= i < |steps'| ==> !steps'[i].Attach?
    ensures var s, t := states[|steps|], states'[|steps'|];
      && t.registry == s.registry && t.fetcher == s.fetcher
      && (forall q :: q in s.rounds ==> q in t.rounds && t.rounds[q] == s.rounds[q])
      && (forall q :: q in t.rounds ==> q in s.rounds || q == r)
      && r in t.rounds && t.rounds[r].pending == Wanted(s.registry, OnChannel(s.fetcher.cache, key.channel), key)
  {
    var s := states[|steps|];
    states', steps' := Extend(states, steps, TakeSnapshot(r, key.channel));
    states', steps' := Extend(states', steps', ListNames(r));
    var u := states'[|steps'|];
    assert key.server in u.rounds[r].names.value by {
      assert key in s.registry && key.channel == u.rounds[r].channel;
    }
    assert Key(u.rounds[r].channel, key.server) == key;
    states', steps' := Extend(states', steps', Resolve(r, key.server));
  }

  /** Round `r` spawns the fetch it is about to, and its result lands. */
  lemma FetchAndLand(states: seq<System>, steps: seq<Step>, r: nat, key: Key, id: ServerId, tools: seq<Tool>)
    returns (states': seq<System>, steps': seq<Step>)
    requires IsRun(states, steps) && r in states[|steps|].rounds
    requires states[|steps|].rounds[r].pending == Some((key, id)) && key !in states[|steps|].fetcher.inflight
    ensures IsRun(states', steps') && |steps'| == |steps| + 2 && steps <= steps' && states <= states'
    ensures !steps'[|steps|].Attach? && Fills(states'[|steps| + 1], steps'[|steps| + 1], key)
    ensures var u := states'[|steps| + 1];
      u.registry == states[|steps|].registry && u.fetcher.tasks[steps'[|steps| + 1].ticket].id == id
    ensures var s, t := states[|steps|], states'[|steps'|];
      && t.registry == s.registry && t.rounds == s.rounds[r := s.rounds[r].(pending := None)]
      && t.fetcher.cache == s.fetcher.cache[key := Stamped(id, tools)]
      && t.fetcher.inflight == s.fetcher.inflight + {key}
      && s.fetcher.next in t.fetcher.tasks && t.fetcher.tasks[s.fetcher.next] == Task(key, id, true)
  {
    var s := states[|steps|];
    states', steps' := Extend(states, steps, SpawnFetch(r));
    states', steps' := Extend(states', steps', LandFetch(s.fetcher.next, Some(tools)));
  }

  lemma Beginning(key: Key, id: ServerId) returns (states: seq<System>, steps: seq<Step>)
    ensures IsRun(states, steps) && |steps| == 1
    ensures states[1] == INITIAL.(registry := map[key := id])
  {
    states, steps := Extend([INITIAL], [], Attach(key, id));
  }

  /** A fetch begun before a reconnect can land after it: the cache then holds the superseded connection's set. */
  lemma SupersededSetLands(key: Key, before: ServerId, after: ServerId, tools: seq<Tool>)
    returns (states: seq<System>, steps: seq<Step>)
    requires before != after
    ensures IsRun(states, steps)
    ensures var s := states[|steps|];
      && key in s.registry && s.registry[key] == after
      && key in s.fetcher.cache && s.fetcher.cache[key] == Stamped(before, tools)
  {
    states, steps := Beginning(key, before);
    states, steps := Visit(states, steps, 0, key);
    states, steps := Extend(states, steps, SpawnFetch(0));
    states, steps := Extend(states, steps, Attach(key, after));
    states, steps := Extend(states, steps, LandFetch(0, Some(tools)));
  }

  lemma {:induction false} UnusedNumber(used: set<nat>) returns (r: nat)
    ensures forall u :: u in used ==> u < r
  {
    r := 0;
    if used != {} {
      var u :| u in used;
      var rest := UnusedNumber(used - {u});
      r := rest + u + 1;
      assert forall x :: x in used ==> x == u || x in used - {u};
    }
  }

  /** The run has just cached the set of the connection attached as `key`. */
  ghost predicate JustLanded(states: seq<System>, steps: seq<Step>, key: Key, id: ServerId) {
    && IsRun(states, steps) && |steps| > 0
    && var s, step := states[|steps| - 1], steps[|steps| - 1];
       && Fills(s, step, key) && s.fetcher.tasks[step.ticket].id == id
       && key in s.registry && s.registry[key] == id
  }

  /** The run goes on, without `key` being attached under another id, to where round `r`, begun after the landing, is
      about to fetch `key` again. */
  ghost predicate Refetches(states: seq<System>, steps: seq<Step>, key: Key, id: ServerId,
                            states': seq<System>, steps': seq<Step>, i: nat, r: nat) {
    && IsRun(states', steps') && states <= states' && steps <= steps' && |steps| <= i < |steps'|
    && (forall k :: |steps| <= k < |steps'| ==> !Replaces(steps'[k], key, id))
    && steps'[i].TakeSnapshot? && steps'[i].round == r
    && var rounds := states'[|steps'|].rounds;
       r in rounds && rounds[r].pending.Some? && rounds[r].pending.value.0 == key
  }

  ghost predicate CanRefetch(states: seq<System>, steps: seq<Step>, key: Key, id: ServerId) {
    exists states', steps', i, r :: Refetches(states, steps, key, id, states', steps', i, r)
  }

  /** Any older resolution still pending leads to another fetch: its own, which overwrites the set, and then one by a
      later round. */
  lemma PendingRefetches(states: seq<System>, steps: seq<Step>, key: Key, id: ServerId, stale: nat, before: ServerId)
    returns (states': seq<System>, steps': seq<Step>, i: nat, r: nat)
    requires JustLanded(states, steps, key, id) && before != id
    requires stale in states[|steps|].rounds && states[|steps|].rounds[stale].pending == Some((key, before))
    ensures Refetches(states, steps, key, id, states', steps', i, r)
    ensures states'[|steps'|].rounds[r].pending == Some((key, id))
  {
    var s := states[|steps|];
    states', steps' := Extend(states, steps, ClearFlag(steps[|steps| - 1].ticket));
    states', steps' := FetchAndLand(states', steps', stale, key, before, []);
    i := |steps'|;
    r := UnusedNumber(states'[i].rounds.Keys);
    states', steps' := Visit(states', steps', r, key);
  }

  /** Without one, no later round is ever about to fetch the key while the connection is not replaced. */
  lemma NothingPendingRefetches(states: seq<System>, steps: seq<Step>, key: Key, id: ServerId,
                                states': seq<System>, steps': seq<Step>, i: nat, r: nat)
    requires JustLanded(states, steps, key, id) && NothingPending(states[|steps|], key, id)
    ensures !Refetches(states, steps, key, id, states', steps', i, r)
  {
    if Refetches(states, steps, key, id, states', steps', i, r) {
      var n := |steps|;
      assert states'[n - 1] == states[n - 1] && states'[n] == states[n] && steps'[n - 1] == steps[n - 1];
      RunKeepsSingleFlight(states, steps, n - 1);
      CurrentFetchSettles(states[n - 1], steps[n - 1], key, id);
      StaysSettled(states', steps', n, i, key, id);
      StaysSettled(states', steps', n, i + 1, key, id);
      StaysQuiet(states', steps', i + 1, |steps'|, r, key, id);
    }
  }

  /** After the attached connection's set has landed, and while that connection is not replaced, a later round can
      fetch the key again exactly if a resolution to another connection was still pending. */
  lemma RefetchedExactlyIfPending(states: seq<System>, steps: seq<Step>, key: Key, id: ServerId)
    requires JustLanded(states, steps, key, id)
    ensures CanRefetch(states, steps, key, id) <==> !NothingPending(states[|steps|], key, id)
  {
    if NothingPending(states[|steps|], key, id) {
      forall states', steps', i, r ensures !Refetches(states, steps, key, id, states', steps', i, r) {
        NothingPendingRefetches(states, steps, key, id, states', steps', i, r);
      }
    } else {
      var s := states[|steps|];
      var stale :| stale in s.rounds && s.rounds[stale].pending.Some? && s.rounds[stale].pending.value.0 == key
                   && s.rounds[stale].pending.value.1 != id;
      var before := s.rounds[stale].pending.value.1;
      assert s.rounds[stale].pending == Some((key, before));
      var states', steps', i, r := PendingRefetches(states, steps, key, id, stale, before);
    }
  }

  /** Such a resolution can be pending: a round resolved the server before it reconnected, and another round has
      fetched the new connection's set since. */
  lemma LateResolutionRefetches(key: Key, before: ServerId, after: ServerId, tools: seq<Tool>)
    returns (states: seq<System>, steps: seq<Step>)
    requires before != after
    ensures JustLanded(states, steps, key, after) && CanRefetch(states, steps, key, after)
  {
    states, steps := Beginning(key, before);
    states, steps := Visit(states, steps, 0, key);
    states, steps := Extend(states, steps, Attach(key, after));
    states, steps := Visit(states, steps, 1, key);
    states, steps := FetchAndLand(states, steps, 1, key, after, tools);
    assert 0 in states[|steps|].rounds && states[|steps|].rounds[0].pending == Some((key, before));
    RefetchedExactlyIfPending(states, steps, key, after);
  }
}
