/** Background discovery of what attached servers publish: the fetch cache, the single-flight flags, and every
    interleaving of rounds, fetches and reconnects. */
module Discovery {
  import opened Base
  import opened Names
  import opened CatalogModel

  datatype ServerId = ServerId(text: string)

  /** A channel and a declared server name. */
  datatype Key = Key(channel: Name, server: Name)

  /** A discovered tool set, with the connection it was fetched from. */
  datatype Stamped = Stamped(id: ServerId, tools: seq<Tool>)

  type Cache = map<Key, Stamped>

  /** A running fetch. `landed` once its result has been dealt with but its flag is still up. */
  datatype Task = Task(key: Key, id: ServerId, landed: bool)

  /** The shared state of a source. Tickets number the fetches in the order they were spawned. */
  datatype Fetcher = Fetcher(cache: Cache, inflight: set<Key>, tasks: map<nat, Task>, next: nat)

  function Spawn(f: Fetcher, key: Key, id: ServerId): Fetcher {
    if key in f.inflight then f
    else f.(inflight := f.inflight + {key}, tasks := f.tasks[f.next := Task(key, id, false)], next := f.next + 1)
  }

  /** The fetch returns: a tool list is cached under the id it came from, a failure is dropped. */
  function Land(f: Fetcher, ticket: nat, fetched: Option<seq<Tool>>): Fetcher
    requires ticket in f.tasks
  {
    var t := f.tasks[ticket];
    f.(cache := if fetched.Some? then f.cache[t.key := Stamped(t.id, fetched.value)] else f.cache,
       tasks := f.tasks[ticket := t.(landed := true)])
  }

  /** The fetch ends by lowering its flag. */
  function Clear(f: Fetcher, ticket: nat): Fetcher
    requires ticket in f.tasks
  {
    f.(inflight := f.inflight - {f.tasks[ticket].key}, tasks := f.tasks - {ticket})
  }

  function OnChannel(cache: Cache, channel: Name): Cache {
    map k | k in cache && k.channel == channel :: cache[k]
  }

  /** A fetch is due unless what was discovered came from the connection now attached. */
  predicate Due(discovered: Cache, key: Key, id: ServerId) {
    key !in discovered || discovered[key].id != id
  }

  // ----- Discovery rounds -----

  /** One `tools()` call: its snapshot of the cache, the names still to visit, and a fetch it is about to spawn. */
  datatype Round = Round(channel: Name, discovered: Cache, names: Option<set<Name>>, pending: Option<(Key, ServerId)>)

  /** `registry` says which connection is attached under each name. */
  datatype System = System(registry: map<Key, ServerId>, fetcher: Fetcher, rounds: map<nat, Round>)

  datatype Step =
    | Attach(key: Key, id: ServerId)
    | Detach(key: Key)
    | TakeSnapshot(round: nat, channel: Name)
    | ListNames(round: nat)
    | Resolve(round: nat, name: Name)
    | SpawnFetch(round: nat)
    | LandFetch(ticket: nat, fetched: Option<seq<Tool>>)
    | ClearFlag(ticket: nat)

  predicate Enabled(s: System, step: Step) {
    match step
    case Attach(_, _) => true
    case Detach(_) => true
    case TakeSnapshot(r, _) => r !in s.rounds
    case ListNames(r) => r in s.rounds && s.rounds[r].names.None?
    case Resolve(r, name) =>
      && r in s.rounds && s.rounds[r].names.Some? && name in s.rounds[r].names.value && s.rounds[r].pending.None?
    case SpawnFetch(r) => r in s.rounds && s.rounds[r].pending.Some?
    case LandFetch(t, _) => t in s.fetcher.tasks && !s.fetcher.tasks[t].landed
    case ClearFlag(t) => t in s.fetcher.tasks && s.fetcher.tasks[t].landed
  }

  /** The servers of a channel now attached, and those it has already discovered. */
  function NamesOf(registry: map<Key, ServerId>, discovered: Cache, channel: Name): set<Name> {
    (set k | k in registry && k.channel == channel :: k.server) + (set k | k in discovered :: k.server)
  }

  function Wanted(registry: map<Key, ServerId>, discovered: Cache, key: Key): Option<(Key, ServerId)> {
    if key in registry && Due(discovered, key, registry[key]) then Some((key, registry[key])) else None
  }

  function Resolved(s: System, r: Round, name: Name): Round
    requires r.names.Some?
  {
    r.(names := Some(r.names.value - {name}), pending := Wanted(s.registry, r.discovered, Key(r.channel, name)))
  }

  function Apply(s: System, step: Step): System
    requires Enabled(s, step)
  {
    match step
    case Attach(key, id) => s.(registry := s.registry[key := id])
    case Detach(key) => s.(registry := s.registry - {key})
    case TakeSnapshot(r, channel) =>
      s.(rounds := s.rounds[r := Round(channel, OnChannel(s.fetcher.cache, channel), None, None)])
    case ListNames(r) =>
      var round := s.rounds[r];
      s.(rounds := s.rounds[r := round.(names := Some(NamesOf(s.registry, round.discovered, round.channel)))])
    case Resolve(r, name) => s.(rounds := s.rounds[r := Resolved(s, s.rounds[r], name)])
    case SpawnFetch(r) =>
      var (key, id) := s.rounds[r].pending.value;
      s.(fetcher := Spawn(s.fetcher, key, id), rounds := s.rounds[r := s.rounds[r].(pending := None)])
    case LandFetch(t, fetched) => s.(fetcher := Land(s.fetcher, t, fetched))
    case ClearFlag(t) => s.(fetcher := Clear(s.fetcher, t))
  }

  const INITIAL := System(map[], Fetcher(map[], {}, map[], 0), map[])

  ghost predicate IsRun(states: seq<System>, steps: seq<Step>) {
    && |states| == |steps| + 1
    && states[0] == INITIAL
    && forall i :: 0 <= i < |steps| ==> Enabled(states[i], steps[i]) && states[i + 1] == Apply(states[i], steps[i])
  }

  /** A run goes on with any enabled step. */
  lemma Extend(states: seq<System>, steps: seq<Step>, step: Step) returns (states': seq<System>, steps': seq<Step>)
    requires IsRun(states, steps) && Enabled(states[|steps|], step)
    ensures IsRun(states', steps') && states' == states + [Apply(states[|steps|], step)] && steps' == steps + [step]
  {
    hide Apply, Enabled;
    states', steps' := states + [Apply(states[|steps|], step)], steps + [step];
  }
}
