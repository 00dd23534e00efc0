/** The tunnel source itself: its cache and flags updated in place, what it advertises and where it routes. */
module TunnelSource {
  import opened Base
  import opened Names
  import opened CatalogModel
  import opened CatalogProperties
  import opened TunnelCatalog
  import opened Discovery
  import DiscoveryRuns

  // ----- Sets of names in order -----

  predicate Increasing(names: seq<Name>) {
    forall i, j :: 0 <= i < j < |names| ==> Less(names[i], names[j])
  }

  function InsertName(n: Name, sorted: seq<Name>): seq<Name> {
    if sorted == [] || Less(n, sorted[0]) then [n] + sorted else [sorted[0]] + InsertName(n, sorted[1..])
  }

  lemma {:induction false} InsertKeepsOrder(n: Name, sorted: seq<Name>)
    requires Increasing(sorted) && n !in sorted
    ensures Increasing(InsertName(n, sorted))
    ensures forall x :: x in InsertName(n, sorted) <==> x == n || x in sorted
  {
    if sorted != [] {
      assert sorted == [sorted[0]] + sorted[1..];
      var r := InsertName(n, sorted);
      if Less(n, sorted[0]) {
        forall j | 1 <= j < |sorted| ensures Less(n, sorted[j]) {
          LessTransitive(n, sorted[0], sorted[j]);
        }
      } else {
        InsertKeepsOrder(n, sorted[1..]);
        LessTotal(n, sorted[0]);
        forall j | 1 <= j < |r| ensures Less(sorted[0], r[j]) {
          assert r[j] in InsertName(n, sorted[1..]);
        }
      }
    }
  }

  lemma {:induction false} IncreasingUnique(a: seq<Name>, b: seq<Name>)
    requires Increasing(a) && Increasing(b) && forall x :: x in a <==> x in b
    ensures a == b
  {
    assert a == [] <==> b == [] by {
      assert a != [] ==> a[0] in b;
      assert b != [] ==> b[0] in a;
    }
    if a != [] {
      assert a[0] in b && b[0] in a;
      LessTotal(a[0], b[0]);
      LessTotal(a[0], a[0]);
      forall x ensures x in a[1..] <==> x in b[1..] {
        assert x in a <==> x == a[0] || x in a[1..];
        assert x in b <==> x == b[0] || x in b[1..];
        LessTotal(x, x);
      }
      IncreasingUnique(a[1..], b[1..]);
    }
  }

  /** The members of a set in order: what a `BTreeSet` or the keys of a `BTreeMap` iterate over. */
  ghost function Sorted(names: set<Name>): (r: seq<Name>)
    ensures Increasing(r) && forall x :: x in r <==> x in names
  {
    if names == {} then []
    else
      var n :| n in names;
      InsertKeepsOrder(n, Sorted(names - {n}));
      InsertName(n, Sorted(names - {n}))
  }

  method SortNames(names: set<Name>) returns (r: seq<Name>)
    ensures r == Sorted(names)
  {
    r := [];
    var rest := names;
    while rest != {}
      invariant rest <= names && Increasing(r) && forall x :: x in r <==> x in names - rest
    {
      var n :| n in rest;
      InsertKeepsOrder(n, r);
      r := InsertName(n, r);
      rest := rest - {n};
    }
    IncreasingUnique(r, Sorted(names));
  }

  // ----- One snapshot -----

  function ServerNames(discovered: Cache): set<Name> {
    set k | k in discovered :: k.server
  }

  /** The discovered servers of a channel, in name order. */
  ghost function ServersOf(cache: Cache, channel: Name): (servers: seq<Server>)
  {
    var names := Sorted(ServerNames(OnChannel(cache, channel)));
    seq(|names|, i requires 0 <= i < |names| => Server(names[i], ToolsAt(cache, Key(channel, names[i]))))
  }

  function ToolsAt(cache: Cache, key: Key): seq<Tool> {
    if key in cache then cache[key].tools else []
  }

  /** A snapshot lists every discovered server of its channel once, with the tools cached for it. */
  lemma ServersOfMeaning(cache: Cache, channel: Name)
    ensures forall i, j :: 0 <= i < j < |ServersOf(cache, channel)| ==>
              Less(ServersOf(cache, channel)[i].name, ServersOf(cache, channel)[j].name)
    ensures forall i :: 0 <= i < |ServersOf(cache, channel)| ==>
              var s := ServersOf(cache, channel)[i];
              Key(channel, s.name) in cache && cache[Key(channel, s.name)].tools == s.tools
    ensures forall k :: k in cache && k.channel == channel ==>
          Server(k.server, cache[k].tools) in ServersOf(cache, channel)
  {
    var servers, names := ServersOf(cache, channel), Sorted(ServerNames(OnChannel(cache, channel)));
    forall i | 0 <= i < |servers| ensures Key(channel, servers[i].name) in cache {
      assert names[i] in ServerNames(OnChannel(cache, channel));
    }
    forall k | k in cache && k.channel == channel ensures Server(k.server, cache[k].tools) in servers {
      assert k in OnChannel(cache, channel);
      assert k.server in ServerNames(OnChannel(cache, channel));
      var i :| 0 <= i < |names| && names[i] == k.server;
      assert Key(channel, k.server) == k;
      assert servers[i] == Server(k.server, cache[k].tools);
    }
  }

  /** Only the channel's own entries matter. */
  lemma ServersOfChannel(a: Cache, b: Cache, channel: Name)
    requires OnChannel(a, channel) == OnChannel(b, channel)
    ensures ServersOf(a, channel) == ServersOf(b, channel)
  {
    var names := Sorted(ServerNames(OnChannel(a, channel)));
    forall i | 0 <= i < |names| ensures ToolsAt(a, Key(channel, names[i])) == ToolsAt(b, Key(channel, names[i])) {
      var k := Key(channel, names[i]);
      assert k in a <==> k in OnChannel(a, channel);
      assert k in b <==> k in OnChannel(b, channel);
    }
  }

  // ----- What one round spawns -----

  /** Visiting `names` in order, a fetch for each that is attached and due. */
  function SpawnDue(f: Fetcher, registry: map<Key, ServerId>, discovered: Cache, channel: Name,
                    names: seq<Name>): Fetcher {
    if names == [] then f
    else
      var g := SpawnDue(f, registry, discovered, channel, names[..|names| - 1]);
      match Wanted(registry, discovered, Key(channel, names[|names| - 1]))
      case None => g
      case Some((key, id)) => Spawn(g, key, id)
  }

  /** The attached servers among `names` whose set is missing or came from another connection. */
  function WantedKeys(registry: map<Key, ServerId>, discovered: Cache, channel: Name, names: seq<Name>): set<Key> {
    set k | k in registry && k.channel == channel && k.server in names && Due(discovered, k, registry[k])
  }

  /** `g` is `f` with the flags of `wanted` raised and, for each flag raised, one fetch from the attached connection. */
  ghost predicate Spawned(f: Fetcher, g: Fetcher, registry: map<Key, ServerId>, wanted: set<Key>) {
    && g.cache == f.cache && g.inflight == f.inflight + wanted
    && (forall t :: t in f.tasks ==> t in g.tasks && g.tasks[t] == f.tasks[t])
    && (forall t :: t in g.tasks && t !in f.tasks ==> StartedFor(f, g.tasks[t], registry, wanted))
  }

  predicate StartedFor(f: Fetcher, t: Task, registry: map<Key, ServerId>, wanted: set<Key>) {
    t.key in wanted && t.key !in f.inflight && t.key in registry && t == Task(t.key, registry[t.key], false)
  }

  lemma SpawnStep(f: Fetcher, g: Fetcher, registry: map<Key, ServerId>, wanted: set<Key>, key: Key)
    requires DiscoveryRuns.SingleFlight(g) && Spawned(f, g, registry, wanted) && key in registry
    ensures Spawned(f, Spawn(g, key, registry[key]), registry, wanted + {key})
  {
    assert g.next !in g.tasks;
    hide DiscoveryRuns.SingleFlight;
  }

  /** A round raises the flags of exactly the servers it wants, and starts one fetch for each flag it raised. */
  lemma {:induction false} SpawnDueMeaning(f: Fetcher, registry: map<Key, ServerId>, discovered: Cache,
                                           channel: Name, names: seq<Name>)
    requires DiscoveryRuns.SingleFlight(f)
    ensures var g := SpawnDue(f, registry, discovered, channel, names);
      DiscoveryRuns.SingleFlight(g) && Spawned(f, g, registry, WantedKeys(registry, discovered, channel, names))
  {
    hide DiscoveryRuns.SingleFlight, Spawn;
    if names == [] {
      assert WantedKeys(registry, discovered, channel, names) == {};
    } else {
      var front, n := names[..|names| - 1], names[|names| - 1];
      SpawnDueMeaning(f, registry, discovered, channel, front);
      var g, key := SpawnDue(f, registry, discovered, channel, front), Key(channel, n);
      WantedStep(registry, discovered, channel, front, names, n);
      hide Spawned, WantedKeys;
      if Wanted(registry, discovered, key).Some? {
        SpawnStep(f, g, registry, WantedKeys(registry, discovered, channel, front), key);
        DiscoveryRuns.SpawnKeepsSingleFlight(g, key, registry[key]);
      }
    }
  }

  lemma WantedStep(registry: map<Key, ServerId>, discovered: Cache, channel: Name, front: seq<Name>,
                   names: seq<Name>, n: Name)
    requires names == front + [n]
    ensures WantedKeys(registry, discovered, channel, names)
         == WantedKeys(registry, discovered, channel, front)
            + (if Wanted(registry, discovered, Key(channel, n)).Some? then {Key(channel, n)} else {})
  {
    assert forall x :: x in names <==> x in front || x == n;
  }

  // ----- The source -----

  /** What becomes of a call: no route, a route to a server that is not attached, or a request to forward. */
  datatype CallOutcome = NotAvailable | NotConnected(server: Name) | Forward(id: ServerId, published: Name)

  class AcpTunnelSource {
    var cache: Cache
    var inflight: set<Key>
    /** The tasks this source has running, in spawn order. */
    var tasks: map<nat, Task>
    var next: nat

    ghost function View(): Fetcher
      reads this
    {
      Fetcher(cache, inflight, tasks, next)
    }

    constructor ()
      ensures View() == INITIAL.fetcher
    {
      cache, inflight, tasks, next := map[], {}, map[], 0;
    }

    /** Outside a runtime there is nothing to spawn onto. */
    method SpawnDiscovery(key: Key, id: ServerId, inRuntime: bool)
      modifies this
      ensures View() == if inRuntime then Spawn(old(View()), key, id) else old(View())
    {
      if !inRuntime || key in inflight {
        return;
      }
      inflight := inflight + {key};
      tasks := tasks[next := Task(key, id, false)];
      next := next + 1;
    }

    method LandFetch(ticket: nat, fetched: Option<seq<Tool>>)
      requires ticket in tasks
      modifies this
      ensures View() == Land(old(View()), ticket, fetched)
    {
      var t := tasks[ticket];
      if fetched.Some? {
        cache := cache[t.key := Stamped(t.id, fetched.value)];
      }
      tasks := tasks[ticket := t.(landed := true)];
    }

    method ClearFlag(ticket: nat)
      requires ticket in tasks
      modifies this
      ensures View() == Clear(old(View()), ticket)
    {
      inflight := inflight - {tasks[ticket].key};
      tasks := tasks - {ticket};
    }

    method Discovered(channel: Name) returns (servers: seq<Server>)
      ensures servers == ServersOf(cache, channel)
    {
      var names := SortNames(ServerNames(OnChannel(cache, channel)));
      hide Increasing, Sorted, ToolsAt;
      servers := [];
      for i := 0 to |names|
        invariant |servers| == i
        invariant forall k :: 0 <= k < i ==> servers[k] == Server(names[k], ToolsAt(cache, Key(channel, names[k])))
      {
        servers := servers + [Server(names[i], ToolsAt(cache, Key(channel, names[i])))];
      }
    }

    method Route(channel: Name, advertised: Name) returns (r: Option<(Name, Name)>)
      ensures r == CatalogModel.Route(ServersOf(cache, channel), advertised)
    {
      var servers := Discovered(channel);
      var entries := BuildCatalog(servers);
      var i := 0;
      while i < |entries| && entries[i].advertised != advertised
        invariant i <= |entries|
        invariant Find(entries[i..], advertised) == Find(entries, advertised)
      {
        assert entries[i..][1..] == entries[i + 1..];
        i := i + 1;
      }
      r := if i < |entries| then Some((entries[i].server, entries[i].published)) else None;
    }

    method FetchDue(resolved: map<Key, ServerId>, discovered: Cache, channel: Name, names: seq<Name>, inRuntime: bool)
      modifies this
      ensures View() == if inRuntime then SpawnDue(old(View()), resolved, discovered, channel, names) else old(View())
    {
      hide Spawn;
      ghost var before := View();
      for i := 0 to |names|
        invariant View() == if inRuntime then SpawnDue(before, resolved, discovered, channel, names[..i]) else before
      {
        var key := Key(channel, names[i]);
        assert names[..i + 1][..i] == names[..i];
        if key in resolved && Due(discovered, key, resolved[key]) {
          SpawnDiscovery(key, resolved[key], inRuntime);
        }
      }
      assert names[..|names|] == names;
    }

    /** `attached` is the registry when its names are listed, and `resolved` gives what each name resolves to when
        it is asked for, once, later on. Without a session there is no channel. */
    method Tools(session: Option<Name>, attached: map<Key, ServerId>, resolved: map<Key, ServerId>, inRuntime: bool)
      returns (tools: seq<Tool>)
      modifies this
      ensures session.None? ==> tools == [] && View() == old(View())
      ensures session.Some? ==> tools == CatalogModel.Tools(ServersOf(old(cache), session.value))
      ensures session.Some? ==>
        var channel, discovered := session.value, OnChannel(old(cache), session.value);
        View() == if !inRuntime then old(View())
                  else SpawnDue(old(View()), resolved, discovered, channel,
                                Sorted(NamesOf(attached, discovered, channel)))
    {
      hide SpawnDue, Catalog, ServersOf, Sorted;
      if session.None? {
        return [];
      }
      var channel := session.value;
      var discovered := OnChannel(cache, channel);
      var servers := Discovered(channel);
      var names := SortNames(NamesOf(attached, discovered, channel));
      FetchDue(resolved, discovered, channel, names, inRuntime);
      var entries := BuildCatalog(servers);
      tools := SortByName(ToolsOf(entries));
    }

    method Call(channel: Name, tool: Name, registry: map<Key, ServerId>) returns (outcome: CallOutcome)
      ensures var target := CallRoute(ServersOf(cache, channel), tool);
        outcome == if target.None? then NotAvailable
                   else if Key(channel, target.value.0) !in registry then NotConnected(target.value.0)
                   else Forward(registry[Key(channel, target.value.0)], target.value.1)
    {
      var routed := Route(channel, tool);
      if routed.None? {
        routed := PrefixRoute(tool);
      }
      if routed.None? {
        return NotAvailable;
      }
      var (server, published) := routed.value;
      if Key(channel, server) !in registry {
        return NotConnected(server);
      }
      return Forward(registry[Key(channel, server)], published);
    }
  }

  // ----- Advertising and routing agree -----

  /** What a round advertises under a name, a later call reaches: the server that listed it, under the name that
      server knows, as long as no fetch for the channel succeeds in between. */
  lemma AdvertisedToolIsCallable(states: seq<System>, steps: seq<Step>, a: nat, b: nat, channel: Name, shown: Tool)
    requires IsRun(states, steps) && a <= b < |states|
    requires forall i :: a <= i < b ==> !DiscoveryRuns.FillsChannel(states[i], steps[i], channel)
    requires shown in Tools(ServersOf(states[a].fetcher.cache, channel))
    ensures exists s: Server, t: Tool :: s in ServersOf(states[a].fetcher.cache, channel) && t in s.tools
              && shown == t.(name := shown.name)
              && CallRoute(ServersOf(states[b].fetcher.cache, channel), shown.name) == Some((s.name, t.name))
  {
    var servers := ServersOf(states[a].fetcher.cache, channel);
    ChannelUnchanged(states, steps, a, b, channel);
    ServersOfChannel(states[a].fetcher.cache, states[b].fetcher.cache, channel);
    ToolsStrictlyIncrease(servers);
    assert shown in multiset(ToolsOf(Catalog(servers)));
    var i :| 0 <= i < |ToolsOf(Catalog(servers))| && ToolsOf(Catalog(servers))[i] == shown;
    RoutingInvertsCatalog(servers, i);
    var q := ListedByServer(servers, i);
    var t := Listings(servers)[i].tool;
    assert servers[q] in servers && t in servers[q].tools && shown == t.(name := shown.name);
  }

  lemma ChannelUnchanged(states: seq<System>, steps: seq<Step>, a: nat, b: nat, channel: Name)
    requires IsRun(states, steps) && a <= b < |states|
    requires forall i :: a <= i < b ==> !DiscoveryRuns.FillsChannel(states[i], steps[i], channel)
    ensures OnChannel(states[a].fetcher.cache, channel) == OnChannel(states[b].fetcher.cache, channel)
  {
    var x, y := states[a].fetcher.cache, states[b].fetcher.cache;
    forall k: Key | k.channel == channel
      ensures k in x <==> k in y
      ensures k in x ==> x[k] == y[k]
    {
      if k in x {
        DiscoveryRuns.CacheOnlyGrows(states, steps, a, b, k);
      } else if k in y {
        var m := DiscoveryRuns.CacheIsLatestFetch(states, steps, b, k);
        assert m < a;
        DiscoveryRuns.FilledStays(states, steps, m, a, k);
      }
    }
  }
}
