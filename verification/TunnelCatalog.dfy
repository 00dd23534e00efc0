/** The catalog construction as it runs: maps and sets filled by loops, proved equal to CatalogModel.Catalog. */
module TunnelCatalog {
  import opened Base
  import opened Names
  import opened CatalogModel
  import opened CatalogProperties

  type PublisherMap = map<Name, seq<Name>>

  predicate Mentions(publishers: PublisherMap, server: Name, published: Name) {
    published in publishers && server in publishers[published]
  }

  predicate Lists(tools: seq<Tool>, published: Name) {
    exists t :: t in tools && t.name == published
  }

  /** `publishers` names, for every tool name, at least one publisher, and nothing but publishers of `servers`. */
  ghost predicate Collected(publishers: PublisherMap, servers: seq<Server>) {
    && (forall p :: p in publishers ==> publishers[p] != [])
    && (forall s, p :: Mentions(publishers, s, p) <==> exists q :: q in servers && q.name == s && Lists(q.tools, p))
  }

  method AddPublishers(before: PublisherMap, server: Name, tools: seq<Tool>) returns (publishers: PublisherMap)
    requires forall p :: p in before ==> before[p] != []
    ensures forall p :: p in publishers ==> publishers[p] != []
    ensures forall s, p :: Mentions(publishers, s, p) <==> Mentions(before, s, p) || (s == server && Lists(tools, p))
  {
    publishers := before;
    for i := 0 to |tools|
      invariant forall p :: p in publishers ==> publishers[p] != []
      invariant forall s, p :: Mentions(publishers, s, p) <==>
            Mentions(before, s, p) || (s == server && Lists(tools[..i], p))
    {
      ghost var was := publishers;
      var p := tools[i].name;
      var servers := if p in publishers then publishers[p] else [];
      publishers := publishers[p := servers + [server]];
      assert tools[..i + 1] == tools[..i] + [tools[i]];
      assert forall s, n :: Mentions(publishers, s, n) <==> Mentions(was, s, n) || (s == server && n == p);
    }
    assert tools[..|tools|] == tools;
  }

  method CollectPublishers(servers: seq<Server>) returns (publishers: PublisherMap)
    ensures Collected(publishers, servers)
  {
    publishers := map[];
    for q := 0 to |servers|
      invariant Collected(publishers, servers[..q])
    {
      publishers := AddPublishers(publishers, servers[q].name, servers[q].tools);
      assert servers[..q + 1] == servers[..q] + [servers[q]];
    }
    assert servers[..|servers|] == servers;
  }

  method CollectListings(servers: seq<Server>) returns (entries: seq<Listing>)
    ensures entries == Listings(servers)
  {
    entries := [];
    for q := 0 to |servers|
      invariant entries == Listings(servers[..q])
    {
      entries := entries + ListingsOf(servers[q].name, SortByName(servers[q].tools));
      assert servers[..q + 1][..q] == servers[..q];
    }
    assert servers[..|servers|] == servers;
  }

  // ----- Keepers -----

  type KeeperMap = map<Name, Name>

  /** The rule of `Keeper` depends only on who published, not on how often or in which order. */
  lemma KeeperByMembers(published: Name, a: seq<Name>, b: seq<Name>)
    requires a != [] && forall s :: s in a <==> s in b
    ensures b != [] && Keeper(published, a) == Keeper(published, b)
  {
    assert a[0] in b;
    LessTotal(Keeper(published, a), Keeper(published, b));
  }

  lemma {:induction false} PublishesFront(servers: seq<Server>, s: Name, p: Name)
    ensures Publishes(Listings(servers), s, p) <==> exists q :: q in servers && q.name == s && Lists(q.tools, p)
  {
    var ls := Listings(servers);
    if Publishes(ls, s, p) {
      var i :| 0 <= i < |ls| && ls[i].server == s && ls[i].tool.name == p;
      var q := ListedByServer(servers, i);
      assert servers[q] in servers && Lists(servers[q].tools, p);
    }
    if q :| q in servers && q.name == s && Lists(q.tools, p) {
      var k :| 0 <= k < |servers| && servers[k] == q;
      var t :| t in q.tools && t.name == p;
      ListedToolIsPublished(servers, k, t);
    }
  }

  /** Every listing is a tool some server listed. */
  lemma {:induction false} ListedByServer(servers: seq<Server>, i: nat) returns (q: nat)
    requires i < |Listings(servers)|
    ensures q < |servers| && servers[q].name == Listings(servers)[i].server
    ensures Listings(servers)[i].tool in servers[q].tools
  {
    var n := |servers| - 1;
    var front := Listings(servers[..n]);
    if i < |front| {
      q := ListedByServer(servers[..n], i);
    } else {
      q := n;
      var sorted := SortByName(servers[n].tools);
      SortSorts(servers[n].tools);
      assert sorted[i - |front|] in multiset(servers[n].tools);
    }
  }

  ghost predicate KeepersOf(keepers: KeeperMap, ls: seq<Listing>) {
    forall i :: 0 <= i < |ls| ==>
      Publishes(ls, ls[i].server, ls[i].tool.name)
      && ls[i].tool.name in keepers && keepers[ls[i].tool.name] == KeeperOf(ls, ls[i].tool.name)
  }

  lemma CollectedKeeper(publishers: PublisherMap, servers: seq<Server>, p: Name, s: Name)
    requires Collected(publishers, servers) && Publishes(Listings(servers), s, p)
    ensures p in publishers && publishers[p] != []
    ensures Keeper(p, publishers[p]) == KeeperOf(Listings(servers), p)
  {
    var ls := Listings(servers);
    PublishesFront(servers, s, p);
    assert Mentions(publishers, s, p);
    PublishersMembers(ls, p);
    forall n ensures n in publishers[p] <==> n in Publishers(ls, p) {
      PublishesFront(servers, n, p);
      assert n in publishers[p] <==> Mentions(publishers, n, p);
    }
    KeeperByMembers(p, publishers[p], Publishers(ls, p));
  }

  method CollectKeepers(publishers: PublisherMap, ghost servers: seq<Server>) returns (keepers: KeeperMap)
    requires Collected(publishers, servers)
    ensures KeepersOf(keepers, Listings(servers))
  {
    keepers := map p | p in publishers :: Keeper(p, publishers[p]);
    ghost var ls := Listings(servers);
    forall i | 0 <= i < |ls|
      ensures Publishes(ls, ls[i].server, ls[i].tool.name)
      ensures ls[i].tool.name in keepers && keepers[ls[i].tool.name] == KeeperOf(ls, ls[i].tool.name)
    {
      assert Publishes(ls, ls[i].server, ls[i].tool.name);
      CollectedKeeper(publishers, servers, ls[i].tool.name, ls[i].server);
    }
  }

  // ----- The two naming passes -----

  /** The name is kept among the first `i` listings exactly if its keeper has a listing of it there. */
  lemma KeptIffKeeperListed(ls: seq<Listing>, i: nat, published: Name)
    requires i <= |ls| && exists s :: Publishes(ls, s, published)
    ensures published in Kept(ls, i) <==>
              exists j :: 0 <= j < i && ls[j].tool.name == published && ls[j].server == KeeperOf(ls, published)
  {
    hide KeeperOf;
    if exists j :: 0 <= j < i && ls[j].server == KeeperOf(ls, published) && ls[j].tool.name == published {
      var j := FirstListing(ls, KeeperOf(ls, published), published, i);
      assert Keeps(ls, j);
    }
  }

  /** The keeper's first listing of a name is the one that finds the name unused. */
  lemma KeepsIffUnused(ls: seq<Listing>, i: nat)
    requires i < |ls|
    ensures Publishes(ls, ls[i].server, ls[i].tool.name)
    ensures Keeps(ls, i) <==> KeeperOf(ls, ls[i].tool.name) == ls[i].server && ls[i].tool.name !in Kept(ls, i)
    ensures Kept(ls, i + 1) == if Keeps(ls, i) then Kept(ls, i) + {ls[i].tool.name} else Kept(ls, i)
  {
    var l := ls[i];
    assert Publishes(ls, l.server, l.tool.name);
    KeptIffKeeperListed(ls, i, l.tool.name);
    hide KeeperOf, Kept, Publishes;
  }

  predicate FirstPassDone(ls: seq<Listing>, advertised: seq<Option<Name>>, n: nat)
    requires n <= |ls|
  {
    && |advertised| == |ls|
    && forall a :: 0 <= a < |ls| ==> advertised[a] == if a < n && Keeps(ls, a) then Some(ls[a].tool.name) else None
  }

  lemma NothingKept(ls: seq<Listing>)
    ensures Kept(ls, 0) == {}
  {
  }

  lemma FirstPassStep(ls: seq<Listing>, advertised: seq<Option<Name>>, i: nat)
    requires i < |ls| && FirstPassDone(ls, advertised, i)
    ensures FirstPassDone(ls, if Keeps(ls, i) then advertised[i := Some(ls[i].tool.name)] else advertised, i + 1)
  {
    hide Keeps;
  }

  method KeeperPass(ls: seq<Listing>, keepers: KeeperMap) returns (advertised: seq<Option<Name>>, used: set<Name>)
    requires KeepersOf(keepers, ls)
    ensures FirstPassDone(ls, advertised, |ls|) && used == Kept(ls, |ls|)
  {
    hide Keeps, KeeperOf, Kept, Publishes;
    advertised, used := seq(|ls|, _ => None), {};
    NothingKept(ls);
    for i := 0 to |ls|
      invariant FirstPassDone(ls, advertised, i) && used == Kept(ls, i)
    {
      var l := ls[i];
      KeepsIffUnused(ls, i);
      var keep := keepers[l.tool.name] == l.server && l.tool.name !in used;
      assert keep == Keeps(ls, i);
      FirstPassStep(ls, advertised, i);
      if keep {
        used := used + {l.tool.name};
        advertised := advertised[i := Some(l.tool.name)];
      }
    }
  }

  method ChooseName(server: Name, published: Name, used: set<Name>) returns (candidate: Name)
    ensures candidate == Rename(server, published, used, 1)
  {
    candidate := Dotted(server, published);
    var suffix: nat := 2;
    while candidate in used
      invariant suffix >= 2 && candidate == Candidate(server, published, suffix - 1)
      invariant Rename(server, published, used, 1) == Rename(server, published, used, suffix - 1)
      decreases |used - Tried(server, published, suffix - 1)|
    {
      TriedGrows(server, published, suffix - 1);
      assert candidate in used - Tried(server, published, suffix - 1);
      SmallerSet(used - Tried(server, published, suffix), used - Tried(server, published, suffix - 1));
      candidate := Name(Dotted(server, published).text + "." + Decimal(suffix));
      suffix := suffix + 1;
    }
  }

  method RenamePass(ls: seq<Listing>, kept: seq<Option<Name>>, taken: set<Name>) returns (names: seq<Name>)
    requires FirstPassDone(ls, kept, |ls|) && taken == Kept(ls, |ls|)
    ensures names == Advertised(ls)
  {
    hide Keeps, Rename, Kept;
    var used := taken;
    names := [];
    for i := 0 to |ls|
      invariant (names, used) == Assign(ls, i)
    {
      if kept[i].Some? {
        names := names + [kept[i].value];
      } else {
        var candidate := ChooseName(ls[i].server, ls[i].tool.name, used);
        used := used + {candidate};
        names := names + [candidate];
      }
    }
  }

  method ZipEntries(ls: seq<Listing>, names: seq<Name>) returns (entries: seq<Entry>)
    requires |names| == |ls|
    ensures |entries| == |ls| && forall i :: 0 <= i < |ls| ==> entries[i] == EntryFor(ls[i], names[i])
  {
    entries := [];
    for i := 0 to |ls|
      invariant |entries| == i && forall k :: 0 <= k < i ==> entries[k] == EntryFor(ls[k], names[k])
    {
      entries := entries + [Entry(names[i], ls[i].server, ls[i].tool.name, ls[i].tool.(name := names[i]))];
    }
  }

  /** The whole construction computes the catalog the other modules reason about. */
  method BuildCatalog(servers: seq<Server>) returns (entries: seq<Entry>)
    ensures entries == Catalog(servers)
  {
    var publishers := CollectPublishers(servers);
    var keepers := CollectKeepers(publishers, servers);
    var ls := CollectListings(servers);
    var kept, used := KeeperPass(ls, keepers);
    var names := RenamePass(ls, kept, used);
    entries := ZipEntries(ls, names);
    assert entries == Catalog(servers);
  }
}
