/** What the catalog promises: unique names, routes that invert them, stable namesakes, one canonical form. */
module CatalogProperties {
  import opened Base
  import opened Names
  import opened CatalogModel

  // ----- The keeper pass takes exactly the published names -----

  function Published(ls: seq<Listing>): set<Name> {
    set i | 0 <= i < |ls| :: ls[i].tool.name
  }

  /** Every published name is kept by exactly one listing. */
  lemma KeptOnce(ls: seq<Listing>, published: Name) returns (i: nat)
    requires exists s :: Publishes(ls, s, published)
    ensures i < |ls| && Keeps(ls, i) && ls[i].tool.name == published && ls[i].server == KeeperOf(ls, published)
    ensures forall j :: 0 <= j < |ls| && ls[j].tool.name == published && Keeps(ls, j) ==> j == i
  {
    var k := KeeperOf(ls, published);
    i := FirstListing(ls, k, published, |ls|);
    assert Publishes(ls, ls[i].server, ls[i].tool.name);
  }

  lemma {:induction false} FirstListing(ls: seq<Listing>, server: Name, published: Name, n: nat) returns (i: nat)
    requires n <= |ls|
    requires exists j :: 0 <= j < n && ls[j].server == server && ls[j].tool.name == published
    ensures i < n && ls[i].server == server && ls[i].tool.name == published
    ensures forall j :: 0 <= j < i ==> !(ls[j].server == server && ls[j].tool.name == published)
  {
    i := n - 1;
    if exists j :: 0 <= j < n - 1 && ls[j].server == server && ls[j].tool.name == published {
      i := FirstListing(ls, server, published, n - 1);
    }
  }

  /** After the keeper pass the used set is the set of published names. */
  lemma KeeperPassTakesPublished(ls: seq<Listing>)
    ensures Kept(ls, |ls|) == Published(ls)
  {
    forall i | 0 <= i < |ls| ensures ls[i].tool.name in Kept(ls, |ls|) {
      assert Publishes(ls, ls[i].server, ls[i].tool.name);
      var j := KeptOnce(ls, ls[i].tool.name);
    }
  }

  // ----- The assigned names -----

  /** The state of the second pass after `i` listings: kept names are verbatim, renames avoid every published
      name, and no two names agree. */
  ghost predicate Assigned(ls: seq<Listing>, i: nat, names: seq<Name>, used: set<Name>)
    requires i <= |ls|
  {
    && |names| == i
    && Published(ls) <= used
    && (forall a :: 0 <= a < i ==> names[a] in used)
    && (forall a :: 0 <= a < i && Keeps(ls, a) ==> names[a] == ls[a].tool.name)
    && (forall a :: 0 <= a < i && !Keeps(ls, a) ==> names[a] !in Published(ls))
    && (forall a, b :: 0 <= a < b < i ==> names[a] != names[b])
  }

  lemma {:induction false} AssignAssigned(ls: seq<Listing>, i: nat)
    requires i <= |ls|
    ensures var (names, used) := Assign(ls, i); Assigned(ls, i, names, used)
  {
    KeeperPassTakesPublished(ls);
    hide Kept, Published, Keeps;
    if i > 0 {
      hide Assigned;
      AssignAssigned(ls, i - 1);
      var (names, used) := Assign(ls, i - 1);
      if Keeps(ls, i - 1) {
        KeptIsNew(ls, i - 1, names, used);
      } else {
        var l := ls[i - 1];
        RenameIsNew(ls, i - 1, names, used, Rename(l.server, l.tool.name, used, 1));
      }
    }
  }

  lemma KeptIsNew(ls: seq<Listing>, i: nat, names: seq<Name>, used: set<Name>)
    requires i < |ls| && Assigned(ls, i, names, used) && Keeps(ls, i)
    ensures Assigned(ls, i + 1, names + [ls[i].tool.name], used)
  {
    assert Publishes(ls, ls[i].server, ls[i].tool.name);
    var j := KeptOnce(ls, ls[i].tool.name);
    assert ls[i].tool.name in Published(ls);
    forall a | 0 <= a < i ensures names[a] != ls[i].tool.name {
      assert Keeps(ls, a) || names[a] !in Published(ls);
    }
  }

  lemma RenameIsNew(ls: seq<Listing>, i: nat, names: seq<Name>, used: set<Name>, name: Name)
    requires i < |ls| && Assigned(ls, i, names, used) && !Keeps(ls, i) && name !in used
    ensures Assigned(ls, i + 1, names + [name], used + {name})
  {
  }

  /** Advertised names: distinct; verbatim for the keeper of a published name; never a published name otherwise. */
  lemma AdvertisedNames(ls: seq<Listing>)
    ensures var names := Advertised(ls);
      && (forall a, b :: 0 <= a < b < |ls| ==> names[a] != names[b])
      && (forall a :: 0 <= a < |ls| ==> (Keeps(ls, a) <==> names[a] in Published(ls)))
      && (forall a :: 0 <= a < |ls| && Keeps(ls, a) ==> names[a] == ls[a].tool.name)
  {
    AssignAssigned(ls, |ls|);
  }

  // ----- Routing inverts advertising -----

  lemma {:induction false} FindUnique(entries: seq<Entry>, i: nat)
    requires i < |entries|
    requires forall a, b :: 0 <= a < b < |entries| ==> entries[a].advertised != entries[b].advertised
    ensures Find(entries, entries[i].advertised) == Some((entries[i].server, entries[i].published))
  {
    if i > 0 {
      assert entries[1..][i - 1] == entries[i];
      FindUnique(entries[1..], i - 1);
    }
  }

  lemma {:induction false} FindNone(entries: seq<Entry>, advertised: Name)
    ensures Find(entries, advertised).None? <==> forall i :: 0 <= i < |entries| ==> entries[i].advertised != advertised
  {
    if entries != [] {
      FindNone(entries[1..], advertised);
      assert forall i :: 1 <= i < |entries| ==> entries[i] == entries[1..][i - 1];
      assert forall i :: 0 <= i < |entries| - 1 ==> entries[i + 1] == entries[1..][i];
    }
  }

  /** For every set of servers: one entry per listing, distinct advertised names, the schema shown under a name is
      the listing's own, and routing a name gives back that listing's server and published name. */
  lemma RoutingInvertsCatalog(servers: seq<Server>, i: nat)
    requires i < |Listings(servers)|
    ensures var (ls, cat) := (Listings(servers), Catalog(servers));
      && |cat| == |ls|
      && cat[i].server == ls[i].server && cat[i].published == ls[i].tool.name
      && cat[i].tool == ls[i].tool.(name := cat[i].advertised)
      && (forall j :: 0 <= j < |cat| && j != i ==> cat[j].advertised != cat[i].advertised)
      && Route(servers, cat[i].advertised) == Some((ls[i].server, ls[i].tool.name))
  {
    AdvertisedNames(Listings(servers));
    FindUnique(Catalog(servers), i);
  }

  /** A name routes exactly if it is advertised. */
  lemma RoutesExactlyAdvertised(servers: seq<Server>, name: Name)
    ensures Route(servers, name).Some? <==>
              exists i :: 0 <= i < |Catalog(servers)| && Catalog(servers)[i].advertised == name
  {
    FindNone(Catalog(servers), name);
  }

  /** Every published name is advertised, and routes to its keeper. */
  lemma PublishedNameRoutesToKeeper(servers: seq<Server>, published: Name)
    requires exists s :: Publishes(Listings(servers), s, published)
    ensures Route(servers, published) == Some((KeeperOf(Listings(servers), published), published))
  {
    var ls := Listings(servers);
    var i := KeptOnce(ls, published);
    AdvertisedNames(ls);
    RoutingInvertsCatalog(servers, i);
  }

  /** The keeper of a name is its prefix's namesake if that server publishes it, else the least publisher. */
  lemma KeeperRule(ls: seq<Listing>, published: Name, s: Name)
    requires Publishes(ls, s, published)
    ensures var k := KeeperOf(ls, published);
      if Prefix(published) == Some(s) then k == s
      else Prefix(published) == Some(k) || !Less(s, k)
  {
    PublishersMembers(ls, published);
  }

  // ----- Sorting -----

  predicate NameSorted(tools: seq<Tool>) {
    forall i, j :: 0 <= i < j < |tools| ==> !Less(tools[j].name, tools[i].name)
  }

  lemma {:induction false} InsertSorts(t: Tool, sorted: seq<Tool>)
    requires NameSorted(sorted)
    ensures NameSorted(Insert(t, sorted))
    ensures multiset(Insert(t, sorted)) == multiset(sorted) + multiset{t}
    ensures forall x :: x in Insert(t, sorted) <==> x in sorted || x == t
  {
    if sorted == [] {
    } else if !Less(sorted[0].name, t.name) {
      forall j | 0 <= j < |sorted| ensures !Less(sorted[j].name, t.name) {
        LessTotal(sorted[0].name, sorted[0].name);
        NotLessTransitive(t.name, sorted[0].name, sorted[j].name);
      }
    } else {
      var rest := Insert(t, sorted[1..]);
      InsertSorts(t, sorted[1..]);
      assert sorted == [sorted[0]] + sorted[1..];
      LessTotal(sorted[0].name, t.name);
      FirstStaysLeast(sorted[0], sorted[1..], t, rest);
      hide Less;
    }
  }

  lemma FirstStaysLeast(first: Tool, others: seq<Tool>, t: Tool, rest: seq<Tool>)
    requires NameSorted([first] + others) && !Less(t.name, first.name)
    requires forall x :: x in rest <==> x in others || x == t
    ensures forall j :: 0 <= j < |rest| ==> !Less(rest[j].name, first.name)
  {
    hide Less;
    assert ([first] + others)[0] == first;
    forall j | 0 <= j < |rest| ensures !Less(rest[j].name, first.name) {
      assert rest[j] in rest;
      if rest[j] in others {
        var k :| 0 <= k < |others| && others[k] == rest[j];
        assert ([first] + others)[k + 1] == rest[j];
      }
    }
  }

  lemma NotLessTransitive(a: Name, b: Name, c: Name)
    requires !Less(b, a) && !Less(c, b)
    ensures !Less(c, a)
  {
    LessTotal(a, b);
    LessTotal(b, c);
    LessTotal(a, c);
    if Less(c, a) && Less(a, b) {
      LessTransitive(c, a, b);
    }
  }

  lemma {:induction false} SortSorts(tools: seq<Tool>)
    ensures NameSorted(SortByName(tools))
    ensures multiset(SortByName(tools)) == multiset(tools)
  {
    if tools != [] {
      SortSorts(tools[1..]);
      assert tools == [tools[0]] + tools[1..];
      InsertSorts(tools[0], SortByName(tools[1..]));
    }
  }

  predicate DistinctNames(tools: seq<Tool>) {
    forall i, j :: 0 <= i < j < |tools| ==> tools[i].name != tools[j].name
  }

  lemma SameHead(a: seq<Tool>, b: seq<Tool>, i: nat, j: nat)
    requires NameSorted(a) && NameSorted(b) && DistinctNames(a)
    requires i < |b| && j < |a| && b[i] == a[0] && a[j] == b[0]
    ensures a[0] == b[0]
  {
    LessTotal(a[0].name, b[0].name);
  }

  /** A sorted sequence with distinct names is determined by its members. */
  lemma {:induction false} SortedUnique(a: seq<Tool>, b: seq<Tool>)
    requires NameSorted(a) && NameSorted(b) && DistinctNames(a) && DistinctNames(b)
    requires multiset(a) == multiset(b)
    ensures a == b
  {
    if a == [] {
      assert |multiset(b)| == 0;
    } else {
      assert |multiset(b)| == |a|;
      assert a[0] in multiset(b) && b[0] in multiset(a);
      var i :| 0 <= i < |b| && b[i] == a[0];
      var j :| 0 <= j < |a| && a[j] == b[0];
      SameHead(a, b, i, j);
      SplitHead(a);
      SplitHead(b);
      SortedUnique(a[1..], b[1..]);
    }
  }

  lemma SplitHead(a: seq<Tool>)
    requires a != [] && NameSorted(a) && DistinctNames(a)
    ensures a == [a[0]] + a[1..] && NameSorted(a[1..]) && DistinctNames(a[1..])
    ensures multiset(a[1..]) == multiset(a) - multiset{a[0]}
  {
    assert a == [a[0]] + a[1..];
  }

  lemma {:induction false} DistinctByMembers(a: seq<Tool>, b: seq<Tool>)
    requires DistinctNames(a) && multiset(a) == multiset(b)
    ensures DistinctNames(b)
  {
    forall i, j | 0 <= i < j < |b| ensures b[i].name != b[j].name {
      if b[i] == b[j] {
        assert b == b[..i] + [b[i]] + b[i + 1..j] + [b[j]] + b[j + 1..];
        assert multiset(b)[b[i]] >= 2;
        TwiceMeansTwo(a, b[i]);
      } else {
        assert b[i] in multiset(a) && b[j] in multiset(a);
      }
    }
  }

  lemma {:induction false} TwiceMeansTwo(a: seq<Tool>, x: Tool)
    requires multiset(a)[x] >= 2
    ensures exists i, j :: 0 <= i < j < |a| && a[i] == x && a[j] == x
  {
    assert a == [a[0]] + a[1..];
    if a[0] == x {
      assert x in multiset(a[1..]);
      var j :| 0 <= j < |a[1..]| && a[1..][j] == x;
      assert a[j + 1] == x;
    } else {
      TwiceMeansTwo(a[1..], x);
      var i, j :| 0 <= i < j < |a[1..]| && a[1..][i] == x && a[1..][j] == x;
      assert a[i + 1] == x && a[j + 1] == x;
    }
  }

  // ----- The canonical form -----

  /** Two discovered sets that differ only in the order in which each server listed its tools. */
  ghost predicate SameUpToOrder(a: seq<Server>, b: seq<Server>) {
    && |a| == |b|
    && forall i :: 0 <= i < |a| ==> a[i].name == b[i].name && DistinctNames(a[i].tools)
                                    && multiset(a[i].tools) == multiset(b[i].tools)
  }

  lemma {:induction false} ListingsCanonical(a: seq<Server>, b: seq<Server>)
    requires SameUpToOrder(a, b)
    ensures Listings(a) == Listings(b)
  {
    if a != [] {
      var n := |a| - 1;
      ListingsCanonical(a[..n], b[..n]);
      SortSorts(a[n].tools);
      SortSorts(b[n].tools);
      DistinctByMembers(a[n].tools, SortByName(a[n].tools));
      DistinctByMembers(a[n].tools, SortByName(b[n].tools));
      SortedUnique(SortByName(a[n].tools), SortByName(b[n].tools));
    }
  }

  /** The order in which a server lists distinctly named tools does not matter. */
  lemma CatalogCanonical(a: seq<Server>, b: seq<Server>)
    requires SameUpToOrder(a, b)
    ensures Catalog(a) == Catalog(b) && Tools(a) == Tools(b)
  {
    ListingsCanonical(a, b);
  }

  /** The advertised list is strictly increasing by name, and consists of the catalog's tools. */
  lemma ToolsStrictlyIncrease(servers: seq<Server>)
    ensures multiset(Tools(servers)) == multiset(ToolsOf(Catalog(servers)))
    ensures forall i, j :: 0 <= i < j < |Tools(servers)| ==> Less(Tools(servers)[i].name, Tools(servers)[j].name)
  {
    var shown := ToolsOf(Catalog(servers));
    AdvertisedNames(Listings(servers));
    SortSorts(shown);
    DistinctByMembers(shown, Tools(servers));
    forall i, j | 0 <= i < j < |Tools(servers)| ensures Less(Tools(servers)[i].name, Tools(servers)[j].name) {
      LessTotal(Tools(servers)[i].name, Tools(servers)[j].name);
    }
  }

  // ----- Every listed tool is in the catalog -----

  /** The walk lists server `q`'s tools, all of them, in one block: the listings are the servers' own lists. */
  lemma {:induction false} ListingBlock(servers: seq<Server>, q: nat) returns (start: nat)
    requires q < |servers|
    ensures start + |servers[q].tools| <= |Listings(servers)|
    ensures Listings(servers)[start..start + |servers[q].tools|]
         == ListingsOf(servers[q].name, SortByName(servers[q].tools))
    ensures multiset(SortByName(servers[q].tools)) == multiset(servers[q].tools)
  {
    var n := |servers| - 1;
    var front, block := Listings(servers[..n]), ListingsOf(servers[n].name, SortByName(servers[n].tools));
    SortSorts(servers[q].tools);
    assert |SortByName(servers[q].tools)| == |multiset(servers[q].tools)|;
    assert Listings(servers) == front + block && |block| == |SortByName(servers[n].tools)|;
    hide Listings, SortByName, ListingsOf;
    SliceOfPart(front, block);
    if q == n {
      start := |front|;
    } else {
      start := ListingBlock(servers[..n], q);
      assert servers[..n][q] == servers[q];
    }
  }

  function ToolCount(servers: seq<Server>): nat {
    if servers == [] then 0 else ToolCount(servers[..|servers| - 1]) + |servers[|servers| - 1].tools|
  }

  lemma {:induction false} CatalogSize(servers: seq<Server>)
    ensures |Catalog(servers)| == ToolCount(servers)
  {
    if servers != [] {
      var n := |servers| - 1;
      CatalogSize(servers[..n]);
      SortSorts(servers[n].tools);
      assert |SortByName(servers[n].tools)| == |multiset(servers[n].tools)|;
    }
  }

  lemma ListedToolIsPublished(servers: seq<Server>, q: nat, t: Tool)
    requires q < |servers| && t in servers[q].tools
    ensures Publishes(Listings(servers), servers[q].name, t.name)
  {
    hide Listings, SortByName;
    var start := ListingBlock(servers, q);
    var sorted := SortByName(servers[q].tools);
    assert t in multiset(sorted);
    var k :| 0 <= k < |sorted| && sorted[k] == t;
    assert |sorted| == |multiset(sorted)| == |multiset(servers[q].tools)| == |servers[q].tools|;
    BlockPublishes(Listings(servers), ListingsOf(servers[q].name, sorted), start, k);
  }

  lemma BlockPublishes(ls: seq<Listing>, block: seq<Listing>, start: nat, k: nat)
    requires start + |block| <= |ls| && ls[start..start + |block|] == block && k < |block|
    ensures Publishes(ls, block[k].server, block[k].tool.name)
  {
    assert ls[start + k] == block[k];
  }

  // ----- Namesakes -----

  /** A dot-free, non-empty server name keeps everything it publishes under its own prefix, whatever the other
      servers are; so the fallback used before discovery and the catalog agree. */
  lemma NamesakeIsStable(servers: seq<Server>, q: nat, t: Tool, rest: Name)
    requires q < |servers| && t in servers[q].tools
    requires '.' !in servers[q].name.text && servers[q].name.text != ""
    requires t.name == Dotted(servers[q].name, rest)
    ensures Route(servers, t.name) == Some((servers[q].name, t.name))
    ensures PrefixRoute(t.name) == Route(servers, t.name) == CallRoute(servers, t.name)
  {
    var ls := Listings(servers);
    ListedToolIsPublished(servers, q, t);
    PublishedNameRoutesToKeeper(servers, t.name);
    PrefixOfDotted(servers[q].name, rest);
    PublishersMembers(ls, t.name);
  }
}
