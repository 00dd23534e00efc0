/** The advertised tool catalog of one channel, as functions of what its servers published. */
module CatalogModel {
  import opened Base
  import opened Names

  datatype Tool = Tool(name: Name, schema: string)

  /** One declared server and the tools it listed, in the order it listed them. */
  datatype Server = Server(name: Name, tools: seq<Tool>)

  /** One published tool with its server, in the order both passes walk them. */
  datatype Listing = Listing(server: Name, tool: Tool)

  datatype Entry = Entry(advertised: Name, server: Name, published: Name, tool: Tool)

  // ----- Sorting by name (stable) -----

  function Insert(t: Tool, sorted: seq<Tool>): seq<Tool> {
    if sorted == [] || !Less(sorted[0].name, t.name) then [t] + sorted
    else [sorted[0]] + Insert(t, sorted[1..])
  }

  function SortByName(tools: seq<Tool>): seq<Tool> {
    if tools == [] then [] else Insert(tools[0], SortByName(tools[1..]))
  }

  // ----- Listings and keepers -----

  function ListingsOf(server: Name, tools: seq<Tool>): (ls: seq<Listing>)
    ensures |ls| == |tools| && forall i :: 0 <= i < |ls| ==> ls[i] == Listing(server, tools[i])
  {
    seq(|tools|, i requires 0 <= i < |tools| => Listing(server, tools[i]))
  }

  function Listings(servers: seq<Server>): seq<Listing> {
    if servers == [] then []
    else Listings(servers[..|servers| - 1])
         + ListingsOf(servers[|servers| - 1].name, SortByName(servers[|servers| - 1].tools))
  }

  predicate Publishes(ls: seq<Listing>, server: Name, published: Name) {
    exists i :: 0 <= i < |ls| && ls[i].server == server && ls[i].tool.name == published
  }

  /** The servers that published a name, in walk order, one mention per listing. */
  function Publishers(ls: seq<Listing>, published: Name): seq<Name> {
    if ls == [] then []
    else Publishers(ls[..|ls| - 1], published)
         + (if ls[|ls| - 1].tool.name == published then [ls[|ls| - 1].server] else [])
  }

  lemma MinimumStep(names: seq<Name>)
    requires names != []
    ensures forall a: Name :: !Less(a, a)
    ensures forall a: Name, b: Name :: Less(a, b) ==> !Less(b, a)
    ensures forall a: Name, b: Name, c: Name :: Less(a, b) && !Less(c, b) ==> Less(a, c)
    ensures forall n :: n in names <==> n == names[0] || n in names[1..]
  {
    forall a: Name ensures !Less(a, a) {
      LessTotal(a, a);
    }
    forall a: Name, b: Name | Less(a, b) ensures !Less(b, a) {
      LessTotal(a, b);
    }
    forall a: Name, b: Name, c: Name | Less(a, b) && !Less(c, b) ensures Less(a, c) {
      LessTotal(b, c);
      if Less(b, c) {
        LessTransitive(a, b, c);
      }
    }
  }

  function Minimum(names: seq<Name>): (m: Name)
    requires names != []
    ensures m in names
    ensures forall n :: n in names ==> !Less(n, m)
  {
    MinimumStep(names);
    if |names| == 1 then names[0]
    else var m := Minimum(names[1..]); if Less(m, names[0]) then m else names[0]
  }

  /** Which server keeps a name several publish: the namesake of its prefix, else the least. */
  function Keeper(published: Name, publishers: seq<Name>): (k: Name)
    requires publishers != []
    ensures k in publishers
    ensures if Prefix(published).Some? && Prefix(published).value in publishers then k == Prefix(published).value
            else forall n :: n in publishers ==> !Less(n, k)
  {
    if Prefix(published).Some? && Prefix(published).value in publishers then Prefix(published).value
    else Minimum(publishers)
  }

  lemma {:induction false} PublishersMembers(ls: seq<Listing>, published: Name)
    ensures forall s :: s in Publishers(ls, published) <==> Publishes(ls, s, published)
  {
    if ls != [] {
      var front, last := ls[..|ls| - 1], ls[|ls| - 1];
      PublishersMembers(front, published);
      forall s ensures Publishes(ls, s, published) <==>
                       Publishes(front, s, published) || (last.server == s && last.tool.name == published) {
        if Publishes(front, s, published) {
          var i :| 0 <= i < |front| && front[i].server == s && front[i].tool.name == published;
          assert ls[i] == front[i];
        }
      }
    }
  }

  function KeeperOf(ls: seq<Listing>, published: Name): (k: Name)
    requires exists s :: Publishes(ls, s, published)
    ensures Publishes(ls, k, published)
  {
    PublishersMembers(ls, published);
    Keeper(published, Publishers(ls, published))
  }

  // ----- The two naming passes -----

  /** Listing `i` keeps its published name: its server is the keeper, and it is that server's first such listing. */
  predicate Keeps(ls: seq<Listing>, i: nat)
    requires i < |ls|
  {
    assert Publishes(ls, ls[i].server, ls[i].tool.name);
    && KeeperOf(ls, ls[i].tool.name) == ls[i].server
    && forall j :: 0 <= j < i && ls[j].tool.name == ls[i].tool.name ==> ls[j].server != ls[i].server
  }

  /** The names taken by the first pass over the first `n` listings. */
  function Kept(ls: seq<Listing>, n: nat): (used: set<Name>)
    requires n <= |ls|
  {
    set i | 0 <= i < n && Keeps(ls, i) :: ls[i].tool.name
  }

  /** The advertised names of the first `i` listings, and all names used once they are assigned. */
  function Assign(ls: seq<Listing>, i: nat): (res: (seq<Name>, set<Name>))
    requires i <= |ls|
    ensures |res.0| == i
  {
    if i == 0 then ([], Kept(ls, |ls|))
    else
      var (names, used) := Assign(ls, i - 1);
      var l := ls[i - 1];
      if Keeps(ls, i - 1) then (names + [l.tool.name], used)
      else var n := Rename(l.server, l.tool.name, used, 1); (names + [n], used + {n})
  }

  function Advertised(ls: seq<Listing>): (names: seq<Name>)
    ensures |names| == |ls|
  {
    Assign(ls, |ls|).0
  }

  function EntryFor(l: Listing, advertised: Name): Entry {
    Entry(advertised, l.server, l.tool.name, l.tool.(name := advertised))
  }

  function Catalog(servers: seq<Server>): (entries: seq<Entry>)
    ensures |entries| == |Listings(servers)|
  {
    var ls := Listings(servers);
    var names := Advertised(ls);
    seq(|ls|, i requires 0 <= i < |ls| => EntryFor(ls[i], names[i]))
  }

  /** The first entry advertised under the name. */
  function Find(entries: seq<Entry>, advertised: Name): Option<(Name, Name)> {
    if entries == [] then None
    else if entries[0].advertised == advertised then Some((entries[0].server, entries[0].published))
    else Find(entries[1..], advertised)
  }

  function Route(servers: seq<Server>, advertised: Name): Option<(Name, Name)> {
    Find(Catalog(servers), advertised)
  }

  /** Before discovery: the text before the first dot, unless empty, and the name itself. */
  function PrefixRoute(name: Name): Option<(Name, Name)> {
    match Prefix(name)
    case None => None
    case Some(p) => if p.text == "" then None else Some((p, name))
  }

  /** Where a call goes: the catalog route, else the prefix fallback. */
  function CallRoute(servers: seq<Server>, name: Name): Option<(Name, Name)> {
    var routed := Route(servers, name);
    if routed.Some? then routed else PrefixRoute(name)
  }

  /** What `tools()` advertises: the renamed tools, sorted by name. */
  function ToolsOf(entries: seq<Entry>): (tools: seq<Tool>)
    ensures |tools| == |entries| && forall i :: 0 <= i < |entries| ==> tools[i] == entries[i].tool
  {
    seq(|entries|, i requires 0 <= i < |entries| => entries[i].tool)
  }

  function Tools(servers: seq<Server>): seq<Tool> {
    SortByName(ToolsOf(Catalog(servers)))
  }
}
