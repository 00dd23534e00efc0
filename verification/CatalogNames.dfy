/** What tools are called, over texts: which names are kept, what a renamed tool is called, and where a name that was
    never advertised goes. */
module CatalogNames {
  import opened Base
  import opened Names
  import opened CatalogModel
  import opened CatalogProperties

  // ----- Decimal notation -----

  /** Digits only, no leading zero, and the value of the number. */
  lemma {:induction false} DecimalIsNotation(n: nat)
    ensures var s := Decimal(n);
      && s != [] && (forall c :: c in s ==> '0' <= c <= '9')
      && (n > 0 ==> s[0] != '0')
      && Value(s) == n
  {
    ValueOfDecimal(n);
    if n >= 10 {
      DecimalIsNotation(n / 10);
    }
  }

  // ----- Renamed tools -----

  /** `<server>.<published>`, and with a number from 2 on behind it. */
  function Numbered(server: string, published: string, k: nat): string {
    server + "." + published + (if k <= 1 then "" else "." + Decimal(k))
  }

  /** A server published the name, or an earlier entry is advertised under it. */
  ghost predicate Taken(servers: seq<Server>, i: nat, n: Name)
    requires i <= |Catalog(servers)|
  {
    n in Published(Listings(servers)) || exists a :: 0 <= a < i && Catalog(servers)[a].advertised == n
  }

  lemma {:induction false} AssignPrefix(ls: seq<Listing>, i: nat, j: nat)
    requires i <= j <= |ls|
    ensures Assign(ls, i).0 == Assign(ls, j).0[..i]
    decreases j
  {
    hide Keeps, Rename, Kept;
    if i < j {
      AssignPrefix(ls, i, j - 1);
    }
  }

  /** The names used when the `i`-th listing's turn comes: all published names and the earlier entries' names. */
  lemma {:induction false} UsedNames(ls: seq<Listing>, i: nat, n: Name)
    requires i <= |ls|
    ensures n in Assign(ls, i).1 <==> n in Published(ls) || n in Assign(ls, i).0
  {
    KeeperPassTakesPublished(ls);
    hide Keeps, Kept, Rename;
    if i > 0 {
      UsedNames(ls, i - 1, n);
      var (names, used) := Assign(ls, i - 1);
      if Keeps(ls, i - 1) {
        assert ls[i - 1].tool.name in Published(ls);
      }
    }
  }

  lemma CandidateIsNumbered(server: Name, published: Name, k: nat)
    requires k >= 1
    ensures Candidate(server, published, k) == Name(Numbered(server.text, published.text, k))
  {
    var base := server.text + "." + published.text;
    assert base + "" == base;
    if k > 1 {
      Associative(base, ".", Decimal(k));
    }
  }

  lemma NameAt(ls: seq<Listing>, i: nat)
    requires i < |ls|
    ensures Advertised(ls)[i] == if Keeps(ls, i) then ls[i].tool.name
                                 else Rename(ls[i].server, ls[i].tool.name, Assign(ls, i).1, 1)
  {
    hide Keeps, Rename, Kept;
    AssignPrefix(ls, i + 1, |ls|);
  }

  /** The entry is advertised under the first numbered name, from `k` tries, that is not taken. */
  ghost predicate NamedApart(servers: seq<Server>, i: nat, k: nat)
    requires i < |Catalog(servers)|
  {
    var e := Catalog(servers)[i];
    && k >= 1 && e.advertised == Name(Numbered(e.server.text, e.published.text, k))
    && !Taken(servers, i, e.advertised)
    && forall j :: 1 <= j < k ==> Taken(servers, i, Name(Numbered(e.server.text, e.published.text, j)))
  }

  /** Every entry is advertised under its published name, or under `<server>.<published>` unless that is taken, or else
      under `<server>.<published>.<k>` with the least `k` from 2 on that is not. */
  lemma NamedVerbatimOrApart(servers: seq<Server>, i: nat)
    requires i < |Catalog(servers)|
    ensures var e := Catalog(servers)[i]; e.advertised == e.published || exists k :: NamedApart(servers, i, k)
  {
    var ls := Listings(servers);
    NameAt(ls, i);
    if !Keeps(ls, i) {
      var (names, used) := Assign(ls, i);
      var server, published := ls[i].server, ls[i].tool.name;
      assert Tried(server, published, 1) == {};
      var k := RenameTries(server, published, used, 1);
      AssignPrefix(ls, i, |ls|);
      CandidateIsNumbered(server, published, k);
      TakenIsUsed(servers, i, Catalog(servers)[i].advertised);
      forall j | 1 <= j < k ensures Taken(servers, i, Name(Numbered(server.text, published.text, j))) {
        CandidateIsNumbered(server, published, j);
        assert Candidate(server, published, j) in Tried(server, published, k);
        TakenIsUsed(servers, i, Candidate(server, published, j));
      }
      hide Keeps, Assign, Rename, Candidate, Tried, Taken;
      assert NamedApart(servers, i, k);
    }
  }

  lemma TakenIsUsed(servers: seq<Server>, i: nat, n: Name)
    requires i <= |Listings(servers)|
    ensures Taken(servers, i, n) <==> n in Assign(Listings(servers), i).1
  {
    var ls := Listings(servers);
    AssignPrefix(ls, i, |ls|);
    UsedNames(ls, i, n);
    hide Listings, Assign;
    var names := Assign(ls, i).0;
    assert forall a :: 0 <= a < i ==> Catalog(servers)[a].advertised == names[a];
  }

  // ----- Names that were never advertised -----

  /** Such a name goes, as it is, to the server named before its first dot, unless that is empty or there is none. */
  lemma PrefixRouteExactly(name: Name, server: Name, published: Name)
    ensures PrefixRoute(name) == Some((server, published)) <==>
              published == name && server.text != "" && '.' !in server.text
              && exists rest :: name.text == server.text + "." + rest
  {
    BeforeDotSplits(name.text);
    if rest :| '.' !in server.text && name.text == server.text + "." + rest {
      BeforeDotOfDotted(server.text, rest);
    }
  }

  lemma {:induction false} BeforeDotSplits(text: string)
    ensures BeforeDot(text).None? ==> '.' !in text
    ensures BeforeDot(text).Some? ==>
      exists rest :: '.' !in BeforeDot(text).value && text == BeforeDot(text).value + "." + rest
  {
    if text != [] {
      assert text == [text[0]] + text[1..];
      if text[0] == '.' {
        assert text == "" + "." + text[1..];
      } else {
        BeforeDotSplits(text[1..]);
        if rest :| BeforeDot(text[1..]).Some? && text[1..] == BeforeDot(text[1..]).value + "." + rest {
          assert text == BeforeDot(text).value + "." + rest;
        }
      }
    }
  }

  // ----- The order of names -----

  /** The texts agree before `i`; there `a` has the smaller character, or has ended. */
  predicate SmallerAt(a: string, b: string, i: nat) {
    && i <= |a| && i < |b| && (forall j :: 0 <= j < i ==> a[j] == b[j])
    && (i == |a| || a[i] < b[i])
  }

  lemma SmallerAtTail(a: string, b: string, i: nat)
    requires a != [] && b != []
    ensures SmallerAt(a, b, i + 1) <==> a[0] == b[0] && SmallerAt(a[1..], b[1..], i)
  {
    var x, y := a[1..], b[1..];
    if SmallerAt(x, y, i) && a[0] == b[0] {
      assert forall j :: 1 <= j < i + 1 ==> a[j] == x[j - 1] && b[j] == y[j - 1];
    }
  }

  /** Names compare as in a dictionary: by the first character that differs, a proper prefix first. */
  lemma {:induction false} LessIsLexicographic(a: string, b: string)
    ensures TextLess(a, b) <==> exists i: nat :: SmallerAt(a, b, i)
  {
    if a == [] || b == [] {
      assert TextLess(a, b) ==> SmallerAt(a, b, 0);
    } else {
      LessIsLexicographic(a[1..], b[1..]);
      if i: nat :| SmallerAt(a[1..], b[1..], i) {
        SmallerAtTail(a, b, i);
        assert a[0] == b[0] ==> SmallerAt(a, b, i + 1);
      }
      assert a[0] < b[0] ==> SmallerAt(a, b, 0);
      if i: nat :| SmallerAt(a, b, i) {
        if i > 0 {
          SmallerAtTail(a, b, i - 1);
        }
      }
    }
  }

  // ----- Stable sorting -----

  /** The tools with this name, in order. */
  function Called(tools: seq<Tool>, name: Name): seq<Tool> {
    if tools == [] then [] else (if tools[0].name == name then [tools[0]] else []) + Called(tools[1..], name)
  }

  lemma {:induction false} InsertKeepsCalled(t: Tool, sorted: seq<Tool>, name: Name)
    ensures Called(Insert(t, sorted), name) == Called([t] + sorted, name)
  {
    assert ([t] + sorted)[1..] == sorted;
    if sorted != [] && Less(sorted[0].name, t.name) {
      var rest := Insert(t, sorted[1..]);
      InsertKeepsCalled(t, sorted[1..], name);
      LessTotal(sorted[0].name, t.name);
      assert ([sorted[0]] + rest)[1..] == rest && ([t] + sorted[1..])[1..] == sorted[1..];
    }
  }

  /** Tools of one name keep their order, so which of them a server's first listing is does not change. */
  lemma {:induction false} SortIsStable(tools: seq<Tool>, name: Name)
    ensures Called(SortByName(tools), name) == Called(tools, name)
  {
    if tools != [] {
      SortIsStable(tools[1..], name);
      InsertKeepsCalled(tools[0], SortByName(tools[1..]), name);
    }
  }
}
