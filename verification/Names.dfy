/** Tool and server names: their order, their dotted prefix, and the numbered names a rename tries. */
module Names {
  import opened Base

  datatype Name = Name(text: string)

  // ----- Lexicographic order -----

  predicate TextLess(a: string, b: string) {
    b != [] && (a == [] || a[0] < b[0] || (a[0] == b[0] && TextLess(a[1..], b[1..])))
  }

  predicate Less(a: Name, b: Name) { TextLess(a.text, b.text) }

  lemma {:induction false} TextLessTotal(a: string, b: string)
    ensures a == b <==> !TextLess(a, b) && !TextLess(b, a)
    ensures !(TextLess(a, b) && TextLess(b, a))
  {
    if a != [] && b != [] && a[0] == b[0] {
      TextLessTotal(a[1..], b[1..]);
      assert a == [a[0]] + a[1..] && b == [b[0]] + b[1..];
    }
  }

  lemma {:induction false} TextLessTransitive(a: string, b: string, c: string)
    requires TextLess(a, b) && TextLess(b, c)
    ensures TextLess(a, c)
  {
    if a != [] && a[0] == b[0] && b[0] == c[0] {
      TextLessTransitive(a[1..], b[1..], c[1..]);
    }
  }

  lemma LessTotal(a: Name, b: Name)
    ensures a == b <==> !Less(a, b) && !Less(b, a)
    ensures !(Less(a, b) && Less(b, a))
  {
    TextLessTotal(a.text, b.text);
  }

  lemma LessTransitive(a: Name, b: Name, c: Name)
    requires Less(a, b) && Less(b, c)
    ensures Less(a, c)
  {
    TextLessTransitive(a.text, b.text, c.text);
  }

  // ----- The dotted prefix -----

  /** The text before the first dot, if there is a dot. */
  function BeforeDot(text: string): Option<string> {
    if text == [] then None
    else if text[0] == '.' then Some("")
    else match BeforeDot(text[1..])
         case None => None
         case Some(p) => Some([text[0]] + p)
  }

  /** `split_once('.')`, first half. */
  function Prefix(n: Name): Option<Name> {
    match BeforeDot(n.text)
    case None => None
    case Some(p) => Some(Name(p))
  }

  function Dotted(a: Name, b: Name): Name { Name(a.text + "." + b.text) }

  lemma {:induction false} BeforeDotOfDotted(p: string, rest: string)
    requires '.' !in p
    ensures BeforeDot(p + "." + rest) == Some(p)
  {
    var t := p + "." + rest;
    if p == [] {
      assert t[0] == '.';
    } else {
      assert t[0] == p[0] && t[1..] == p[1..] + "." + rest;
      BeforeDotOfDotted(p[1..], rest);
      assert [p[0]] + p[1..] == p;
    }
  }

  /** A dot-free name is the prefix of everything published under it. */
  lemma PrefixOfDotted(p: Name, rest: Name)
    requires '.' !in p.text
    ensures Prefix(Dotted(p, rest)) == Some(p)
  {
    BeforeDotOfDotted(p.text, rest.text);
  }

  // ----- Numbered candidates -----

  function Digit(d: nat): char
    requires d < 10
  {
    '0' + d as char
  }

  /** Decimal notation. */
  function Decimal(n: nat): (s: string)
    ensures s != []
  {
    if n < 10 then [Digit(n)] else Decimal(n / 10) + [Digit(n % 10)]
  }

  function Value(s: string): int {
    if s == [] then 0 else 10 * Value(s[..|s| - 1]) + (s[|s| - 1] as int - '0' as int)
  }

  lemma {:induction false} ValueOfDecimal(n: nat)
    ensures Value(Decimal(n)) == n
  {
    var s := Decimal(n);
    if n < 10 {
      assert s[..0] == [];
    } else {
      ValueOfDecimal(n / 10);
      assert s[..|s| - 1] == Decimal(n / 10);
    }
  }

  /** The `k`-th name tried when `server`'s copy of `published` has to be renamed. */
  function Candidate(server: Name, published: Name, k: nat): Name
    requires k >= 1
  {
    if k == 1 then Dotted(server, published) else Name(Dotted(server, published).text + "." + Decimal(k))
  }

  lemma CandidatesDistinct(server: Name, published: Name, i: nat, j: nat)
    requires 1 <= i < j
    ensures Candidate(server, published, i) != Candidate(server, published, j)
  {
    var base := Dotted(server, published).text;
    var b := Candidate(server, published, j).text;
    assert b == base + "." + Decimal(j);
    if i == 1 {
      assert |b| > |base|;
    } else {
      var a := Candidate(server, published, i).text;
      assert a == base + "." + Decimal(i);
      assert a[|base| + 1..] == Decimal(i) && b[|base| + 1..] == Decimal(j);
      ValueOfDecimal(i);
      ValueOfDecimal(j);
    }
  }

  ghost function Tried(server: Name, published: Name, k: nat): set<Name>
    requires k >= 1
  {
    set j | 1 <= j < k :: Candidate(server, published, j)
  }

  lemma TriedGrows(server: Name, published: Name, k: nat)
    requires k >= 1
    ensures Tried(server, published, k + 1) == Tried(server, published, k) + {Candidate(server, published, k)}
    ensures Candidate(server, published, k) !in Tried(server, published, k)
  {
    forall j | 1 <= j < k ensures Candidate(server, published, j) != Candidate(server, published, k) {
      CandidatesDistinct(server, published, j, k);
    }
  }

  /** The first candidate from the `k`-th on that is not used yet. Each used candidate is met at most once. */
  function Rename(server: Name, published: Name, used: set<Name>, k: nat): (n: Name)
    requires k >= 1
    ensures n !in used
    decreases |used - Tried(server, published, k)|
  {
    var candidate := Candidate(server, published, k);
    if candidate !in used then candidate
    else
      assert used - Tried(server, published, k + 1) < used - Tried(server, published, k) by {
        TriedGrows(server, published, k);
        assert candidate in used - Tried(server, published, k);
      }
      SmallerSet(used - Tried(server, published, k + 1), used - Tried(server, published, k));
      Rename(server, published, used, k + 1)
  }

  lemma SmallerSet<T>(a: set<T>, b: set<T>)
    requires a < b
    ensures |a| < |b|
  {
    assert b == a + (b - a);
    assert b - a != {};
  }

  /** The rename loop ends within one try more than there are used names. */
  lemma {:induction false} RenameTries(server: Name, published: Name, used: set<Name>, k: nat) returns (tries: nat)
    requires k >= 1 && Tried(server, published, k) <= used
    ensures k <= tries <= |used| + 1
    ensures Rename(server, published, used, k) == Candidate(server, published, tries)
    ensures Tried(server, published, tries) <= used
    decreases |used - Tried(server, published, k)|
  {
    TriedSize(server, published, k);
    assert used == Tried(server, published, k) + (used - Tried(server, published, k));
    tries := k;
    if Candidate(server, published, k) in used {
      TriedGrows(server, published, k);
      assert Candidate(server, published, k) in used - Tried(server, published, k);
      SmallerSet(used - Tried(server, published, k + 1), used - Tried(server, published, k));
      tries := RenameTries(server, published, used, k + 1);
    }
  }

  lemma {:induction false} TriedSize(server: Name, published: Name, k: nat)
    requires k >= 1
    ensures |Tried(server, published, k)| == k - 1
  {
    if k > 1 {
      TriedGrows(server, published, k - 1);
      TriedSize(server, published, k - 1);
    } else {
      assert Tried(server, published, 1) == {};
    }
  }
}
