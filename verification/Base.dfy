/** Shared value types. */
module Base {
  datatype Option<+T> = None | Some(value: T)

  /** Membership in a sequence and multiplicity agree. */
  lemma InMultiset<T>(s: seq<T>, x: T)
    ensures x in s <==> multiset(s)[x] > 0
  {
  }

  /** The parts of a concatenation, found again by position. */
  lemma Parts<T>(whole: seq<T>, before: seq<T>, after: seq<T>)
    requires whole == before + after && after != []
    ensures whole[..|before|] == before && whole[|before|] == after[0] && whole[|before| + 1..] == after[1..]
    ensures whole == before + [after[0]] + after[1..]
    ensures whole == (before + [after[0]]) + after[1..]
  {
  }

  lemma Associative<T>(a: seq<T>, b: seq<T>, c: seq<T>)
    ensures (a + b) + c == a + (b + c)
  {
  }

  /** A slice of one part of a concatenation is the same slice of the whole. */
  lemma SliceOfPart<T>(front: seq<T>, back: seq<T>)
    ensures (front + back)[|front|..|front| + |back|] == back
    ensures forall i, j :: 0 <= i <= j <= |front| ==> (front + back)[i..j] == front[i..j]
  {
  }

  function Min(a: int, b: int): int { if a < b then a else b }

  function Max(a: int, b: int): int { if a < b then b else a }
}
