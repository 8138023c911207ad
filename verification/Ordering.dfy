/** Signatories compare by voting power, then by key bytes; sorting by that order. */
module Ordering {
  import opened Common
  import opened BitcoinTypes

  /** Lexicographic order on bytes. */
  predicate Lex(a: Bytes, b: Bytes) {
    if a == [] then true
    else if b == [] then false
    else a[0] < b[0] || (a[0] == b[0] && Lex(a[1..], b[1..]))
  }

  predicate Le(a: Signatory, b: Signatory) {
    a.power < b.power || (a.power == b.power && Lex(a.key, b.key))
  }

  lemma {:induction false} LexTotal(a: Bytes, b: Bytes)
    ensures Lex(a, b) || Lex(b, a)
    ensures Lex(a, b) && Lex(b, a) ==> a == b
  {
    if a != [] && b != [] && a[0] == b[0] {
      LexTotal(a[1..], b[1..]);
      assert a == [a[0]] + a[1..] && b == [b[0]] + b[1..];
    }
  }

  lemma {:induction false} LexTransitive(a: Bytes, b: Bytes, c: Bytes)
    requires Lex(a, b) && Lex(b, c)
    ensures Lex(a, c)
  {
    if a != [] && a[0] == b[0] == c[0] {
      LexTransitive(a[1..], b[1..], c[1..]);
    }
  }

  lemma LeTotal(a: Signatory, b: Signatory)
    ensures Le(a, b) || Le(b, a)
    ensures Le(a, b) && Le(b, a) ==> a == b
  {
    LexTotal(a.key, b.key);
  }

  lemma LeTransitive(a: Signatory, b: Signatory, c: Signatory)
    requires Le(a, b) && Le(b, c)
    ensures Le(a, c)
  {
    if a.power == b.power == c.power {
      LexTransitive(a.key, b.key, c.key);
    }
  }

  ghost predicate Ascending<T>(s: seq<T>, rank: T -> Signatory) {
    forall i, j :: 0 <= i < j < |s| ==> Le(rank(s[i]), rank(s[j]))
  }

  function Insert<T>(x: T, s: seq<T>, rank: T -> Signatory): seq<T> {
    if s == [] then [x]
    else if Le(rank(x), rank(s[0])) then [x] + s
    else [s[0]] + Insert(x, s[1..], rank)
  }

  /** A stable sort in ascending order. */
  function Sort<T>(s: seq<T>, rank: T -> Signatory): seq<T> {
    if s == [] then [] else Insert(s[0], Sort(s[1..], rank), rank)
  }

  lemma {:induction false} InsertCorrect<T>(x: T, s: seq<T>, rank: T -> Signatory)
    requires Ascending(s, rank)
    ensures multiset(Insert(x, s, rank)) == multiset{x} + multiset(s)
    ensures Ascending(Insert(x, s, rank), rank)
  {
    if s == [] {
    } else if Le(rank(x), rank(s[0])) {
      forall j | 1 <= j < |s| ensures Le(rank(x), rank(s[j])) {
        LeTransitive(rank(x), rank(s[0]), rank(s[j]));
      }
    } else {
      InsertCorrect(x, s[1..], rank);
      LeTotal(rank(x), rank(s[0]));
      assert s == [s[0]] + s[1..];
      var t := Insert(x, s[1..], rank);
      forall j | 0 <= j < |t| ensures Le(rank(s[0]), rank(t[j])) {
        assert t[j] in multiset(t);
      }
    }
  }

  lemma {:induction false} SortCorrect<T>(s: seq<T>, rank: T -> Signatory)
    ensures multiset(Sort(s, rank)) == multiset(s)
    ensures |Sort(s, rank)| == |s|
    ensures Ascending(Sort(s, rank), rank)
  {
    if s != [] {
      SortCorrect(s[1..], rank);
      InsertCorrect(s[0], Sort(s[1..], rank), rank);
      assert s == [s[0]] + s[1..];
    }
    assert |multiset(Sort(s, rank))| == |multiset(s)|;
  }

  lemma HeadLeast<T>(a: seq<T>, x: T, rank: T -> Signatory)
    requires Ascending(a, rank) && x in a
    ensures Le(rank(a[0]), rank(x))
  {
    var i :| 0 <= i < |a| && a[i] == x;
    if i == 0 {
      LeTotal(rank(x), rank(x));
    } else {
      assert Le(rank(a[0]), rank(a[i]));
    }
  }

  lemma HeadsAgree<T>(a: seq<T>, b: seq<T>, rank: T -> Signatory)
    requires Ascending(a, rank) && Ascending(b, rank) && a != [] && b != []
    requires a[0] in b && b[0] in a
    ensures rank(a[0]) == rank(b[0])
  {
    HeadLeast(a, b[0], rank);
    HeadLeast(b, a[0], rank);
    LeTotal(rank(a[0]), rank(b[0]));
  }

  lemma AscendingTail<T>(a: seq<T>, rank: T -> Signatory)
    requires Ascending(a, rank) && a != []
    ensures Ascending(a[1..], rank)
  {
  }

  lemma TailMultiset<T>(a: seq<T>)
    requires a != []
    ensures multiset(a) == multiset{a[0]} + multiset(a[1..])
  {
    assert a == [a[0]] + a[1..];
  }

  lemma SameTail<T>(a: seq<T>, b: seq<T>)
    requires a != [] && b != [] && a[0] == b[0] && a[1..] == b[1..]
    ensures a == b
  {
    assert a == [a[0]] + a[1..] && b == [b[0]] + b[1..];
  }

  lemma MultisetCancel<T>(x: T, p: multiset<T>, q: multiset<T>)
    requires multiset{x} + p == multiset{x} + q
    ensures p == q
  {
    forall y ensures p[y] == q[y] {
      assert (multiset{x} + p)[y] == (multiset{x} + q)[y];
    }
  }

  /** Elements of equal rank are equal. */
  ghost predicate Ranked<T>(a: seq<T>, rank: T -> Signatory) {
    forall x, y :: x in a && y in a && rank(x) == rank(y) ==> x == y
  }

  /** Sorted arrangements of the same elements are the same sequence: which sorting
      algorithm is used does not matter. */
  lemma {:induction false} AscendingUnique<T>(a: seq<T>, b: seq<T>, rank: T -> Signatory)
    requires multiset(a) == multiset(b) && Ranked(a, rank)
    requires Ascending(a, rank) && Ascending(b, rank)
    ensures a == b
  {
    if a == [] || b == [] {
      assert |multiset(a)| == |a| && |multiset(b)| == |b|;
    } else {
      assert a[0] in multiset(b) && b[0] in multiset(a);
      HeadsAgree(a, b, rank);
      TailMultiset(a);
      TailMultiset(b);
      MultisetCancel(a[0], multiset(a[1..]), multiset(b[1..]));
      AscendingTail(a, rank);
      AscendingTail(b, rank);
      AscendingUnique(a[1..], b[1..], rank);
      SameTail(a, b);
    }
  }

  function Id(s: Signatory): Signatory {
    s
  }

  function Reverse<T>(s: seq<T>): (r: seq<T>)
    ensures |r| == |s| && forall i :: 0 <= i < |s| ==> r[i] == s[|s| - 1 - i]
  {
    seq(|s|, i requires 0 <= i < |s| => s[|s| - 1 - i])
  }

  lemma {:induction false} ReverseMultiset<T>(s: seq<T>)
    ensures multiset(Reverse(s)) == multiset(s)
  {
    if s != [] {
      ReverseMultiset(s[1..]);
      assert s == [s[0]] + s[1..];
      assert Reverse(s) == Reverse(s[1..]) + [s[0]];
    }
  }

  lemma {:induction false} SumReversed<T>(s: seq<T>, f: T -> int)
    ensures Sum(Reverse(s), f) == Sum(s, f)
  {
    if s != [] {
      SumReversed(s[1..], f);
      assert s == [s[0]] + s[1..];
      assert Reverse(s) == Reverse(s[1..]) + [s[0]];
      SumSnoc(Reverse(s[1..]), s[0], f);
      SumCons(s[0], s[1..], f);
    }
  }
}
