/** Lexicographic comparison, as Rust compares byte arrays and text, and sorting by a total order. */
module Orders {

  datatype Ordering = Less | Equal | Greater {
    function Reverse(): Ordering {
      match this
      case Less => Greater
      case Equal => Equal
      case Greater => Less
    }

    // The first comparison decides unless it is a tie.
    function ThenWith(next: Ordering): Ordering {
      if Equal? then next else this
    }
  }

  function CompareNat(a: nat, b: nat): Ordering {
    if a < b then Less else if a == b then Equal else Greater
  }

  function CompareSeq(a: seq<nat>, b: seq<nat>): Ordering {
    if a == [] && b == [] then Equal
    else if a == [] then Less
    else if b == [] then Greater
    else CompareNat(a[0], b[0]).ThenWith(CompareSeq(a[1..], b[1..]))
  }

  function Codes(text: string): seq<nat> {
    seq(|text|, i requires 0 <= i < |text| => text[i] as nat)
  }

  function CompareText(a: string, b: string): Ordering {
    CompareSeq(Codes(a), Codes(b))
  }

  // What makes a comparison a total order whose ties are equalities.
  ghost predicate IsTotalOrder<T(!new)>(compare: (T, T) -> Ordering) {
    && (forall a, b :: compare(b, a) == compare(a, b).Reverse())
    && (forall a, b :: compare(a, b).Equal? <==> a == b)
    && (forall a, b, c :: compare(a, b).Less? && compare(b, c).Less? ==> compare(a, c).Less?)
  }

  lemma {:induction false} CompareSeqReverses(a: seq<nat>, b: seq<nat>)
    ensures CompareSeq(b, a) == CompareSeq(a, b).Reverse()
  {
    if a != [] && b != [] { CompareSeqReverses(a[1..], b[1..]); }
  }

  lemma {:induction false} CompareSeqTies(a: seq<nat>, b: seq<nat>)
    ensures CompareSeq(a, b).Equal? <==> a == b
  {
    if a != [] && b != [] {
      CompareSeqTies(a[1..], b[1..]);
      assert a == [a[0]] + a[1..] && b == [b[0]] + b[1..];
    }
  }

  lemma {:induction false} CompareSeqChains(a: seq<nat>, b: seq<nat>, c: seq<nat>)
    requires CompareSeq(a, b).Less? && CompareSeq(b, c).Less?
    ensures CompareSeq(a, c).Less?
  {
    if a != [] && a[0] == b[0] && b[0] == c[0] { CompareSeqChains(a[1..], b[1..], c[1..]); }
  }

  lemma CompareSeqIsTotalOrder()
    ensures IsTotalOrder(CompareSeq)
  {
    forall a, b ensures CompareSeq(b, a) == CompareSeq(a, b).Reverse() { CompareSeqReverses(a, b); }
    forall a, b ensures CompareSeq(a, b).Equal? <==> a == b { CompareSeqTies(a, b); }
    forall a, b, c | CompareSeq(a, b).Less? && CompareSeq(b, c).Less? ensures CompareSeq(a, c).Less? {
      CompareSeqChains(a, b, c);
    }
  }

  lemma CodesInjective(a: string, b: string)
    requires Codes(a) == Codes(b)
    ensures a == b
  {
    forall i | 0 <= i < |a| ensures a[i] == b[i] { assert Codes(a)[i] == Codes(b)[i]; }
  }

  lemma CompareTextIsTotalOrder()
    ensures IsTotalOrder(CompareText)
  {
    CompareSeqIsTotalOrder();
    forall a, b ensures CompareText(a, b).Equal? <==> a == b {
      if Codes(a) == Codes(b) { CodesInjective(a, b); }
    }
  }

  // ----- sorting

  ghost predicate Sorted<T>(s: seq<T>, leq: (T, T) -> bool) {
    forall i, j | 0 <= i < j < |s| :: leq(s[i], s[j])
  }

  // Total, transitive, and antisymmetric on the elements of `s`.
  ghost predicate Orders<T(!new)>(leq: (T, T) -> bool, s: seq<T>) {
    && (forall x, y :: leq(x, y) || leq(y, x))
    && (forall x, y, z :: leq(x, y) && leq(y, z) ==> leq(x, z))
    && (forall x, y | x in s && y in s && leq(x, y) && leq(y, x) :: x == y)
  }

  function Insert<T>(x: T, s: seq<T>, leq: (T, T) -> bool): seq<T> {
    if s == [] then [x]
    else if leq(x, s[0]) then [x] + s
    else [s[0]] + Insert(x, s[1..], leq)
  }

  function Sort<T>(s: seq<T>, leq: (T, T) -> bool): seq<T> {
    if s == [] then [] else Insert(s[0], Sort(s[1..], leq), leq)
  }

  lemma {:induction false} InsertKeeps<T(!new)>(x: T, s: seq<T>, leq: (T, T) -> bool)
    ensures multiset(Insert(x, s, leq)) == multiset(s) + multiset{x}
  {
    if s != [] {
      assert s == [s[0]] + s[1..];
      InsertKeeps(x, s[1..], leq);
    }
  }

  lemma {:induction false} InsertSorts<T(!new)>(x: T, s: seq<T>, leq: (T, T) -> bool)
    requires Sorted(s, leq)
    requires forall y, z :: leq(y, z) || leq(z, y)
    requires forall y, z, w :: leq(y, z) && leq(z, w) ==> leq(y, w)
    ensures Sorted(Insert(x, s, leq), leq)
  {
    if s != [] && !leq(x, s[0]) {
      var t := Insert(x, s[1..], leq);
      InsertSorts(x, s[1..], leq);
      InsertKeeps(x, s[1..], leq);
      forall k | 0 <= k < |t| ensures leq(s[0], t[k]) {
        assert t[k] in multiset(t);
        assert t[k] == x || t[k] in s[1..];
      }
    }
  }

  lemma {:induction false} SortKeeps<T(!new)>(s: seq<T>, leq: (T, T) -> bool)
    ensures multiset(Sort(s, leq)) == multiset(s)
  {
    if s != [] {
      assert s == [s[0]] + s[1..];
      SortKeeps(s[1..], leq);
      InsertKeeps(s[0], Sort(s[1..], leq), leq);
    }
  }

  lemma {:induction false} SortSorts<T(!new)>(s: seq<T>, leq: (T, T) -> bool)
    requires forall y, z :: leq(y, z) || leq(z, y)
    requires forall y, z, w :: leq(y, z) && leq(z, w) ==> leq(y, w)
    ensures Sorted(Sort(s, leq), leq)
  {
    if s != [] {
      SortSorts(s[1..], leq);
      InsertSorts(s[0], Sort(s[1..], leq), leq);
    }
  }

  // Two sorted arrangements of the same elements are one.
  lemma {:induction false} SortedUnique<T(!new)>(a: seq<T>, b: seq<T>, leq: (T, T) -> bool)
    requires Sorted(a, leq) && Sorted(b, leq) && multiset(a) == multiset(b) && Orders(leq, a)
    ensures a == b
  {
    hide Sorted;
    hide Orders;
    if a == [] {
      assert |multiset(b)| == 0;
    } else {
      SameFirst(a, b, leq);
      TailBag(a);
      TailBag(b);
      SortedTail(a, leq);
      SortedTail(b, leq);
      OrdersTail(leq, a);
      SortedUnique(a[1..], b[1..], leq);
      HeadAndTail(a, b);
    }
  }

  lemma HeadAndTail<T>(a: seq<T>, b: seq<T>)
    requires a != [] && b != [] && a[0] == b[0] && a[1..] == b[1..]
    ensures a == b
  {
    assert a == [a[0]] + a[1..] && b == [b[0]] + b[1..];
  }

  lemma SortedTail<T>(a: seq<T>, leq: (T, T) -> bool)
    requires Sorted(a, leq) && a != []
    ensures Sorted(a[1..], leq)
  {
  }

  lemma OrdersTail<T(!new)>(leq: (T, T) -> bool, a: seq<T>)
    requires Orders(leq, a) && a != []
    ensures Orders(leq, a[1..])
  {
    assert forall x | x in a[1..] :: x in a;
  }

  lemma TailBag<T>(a: seq<T>)
    requires a != []
    ensures multiset(a[1..]) == multiset(a) - multiset{a[0]}
  {
    assert a == [a[0]] + a[1..];
  }

  lemma SameFirst<T(!new)>(a: seq<T>, b: seq<T>, leq: (T, T) -> bool)
    requires Sorted(a, leq) && Sorted(b, leq) && multiset(a) == multiset(b) && Orders(leq, a) && a != []
    ensures b != [] && a[0] == b[0]
  {
    assert |a| == |multiset(a)| == |multiset(b)| == |b|;
    assert a[0] in multiset(b) && b[0] in multiset(a);
    var i :| 0 <= i < |b| && b[i] == a[0];
    var j :| 0 <= j < |a| && a[j] == b[0];
    assert leq(b[0], a[0]) && leq(a[0], b[0]);
  }

  // A sort by such an order forgets exactly the order it was given.
  lemma SortForgetsOrder<T(!new)>(a: seq<T>, b: seq<T>, leq: (T, T) -> bool)
    requires Orders(leq, a)
    ensures Sort(a, leq) == Sort(b, leq) <==> multiset(a) == multiset(b)
  {
    SortKeeps(a, leq);
    SortKeeps(b, leq);
    if multiset(a) == multiset(b) {
      SortSorts(a, leq);
      SortSorts(b, leq);
      forall x | x in Sort(a, leq) ensures x in a { assert x in multiset(Sort(a, leq)); }
      SortedUnique(Sort(a, leq), Sort(b, leq), leq);
    }
  }
}
