/** Which remembered display and which live display are the same monitor. */
module Matching {
  import opened Prelude
  import opened Records

  function Count(list: seq<Display>, monitor: Option<string>): nat {
    if list == [] then 0 else Count(list[1..], monitor) + if list[0].monitor == monitor then 1 else 0
  }

  // A monitor identity tells a display apart only when no other one in its list has it too.
  function Usable(display: Display, list: seq<Display>): Option<string> {
    if display.monitor.Some? && Count(list, display.monitor) == 1 then display.monitor else None
  }

  function FirstWhere(list: seq<Display>, wanted: Display -> bool): (found: Option<Display>)
    ensures found.Some? ==> found.value in list && wanted(found.value)
    ensures found.None? ==> forall d | d in list :: !wanted(d)
  {
    if list == [] then None else if wanted(list[0]) then Some(list[0]) else FirstWhere(list[1..], wanted)
  }

  function ByIdentity(display: Display, remembered: seq<Display>, live: seq<Display>): Option<Display> {
    var key := Usable(display, remembered);
    if key.None? then None else FirstWhere(live, (c: Display) => Usable(c, live) == key)
  }

  // Two known identities must agree; an unknown one agrees with any.
  predicate Compatible(display: Display, candidate: Display) {
    display.monitor.None? || candidate.monitor.None? || display.monitor == candidate.monitor
  }

  predicate Taken(pairs: seq<(Display, Display)>, id: string) {
    exists k | 0 <= k < |pairs| :: pairs[k].1.id == id
  }

  function ById(display: Display, live: seq<Display>, pairs: seq<(Display, Display)>): Option<Display> {
    FirstWhere(live, (c: Display) => c.id == display.id && !Taken(pairs, c.id) && Compatible(display, c))
  }

  function Joined(pairs: seq<(Display, Display)>, display: Display, found: Option<Display>): seq<(Display, Display)> {
    if found.Some? then pairs + [(display, found.value)] else pairs
  }

  // The pairs after the first pass looked at `n` remembered displays, and then after the second did.
  function FirstPass(remembered: seq<Display>, live: seq<Display>, n: nat): seq<(Display, Display)>
    requires n <= |remembered|
  {
    if n == 0 then []
    else Joined(FirstPass(remembered, live, n - 1), remembered[n - 1], ByIdentity(remembered[n - 1], remembered, live))
  }

  function SecondPass(remembered: seq<Display>, live: seq<Display>, n: nat): seq<(Display, Display)>
    requires n <= |remembered|
  {
    if n == 0 then FirstPass(remembered, live, |remembered|)
    else
      var pairs := SecondPass(remembered, live, n - 1);
      if ByIdentity(remembered[n - 1], remembered, live).Some? then pairs
      else Joined(pairs, remembered[n - 1], ById(remembered[n - 1], live, pairs))
  }

  function Pairs(remembered: seq<Display>, live: seq<Display>): seq<(Display, Display)> {
    SecondPass(remembered, live, |remembered|)
  }

  method PairDisplays(remembered: seq<Display>, live: seq<Display>) returns (pairs: seq<(Display, Display)>)
    ensures pairs == Pairs(remembered, live)
  {
    pairs := [];
    var paired := new bool[|remembered|];
    var i := 0;
    while i < |remembered|
      invariant 0 <= i <= |remembered|
      invariant pairs == FirstPass(remembered, live, i)
      invariant forall k | 0 <= k < i :: paired[k] == ByIdentity(remembered[k], remembered, live).Some?
    {
      var candidate := ByIdentity(remembered[i], remembered, live);
      if candidate.Some? { pairs := pairs + [(remembered[i], candidate.value)]; }
      paired[i] := candidate.Some?;
      i := i + 1;
    }
    i := 0;
    while i < |remembered|
      invariant 0 <= i <= |remembered|
      invariant pairs == SecondPass(remembered, live, i)
    {
      if !paired[i] {
        var candidate := ById(remembered[i], live, pairs);
        if candidate.Some? { pairs := pairs + [(remembered[i], candidate.value)]; }
      }
      i := i + 1;
    }
  }

  // ----- the pairing said without an order

  predicate SameMonitor(display: Display, candidate: Display, remembered: seq<Display>, live: seq<Display>) {
    Usable(display, remembered).Some? && Usable(candidate, live) == Usable(display, remembered)
  }

  // A shared telling identity pairs two displays; failing that, an id no such identity has claimed.
  predicate Matched(display: Display, candidate: Display, remembered: seq<Display>, live: seq<Display>) {
    || SameMonitor(display, candidate, remembered, live)
    || (&& candidate.id == display.id && Compatible(display, candidate)
        && (forall c | c in live :: !SameMonitor(display, c, remembered, live))
        && (forall d | d in remembered :: !SameMonitor(d, candidate, remembered, live)))
  }

  lemma {:induction false} CountsEach(list: seq<Display>, i: nat)
    requires i < |list|
    ensures Count(list, list[i].monitor) >= 1
  {
    if i > 0 { CountsEach(list[1..], i - 1); }
  }

  lemma {:induction false} CountedOnce(list: seq<Display>, i: nat, j: nat)
    requires i < |list| && j < |list| && list[i].monitor == list[j].monitor && Count(list, list[i].monitor) == 1
    ensures i == j
  {
    if i > 0 && j > 0 {
      CountsEach(list[1..], i - 1);
      CountedOnce(list[1..], i - 1, j - 1);
    } else if i > 0 {
      CountsEach(list[1..], i - 1);
    } else if j > 0 {
      CountsEach(list[1..], j - 1);
    }
  }

  lemma UsableIsOne(list: seq<Display>, a: Display, b: Display)
    requires a in list && b in list && Usable(a, list).Some? && Usable(a, list) == Usable(b, list)
    ensures a == b
  {
    var i :| 0 <= i < |list| && list[i] == a;
    var j :| 0 <= j < |list| && list[j] == b;
    CountedOnce(list, i, j);
  }

  lemma IdentityFound(display: Display, candidate: Display, remembered: seq<Display>, live: seq<Display>)
    requires candidate in live
    ensures ByIdentity(display, remembered, live) == Some(candidate) <==> SameMonitor(display, candidate, remembered, live)
  {
    var found := ByIdentity(display, remembered, live);
    if SameMonitor(display, candidate, remembered, live) && found.Some? { UsableIsOne(live, found.value, candidate); }
  }

  lemma {:induction false} FirstPassExactly(remembered: seq<Display>, live: seq<Display>, n: nat, d: Display, c: Display)
    requires n <= |remembered| && c in live
    ensures (d, c) in FirstPass(remembered, live, n) <==> d in remembered[..n] && SameMonitor(d, c, remembered, live)
  {
    if n > 0 {
      FirstPassExactly(remembered, live, n - 1, d, c);
      IdentityFound(remembered[n - 1], c, remembered, live);
      assert remembered[..n] == remembered[..n - 1] + [remembered[n - 1]];
    }
  }

  lemma {:induction false} FirstPassFromBoth(remembered: seq<Display>, live: seq<Display>, n: nat, k: nat)
    requires n <= |remembered| && k < |FirstPass(remembered, live, n)|
    ensures FirstPass(remembered, live, n)[k].0 in remembered && FirstPass(remembered, live, n)[k].1 in live
  {
    if n > 0 && k < |FirstPass(remembered, live, n - 1)| { FirstPassFromBoth(remembered, live, n - 1, k); }
  }

  // What the second pass has added by `n`: displays no identity decided, paired with their own id.
  ghost predicate Added(remembered: seq<Display>, live: seq<Display>, n: nat, d: Display, c: Display)
    requires n <= |remembered|
  {
    && d in remembered[..n] && ByIdentity(d, remembered, live).None?
    && c.id == d.id && Compatible(d, c) && (forall e | e in remembered :: !SameMonitor(e, c, remembered, live))
  }

  lemma {:induction false} SecondPassExactly(remembered: seq<Display>, live: seq<Display>, n: nat, d: Display, c: Display)
    requires DistinctIds(remembered) && DistinctIds(live) && n <= |remembered| && c in live
    ensures (d, c) in SecondPass(remembered, live, n) <==>
            (d in remembered && SameMonitor(d, c, remembered, live)) || Added(remembered, live, n, d, c)
    decreases n
  {
    hide SameMonitor;
    hide Compatible;
    hide ById;
    if n == 0 {
      FirstPassExactly(remembered, live, |remembered|, d, c);
      assert remembered[..|remembered|] == remembered;
    } else {
      SecondPassExactly(remembered, live, n - 1, d, c);
      assert remembered[..n] == remembered[..n - 1] + [remembered[n - 1]];
      if d == remembered[n - 1] && ByIdentity(d, remembered, live).None? { StepFinds(remembered, live, n, c); }
    }
  }

  // The id a display looks for is free exactly when no identity has claimed it.
  lemma {:induction false} StepFinds(remembered: seq<Display>, live: seq<Display>, n: nat, c: Display)
    requires DistinctIds(remembered) && DistinctIds(live) && 0 < n <= |remembered| && c in live
    requires ByIdentity(remembered[n - 1], remembered, live).None?
    ensures ById(remembered[n - 1], live, SecondPass(remembered, live, n - 1)) == Some(c)
       <==> Added(remembered, live, n, remembered[n - 1], c)
    decreases n, 2
  {
    var d, pairs := remembered[n - 1], SecondPass(remembered, live, n - 1);
    assert d in remembered[..n];
    if c.id == d.id { TakenMeansClaimed(remembered, live, n, c); }
    forall e | e in live && e.id == d.id && c.id == d.id ensures e == c { SameIdSame(live, e, c); }
  }

  lemma SameIdSame(list: seq<Display>, a: Display, b: Display)
    requires DistinctIds(list) && a in list && b in list && a.id == b.id
    ensures a == b
  {
  }

  lemma {:induction false} TakenMeansClaimed(remembered: seq<Display>, live: seq<Display>, n: nat, c: Display)
    requires DistinctIds(remembered) && DistinctIds(live) && 0 < n <= |remembered| && c in live
    requires c.id == remembered[n - 1].id
    ensures Taken(SecondPass(remembered, live, n - 1), c.id) <==> exists e | e in remembered :: SameMonitor(e, c, remembered, live)
    decreases n, 1
  {
    hide SameMonitor;
    hide SecondPass;
    var pairs := SecondPass(remembered, live, n - 1);
    if Taken(pairs, c.id) {
      var k :| 0 <= k < |pairs| && pairs[k].1.id == c.id;
      TakenByIdentity(remembered, live, n, k, c);
    }
    forall e | e in remembered && SameMonitor(e, c, remembered, live) ensures Taken(pairs, c.id) {
      SecondPassExactly(remembered, live, n - 1, e, c);
      var k :| 0 <= k < |pairs| && pairs[k] == (e, c);
      assert pairs[k].1.id == c.id;
    }
  }

  lemma {:induction false} TakenByIdentity(remembered: seq<Display>, live: seq<Display>, n: nat, k: nat, c: Display)
    requires DistinctIds(remembered) && DistinctIds(live) && 0 < n <= |remembered| && c in live
    requires k < |SecondPass(remembered, live, n - 1)| && SecondPass(remembered, live, n - 1)[k].1.id == c.id
    requires c.id == remembered[n - 1].id
    ensures exists e | e in remembered :: SameMonitor(e, c, remembered, live)
    decreases n, 0
  {
    hide SameMonitor;
    hide SecondPass;
    hide ByIdentity;
    var pair := SecondPass(remembered, live, n - 1)[k];
    SecondPassFromBoth(remembered, live, n - 1, k);
    SameIdSame(live, pair.1, c);
    SecondPassExactly(remembered, live, n - 1, pair.0, c);
    assert pair == (pair.0, c);
    assert pair.0 in remembered[..n - 1] ==> pair.0.id != remembered[n - 1].id;
  }

  lemma {:induction false} SecondPassFromBoth(remembered: seq<Display>, live: seq<Display>, n: nat, k: nat)
    requires n <= |remembered| && k < |SecondPass(remembered, live, n)|
    ensures SecondPass(remembered, live, n)[k].0 in remembered && SecondPass(remembered, live, n)[k].1 in live
  {
    if n == 0 {
      FirstPassFromBoth(remembered, live, |remembered|, k);
    } else if k < |SecondPass(remembered, live, n - 1)| {
      SecondPassFromBoth(remembered, live, n - 1, k);
    }
  }

  // Who pairs with whom does not depend on the order of either list.
  lemma PairsExactly(remembered: seq<Display>, live: seq<Display>, d: Display, c: Display)
    requires DistinctIds(remembered) && DistinctIds(live)
    ensures (d, c) in Pairs(remembered, live) <==> d in remembered && c in live && Matched(d, c, remembered, live)
  {
    if c in live {
      SecondPassExactly(remembered, live, |remembered|, d, c);
      assert remembered[..|remembered|] == remembered;
      forall e | e in live ensures ByIdentity(d, remembered, live) == Some(e) <==> SameMonitor(d, e, remembered, live) {
        IdentityFound(d, e, remembered, live);
      }
    } else if (d, c) in Pairs(remembered, live) {
      var k :| 0 <= k < |Pairs(remembered, live)| && Pairs(remembered, live)[k] == (d, c);
      SecondPassFromBoth(remembered, live, |remembered|, k);
    }
  }

  lemma PairingIsOneToOne(remembered: seq<Display>, live: seq<Display>, p: (Display, Display), q: (Display, Display))
    requires DistinctIds(remembered) && DistinctIds(live)
    requires p in Pairs(remembered, live) && q in Pairs(remembered, live)
    ensures p.0 == q.0 <==> p.1 == q.1
  {
    PairsExactly(remembered, live, p.0, p.1);
    PairsExactly(remembered, live, q.0, q.1);
    if p.0 == q.0 && SameMonitor(p.0, p.1, remembered, live) { UsableIsOne(live, p.1, q.1); }
    if p.1 == q.1 && SameMonitor(p.0, p.1, remembered, live) { UsableIsOne(remembered, p.0, q.0); }
  }

  // ----- the pairing the other way round

  lemma MatchedSwaps(d: Display, c: Display, remembered: seq<Display>, live: seq<Display>)
    ensures Matched(d, c, remembered, live) <==> Matched(c, d, live, remembered)
  {
    hide Usable;
    assert forall x, y :: SameMonitor(x, y, remembered, live) <==> SameMonitor(y, x, live, remembered);
  }

  lemma PairsSwap(remembered: seq<Display>, live: seq<Display>, d: Display, c: Display)
    requires DistinctIds(remembered) && DistinctIds(live)
    ensures (d, c) in Pairs(remembered, live) <==> (c, d) in Pairs(live, remembered)
  {
    hide Matched;
    hide Pairs;
    PairsExactly(remembered, live, d, c);
    PairsExactly(live, remembered, c, d);
    MatchedSwaps(d, c, remembered, live);
  }

  // A list of pairs in which no first display is named twice.
  ghost predicate FirstsDiffer(pairs: seq<(Display, Display)>) {
    forall k, l | 0 <= k < l < |pairs| :: pairs[k].0 != pairs[l].0
  }

  lemma OneMore(pairs: seq<(Display, Display)>, d: Display, found: Option<Display>)
    requires FirstsDiffer(pairs) && forall p | p in pairs :: p.0 != d
    ensures FirstsDiffer(Joined(pairs, d, found))
    ensures forall p | p in Joined(pairs, d, found) :: p in pairs || (p.0 == d && found.Some?)
  {
    if found.Some? { forall k | 0 <= k < |pairs| ensures pairs[k].0 != d { assert pairs[k] in pairs; } }
  }

  lemma NotYet(remembered: seq<Display>, n: nat)
    requires 0 < n <= |remembered| && DistinctIds(remembered)
    ensures remembered[n - 1] !in remembered[..n - 1]
    ensures forall d :: d in remembered[..n] <==> d in remembered[..n - 1] || d == remembered[n - 1]
  {
    assert remembered[..n] == remembered[..n - 1] + [remembered[n - 1]];
  }

  lemma {:induction false} FirstPassFirsts(remembered: seq<Display>, live: seq<Display>, n: nat)
    requires n <= |remembered| && DistinctIds(remembered)
    ensures FirstsDiffer(FirstPass(remembered, live, n))
    ensures forall p | p in FirstPass(remembered, live, n) :: p.0 in remembered[..n] && ByIdentity(p.0, remembered, live).Some?
  {
    hide ByIdentity;
    hide FirstsDiffer;
    hide Joined;
    if n == 0 {
      assert FirstsDiffer([]) by { NoneDiffer(); }
    } else {
      FirstPassFirsts(remembered, live, n - 1);
      NotYet(remembered, n);
      OneMore(FirstPass(remembered, live, n - 1), remembered[n - 1], ByIdentity(remembered[n - 1], remembered, live));
    }
  }

  lemma NoneDiffer()
    ensures FirstsDiffer([])
  {
  }

  lemma {:induction false} SecondPassFirsts(remembered: seq<Display>, live: seq<Display>, n: nat)
    requires n <= |remembered| && DistinctIds(remembered)
    ensures FirstsDiffer(SecondPass(remembered, live, n))
    ensures forall p | p in SecondPass(remembered, live, n) :: p.0 in remembered[..n] || ByIdentity(p.0, remembered, live).Some?
  {
    hide ByIdentity;
    hide ById;
    hide FirstsDiffer;
    hide Joined;
    if n == 0 {
      FirstPassFirsts(remembered, live, |remembered|);
    } else {
      SecondPassFirsts(remembered, live, n - 1);
      NotYet(remembered, n);
      var d, pairs := remembered[n - 1], SecondPass(remembered, live, n - 1);
      if ByIdentity(d, remembered, live).None? { OneMore(pairs, d, ById(d, live, pairs)); }
    }
  }

  function Swapped(pairs: set<(Display, Display)>): set<(Display, Display)> {
    set p | p in pairs :: (p.1, p.0)
  }

  lemma {:induction false} SwappedCount(pairs: set<(Display, Display)>)
    ensures |Swapped(pairs)| == |pairs|
  {
    if pairs == {} {
      assert Swapped(pairs) == {};
    } else {
      var p :| p in pairs;
      SwappedCount(pairs - {p});
      assert (p.1, p.0) !in Swapped(pairs - {p});
      assert Swapped(pairs) == Swapped(pairs - {p}) + {(p.1, p.0)};
    }
  }

  function Listing(pairs: seq<(Display, Display)>): set<(Display, Display)> {
    set p | p in pairs
  }

  lemma {:induction false} ListingCount(pairs: seq<(Display, Display)>)
    requires FirstsDiffer(pairs)
    ensures |Listing(pairs)| == |pairs|
  {
    if pairs == [] {
      assert Listing(pairs) == {};
    } else {
      var last := |pairs| - 1;
      ListingCount(pairs[..last]);
      assert pairs == pairs[..last] + [pairs[last]];
      assert pairs[last] !in Listing(pairs[..last]);
      assert Listing(pairs) == Listing(pairs[..last]) + {pairs[last]};
    }
  }

  // Either list may be the remembered one: as many displays pair off.
  lemma AsManyPairs(remembered: seq<Display>, live: seq<Display>)
    requires DistinctIds(remembered) && DistinctIds(live)
    ensures |Pairs(remembered, live)| == |Pairs(live, remembered)|
  {
    hide SecondPass;
    hide FirstsDiffer;
    hide Swapped;
    var there, back := Pairs(remembered, live), Pairs(live, remembered);
    SecondPassFirsts(remembered, live, |remembered|);
    SecondPassFirsts(live, remembered, |live|);
    ListingCount(there);
    ListingCount(back);
    SwappedCount(Listing(there));
    forall p: (Display, Display) ensures p in Swapped(Listing(there)) <==> p in Listing(back) {
      PairsSwap(remembered, live, p.1, p.0);
      SwapsIn(there, p);
    }
    assert Swapped(Listing(there)) == Listing(back);
  }

  lemma SwapsIn(pairs: seq<(Display, Display)>, p: (Display, Display))
    ensures p in Swapped(Listing(pairs)) <==> (p.1, p.0) in pairs
  {
    if (p.1, p.0) in pairs { assert (p.1, p.0) in Listing(pairs); }
  }
}
