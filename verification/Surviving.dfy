/** Which crossings a rebuild keeps, and that they still pair off without overlapping. */
module Surviving {
  import opened Prelude
  import opened Records
  import opened Matching
  import opened Adapting

  // ----- what became of a display

  // Display `d` of a member is display `e` now: itself where nothing changed, else its paired monitor.
  ghost predicate Now(member: Member, change: Option<Shown>, d: Display, e: Display) {
    d in member.displays && if change.None? then e == d else (d, e) in Pairs(member.displays, change.value.displays)
  }

  // A record whose display ids are sound, with sound snapshots of what changed.
  ghost predicate Sound(members: seq<Member>, changes: seq<Option<Shown>>) {
    && |members| == |changes| && DistinctAcross(members)
    && (forall i | 0 <= i < |members| :: Snapshot(members[i].displays))
    && (forall i | 0 <= i < |changes| && changes[i].Some? :: Snapshot(changes[i].value.displays))
  }

  lemma ValidIsSound(members: seq<Member>, known: Known)
    requires ValidMembers(members) && Snapshots(known)
    ensures Sound(members, Changes(members, known))
  {
  }

  ghost predicate At(members: seq<Member>, changes: seq<Option<Shown>>, i: int, d: Display, e: Display)
    requires |members| == |changes|
  {
    0 <= i < |members| && Now(members[i], changes[i], d, e)
  }

  lemma SameDisplay(members: seq<Member>, i: int, d: Display, k: int, c: Display)
    requires DistinctAcross(members) && 0 <= i < |members| && 0 <= k < |members|
    requires d in members[i].displays && c in members[k].displays && d.id == c.id
    ensures i == k && d == c
  {
    var j :| 0 <= j < |members[i].displays| && members[i].displays[j] == d;
    var l :| 0 <= l < |members[k].displays| && members[k].displays[l] == c;
    assert DisplayAt(members, i, j).id == DisplayAt(members, k, l).id;
  }

  // ----- the id map

  ghost predicate PairAt(members: seq<Member>, changes: seq<Option<Shown>>, i: int, p: (Display, Display))
    requires |members| == |changes|
  {
    0 <= i < |members| && p in PairsOf(members[i], changes[i])
  }

  lemma {:induction false} AllPairsExactly(members: seq<Member>, changes: seq<Option<Shown>>, p: (Display, Display))
    requires |members| == |changes|
    ensures p in AllPairs(members, changes) <==> exists i :: PairAt(members, changes, i, p)
    decreases |members|
  {
    hide PairsOf;
    if members != [] {
      var last := |members| - 1;
      AllPairsExactly(members[..last], changes[..last], p);
      assert forall i | 0 <= i < last :: PairAt(members[..last], changes[..last], i, p) == PairAt(members, changes, i, p);
      assert p in PairsOf(members[last], changes[last]) <==> PairAt(members, changes, last, p);
    }
  }

  // A pair belongs to one changed member, and joins one of its displays with one it shows now.
  lemma PairOf(members: seq<Member>, changes: seq<Option<Shown>>, p: (Display, Display)) returns (i: int)
    requires Sound(members, changes) && p in AllPairs(members, changes)
    ensures At(members, changes, i, p.0, p.1) && changes[i].Some? && p.1 in changes[i].value.displays
  {
    AllPairsExactly(members, changes, p);
    i :| PairAt(members, changes, i, p);
    PairsExactly(members[i].displays, changes[i].value.displays, p.0, p.1);
  }

  lemma PairedIsListed(members: seq<Member>, changes: seq<Option<Shown>>, i: int, d: Display, e: Display)
    requires Sound(members, changes) && At(members, changes, i, d, e) && changes[i].Some?
    ensures (d, e) in AllPairs(members, changes) && e in changes[i].value.displays
  {
    AllPairsExactly(members, changes, (d, e));
    assert PairAt(members, changes, i, (d, e));
    PairsExactly(members[i].displays, changes[i].value.displays, d, e);
  }

  lemma {:induction false} IdMapExactly(pairs: seq<(Display, Display)>, id: string)
    requires forall p, q | p in pairs && q in pairs && p.0.id == q.0.id :: p == q
    ensures id in IdMap(pairs) <==> exists p :: p in pairs && p.0.id == id
    ensures forall p | p in pairs && p.0.id == id :: id in IdMap(pairs) && IdMap(pairs)[id] == p.1.id
  {
    if pairs != [] {
      var last := |pairs| - 1;
      assert pairs == pairs[..last] + [pairs[last]];
      assert pairs[last] in pairs;
      assert forall p | p in pairs[..last] :: p in pairs;
      IdMapExactly(pairs[..last], id);
    }
  }

  // A member's display pairs with one live display, and ids tell members' displays apart.
  lemma PairsAgree(members: seq<Member>, changes: seq<Option<Shown>>, p: (Display, Display), q: (Display, Display))
    requires Sound(members, changes) && p in AllPairs(members, changes) && q in AllPairs(members, changes) && p.0.id == q.0.id
    ensures p == q
  {
    hide AllPairs;
    hide Pairs;
    var i := PairOf(members, changes, p);
    var k := PairOf(members, changes, q);
    SameDisplay(members, i, p.0, k, q.0);
    PairingIsOneToOne(members[i].displays, changes[i].value.displays, p, q);
  }

  lemma RenameKnown(members: seq<Member>, changes: seq<Option<Shown>>, id: string)
    requires Sound(members, changes)
    ensures var ids := IdMap(AllPairs(members, changes));
            && (id in ids <==> exists p :: p in AllPairs(members, changes) && p.0.id == id)
            && (forall p | p in AllPairs(members, changes) && p.0.id == id :: id in ids && ids[id] == p.1.id)
  {
    var pairs := AllPairs(members, changes);
    forall p, q | p in pairs && q in pairs && p.0.id == q.0.id ensures p == q { PairsAgree(members, changes, p, q); }
    IdMapExactly(pairs, id);
  }

  // Any text that is no living display's id stands as it is written.
  lemma RenameOther(members: seq<Member>, changes: seq<Option<Shown>>, id: string)
    requires Sound(members, changes)
    requires forall i, d, e | At(members, changes, i, d, e) && changes[i].Some? :: d.id != id
    ensures Rename(IdMap(AllPairs(members, changes)), id) == id
  {
    hide AllPairs;
    RenameKnown(members, changes, id);
    forall p | p in AllPairs(members, changes) ensures p.0.id != id {
      var i := PairOf(members, changes, p);
    }
  }

  // A display that lives is renamed to what it is now, and is kept.
  lemma RenameLiving(members: seq<Member>, changes: seq<Option<Shown>>, i: int, d: Display, e: Display)
    requires Sound(members, changes) && At(members, changes, i, d, e)
    ensures Rename(IdMap(AllPairs(members, changes)), d.id) == e.id
    ensures e.id in Kept(members, changes)
    ensures e in NewMembers(members, changes)[i].displays
  {
    hide AllPairs;
    hide Pairs;
    if changes[i].Some? {
      PairedIsListed(members, changes, i, d, e);
      RenameKnown(members, changes, d.id);
      var pairs := AllPairs(members, changes);
      var k :| 0 <= k < |pairs| && pairs[k] == (d, e);
      assert pairs[k].1.id == e.id;
    } else {
      var j :| 0 <= j < |members[i].displays| && members[i].displays[j] == d;
      assert members[i].displays[j].id == e.id;
      forall k, c, f | At(members, changes, k, c, f) && changes[k].Some? ensures c.id != d.id {
        if c.id == d.id { SameDisplay(members, i, d, k, c); }
      }
      RenameOther(members, changes, d.id);
    }
  }

  lemma KeptIsLiving(members: seq<Member>, changes: seq<Option<Shown>>, id: string) returns (i: int, d: Display, e: Display)
    requires Sound(members, changes) && id in Kept(members, changes)
    ensures At(members, changes, i, d, e) && e.id == id
  {
    hide AllPairs;
    hide Pairs;
    hide Sound;
    SoundLengths(members, changes);
    var pairs := AllPairs(members, changes);
    if k :| 0 <= k < |pairs| && pairs[k].1.id == id {
      hide Kept;
      i := PairOf(members, changes, pairs[k]);
      d, e := pairs[k].0, pairs[k].1;
    } else {
      var m, j :| 0 <= m < |members| && changes[m].None? && 0 <= j < |members[m].displays| && members[m].displays[j].id == id;
      hide Kept;
      i, d, e := m, members[m].displays[j], members[m].displays[j];
    }
  }

  lemma SoundLengths(members: seq<Member>, changes: seq<Option<Shown>>)
    requires Sound(members, changes)
    ensures |members| == |changes|
  {
  }
}
