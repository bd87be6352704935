/** What rebuilding a record for the displays shown now promises. */
module AdaptTheorems {
  import opened Prelude
  import opened Records
  import opened Adapting
  import opened Surviving
  import opened Refitting

  // Only the changed members change, to exactly what they show; who made the record and who may
  // control whom stay as they were; and the result is valid.
  lemma AdaptTouchesOnlyTheChanged(r: Record, known: Known, admits: Record -> bool)
    requires Adapt(r, known, admits).Some?
    ensures var now, changes := Adapt(r, known, admits).value.record, Changes(r.members, known);
            && Valid(now, admits) && now.members == NewMembers(r.members, changes)
            && now.version == r.version && now.revision == r.revision && now.author == r.author
            && now.layout.control == r.layout.control
            && now.layout.links == if Unchanged(changes) then r.layout.links else KeptLinks(r, changes)
  {
    hide Valid;
    hide KeptLinks;
    hide NewArrangement;
    var changes := Changes(r.members, known);
    if Unchanged(changes) { assert NewMembers(r.members, changes) == r.members; }
  }

  lemma FitsItself(displays: seq<Display>)
    ensures SameDisplayGeometry(displays, displays)
  {
    forall i | 0 <= i < |displays| ensures HasTwin(displays[i], displays) {
      assert SameGeometry(displays[i], displays[i]);
    }
  }

  lemma RebuiltFits(members: seq<Member>, known: Known)
    ensures Unchanged(Changes(NewMembers(members, Changes(members, known)), known))
  {
    var changes := Changes(members, known);
    var now := NewMembers(members, changes);
    forall i | 0 <= i < |now| ensures Change(now[i], known).None? {
      if changes[i].Some? { FitsItself(changes[i].value.displays); }
    }
  }

  // The rebuilt record fits the link it was rebuilt for, and rebuilding it again changes nothing.
  lemma AdaptFitsAndIsIdempotent(r: Record, known: Known, admits: Record -> bool, ends: (string, string))
    requires Adapt(r, known, admits).Some? && HasMember(r, ends.0) && HasMember(r, ends.1)
    ensures var now := Adapt(r, known, admits).value.record;
            && FitsLink(now, ends, known, admits)
            && Adapt(now, known, admits) == Some(Adapted(now, false))
  {
    hide Valid;
    hide KeptLinks;
    hide NewArrangement;
    hide Key;
    AdaptTouchesOnlyTheChanged(r, known, admits);
    RebuiltFits(r.members, known);
    var now := Adapt(r, known, admits).value.record;
    forall fingerprint | HasMember(r, fingerprint) ensures HasMember(now, fingerprint) {
      var i :| 0 <= i < |r.members| && Key(r.members[i].fingerprint) == Key(fingerprint);
      assert now.members[i].fingerprint == r.members[i].fingerprint;
    }
  }

  // This link says nothing about a member, or just what the record holds.
  predicate NoNews(member: Member, known: Known) {
    Key(member.fingerprint) in known ==> Fits(member, known[Key(member.fingerprint)])
  }

  predicate SameNews(member: Member, a: Known, b: Known) {
    || (NoNews(member, a) && NoNews(member, b))
    || (Key(member.fingerprint) in a && Key(member.fingerprint) in b && a[Key(member.fingerprint)] == b[Key(member.fingerprint)])
  }

  // What a link knows counts only through the changes in it.
  lemma SameNewsSameRebuild(r: Record, a: Known, b: Known, admits: Record -> bool)
    requires forall i | 0 <= i < |r.members| :: SameNews(r.members[i], a, b)
    ensures Adapt(r, a, admits) == Adapt(r, b, admits)
  {
    hide Fits;
    forall i | 0 <= i < |r.members| ensures Change(r.members[i], a) == Change(r.members[i], b) {
      assert SameNews(r.members[i], a, b);
    }
    assert Changes(r.members, a) == Changes(r.members, b);
  }

  // After a tidy rebuild the crossings are exactly the remapped ones whose two displays are still shown.
  lemma AdaptKeepsTheSurvivors(r: Record, known: Known, admits: Record -> bool)
    requires Check(r) && Snapshots(known) && Adapt(r, known, admits).Some? && Tidy(r, Changes(r.members, known))
    requires !Unchanged(Changes(r.members, known))
    ensures var changes := Changes(r.members, known);
            Adapt(r, known, admits).value.record.layout.links ==
            Remapped(Retained(r.layout.links, (link: LinkRequest) => BothSurvive(r.members, changes, link)),
                     IdMap(AllPairs(r.members, changes)))
  {
    hide Adapt;
    hide KeptLinks;
    hide ValidLinks;
    hide ValidArrangement;
    hide BothSurvive;
    hide AllPairs;
    AdaptTouchesOnlyTheChanged(r, known, admits);
    ValidIsSound(r.members, known);
    KeepsExactlyTheSurvivors(r, Changes(r.members, known));
  }

  lemma {:induction false} RetainedAll<T>(s: seq<T>, keep: T -> bool)
    requires |Retained(s, keep)| == |s|
    ensures Retained(s, keep) == s
  {
    if s != [] {
      RetainedAll(s[..|s| - 1], keep);
      assert s == s[..|s| - 1] + [s[|s| - 1]];
    }
  }

  // A rebuild not marked as leaving anything out has every crossing, under its displays' new ids.
  lemma NothingLeftOut(r: Record, known: Known, admits: Record -> bool)
    requires Adapt(r, known, admits).Some? && !Adapt(r, known, admits).value.leftOut && !Unchanged(Changes(r.members, known))
    ensures var changes := Changes(r.members, known);
            Adapt(r, known, admits).value.record.layout.links == Remapped(r.layout.links, IdMap(AllPairs(r.members, changes)))
  {
    hide Valid;
    hide NewArrangement;
    hide AllPairs;
    var changes := Changes(r.members, known);
    var kept := Kept(r.members, changes);
    RetainedAll(Remapped(r.layout.links, IdMap(AllPairs(r.members, changes))), (link: LinkRequest) => Present(kept, link));
  }

  // ----- blocks keep their place

  // The one position a display has is `p`.
  ghost predicate SitsAt(positions: seq<Position>, p: Position) {
    p in positions && forall q | q in positions && q.display == p.display :: q == p
  }

  lemma PlacedOne(positions: seq<Position>, hidden: seq<string>, display: Display, move: (real, real), p: Position)
    ensures display.id !in hidden ==> SitsAt(PlaceOne(positions, hidden, display, move), Moved(display, move))
    ensures p.display != display.id && SitsAt(positions, p) ==> SitsAt(PlaceOne(positions, hidden, display, move), p)
  {
    forall q: Position ensures q in Retained(positions, (x: Position) => x.display != display.id) <==> q in positions && q.display != display.id {
      RetainedMembers(positions, (x: Position) => x.display != display.id, q);
    }
  }

  lemma {:induction false} BlockLeaves(positions: seq<Position>, hidden: seq<string>, displays: seq<Display>, move: (real, real), p: Position)
    requires SitsAt(positions, p) && forall d | d in displays :: d.id != p.display
    ensures SitsAt(PlaceBlock(positions, hidden, displays, move), p)
  {
    hide PlaceOne;
    hide SitsAt;
    if displays != [] {
      var last := |displays| - 1;
      assert displays[last] in displays;
      BlockLeaves(positions, hidden, displays[..last], move, p);
      PlacedOne(PlaceBlock(positions, hidden, displays[..last], move), hidden, displays[last], move, p);
    }
  }

  lemma {:induction false} BlockPlaced(positions: seq<Position>, hidden: seq<string>, displays: seq<Display>, move: (real, real), d: Display)
    requires DistinctIds(displays) && d in displays && d.id !in hidden
    ensures SitsAt(PlaceBlock(positions, hidden, displays, move), Moved(d, move))
  {
    hide PlaceOne;
    hide SitsAt;
    var last := |displays| - 1;
    if d != displays[last] { BlockPlaced(positions, hidden, displays[..last], move, d); }
    PlacedOne(PlaceBlock(positions, hidden, displays[..last], move), hidden, displays[last], move, Moved(d, move));
  }

  ghost predicate ShownOnce(changes: seq<Option<Shown>>) {
    && (forall i | 0 <= i < |changes| && changes[i].Some? :: DistinctIds(changes[i].value.displays))
    && (forall i, k, d, c | 0 <= i < |changes| && 0 <= k < |changes| && i != k && changes[i].Some? && changes[k].Some?
          && d in changes[i].value.displays && c in changes[k].value.displays :: d.id != c.id)
  }

  lemma {:induction false} BlocksPlaced(positions: seq<Position>, hidden: seq<string>, changes: seq<Option<Shown>>,
                                        moves: seq<Option<(real, real)>>, i: nat, d: Display)
    requires |changes| == |moves| && ShownOnce(changes) && i < |changes| && changes[i].Some? && moves[i].Some?
    requires d in changes[i].value.displays && d.id !in hidden
    ensures SitsAt(PlaceBlocks(positions, hidden, changes, moves), Moved(d, moves[i].value))
  {
    hide PlaceBlock;
    hide SitsAt;
    var last := |changes| - 1;
    var before := PlaceBlocks(positions, hidden, changes[..last], moves[..last]);
    if i == last {
      BlockPlaced(before, hidden, changes[i].value.displays, moves[i].value, d);
    } else {
      BlocksPlaced(positions, hidden, changes[..last], moves[..last], i, d);
      if changes[last].Some? && moves[last].Some? {
        BlockLeaves(before, hidden, changes[last].value.displays, moves[last].value, Moved(d, moves[i].value));
      }
    }
  }

  lemma DistinctMeansShownOnce(members: seq<Member>, changes: seq<Option<Shown>>)
    requires |members| == |changes| && DistinctAcross(NewMembers(members, changes))
    ensures ShownOnce(changes)
  {
    var now := NewMembers(members, changes);
    forall i, k, d, c | 0 <= i < |changes| && 0 <= k < |changes| && i != k && changes[i].Some? && changes[k].Some?
      && d in changes[i].value.displays && c in changes[k].value.displays
      ensures d.id != c.id
    {
      if d.id == c.id { SameDisplay(now, i, d, k, c); }
    }
    forall i | 0 <= i < |changes| && changes[i].Some? ensures DistinctIds(changes[i].value.displays) {
      forall j, l | 0 <= j < l < |changes[i].value.displays| ensures changes[i].value.displays[j].id != changes[i].value.displays[l].id {
        assert DisplayAt(now, i, j) == changes[i].value.displays[j] && DisplayAt(now, i, l) == changes[i].value.displays[l];
      }
    }
  }

  lemma RetainedSits(positions: seq<Position>, newcomers: seq<string>, p: Position)
    requires SitsAt(positions, p) && p.display !in newcomers
    ensures SitsAt(Retained(positions, (q: Position) => q.display !in newcomers), p)
  {
    forall q: Position ensures q in Retained(positions, (x: Position) => x.display !in newcomers) <==> q in positions && q.display !in newcomers {
      RetainedMembers(positions, (x: Position) => x.display !in newcomers, q);
    }
  }

  // Every display a changed computer shows and does not hide sits where its block was moved to.
  lemma BlocksKeepTheirPlace(r: Record, known: Known, admits: Record -> bool, i: nat, d: Display)
    requires Adapt(r, known, admits).Some? && r.layout.arrangement.Some? && i < |r.members|
    requires Change(r.members[i], known).Some? && d in Change(r.members[i], known).value.displays
    requires Translation(r.layout.arrangement, r.members[i].displays).Some?
    ensures var now := Adapt(r, known, admits).value.record.layout.arrangement;
            && now.Some?
            && (d.id !in now.value.hidden ==>
                SitsAt(now.value.positions, Moved(d, Translation(r.layout.arrangement, r.members[i].displays).value)))
  {
    hide Valid;
    hide KeptLinks;
    hide KeptPositions;
    hide KeptHidden;
    hide AllPairs;
    hide PlaceBlocks;
    hide Translation;
    hide SitsAt;
    hide Fits;
    var changes, out := Changes(r.members, known), Adapt(r, known, admits).value;
    assert changes[i].Some?;
    AdaptTouchesOnlyTheChanged(r, known, admits);
    ValidIsDistinct(out.record, admits);
    DistinctMeansShownOnce(r.members, changes);
    var a, ids, kept := r.layout.arrangement.value, IdMap(AllPairs(r.members, changes)), Kept(r.members, changes);
    var hidden := KeptHidden(a, ids, kept);
    var placed := PlaceBlocks(KeptPositions(a, ids, kept), hidden, changes, Moves(r));
    if d.id !in hidden {
      BlocksPlaced(KeptPositions(a, ids, kept), hidden, changes, Moves(r), i, d);
      var newcomers := Appeared(changes, kept);
      if d.id !in newcomers { RetainedSits(placed, newcomers, Moved(d, Moves(r)[i].value)); }
    }
  }

  lemma ValidIsDistinct(r: Record, admits: Record -> bool)
    requires Valid(r, admits)
    ensures DistinctAcross(r.members)
  {
  }
}
