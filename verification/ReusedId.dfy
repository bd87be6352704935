/**
A display is unplugged and a surviving one takes over its OS id. The rebuild then keeps the crossing
made for the unplugged display, as a crossing of the survivor.
*/
module ReusedId {
  import opened Prelude
  import opened Records
  import opened Matching
  import opened Adapting
  import opened Surviving
  import opened Refitting
  import opened Desks

  const OUT := LinkOf("2", "right", "3", "left")
  const BACK := LinkOf("3", "left", "2", "right")

  const BEFORE := [Screen("1", true, "a", 0.0), Screen("2", false, "b", 100.0)]
  const AFTER := [Screen("2", true, "a", 0.0)]

  lemma ScreensValid()
    ensures OwnDisplays(BEFORE) && OwnDisplays(AFTER)
  {
    Digits();
    hide ParseDisplay;
    hide Decimal;
    assert BEFORE[0].primary && AFTER[0].primary;
  }

  lemma LinksParse()
    ensures ParseLink(OUT) == Some(EdgeOf(2, Right, 3, Left)) && ParseLink(BACK) == Some(EdgeOf(3, Left, 2, Right))
  {
    Digits();
    EdgesParse();
    LinkParses("2", "right", "3", "left");
    LinkParses("3", "left", "2", "right");
  }

  lemma BothWays(out: EdgeLink, back: EdgeLink)
    requires Reverses(out, back) && Reverses(back, out) && !Overlap(out, back)
    ensures Reciprocal([out, back]) && Apart([out, back])
  {
    hide Reverses;
    hide Overlap;
    var links := [out, back];
    assert links[0] == out && links[1] == back;
  }

  lemma DeskValid(displays: seq<Display>)
    requires displays == BEFORE || displays == AFTER
    ensures Check(Desk(displays, [OUT, BACK]))
  {
    hide ParseLink;
    hide Check;
    hide OwnDisplays;
    ScreensValid();
    LinksParse();
    Digits();
    hide ParseDisplay;
    var out, back := EdgeOf(2, Right, 3, Left), EdgeOf(3, Left, 2, Right);
    BothWays(out, back);
    hide Reciprocal;
    hide Apart;
    assert Parsed([OUT, BACK]) == [out, back];
    var two := |displays| - 1;
    assert ParseDisplay(displays[two].id) == Some(2);
    assert Joins(displays, 2, 3);
    DeskIsValid(displays, [OUT, BACK]);
  }

  lemma Geometry()
    ensures !SameDisplayGeometry(BEFORE, AFTER)
  {
  }

  lemma AllSound()
    ensures Sound(Desk(BEFORE, [OUT, BACK]).members, News(AFTER)) && Snapshots(Shows(AFTER))
  {
    hide Key;
    hide ValidDisplays;
    hide Canonical;
    ScreensValid();
    MembersValid(BEFORE, [OUT, BACK]);
    DistinctOwn(BEFORE);
    DistinctOwn(AFTER);
    OtherValid();
    DistinctOwn([OTHER]);
  }

  // ----- the rebuild

  lemma OnlyTheFirstLives(d: Display, e: Display)
    ensures (d, e) in Pairs(BEFORE, AFTER) <==> d == BEFORE[0] && e == AFTER[0]
  {
    ScreensValid();
    DistinctOwn(BEFORE);
    DistinctOwn(AFTER);
    Monitors();
    FirstOnly(BEFORE, AFTER, d, e);
  }

  // The one live display is the first remembered one by its identity, so the second has none.
  lemma FirstOnly(before: seq<Display>, after: seq<Display>, d: Display, e: Display)
    requires |before| == 2 && |after| == 1 && before[0] != before[1] && DistinctIds(before) && DistinctIds(after)
    requires Usable(before[0], before).Some? && Usable(after[0], after) == Usable(before[0], before) != Usable(before[1], before)
    ensures (d, e) in Pairs(before, after) <==> d == before[0] && e == after[0]
  {
    PairsExactly(before, after, d, e);
    hide Pairs;
    hide Usable;
    hide Compatible;
    assert SameMonitor(before[0], after[0], before, after) && !SameMonitor(before[1], after[0], before, after);
    assert before[0] in before && after[0] in after;
  }

  lemma Monitors()
    ensures Usable(BEFORE[0], BEFORE) == Some("a") && Usable(AFTER[0], AFTER) == Some("a") && Usable(BEFORE[1], BEFORE) == Some("b")
    ensures BEFORE[0] != BEFORE[1]
  {
    assert BEFORE[1..] == [BEFORE[1]] && BEFORE[1..][1..] == [] && AFTER[1..] == [];
    assert Count(BEFORE[1..], Some("a")) == 0 && Count(BEFORE[1..], Some("b")) == 1;
  }

  lemma SecondIsGone(i: int, d: Display, e: Display)
    requires At(Desk(BEFORE, [OUT, BACK]).members, News(AFTER), i, d, e)
    ensures d.id != "2" && ParseDisplay(d.id) != Some(2)
  {
    hide Pairs;
    hide ParseDisplay;
    Digits();
    OnlyTheFirstLives(d, e);
  }

  lemma Renamed()
    ensures var members := Desk(BEFORE, [OUT, BACK]).members;
            && Rename(IdMap(AllPairs(members, News(AFTER))), "2") == "2" && "2" in Kept(members, News(AFTER))
            && Rename(IdMap(AllPairs(members, News(AFTER))), "3") == "3" && "3" in Kept(members, News(AFTER))
            && !Survives(members, News(AFTER), "2")
  {
    hide Pairs;
    hide AllPairs;
    hide Kept;
    hide ParseDisplay;
    hide Key;
    Digits();
    AllSound();
    var members := Desk(BEFORE, [OUT, BACK]).members;
    forall i, d, e | At(members, News(AFTER), i, d, e) ensures d.id != "2" && ParseDisplay(d.id) != Some(2) { SecondIsGone(i, d, e); }
    RenameOther(members, News(AFTER), "2");
    OnlyTheFirstLives(BEFORE[0], AFTER[0]);
    RenameLiving(members, News(AFTER), 0, BEFORE[0], AFTER[0]);
    RenameLiving(members, News(AFTER), 1, OTHER, OTHER);
  }

  lemma CrossingsKept()
    ensures KeptLinks(Desk(BEFORE, [OUT, BACK]), News(AFTER)) == [OUT, BACK]
  {
    hide AllPairs;
    hide Kept;
    hide IdMap;
    hide Rename;
    Renamed();
    var members, links := Desk(BEFORE, [OUT, BACK]).members, [OUT, BACK];
    var ids, kept := IdMap(AllPairs(members, News(AFTER))), Kept(members, News(AFTER));
    assert RenameLink(ids, OUT) == OUT && RenameLink(ids, BACK) == BACK;
    assert Remapped(links, ids) == links;
    var keep := (link: LinkRequest) => Present(kept, link);
    assert links[..1] == [OUT] && [OUT][..0] == [];
    assert Retained([OUT], keep) == [OUT];
    assert Retained(links, keep) == Retained(links[..1], keep) + [BACK];
  }

  // A valid record, sound snapshots and a valid result: every crossing is kept, though the display
  // at one end of each is gone.
  lemma ReusedIdKeepsADeadCrossing()
    ensures var r := Desk(BEFORE, [OUT, BACK]);
            var out := Adapt(r, Shows(AFTER), (x: Record) => true);
            && Check(r) && Snapshots(Shows(AFTER))
            && out.Some? && out.value.record.layout.links == r.layout.links && |r.layout.links| == 2
            && (forall link | link in r.layout.links :: !BothSurvive(r.members, Changes(r.members, Shows(AFTER)), link))
  {
    hide KeptLinks;
    hide Check;
    hide Kept;
    hide AllPairs;
    hide Survives;
    hide Key;
    hide Fits;
    var r := Desk(BEFORE, [OUT, BACK]);
    DeskValid(BEFORE);
    DeskValid(AFTER);
    AllSound();
    Geometry();
    WhatChanged(BEFORE, AFTER, [OUT, BACK]);
    CrossingsKept();
    Renamed();
    assert NewMembers(r.members, News(AFTER)) == Desk(AFTER, [OUT, BACK]).members;
    assert Rebuilt(r, News(AFTER)).record == Desk(AFTER, [OUT, BACK]);
  }
}
