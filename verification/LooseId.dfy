/**
A link may write a display's number with a leading zero and still pass the check, which compares numbers.
A rebuild compares texts, so it drops that crossing although both its displays are still there.
*/
module LooseId {
  import opened Prelude
  import opened Records
  import opened Matching
  import opened Adapting
  import opened Surviving
  import opened Refitting
  import opened Rejoining
  import opened Desks

  const LOOSE := LinkOf("02", "right", "3", "left")
  const LOOSE_BACK := LinkOf("3", "left", "02", "right")
  const PLAIN := LinkOf("1", "top", "3", "top")
  const PLAIN_BACK := LinkOf("3", "top", "1", "top")

  const LINKS := [LOOSE, LOOSE_BACK, PLAIN, PLAIN_BACK]
  const LEFT := [PLAIN, PLAIN_BACK]

  // The second display is moved over by one point.
  const BEFORE := [Screen("1", true, "a", 0.0), Screen("2", false, "b", 100.0)]
  const NOW := [Screen("1", true, "a", 0.0), Screen("2", false, "b", 101.0)]

  lemma LooseNumber()
    ensures ParseDisplay("02") == Some(2) && "02" != "2" && !Canonical("02")
  {
    assert "02"[..1] == "0" && "0"[..0] == "";
    assert Value("") == 0;
    assert Value("0") == 0;
    assert Value("02") == 2;
    assert Decimal(2) == "2";
  }

  lemma ScreensValid()
    ensures OwnDisplays(BEFORE) && OwnDisplays(NOW)
  {
    Digits();
    hide ParseDisplay;
    hide Decimal;
    assert BEFORE[0].primary && NOW[0].primary;
  }

  function Loose(): EdgeLink { EdgeOf(2, Right, 3, Left) }
  function LooseBack(): EdgeLink { EdgeOf(3, Left, 2, Right) }
  function Plain(): EdgeLink { EdgeOf(1, Top, 3, Top) }
  function PlainBack(): EdgeLink { EdgeOf(3, Top, 1, Top) }

  lemma LinksParse()
    ensures ParseLink(LOOSE) == Some(Loose()) && ParseLink(LOOSE_BACK) == Some(LooseBack())
    ensures ParseLink(PLAIN) == Some(Plain()) && ParseLink(PLAIN_BACK) == Some(PlainBack())
  {
    hide ParseDisplay;
    hide ParseEdge;
    hide Canonical;
    Digits();
    LooseNumber();
    EdgesParse();
    LinkParses("02", "right", "3", "left");
    LinkParses("3", "left", "02", "right");
    LinkParses("1", "top", "3", "top");
    LinkParses("3", "top", "1", "top");
  }

  lemma Hold(a: EdgeLink, b: EdgeLink, c: EdgeLink, d: EdgeLink)
    requires Reverses(a, b) && Reverses(b, a) && Reverses(c, d) && Reverses(d, c)
    requires !Overlap(a, b) && !Overlap(a, c) && !Overlap(a, d) && !Overlap(b, c) && !Overlap(b, d) && !Overlap(c, d)
    ensures Reciprocal([a, b, c, d]) && Apart([a, b, c, d])
    ensures Reciprocal([c, d]) && Apart([c, d])
  {
    hide Reverses;
    hide Overlap;
    FourReverse(a, b, c, d);
    FourApart(a, b, c, d);
    var two := [c, d];
    assert two[0] == c && two[1] == d;
  }

  lemma FourReverse(a: EdgeLink, b: EdgeLink, c: EdgeLink, d: EdgeLink)
    requires Reverses(a, b) && Reverses(b, a) && Reverses(c, d) && Reverses(d, c)
    ensures Reciprocal([a, b, c, d])
  {
    hide Reverses;
    var all := [a, b, c, d];
    assert HasReverse(all, a) by { assert Reverses(a, all[1]); }
    assert HasReverse(all, b) by { assert Reverses(b, all[0]); }
    assert HasReverse(all, c) by { assert Reverses(c, all[3]); }
    assert HasReverse(all, d) by { assert Reverses(d, all[2]); }
  }

  lemma FourApart(a: EdgeLink, b: EdgeLink, c: EdgeLink, d: EdgeLink)
    requires !Overlap(a, b) && !Overlap(a, c) && !Overlap(a, d) && !Overlap(b, c) && !Overlap(b, d) && !Overlap(c, d)
    ensures Apart([a, b, c, d])
  {
    hide Overlap;
    var all := [a, b, c, d];
    assert all[0] == a && all[1] == b && all[2] == c && all[3] == d;
  }

  lemma LinksHold()
    ensures AllParsed(LINKS) && Parsed(LINKS) == [Loose(), LooseBack(), Plain(), PlainBack()]
    ensures AllParsed(LEFT) && Parsed(LEFT) == [Plain(), PlainBack()]
    ensures Reciprocal(Parsed(LINKS)) && Apart(Parsed(LINKS)) && Reciprocal(Parsed(LEFT)) && Apart(Parsed(LEFT))
  {
    hide ParseLink;
    LinksParse();
    Hold(Loose(), LooseBack(), Plain(), PlainBack());
    hide Reciprocal;
    hide Apart;
    hide Loose;
    hide LooseBack;
    hide Plain;
    hide PlainBack;
    assert Parsed(LINKS) == [Loose(), LooseBack(), Plain(), PlainBack()];
    assert Parsed(LEFT) == [Plain(), PlainBack()];
  }

  lemma LinksJoin()
    ensures AllJoin(BEFORE, [Loose(), LooseBack(), Plain(), PlainBack()]) && AllJoin(NOW, [Plain(), PlainBack()])
  {
    Digits();
    hide ParseDisplay;
    assert ParseDisplay(BEFORE[0].id) == Some(1) && ParseDisplay(BEFORE[1].id) == Some(2) && ParseDisplay(NOW[0].id) == Some(1);
    assert Joins(BEFORE, 1, 3) && Joins(BEFORE, 2, 3) && Joins(NOW, 1, 3);
    hide Joins;
  }

  lemma DesksValid()
    ensures Check(Desk(BEFORE, LINKS)) && Check(Desk(NOW, LEFT))
  {
    hide AllParsed;
    hide Parsed;
    hide Check;
    hide OwnDisplays;
    hide Reciprocal;
    hide Apart;
    hide AllJoin;
    ScreensValid();
    LinksHold();
    LinksJoin();
    DeskIsValid(BEFORE, LINKS);
    DeskIsValid(NOW, LEFT);
  }

  lemma Geometry()
    ensures !SameDisplayGeometry(BEFORE, NOW)
  {
    assert BEFORE[1].origin != NOW[1].origin && BEFORE[1].id != NOW[0].id;
    assert !HasTwin(BEFORE[1], NOW);
  }

  lemma AllSound()
    ensures Sound(Desk(BEFORE, LINKS).members, News(NOW)) && Snapshots(Shows(NOW))
  {
    hide Key;
    hide ValidDisplays;
    hide Canonical;
    ScreensValid();
    MembersValid(BEFORE, LINKS);
    DistinctOwn(BEFORE);
    DistinctOwn(NOW);
    OtherValid();
    DistinctOwn([OTHER]);
  }

  // ----- the rebuild

  lemma Monitors()
    ensures Usable(BEFORE[0], BEFORE) == Some("a") && Usable(NOW[0], NOW) == Some("a")
    ensures Usable(BEFORE[1], BEFORE) == Some("b") && Usable(NOW[1], NOW) == Some("b")
  {
    assert BEFORE[1..] == [BEFORE[1]] && BEFORE[1..][1..] == [] && NOW[1..] == [NOW[1]] && NOW[1..][1..] == [];
    assert Count(BEFORE[1..], Some("a")) == 0 && Count(BEFORE[1..], Some("b")) == 1;
    assert Count(NOW[1..], Some("a")) == 0 && Count(NOW[1..], Some("b")) == 1;
  }

  lemma BothLive()
    ensures (BEFORE[0], NOW[0]) in Pairs(BEFORE, NOW) && (BEFORE[1], NOW[1]) in Pairs(BEFORE, NOW)
  {
    hide Screen;
    ScreensValid();
    DistinctOwn(BEFORE);
    DistinctOwn(NOW);
    Monitors();
    PairsExactly(BEFORE, NOW, BEFORE[0], NOW[0]);
    PairsExactly(BEFORE, NOW, BEFORE[1], NOW[1]);
    assert BEFORE[0] in BEFORE && BEFORE[1] in BEFORE && NOW[0] in NOW && NOW[1] in NOW;
  }

  lemma Ends()
    ensures var members := Desk(BEFORE, LINKS).members;
            && Rename(IdMap(AllPairs(members, News(NOW))), "1") == "1" && "1" in Kept(members, News(NOW))
            && Rename(IdMap(AllPairs(members, News(NOW))), "3") == "3" && "3" in Kept(members, News(NOW))
            && Rename(IdMap(AllPairs(members, News(NOW))), "02") !in Kept(members, News(NOW))
            && Survives(members, News(NOW), "02") && Survives(members, News(NOW), "3")
  {
    hide Pairs;
    hide AllPairs;
    hide Kept;
    hide ParseDisplay;
    hide Key;
    hide Canonical;
    Digits();
    LooseNumber();
    AllSound();
    BothLive();
    var members := Desk(BEFORE, LINKS).members;
    RenameLiving(members, News(NOW), 0, BEFORE[0], NOW[0]);
    RenameLiving(members, News(NOW), 1, OTHER, OTHER);
    assert At(members, News(NOW), 0, BEFORE[1], NOW[1]) && ParseDisplay(BEFORE[1].id) == ParseDisplay("02");
    assert At(members, News(NOW), 1, OTHER, OTHER) && ParseDisplay(OTHER.id) == ParseDisplay("3");
    EndKept(members, News(NOW), "02");
    if Listed(members, "02") { ListedIsCanonical(members, News(NOW), "02"); }
  }

  lemma CrossingsKept()
    ensures KeptLinks(Desk(BEFORE, LINKS), News(NOW)) == LEFT
  {
    hide AllPairs;
    hide Kept;
    hide IdMap;
    hide Rename;
    Ends();
    var members := Desk(BEFORE, LINKS).members;
    var ids, kept := IdMap(AllPairs(members, News(NOW))), Kept(members, News(NOW));
    var keep := (link: LinkRequest) => Present(kept, link);
    var loose, back := RenameLink(ids, LOOSE), RenameLink(ids, LOOSE_BACK);
    assert RenameLink(ids, PLAIN) == PLAIN && RenameLink(ids, PLAIN_BACK) == PLAIN_BACK;
    assert !keep(loose) && !keep(back) && keep(PLAIN) && keep(PLAIN_BACK);
    assert Remapped(LINKS, ids) == [loose, back, PLAIN, PLAIN_BACK];
    FourRetained(loose, back, PLAIN, PLAIN_BACK, keep);
  }

  lemma FourRetained(a: LinkRequest, b: LinkRequest, c: LinkRequest, d: LinkRequest, keep: LinkRequest -> bool)
    requires !keep(a) && !keep(b) && keep(c) && keep(d)
    ensures Retained([a, b, c, d], keep) == [c, d]
  {
    assert [a, b, c, d][..3] == [a, b, c] && [a, b, c][..2] == [a, b] && [a, b][..1] == [a] && [a][..0] == [];
    assert Retained([a], keep) == [];
    assert Retained([a, b], keep) == [];
    assert Retained([a, b, c], keep) == [c];
  }

  lemma RebuiltDesk()
    ensures Rebuilt(Desk(BEFORE, LINKS), News(NOW)).record == Desk(NOW, LEFT) && Rebuilt(Desk(BEFORE, LINKS), News(NOW)).leftOut
  {
    hide KeptLinks;
    hide Kept;
    hide AllPairs;
    hide Key;
    CrossingsKept();
    assert NewMembers(Desk(BEFORE, LINKS).members, News(NOW)) == Desk(NOW, LEFT).members;
  }

  // A valid record, sound snapshots and a valid result: a crossing is dropped, though the displays at
  // both its ends are still shown.
  lemma LooseIdDropsALivingCrossing()
    ensures var r := Desk(BEFORE, LINKS);
            var out := Adapt(r, Shows(NOW), (x: Record) => true);
            && Check(r) && Snapshots(Shows(NOW)) && LOOSE in r.layout.links
            && BothSurvive(r.members, Changes(r.members, Shows(NOW)), LOOSE)
            && out.Some? && out.value.record.layout.links == [PLAIN, PLAIN_BACK] && out.value.leftOut
  {
    hide Rebuilt;
    hide KeptLinks;
    hide Kept;
    hide AllPairs;
    hide Changes;
    hide Check;
    hide Survives;
    hide Key;
    hide Fits;
    var r := Desk(BEFORE, LINKS);
    DesksValid();
    AllSound();
    Geometry();
    WhatChanged(BEFORE, NOW, LINKS);
    RebuiltDesk();
    Ends();
    assert LINKS[0] == LOOSE;
  }
}
