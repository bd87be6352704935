/** Small records for the examples: one computer's displays beside another computer's single display "3". */
module Desks {
  import opened Prelude
  import opened Orders
  import opened Records
  import opened Adapting
  import opened Rejoining

  function Screen(id: string, primary: bool, monitor: string, x: real): Display {
    Display(id, "", (x, 0.0), (100.0, 100.0), (100, 100), 1.0, primary, Some(monitor))
  }

  const OTHER := Screen("3", true, "c", 0.0)

  function Fingerprint(c: char): string {
    seq(64, i => c)
  }

  function Desk(displays: seq<Display>, links: seq<LinkRequest>): Record {
    Record(1, 1, Fingerprint('A'),
           [Member(Fingerprint('A'), Macos, displays), Member(Fingerprint('B'), Windows, [OTHER])],
           Layout(links, None, map[Key(Fingerprint('A')) := true, Key(Fingerprint('B')) := true]))
  }

  function LinkOf(from: string, leaves: string, to: string, enters: string): LinkRequest {
    LinkRequest(from, leaves, (0.0, 1.0), to, enters, (0.0, 1.0), 1.0)
  }

  function EdgeOf(from: nat, leaves: Edge, to: nat, enters: Edge): EdgeLink {
    EdgeLink(from, leaves, Span(0.0, 1.0), to, enters, Span(0.0, 1.0), 1.0)
  }

  lemma Digits()
    ensures ParseDisplay("1") == Some(1) && ParseDisplay("2") == Some(2) && ParseDisplay("3") == Some(3)
    ensures Canonical("1") && Canonical("2") && Canonical("3")
  {
    assert Value("") == 0;
    assert "1"[..0] == "" && "2"[..0] == "" && "3"[..0] == "";
    assert Value("1") == 1 && Value("2") == 2 && Value("3") == 3;
    assert Decimal(1) == "1" && Decimal(2) == "2" && Decimal(3) == "3";
  }

  lemma EdgesParse()
    ensures ParseEdge("right") == Some(Right) && ParseEdge("left") == Some(Left) && ParseEdge("top") == Some(Top)
  {
    assert "right"[0] != "left"[0] && "top"[0] != "left"[0] && "top"[0] != "right"[0];
  }

  lemma LinkParses(from: string, leaves: string, to: string, enters: string)
    requires ParseDisplay(from).Some? && ParseDisplay(to).Some? && ParseDisplay(from) != ParseDisplay(to)
    requires ParseEdge(leaves).Some? && ParseEdge(enters).Some?
    ensures ParseLink(LinkOf(from, leaves, to, enters))
         == Some(EdgeOf(ParseDisplay(from).value, ParseEdge(leaves).value, ParseDisplay(to).value, ParseEdge(enters).value))
  {
    hide ParseDisplay;
    hide ParseEdge;
  }

  lemma KeysSorted()
    ensures CompareText(Key(Fingerprint('A')), Key(Fingerprint('B'))).Less?
    ensures ValidFingerprint(Fingerprint('A')) && ValidFingerprint(Fingerprint('B'))
    ensures Key(Fingerprint('A')) != Key(Fingerprint('B'))
  {
    var a, b := Key(Fingerprint('A')), Key(Fingerprint('B'));
    assert a[0] == 'a' && b[0] == 'b';
    assert Codes(a)[0] == 'a' as nat && Codes(b)[0] == 'b' as nat;
  }

  // Displays "1" and "2", or one of them, listed once each.
  predicate OwnDisplays(displays: seq<Display>) {
    ValidDisplays(displays) && forall i | 0 <= i < |displays| :: displays[i].id == "1" || displays[i].id == "2"
  }

  lemma OtherValid()
    ensures ValidDisplays([OTHER])
  {
    Digits();
    hide ParseDisplay;
    hide Decimal;
    assert [OTHER][0].primary;
  }

  lemma MembersValid(displays: seq<Display>, links: seq<LinkRequest>)
    requires OwnDisplays(displays)
    ensures ValidMembers(Desk(displays, links).members)
  {
    hide ValidDisplays;
    hide Key;
    OtherValid();
    KeysSorted();
    var members := Desk(displays, links).members;
    assert DistinctIds(displays) by { DistinctOwn(displays); }
    forall i, j, k, l | 0 <= i < |members| && 0 <= j < |members[i].displays| && 0 <= k < |members| && 0 <= l < |members[k].displays|
      && DisplayAt(members, i, j).id == DisplayAt(members, k, l).id
      ensures i == k && j == l
    {
    }
  }

  lemma DistinctOwn(displays: seq<Display>)
    requires ValidDisplays(displays)
    ensures DistinctIds(displays) && Snapshot(displays)
  {
  }

  // A link joins a display this computer shows with the other computer's.
  predicate Joins(displays: seq<Display>, from: nat, to: nat) {
    exists j | 0 <= j < |displays| :: ParseDisplay(displays[j].id) == Some(from) && to == 3
  }

  predicate AllJoin(displays: seq<Display>, links: seq<EdgeLink>) {
    forall i | 0 <= i < |links| ::
      Joins(displays, links[i].fromDisplay, links[i].toDisplay) || Joins(displays, links[i].toDisplay, links[i].fromDisplay)
  }

  lemma OwnerOf(displays: seq<Display>, links: seq<LinkRequest>, j: nat)
    requires OwnDisplays(displays) && ValidMembers(Desk(displays, links).members) && j < |displays|
    ensures var owners := Owners(Desk(displays, links).members);
            && ParseDisplay(displays[j].id).Some? && ParseDisplay(displays[j].id).value in owners
            && owners[ParseDisplay(displays[j].id).value] == 0 && 3 in owners && owners[3] == 1
  {
    Digits();
    hide ParseDisplay;
    hide OwnerMap;
    var members := Desk(displays, links).members;
    DistinctOwn(displays);
    OtherValid();
    DistinctOwn([OTHER]);
    OwnerIs(members, 0, displays[j]);
    OwnerIs(members, 1, OTHER);
  }

  lemma OwnersValid(displays: seq<Display>, links: seq<LinkRequest>, edges: seq<EdgeLink>)
    requires OwnDisplays(displays) && ValidMembers(Desk(displays, links).members) && AllJoin(displays, edges)
    ensures AcrossComputers(edges, Owners(Desk(displays, links).members))
  {
    hide ParseDisplay;
    hide OwnDisplays;
    hide ValidMembers;
    hide Owners;
    hide Desk;
    forall i | 0 <= i < |edges|
      ensures var owners := Owners(Desk(displays, links).members);
              && edges[i].fromDisplay in owners && edges[i].toDisplay in owners
              && owners[edges[i].fromDisplay] != owners[edges[i].toDisplay]
    {
      var from, to := edges[i].fromDisplay, edges[i].toDisplay;
      if Joins(displays, from, to) {
        var j :| 0 <= j < |displays| && ParseDisplay(displays[j].id) == Some(from) && to == 3;
        OwnerOf(displays, links, j);
      } else {
        var j :| 0 <= j < |displays| && ParseDisplay(displays[j].id) == Some(to) && from == 3;
        OwnerOf(displays, links, j);
      }
    }
  }

  lemma CountNames(names: set<string>)
    requires names <= {"1", "2", "3"}
    ensures |names| <= 3
  {
    assert |{"1", "2", "3"} - names| + |names| == |{"1", "2", "3"}|;
  }

  lemma DeskIsValid(displays: seq<Display>, links: seq<LinkRequest>)
    requires OwnDisplays(displays) && 0 < |links| <= MAX_LINKS && AllParsed(links)
    requires Reciprocal(Parsed(links)) && Apart(Parsed(links)) && AllJoin(displays, Parsed(links))
    ensures Check(Desk(displays, links))
  {
    hide ParseLink;
    hide OwnerMap;
    hide Reciprocal;
    hide Apart;
    hide AllJoin;
    hide AcrossComputers;
    hide ValidDisplays;
    hide Key;
    var r := Desk(displays, links);
    MembersValid(displays, links);
    hide ValidMembers;
    OwnersValid(displays, links, Parsed(links));
    KeysSorted();
    assert r.members[0].fingerprint == r.author;
    assert Names(r.members) <= {"1", "2", "3"};
    CountNames(Names(r.members));
    assert r.layout.control[Key(Fingerprint('A'))];
  }

  // ----- what this computer shows now

  function Shows(displays: seq<Display>): Known {
    map[Key(Fingerprint('A')) := Shown(Macos, displays)]
  }

  function News(displays: seq<Display>): seq<Option<Shown>> {
    [Some(Shown(Macos, displays)), None]
  }

  lemma WhatChanged(before: seq<Display>, now: seq<Display>, links: seq<LinkRequest>)
    requires !SameDisplayGeometry(before, now)
    ensures Changes(Desk(before, links).members, Shows(now)) == News(now) && !Unchanged(News(now))
  {
    hide Key;
    hide SameDisplayGeometry;
    KeysSorted();
    assert News(now)[0].Some?;
  }
}
