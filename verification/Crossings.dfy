/** What validation makes of a layout's directed links: crossings, each counted once. */
module Crossings {
  import opened Records

  // The links part of a record's check, as the record runs it.
  method CheckCrossings(links: seq<EdgeLink>, owners: map<nat, nat>) returns (ok: bool)
    ensures ok <==> Reciprocal(links) && Apart(links) && AcrossComputers(links, owners)
  {
    ok := CheckReciprocal(links);
    if ok { ok := CheckApart(links); }
    if ok { ok := CheckAcross(links, owners); }
  }

  method CheckReciprocal(links: seq<EdgeLink>) returns (ok: bool)
    ensures ok <==> Reciprocal(links)
  {
    for i := 0 to |links|
      invariant forall k | 0 <= k < i :: HasReverse(links, links[k])
    {
      var found := false;
      for j := 0 to |links|
        invariant found <==> exists l | 0 <= l < j :: Reverses(links[i], links[l])
      {
        found := found || Reverses(links[i], links[j]);
      }
      assert found <==> HasReverse(links, links[i]);
      if !found { return false; }
    }
    return true;
  }

  method CheckApart(links: seq<EdgeLink>) returns (ok: bool)
    ensures ok <==> Apart(links)
  {
    for i := 0 to |links|
      invariant forall k, l | 0 <= k < i && k < l < |links| :: !Overlap(links[k], links[l])
    {
      for j := i + 1 to |links|
        invariant forall l | i < l < j :: !Overlap(links[i], links[l])
      {
        if Overlap(links[i], links[j]) { return false; }
      }
    }
    return true;
  }

  method CheckAcross(links: seq<EdgeLink>, owners: map<nat, nat>) returns (ok: bool)
    ensures ok <==> AcrossComputers(links, owners)
  {
    for i := 0 to |links|
      invariant forall k | 0 <= k < i ::
        links[k].fromDisplay in owners && links[k].toDisplay in owners
        && owners[links[k].fromDisplay] != owners[links[k].toDisplay]
    {
      if links[i].fromDisplay !in owners || links[i].toDisplay !in owners
         || owners[links[i].fromDisplay] == owners[links[i].toDisplay]
      {
        return false;
      }
    }
    return true;
  }

  // Links that passed.
  ghost predicate Checked(links: seq<EdgeLink>, owners: map<nat, nat>) {
    Spanned(links) && Reciprocal(links) && Apart(links) && AcrossComputers(links, owners)
  }

  ghost function Partner(links: seq<EdgeLink>, i: nat): (j: nat)
    requires Reciprocal(links) && i < |links|
    ensures j < |links| && Reverses(links[i], links[j])
  {
    assert HasReverse(links, links[i]);
    var j :| 0 <= j < |links| && Reverses(links[i], links[j]);
    j
  }

  // Links that leave by one and the same span are one link.
  lemma OnlyOne(links: seq<EdgeLink>, i: nat, j: nat)
    requires Spanned(links) && Apart(links) && i < |links| && j < |links|
    requires links[i].fromDisplay == links[j].fromDisplay && links[i].fromEdge == links[j].fromEdge
    requires links[i].fromSpan == links[j].fromSpan
    ensures i == j
  {
    assert Overlap(links[i], links[j]) && Overlap(links[j], links[i]);
  }

  // Reversal pairs every link with exactly one other, and back.
  lemma ReversalIsAnInvolution(links: seq<EdgeLink>, owners: map<nat, nat>, i: nat)
    requires Checked(links, owners) && i < |links|
    ensures Partner(links, Partner(links, i)) == i
    ensures Partner(links, i) != i
    ensures forall j | 0 <= j < |links| :: Reverses(links[i], links[j]) <==> j == Partner(links, i)
  {
    var p := Partner(links, i);
    assert links[i].fromDisplay != links[i].toDisplay;
    hide Reciprocal; hide Apart; hide AcrossComputers; hide Spanned; hide Partner;
    forall j | 0 <= j < |links| && Reverses(links[i], links[j]) ensures j == p { OnlyOne(links, j, p); }
    OnlyOne(links, i, Partner(links, p));
  }

  // ----- counting

  ghost function Indices(n: nat): (s: set<nat>)
    ensures forall i: nat :: i in s <==> i < n
    ensures |s| == n
  {
    if n == 0 then {} else Indices(n - 1) + {n - 1}
  }

  lemma {:induction false} ImageCount<T(!new)>(s: set<nat>, image: seq<T>)
    requires forall x | x in s :: x < |image|
    requires forall x, y | x in s && y in s && image[x] == image[y] :: x == y
    ensures |set x | x in s :: image[x]| == |s|
  {
    if s != {} {
      var x :| x in s;
      ImageCount(s - {x}, image);
      assert (set y | y in s :: image[y]) == (set y | y in s - {x} :: image[y]) + {image[x]};
    }
  }

  // `partner` pairs the indices off: nobody is their own partner.
  ghost predicate PairsOff(partner: seq<nat>) {
    forall i | 0 <= i < |partner| :: partner[i] < |partner| && partner[i] != i && partner[partner[i]] == i
  }

  ghost function Earlier(partner: seq<nat>): (s: set<nat>) {
    set i | i in Indices(|partner|) && i < partner[i]
  }

  ghost function Later(partner: seq<nat>): (s: set<nat>)
    requires PairsOff(partner)
  {
    set i | i in Indices(|partner|) && partner[i] < i
  }

  lemma PartnersDiffer(partner: seq<nat>, x: nat, y: nat)
    requires PairsOff(partner) && x < |partner| && y < |partner| && partner[x] == partner[y]
    ensures x == y
  {
    assert partner[partner[x]] == x && partner[partner[y]] == y;
  }

  lemma EarlierMeetsLater(partner: seq<nat>)
    requires PairsOff(partner)
    ensures (set i | i in Earlier(partner) :: partner[i]) == Later(partner)
  {
    forall j | j in Later(partner) ensures j in (set i | i in Earlier(partner) :: partner[i]) {
      assert partner[j] in Earlier(partner) && partner[partner[j]] == j;
    }
  }

  // A pairing splits the indices in halves.
  lemma PairingHalves(partner: seq<nat>)
    requires PairsOff(partner)
    ensures |partner| == 2 * |Earlier(partner)|
  {
    var first, second := Earlier(partner), Later(partner);
    assert first + second == Indices(|partner|) && first !! second;
    EarlierMeetsLater(partner);
    forall x, y | x in first && y in first && partner[x] == partner[y] ensures x == y { PartnersDiffer(partner, x, y); }
    hide PairsOff;
    hide Later;
    ImageCount(first, partner);
  }

  // A crossing is a link with its reverse, named by the earlier of the two.
  ghost function CrossingsOf(links: seq<EdgeLink>): set<(nat, nat)> {
    set i, j | i in Indices(|links|) && j in Indices(|links|) && i < j && Reverses(links[i], links[j]) :: (i, j)
  }

  ghost function Partners(links: seq<EdgeLink>): seq<nat>
    requires Reciprocal(links)
  {
    seq(|links|, i requires 0 <= i < |links| => Partner(links, i))
  }

  // The crossings a record's view shows, half its links, are all of them, each once.
  lemma HalfTheLinksAreTheCrossings(links: seq<EdgeLink>, owners: map<nat, nat>)
    requires Checked(links, owners)
    ensures |links| == 2 * |CrossingsOf(links)|
  {
    hide Checked;
    Passed(links, owners);
    hide Reciprocal;
    hide Reverses;
    hide PairsOff;
    hide Partners;
    hide CrossingsOf;
    hide Earlier;
    hide TellsReverses;
    PartnersPairOff(links, owners);
    PairingHalves(Partners(links));
    PairsCount(links, Partners(links));
  }

  lemma Passed(links: seq<EdgeLink>, owners: map<nat, nat>)
    requires Checked(links, owners)
    ensures Reciprocal(links)
  {
  }

  ghost predicate TellsReverses(links: seq<EdgeLink>, partner: seq<nat>)
    requires |partner| == |links|
  {
    forall i: nat, j: nat | i < |links| && j < |links| :: Reverses(links[i], links[j]) <==> j == partner[i]
  }

  lemma PartnersPairOff(links: seq<EdgeLink>, owners: map<nat, nat>)
    requires Checked(links, owners)
    ensures |Partners(links)| == |links| && PairsOff(Partners(links)) && TellsReverses(links, Partners(links))
  {
    hide Checked;
    Passed(links, owners);
    hide Reciprocal;
    hide Reverses;
    forall i: nat | i < |links|
      ensures Partner(links, i) != i && Partner(links, Partner(links, i)) == i
      ensures forall j: nat | j < |links| :: Reverses(links[i], links[j]) <==> j == Partner(links, i)
    {
      ReversalIsAnInvolution(links, owners, i);
    }
    hide Partner;
  }

  lemma PairsCount(links: seq<EdgeLink>, partner: seq<nat>)
    requires |partner| == |links| && PairsOff(partner) && TellsReverses(links, partner)
    ensures |CrossingsOf(links)| == |Earlier(partner)|
  {
    hide Reverses;
    var first := Earlier(partner);
    var pairs := seq(|links|, i requires 0 <= i < |links| => (i, partner[i]));
    ImageCount(first, pairs);
    assert CrossingsOf(links) == set i | i in first :: pairs[i] by {
      forall c | c in CrossingsOf(links) ensures c in (set i | i in first :: pairs[i]) { assert pairs[c.0] == c && c.0 in first; }
      forall i | i in first ensures pairs[i] in CrossingsOf(links) {
        assert pairs[i] == (i, partner[i]) && Reverses(links[i], links[partner[i]]);
      }
    }
  }

  // ----- points of an edge

  // Half-open, except that the last span of an edge takes the edge's end.
  predicate Contains(span: Span, position: real) {
    position >= span.start && (position < span.end || (span.end == 1.0 && position == 1.0))
  }

  predicate LeavesAt(link: EdgeLink, display: nat, edge: Edge, position: real) {
    link.fromDisplay == display && link.fromEdge == edge && Contains(link.fromSpan, position)
  }

  // A pointer leaving a display at any point has at most one way to go.
  lemma OneWayOut(links: seq<EdgeLink>, display: nat, edge: Edge, position: real, i: nat, j: nat)
    requires Spanned(links) && Apart(links) && i < |links| && j < |links|
    requires LeavesAt(links[i], display, edge, position) && LeavesAt(links[j], display, edge, position)
    ensures i == j
  {
    assert Overlap(links[i], links[j]) && Overlap(links[j], links[i]);
  }

  // ----- valid records

  lemma ParsedSpanned(links: seq<LinkRequest>)
    requires forall i | 0 <= i < |links| :: ParseLink(links[i]).Some?
    ensures Spanned(Parsed(links))
  {
    forall i | 0 <= i < |links| ensures 0.0 <= Parsed(links)[i].fromSpan.start < Parsed(links)[i].fromSpan.end <= 1.0 {
      assert ParseLink(links[i]).Some?;
    }
  }

  lemma LinksChecked(links: seq<LinkRequest>, members: seq<Member>)
    requires ValidMembers(members) && ValidLinks(links, members)
    ensures (forall i | 0 <= i < |links| :: ParseLink(links[i]).Some?) && exists owners :: Checked(Parsed(links), owners)
  {
    ParsedSpanned(links);
    hide ParseLink; hide Parsed; hide Reciprocal; hide Apart; hide Spanned; hide OwnerMap; hide AcrossComputers;
    assert forall i, j | 0 <= i < |members| && 0 <= j < |members[i].displays| ::
        DisplayAt(members, i, j) == members[i].displays[j];
    assert Checked(Parsed(links), OwnerMap(members));
  }

  // A record that passed its check has links all of this is true of; `links.len() / 2` counts its
  // crossings.
  lemma ValidRecordsCount(r: Record)
    requires Check(r)
    ensures (forall i | 0 <= i < |r.layout.links| :: ParseLink(r.layout.links[i]).Some?)
    ensures |CrossingsOf(Parsed(r.layout.links))| == |r.layout.links| / 2
  {
    hide ValidLinks; hide ValidMembers; hide ValidArrangement; hide ValidControl; hide Names;
    LinksChecked(r.layout.links, r.members);
    var owners :| Checked(Parsed(r.layout.links), owners);
    HalfTheLinksAreTheCrossings(Parsed(r.layout.links), owners);
  }
}
