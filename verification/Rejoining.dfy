/** The crossings a tidy rebuild keeps still work both ways, lie apart and join two computers. */
module Rejoining {
  import opened Prelude
  import opened Records
  import opened Matching
  import opened Adapting
  import opened Surviving
  import opened Refitting

  // Display number `n` of member `i` is display number `m` now.
  ghost predicate Carries(members: seq<Member>, changes: seq<Option<Shown>>, i: int, n: nat, m: nat)
    requires |members| == |changes|
  {
    exists d, e :: At(members, changes, i, d, e) && ParseDisplay(d.id) == Some(n) && ParseDisplay(e.id) == Some(m)
  }

  // Before and after, ids are sound.
  ghost predicate BothSound(members: seq<Member>, changes: seq<Option<Shown>>) {
    Sound(members, changes) && DistinctAcross(NewMembers(members, changes))
  }

  lemma NowCanonical(members: seq<Member>, changes: seq<Option<Shown>>, i: int, d: Display, e: Display)
    requires Sound(members, changes) && At(members, changes, i, d, e)
    ensures Canonical(d.id) && Canonical(e.id) && e in NewMembers(members, changes)[i].displays
  {
    hide AllPairs;
    hide Canonical;
    LivingIsListed(members, changes, i, d, e);
    RenameLiving(members, changes, i, d, e);
    KeptIsCanonical(members, changes, e.id);
  }

  lemma CarriesOn(members: seq<Member>, changes: seq<Option<Shown>>, i: int, n: nat, m: nat, i': int, m': nat)
    requires BothSound(members, changes)
    requires Carries(members, changes, i, n, m) && Carries(members, changes, i', n, m')
    ensures i == i' && m == m'
  {
    hide Pairs;
    hide Canonical;
    var d, e :| At(members, changes, i, d, e) && ParseDisplay(d.id) == Some(n) && ParseDisplay(e.id) == Some(m);
    var d', e' :| At(members, changes, i', d', e') && ParseDisplay(d'.id) == Some(n) && ParseDisplay(e'.id) == Some(m');
    NowCanonical(members, changes, i, d, e);
    NowCanonical(members, changes, i', d', e');
    CanonicalIsUnique(d.id, d'.id);
    SameDisplay(members, i, d, i', d');
    if changes[i].Some? { PairingIsOneToOne(members[i].displays, changes[i].value.displays, (d, e), (d', e')); }
  }

  lemma CarriesBack(members: seq<Member>, changes: seq<Option<Shown>>, i: int, n: nat, m: nat, i': int, n': nat)
    requires BothSound(members, changes)
    requires Carries(members, changes, i, n, m) && Carries(members, changes, i', n', m)
    ensures i == i' && n == n'
  {
    hide Pairs;
    hide Canonical;
    var d, e :| At(members, changes, i, d, e) && ParseDisplay(d.id) == Some(n) && ParseDisplay(e.id) == Some(m);
    var d', e' :| At(members, changes, i', d', e') && ParseDisplay(d'.id) == Some(n') && ParseDisplay(e'.id) == Some(m);
    NowCanonical(members, changes, i, d, e);
    NowCanonical(members, changes, i', d', e');
    CanonicalIsUnique(e.id, e'.id);
    SameDisplay(NewMembers(members, changes), i, e, i', e');
    if changes[i].Some? { PairingIsOneToOne(members[i].displays, changes[i].value.displays, (d, e), (d', e')); }
  }

  // ----- a crossing, carried

  ghost predicate Carried(members: seq<Member>, changes: seq<Option<Shown>>, from: int, to: int, link: EdgeLink, now: EdgeLink)
    requires |members| == |changes|
  {
    && Carries(members, changes, from, link.fromDisplay, now.fromDisplay)
    && Carries(members, changes, to, link.toDisplay, now.toDisplay)
    && now.fromEdge == link.fromEdge && now.fromSpan == link.fromSpan
    && now.toEdge == link.toEdge && now.toSpan == link.toSpan && now.hysteresis == link.hysteresis
  }

  lemma ReversesCarried(members: seq<Member>, changes: seq<Option<Shown>>, a: int, b: int, c: int, d: int,
                        link: EdgeLink, now: EdgeLink, other: EdgeLink, otherNow: EdgeLink)
    requires BothSound(members, changes) && Reverses(link, other)
    requires Carried(members, changes, a, b, link, now) && Carried(members, changes, c, d, other, otherNow)
    ensures Reverses(now, otherNow)
  {
    hide Carries;
    hide BothSound;
    CarriesOn(members, changes, a, link.fromDisplay, now.fromDisplay, d, otherNow.toDisplay);
    CarriesOn(members, changes, b, link.toDisplay, now.toDisplay, c, otherNow.fromDisplay);
  }

  lemma OverlapCarried(members: seq<Member>, changes: seq<Option<Shown>>, a: int, b: int, c: int, d: int,
                       link: EdgeLink, now: EdgeLink, other: EdgeLink, otherNow: EdgeLink)
    requires BothSound(members, changes) && Overlap(now, otherNow)
    requires Carried(members, changes, a, b, link, now) && Carried(members, changes, c, d, other, otherNow)
    ensures Overlap(link, other)
  {
    hide Carries;
    hide BothSound;
    CarriesBack(members, changes, a, link.fromDisplay, now.fromDisplay, c, other.fromDisplay);
  }

  lemma CarryEnd(members: seq<Member>, changes: seq<Option<Shown>>, id: string) returns (i: int, m: nat)
    requires Sound(members, changes) && Survives(members, changes, id) && Listed(members, id) && ParseDisplay(id).Some?
    ensures Carries(members, changes, i, ParseDisplay(id).value, m)
    ensures ParseDisplay(Rename(IdMap(AllPairs(members, changes)), id)) == Some(m)
  {
    hide AllPairs;
    hide Names;
    hide Pairs;
    hide Canonical;
    var k, d, e :| At(members, changes, k, d, e) && ParseDisplay(d.id) == ParseDisplay(id);
    NowCanonical(members, changes, k, d, e);
    ListedIsCanonical(members, changes, id);
    CanonicalIsUnique(id, d.id);
    RenameLiving(members, changes, k, d, e);
    CanonicalParses(e.id);
    i, m := k, ParseDisplay(e.id).value;
  }

  lemma CanonicalParses(id: string)
    requires Canonical(id)
    ensures ParseDisplay(id).Some?
  {
  }

  lemma CarryLink(members: seq<Member>, changes: seq<Option<Shown>>, link: LinkRequest) returns (from: int, to: int)
    requires BothSound(members, changes) && ParseLink(link).Some? && BothSurvive(members, changes, link)
    requires Listed(members, link.fromDisplay) && Listed(members, link.toDisplay)
    ensures var now := ParseLink(RenameLink(IdMap(AllPairs(members, changes)), link));
            now.Some? && Carried(members, changes, from, to, ParseLink(link).value, now.value)
  {
    hide AllPairs;
    hide IdMap;
    hide Rename;
    hide Carries;
    hide ParseDisplay;
    hide Listed;
    hide Survives;
    var m, m';
    from, m := CarryEnd(members, changes, link.fromDisplay);
    to, m' := CarryEnd(members, changes, link.toDisplay);
    if m == m' { CarriesBack(members, changes, from, ParseLink(link).value.fromDisplay, m, to, ParseLink(link).value.toDisplay); }
  }

  // ----- who owns a display

  ghost predicate AllCanonical(members: seq<Member>) {
    forall i | 0 <= i < |members| :: Snapshot(members[i].displays)
  }

  lemma AllParse(members: seq<Member>)
    requires AllCanonical(members)
    ensures forall i, j | 0 <= i < |members| && 0 <= j < |members[i].displays| :: ParseDisplay(DisplayAt(members, i, j).id).Some?
  {
    forall i, j | 0 <= i < |members| && 0 <= j < |members[i].displays| ensures ParseDisplay(DisplayAt(members, i, j).id).Some? {
      assert Snapshot(members[i].displays);
    }
  }

  lemma OwnedByExactly(displays: seq<Display>, index: nat, n: nat)
    requires Snapshot(displays)
    ensures forall j | 0 <= j < |displays| :: ParseDisplay(displays[j].id).Some?
    ensures n in OwnedBy(displays, index) <==> exists d :: d in displays && ParseDisplay(d.id) == Some(n)
    ensures n in OwnedBy(displays, index) ==> OwnedBy(displays, index)[n] == index
  {
    if d :| d in displays && ParseDisplay(d.id) == Some(n) {
      var j :| 0 <= j < |displays| && displays[j] == d;
      assert ParseDisplay(displays[j].id).value in OwnedBy(displays, index);
    }
  }

  lemma {:induction false} OwnerIs(members: seq<Member>, i: int, d: Display)
    requires DistinctAcross(members) && AllCanonical(members) && 0 <= i < |members| && d in members[i].displays
    ensures forall k, j | 0 <= k < |members| && 0 <= j < |members[k].displays| :: ParseDisplay(DisplayAt(members, k, j).id).Some?
    ensures ParseDisplay(d.id).Some? && ParseDisplay(d.id).value in OwnerMap(members) && OwnerMap(members)[ParseDisplay(d.id).value] == i
  {
    hide ParseDisplay;
    AllParse(members);
    CanonicalId(members[i].displays, d);
    var last := |members| - 1;
    var n := ParseDisplay(d.id).value;
    OwnedByExactly(members[last].displays, last, n);
    if i < last {
      assert forall k, j | 0 <= k < last && 0 <= j < |members[k].displays| :: DisplayAt(members[..last], k, j) == DisplayAt(members, k, j);
      OwnerIs(members[..last], i, d);
      forall c | c in members[last].displays && ParseDisplay(c.id) == Some(n) ensures false {
        CanonicalId(members[last].displays, c);
        CanonicalIsUnique(c.id, d.id);
        SameDisplay(members, i, d, last, c);
      }
    }
  }

  lemma CanonicalId(displays: seq<Display>, d: Display)
    requires Snapshot(displays) && d in displays
    ensures Canonical(d.id) && ParseDisplay(d.id).Some?
  {
  }

  lemma CarriedOwners(members: seq<Member>, changes: seq<Option<Shown>>, i: int, n: nat, m: nat)
    requires BothSound(members, changes) && Carries(members, changes, i, n, m)
    ensures AllCanonical(members) && AllCanonical(NewMembers(members, changes))
    ensures forall k, j | 0 <= k < |members| && 0 <= j < |members[k].displays| :: ParseDisplay(DisplayAt(members, k, j).id).Some?
    ensures n in OwnerMap(members) && OwnerMap(members)[n] == i
    ensures var rebuilt := NewMembers(members, changes);
            && (forall k, j | 0 <= k < |rebuilt| && 0 <= j < |rebuilt[k].displays| :: ParseDisplay(DisplayAt(rebuilt, k, j).id).Some?)
            && m in OwnerMap(rebuilt) && OwnerMap(rebuilt)[m] == i
  {
    hide ParseDisplay;
    hide OwnerMap;
    hide Pairs;
    var d, e :| At(members, changes, i, d, e) && ParseDisplay(d.id) == Some(n) && ParseDisplay(e.id) == Some(m);
    NowCanonical(members, changes, i, d, e);
    OwnerIs(members, i, d);
    OwnerIs(NewMembers(members, changes), i, e);
  }

  // ----- all of them

  ghost predicate AllParsed(links: seq<LinkRequest>) {
    forall i | 0 <= i < |links| :: ParseLink(links[i]).Some?
  }

  lemma {:induction false} RetainedInOrder<T>(s: seq<T>, keep: T -> bool, i: nat, j: nat) returns (a: nat, b: nat)
    requires i < j < |Retained(s, keep)|
    ensures a < b < |s| && s[a] == Retained(s, keep)[i] && s[b] == Retained(s, keep)[j]
  {
    var last := |s| - 1;
    var before := Retained(s[..last], keep);
    if j < |before| {
      a, b := RetainedInOrder(s[..last], keep, i, j);
    } else {
      b := last;
      RetainedMembers(s[..last], keep, before[i]);
      a :| 0 <= a < last && s[..last][a] == before[i];
    }
  }

  // What is known of each crossing a tidy rebuild keeps.
  lemma KeptOne(r: Record, changes: seq<Option<Shown>>, k: nat) returns (from: int, to: int)
    requires BothSound(r.members, changes) && Tidy(r, changes) && AllParsed(r.layout.links) && k < |CarriedOver(r, changes)|
    ensures KeptLinks(r, changes) == Remapped(CarriedOver(r, changes), IdMap(AllPairs(r.members, changes)))
    ensures var link := CarriedOver(r, changes)[k];
            && link in r.layout.links && ParseLink(link).Some?
            && ParseLink(KeptLinks(r, changes)[k]).Some?
            && Carried(r.members, changes, from, to, ParseLink(link).value, ParseLink(KeptLinks(r, changes)[k]).value)
  {
    hide AllPairs;
    hide ParseLink;
    hide Survives;
    hide Listed;
    hide LinkKept;
    hide Stale;
    hide KeptLinks;
    hide Carried;
    hide BothSound;
    SoundAfterAll(r.members, changes);
    var link := CarriedOver(r, changes)[k];
    CarriedOverIsKept(r, changes);
    RetainedMembers(r.layout.links, (l: LinkRequest) => LinkKept(r.members, changes, l), link);
    LinkKeptExactly(r.members, changes, link);
    from, to := CarryLink(r.members, changes, link);
  }

  lemma SoundAfterAll(members: seq<Member>, changes: seq<Option<Shown>>)
    requires BothSound(members, changes)
    ensures Sound(members, changes)
  {
  }

  lemma ReverseIsCarried(r: Record, changes: seq<Option<Shown>>, link: LinkRequest, other: LinkRequest)
    requires Sound(r.members, changes) && Tidy(r, changes) && link in CarriedOver(r, changes) && other in r.layout.links
    requires ParseLink(link).Some? && ParseLink(other).Some? && Reverses(ParseLink(link).value, ParseLink(other).value)
    ensures other in CarriedOver(r, changes)
  {
    hide AllPairs;
    hide At;
    hide Listed;
    hide LinkKept;
    hide Stale;
    RetainedMembers(r.layout.links, (l: LinkRequest) => LinkKept(r.members, changes, l), link);
    RetainedMembers(r.layout.links, (l: LinkRequest) => LinkKept(r.members, changes, l), other);
    LinkKeptExactly(r.members, changes, link);
    LinkKeptExactly(r.members, changes, other);
  }

  lemma StillReciprocal(r: Record, changes: seq<Option<Shown>>, k: nat)
    requires BothSound(r.members, changes) && Tidy(r, changes) && AllParsed(r.layout.links)
    requires Reciprocal(Parsed(r.layout.links)) && AllParsed(KeptLinks(r, changes)) && k < |KeptLinks(r, changes)|
    ensures HasReverse(Parsed(KeptLinks(r, changes)), ParseLink(KeptLinks(r, changes)[k]).value)
  {
    hide AllPairs;
    hide ParseLink;
    hide KeptLinks;
    hide Tidy;
    hide Carried;
    hide BothSound;
    hide Reverses;
    hide CarriedOver;
    SoundAfterAll(r.members, changes);
    CarriedOverIsKept(r, changes);
    var from, to := KeptOne(r, changes, k);
    var links, now, carried := r.layout.links, KeptLinks(r, changes), CarriedOver(r, changes);
    var a :| 0 <= a < |links| && links[a] == carried[k];
    assert HasReverse(Parsed(links), Parsed(links)[a]);
    var b :| 0 <= b < |links| && Reverses(Parsed(links)[a], Parsed(links)[b]);
    ReverseIsCarried(r, changes, links[a], links[b]);
    var l :| 0 <= l < |carried| && carried[l] == links[b];
    var from', to' := KeptOne(r, changes, l);
    ReversesCarried(r.members, changes, from, to, from', to', Parsed(links)[a], Parsed(now)[k], Parsed(links)[b], Parsed(now)[l]);
  }

  lemma StillApart(r: Record, changes: seq<Option<Shown>>, k: nat, l: nat)
    requires BothSound(r.members, changes) && Tidy(r, changes) && AllParsed(r.layout.links)
    requires Apart(Parsed(r.layout.links)) && AllParsed(KeptLinks(r, changes)) && k < l < |KeptLinks(r, changes)|
    ensures !Overlap(ParseLink(KeptLinks(r, changes)[k]).value, ParseLink(KeptLinks(r, changes)[l]).value)
  {
    hide AllPairs;
    hide ParseLink;
    hide KeptLinks;
    hide Tidy;
    hide Carried;
    hide BothSound;
    hide Overlap;
    SoundAfterAll(r.members, changes);
    CarriedOverIsKept(r, changes);
    var from, to := KeptOne(r, changes, k);
    var from', to' := KeptOne(r, changes, l);
    var links, now := r.layout.links, KeptLinks(r, changes);
    var a, b := RetainedInOrder(links, (link: LinkRequest) => LinkKept(r.members, changes, link), k, l);
    assert !Overlap(Parsed(links)[a], Parsed(links)[b]);
    if Overlap(Parsed(now)[k], Parsed(now)[l]) {
      OverlapCarried(r.members, changes, from, to, from', to', Parsed(links)[a], Parsed(now)[k], Parsed(links)[b], Parsed(now)[l]);
    }
  }

  lemma StillAcross(r: Record, changes: seq<Option<Shown>>, k: nat)
    requires BothSound(r.members, changes) && Tidy(r, changes) && AllParsed(r.layout.links)
    requires AllParsed(KeptLinks(r, changes)) && k < |KeptLinks(r, changes)|
    requires ValidMembers(r.members) && ValidMembers(NewMembers(r.members, changes))
    requires AcrossComputers(Parsed(r.layout.links), Owners(r.members))
    ensures var now, owners := ParseLink(KeptLinks(r, changes)[k]).value, Owners(NewMembers(r.members, changes));
            now.fromDisplay in owners && now.toDisplay in owners && owners[now.fromDisplay] != owners[now.toDisplay]
  {
    hide AllPairs;
    hide ParseLink;
    hide KeptLinks;
    hide Tidy;
    hide BothSound;
    hide Carries;
    hide ValidMembers;
    hide OwnerMap;
    SoundAfterAll(r.members, changes);
    CarriedOverIsKept(r, changes);
    var from, to := KeptOne(r, changes, k);
    var links, carried := r.layout.links, CarriedOver(r, changes);
    var a :| 0 <= a < |links| && links[a] == carried[k];
    var link, now := Parsed(links)[a], ParseLink(KeptLinks(r, changes)[k]).value;
    CarriedOwners(r.members, changes, from, link.fromDisplay, now.fromDisplay);
    CarriedOwners(r.members, changes, to, link.toDisplay, now.toDisplay);
  }

  ghost function Owners(members: seq<Member>): map<nat, nat>
    requires ValidMembers(members)
  {
    assert forall i, j | 0 <= i < |members| && 0 <= j < |members[i].displays| :: DisplayAt(members, i, j) == members[i].displays[j];
    OwnerMap(members)
  }

  lemma ValidIsBothSound(members: seq<Member>, known: Known)
    requires ValidMembers(members) && Snapshots(known) && ValidMembers(NewMembers(members, Changes(members, known)))
    ensures BothSound(members, Changes(members, known))
  {
    ValidIsSound(members, known);
  }

  // A tidy rebuild of a valid record with sound displays never fails for its crossings: whatever is
  // kept parses, works both ways, lies apart and joins two different computers.
  lemma CrossingsStillHold(r: Record, known: Known)
    requires Check(r) && Snapshots(known)
    requires ValidMembers(NewMembers(r.members, Changes(r.members, known))) && Tidy(r, Changes(r.members, known))
    ensures var changes := Changes(r.members, known);
            var links := KeptLinks(r, changes);
            && AllParsed(links) && Reciprocal(Parsed(links)) && Apart(Parsed(links))
            && AcrossComputers(Parsed(links), Owners(NewMembers(r.members, changes)))
  {
    hide AllPairs;
    hide ParseLink;
    hide Tidy;
    hide KeptLinks;
    hide ValidMembers;
    hide BothSound;
    hide Carried;
    hide Overlap;
    hide HasReverse;
    hide CarriedOver;
    hide Names;
    var changes := Changes(r.members, known);
    ValidIsBothSound(r.members, known);
    SoundAfterAll(r.members, changes);
    CarriedOverIsKept(r, changes);
    var links := KeptLinks(r, changes);
    forall k | 0 <= k < |links| ensures ParseLink(links[k]).Some? { var from, to := KeptOne(r, changes, k); }
    forall k | 0 <= k < |links| ensures HasReverse(Parsed(links), Parsed(links)[k]) { StillReciprocal(r, changes, k); }
    forall k, l | 0 <= k < l < |links| ensures !Overlap(Parsed(links)[k], Parsed(links)[l]) { StillApart(r, changes, k, l); }
    var owners := Owners(NewMembers(r.members, changes));
    forall k | 0 <= k < |links|
      ensures Parsed(links)[k].fromDisplay in owners && Parsed(links)[k].toDisplay in owners
           && owners[Parsed(links)[k].fromDisplay] != owners[Parsed(links)[k].toDisplay]
    {
      StillAcross(r, changes, k);
    }
  }
}
