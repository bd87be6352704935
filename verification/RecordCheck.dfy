/** A record's check as it runs: an owner map filled display by display, then the links. */
module RecordCheck {
  import opened Prelude
  import opened Orders
  import opened Records
  import opened Adapting
  import opened Surviving
  import opened Refitting
  import opened Rejoining
  import opened Crossings

  // ----- who shows each display number

  ghost predicate Shows(displays: seq<Display>, n: nat) {
    exists d :: d in displays && ParseDisplay(d.id) == Some(n)
  }

  ghost predicate AnyShows(members: seq<Member>, n: nat) {
    exists i :: 0 <= i < |members| && Shows(members[i].displays, n)
  }

  lemma ValidIsCanonical(displays: seq<Display>)
    requires ValidDisplays(displays)
    ensures Snapshot(displays)
  {
  }

  lemma MembersCanonical(members: seq<Member>)
    requires forall i | 0 <= i < |members| :: ValidDisplays(members[i].displays)
    ensures AllCanonical(members)
    ensures forall i, j | 0 <= i < |members| && 0 <= j < |members[i].displays| :: ParseDisplay(DisplayAt(members, i, j).id).Some?
  {
    hide ValidDisplays;
    forall i | 0 <= i < |members| ensures Snapshot(members[i].displays) { ValidIsCanonical(members[i].displays); }
    AllParse(members);
  }

  lemma {:induction false} OwnersExactly(members: seq<Member>, n: nat)
    requires AllCanonical(members)
    ensures forall i, j | 0 <= i < |members| && 0 <= j < |members[i].displays| :: ParseDisplay(DisplayAt(members, i, j).id).Some?
    ensures n in OwnerMap(members) <==> AnyShows(members, n)
  {
    hide ParseDisplay;
    AllParse(members);
    if members != [] {
      var last := |members| - 1;
      assert forall i, j | 0 <= i < last && 0 <= j < |members[i].displays| :: DisplayAt(members[..last], i, j) == DisplayAt(members, i, j);
      OwnersExactly(members[..last], n);
      OwnedByExactly(members[last].displays, last, n);
      assert forall i | 0 <= i < last :: members[..last][i] == members[i];
      if Shows(members[last].displays, n) { assert AnyShows(members, n); }
      if AnyShows(members[..last], n) {
        var i :| 0 <= i < last && Shows(members[..last][i].displays, n);
        assert Shows(members[i].displays, n);
      }
    }
  }

  function Numbers(displays: seq<Display>): (numbers: seq<nat>)
    requires forall j | 0 <= j < |displays| :: ParseDisplay(displays[j].id).Some?
    ensures |numbers| == |displays|
  {
    seq(|displays|, j requires 0 <= j < |displays| => ParseDisplay(displays[j].id).value)
  }

  function Owning(owners: map<nat, nat>, numbers: seq<nat>, index: nat): map<nat, nat> {
    if numbers == [] then owners else Owning(owners, numbers[..|numbers| - 1], index)[numbers[|numbers| - 1] := index]
  }

  lemma {:induction false} OwningExactly(owners: map<nat, nat>, numbers: seq<nat>, index: nat, n: nat)
    ensures n in Owning(owners, numbers, index) <==> n in owners || n in numbers
    ensures n in numbers ==> Owning(owners, numbers, index)[n] == index
    ensures n !in numbers && n in owners ==> Owning(owners, numbers, index)[n] == owners[n]
  {
    if numbers != [] {
      assert numbers == numbers[..|numbers| - 1] + [numbers[|numbers| - 1]];
      OwningExactly(owners, numbers[..|numbers| - 1], index, n);
    }
  }

  predicate Unowned(owners: map<nat, nat>, numbers: seq<nat>) {
    forall j | 0 <= j < |numbers| :: numbers[j] !in owners
  }

  predicate AllDifferent(numbers: seq<nat>) {
    forall i, j | 0 <= i < j < |numbers| :: numbers[i] != numbers[j]
  }

  // The map grows number by number, and a number already in it refuses the record.
  method AddOwned(owners: map<nat, nat>, numbers: seq<nat>, index: nat) returns (more: Option<map<nat, nat>>)
    requires AllDifferent(numbers)
    ensures more.Some? <==> Unowned(owners, numbers)
    ensures more.Some? ==> more.value == Owning(owners, numbers, index)
  {
    var owned, j := owners, 0;
    while j < |numbers|
      invariant 0 <= j <= |numbers|
      invariant owned == Owning(owners, numbers[..j], index)
      invariant forall k | 0 <= k < j :: numbers[k] !in owners
    {
      OwningExactly(owners, numbers[..j], index, numbers[j]);
      assert numbers[j] !in numbers[..j];
      if numbers[j] in owned { return None; }
      assert numbers[..j + 1][..j] == numbers[..j];
      owned := owned[numbers[j] := index];
      j := j + 1;
    }
    assert numbers[..j] == numbers;
    return Some(owned);
  }

  lemma NumbersDiffer(displays: seq<Display>)
    requires Snapshot(displays)
    ensures forall j | 0 <= j < |displays| :: ParseDisplay(displays[j].id).Some?
    ensures AllDifferent(Numbers(displays))
  {
    assert forall j | 0 <= j < |displays| :: ParseDisplay(displays[j].id).Some?;
    var numbers := Numbers(displays);
    forall i, j | 0 <= i < j < |numbers| ensures numbers[i] != numbers[j] {
      if numbers[i] == numbers[j] { CanonicalIsUnique(displays[i].id, displays[j].id); }
    }
  }

  lemma OwnedKeys(displays: seq<Display>, index: nat, n: nat)
    requires forall j | 0 <= j < |displays| :: ParseDisplay(displays[j].id).Some?
    ensures n in OwnedBy(displays, index) <==> n in Numbers(displays)
    ensures n in OwnedBy(displays, index) ==> OwnedBy(displays, index)[n] == index
  {
    hide ParseDisplay;
    var numbers, mine := Numbers(displays), OwnedBy(displays, index);
    if n in mine { var j :| 0 <= j < |displays| && ParseDisplay(displays[j].id).value == n; assert numbers[j] == n; }
    if n in numbers { var j :| 0 <= j < |numbers| && numbers[j] == n; assert ParseDisplay(displays[j].id).value in mine; }
  }

  lemma OwningNumbers(owners: map<nat, nat>, displays: seq<Display>, index: nat)
    requires forall j | 0 <= j < |displays| :: ParseDisplay(displays[j].id).Some?
    ensures owners + OwnedBy(displays, index) == Owning(owners, Numbers(displays), index)
  {
    hide ParseDisplay;
    hide OwnedBy;
    hide Numbers;
    hide Owning;
    var sum, all := owners + OwnedBy(displays, index), Owning(owners, Numbers(displays), index);
    forall n: nat ensures (n in all <==> n in sum) && (n in all ==> all[n] == sum[n]) {
      OwnedKeys(displays, index, n);
      OwningExactly(owners, Numbers(displays), index, n);
    }
  }

  // ----- the members

  predicate Follows(members: seq<Member>, m: Member) {
    members != [] ==> CompareText(Key(members[|members| - 1].fingerprint), Key(m.fingerprint)).Less?
  }

  lemma MembersPrefix(members: seq<Member>, i: nat)
    requires ValidMembers(members) && i <= |members|
    ensures ValidMembers(members[..i])
  {
    hide ValidFingerprint;
    hide ValidDisplays;
    hide Key;
    hide CompareText;
    DistinctPrefix(members, i);
    var prefix := members[..i];
    assert forall k | 0 <= k < i :: prefix[k] == members[k];
    hide DistinctAcross;
  }

  lemma DistinctPrefix(members: seq<Member>, i: nat)
    requires DistinctAcross(members) && i <= |members|
    ensures DistinctAcross(members[..i])
  {
    var prefix := members[..i];
    assert forall k, j | 0 <= k < i && 0 <= j < |members[k].displays| :: DisplayAt(prefix, k, j) == DisplayAt(members, k, j);
  }

  lemma MembersNext(members: seq<Member>, m: Member)
    requires ValidMembers(members) && ValidDisplays(m.displays)
    ensures AllCanonical(members) && Snapshot(m.displays)
    ensures forall i, j | 0 <= i < |members| && 0 <= j < |members[i].displays| :: ParseDisplay(DisplayAt(members, i, j).id).Some?
    ensures forall j | 0 <= j < |m.displays| :: ParseDisplay(m.displays[j].id).Some?
    ensures ValidMembers(members + [m]) <==>
            ValidFingerprint(m.fingerprint) && Follows(members, m) && Unowned(OwnerMap(members), Numbers(m.displays))
  {
    hide ParseDisplay;
    hide ValidDisplays;
    hide Key;
    MembersCanonical(members);
    ValidIsCanonical(m.displays);
    NumbersDiffer(m.displays);
    hide Snapshot;
    hide OwnerMap;
    DistinctNext(members, m);
    var all := members + [m];
    assert all[|members|] == m && forall k | 0 <= k < |members| :: all[k] == members[k];
  }

  lemma DistinctNext(members: seq<Member>, m: Member)
    requires DistinctAcross(members) && AllCanonical(members) && Snapshot(m.displays)
    ensures forall i, j | 0 <= i < |members| && 0 <= j < |members[i].displays| :: ParseDisplay(DisplayAt(members, i, j).id).Some?
    ensures forall j | 0 <= j < |m.displays| :: ParseDisplay(m.displays[j].id).Some?
    ensures DistinctAcross(members + [m]) <==> Unowned(OwnerMap(members), Numbers(m.displays))
  {
    hide ParseDisplay;
    AllParse(members);
    NumbersDiffer(m.displays);
    if Unowned(OwnerMap(members), Numbers(m.displays)) { DistinctFrom(members, m); }
    if DistinctAcross(members + [m]) {
      forall j | 0 <= j < |m.displays| ensures Numbers(m.displays)[j] !in OwnerMap(members) { UnownedFrom(members, m, j); }
    }
  }

  lemma UnownedFrom(members: seq<Member>, m: Member, j: nat)
    requires DistinctAcross(members + [m]) && AllCanonical(members) && Snapshot(m.displays) && j < |m.displays|
    ensures forall i, k | 0 <= i < |members| && 0 <= k < |members[i].displays| :: ParseDisplay(DisplayAt(members, i, k).id).Some?
    ensures ParseDisplay(m.displays[j].id).Some? && ParseDisplay(m.displays[j].id).value !in OwnerMap(members)
  {
    hide ParseDisplay;
    hide OwnerMap;
    AllParse(members);
    CanonicalId(m.displays, m.displays[j]);
    var n, all := ParseDisplay(m.displays[j].id).value, members + [m];
    OwnersExactly(members, n);
    if AnyShows(members, n) {
      var i :| 0 <= i < |members| && Shows(members[i].displays, n);
      var d :| d in members[i].displays && ParseDisplay(d.id) == Some(n);
      assert all[i] == members[i] && all[|members|] == m;
      CanonicalId(members[i].displays, d);
      CanonicalIsUnique(d.id, m.displays[j].id);
      SameDisplay(all, i, d, |members|, m.displays[j]);
    }
  }

  lemma DistinctFrom(members: seq<Member>, m: Member)
    requires DistinctAcross(members) && AllCanonical(members) && Snapshot(m.displays)
    requires forall i, j | 0 <= i < |members| && 0 <= j < |members[i].displays| :: ParseDisplay(DisplayAt(members, i, j).id).Some?
    requires forall j | 0 <= j < |m.displays| :: ParseDisplay(m.displays[j].id).Some?
    requires Unowned(OwnerMap(members), Numbers(m.displays))
    ensures DistinctAcross(members + [m])
  {
    hide ParseDisplay;
    hide OwnerMap;
    var all := members + [m];
    forall i, j, k, l | 0 <= i < |all| && 0 <= j < |all[i].displays| && 0 <= k < |all| && 0 <= l < |all[k].displays|
      && DisplayAt(all, i, j).id == DisplayAt(all, k, l).id
      ensures i == k && j == l
    {
      if i < |members| && k < |members| {
        assert DisplayAt(members, i, j) == DisplayAt(all, i, j) && DisplayAt(members, k, l) == DisplayAt(all, k, l);
      } else if i < |members| {
        NotOwned(members, m, i, j, l);
      } else if k < |members| {
        NotOwned(members, m, k, l, j);
      }
    }
  }

  // No display of the new member is one already owned.
  lemma NotOwned(members: seq<Member>, m: Member, i: nat, j: nat, l: nat)
    requires AllCanonical(members) && i < |members| && j < |members[i].displays| && l < |m.displays|
    requires forall k, h | 0 <= k < |members| && 0 <= h < |members[k].displays| :: ParseDisplay(DisplayAt(members, k, h).id).Some?
    requires forall k | 0 <= k < |m.displays| :: ParseDisplay(m.displays[k].id).Some?
    requires Unowned(OwnerMap(members), Numbers(m.displays))
    ensures members[i].displays[j].id != m.displays[l].id
  {
    hide ParseDisplay;
    hide OwnerMap;
    var n := Numbers(m.displays)[l];
    OwnersExactly(members, n);
    assert !Shows(members[i].displays, n);
    assert members[i].displays[j] in members[i].displays;
  }

  method OwnersOf(members: seq<Member>) returns (owners: Option<map<nat, nat>>)
    ensures owners.Some? <==> ValidMembers(members)
    ensures owners.Some? ==> owners.value == Owners(members)
  {
    hide ValidMembers;
    hide ValidDisplays;
    hide OwnerMap;
    hide ParseDisplay;
    hide ValidFingerprint;
    hide Key;
    var filled, i := map[], 0;
    NoMembers();
    while i < |members|
      invariant 0 <= i <= |members|
      invariant ValidMembers(members[..i]) && filled == Owners(members[..i])
    {
      var m := members[i];
      assert members[..i + 1] == members[..i] + [m];
      if ValidMembers(members) { MembersPrefix(members, i + 1); MemberFine(members, i); }
      if !ValidFingerprint(m.fingerprint) || !ValidDisplays(m.displays) { return None; }
      MembersNext(members[..i], m);
      if i > 0 && !CompareText(Key(members[i - 1].fingerprint), Key(m.fingerprint)).Less? { return None; }
      NumbersDiffer(m.displays);
      var more := AddOwned(filled, Numbers(m.displays), i);
      if more.None? { return None; }
      OwnersNext(members[..i], m);
      filled := more.value;
      i := i + 1;
    }
    assert members[..i] == members;
    return Some(filled);
  }

  lemma NoMembers()
    ensures ValidMembers([]) && Owners([]) == map[]
  {
  }

  lemma MemberFine(members: seq<Member>, i: nat)
    requires ValidMembers(members) && i < |members|
    ensures ValidFingerprint(members[i].fingerprint) && ValidDisplays(members[i].displays)
  {
  }

  lemma OwnersNext(members: seq<Member>, m: Member)
    requires ValidMembers(members) && ValidMembers(members + [m])
    ensures forall j | 0 <= j < |m.displays| :: ParseDisplay(m.displays[j].id).Some?
    ensures Owners(members + [m]) == Owning(Owners(members), Numbers(m.displays), |members|)
  {
    hide ParseDisplay;
    var all := members + [m];
    MemberFine(all, |members|);
    hide ValidMembers;
    hide ValidDisplays;
    ValidIsCanonical(m.displays);
    NumbersDiffer(m.displays);
    OwningNumbers(Owners(members), m.displays, |members|);
    assert all[..|members|] == members;
  }

  // ----- as many numbers as names

  ghost function Written(numbers: set<nat>): set<string> {
    set n | n in numbers :: Decimal(n)
  }

  lemma {:induction false} WrittenCount(numbers: set<nat>)
    requires forall n | n in numbers :: ParseDisplay(Decimal(n)) == Some(n)
    ensures |Written(numbers)| == |numbers|
  {
    hide ParseDisplay;
    hide Decimal;
    if numbers == {} {
      assert Written(numbers) == {};
    } else {
      var k :| k in numbers;
      var rest := numbers - {k};
      WrittenCount(rest);
      assert Decimal(k) !in Written(rest);
      assert Written(numbers) == Written(rest) + {Decimal(k)};
    }
  }

  lemma NumbersAreNames(members: seq<Member>)
    requires ValidMembers(members)
    ensures |Owners(members)| == |Names(members)|
  {
    hide ParseDisplay;
    hide Decimal;
    hide ValidMembers;
    hide Owners;
    hide Names;
    var owners := Owners(members);
    forall n | n in owners ensures ParseDisplay(Decimal(n)) == Some(n) && Decimal(n) in Names(members) { OwnedIsNamed(members, n); }
    forall id | id in Names(members) ensures id in Written(owners.Keys) { var n := NamedIsOwned(members, id); }
    WrittenCount(owners.Keys);
    assert Written(owners.Keys) == Names(members);
  }

  lemma OwnedIsNamed(members: seq<Member>, n: nat)
    requires ValidMembers(members) && n in Owners(members)
    ensures ParseDisplay(Decimal(n)) == Some(n) && Decimal(n) in Names(members)
  {
    hide ParseDisplay;
    hide Decimal;
    hide OwnerMap;
    MembersCanonical(members);
    OwnersExactly(members, n);
    var i :| 0 <= i < |members| && Shows(members[i].displays, n);
    var d :| d in members[i].displays && ParseDisplay(d.id) == Some(n);
    CanonicalId(members[i].displays, d);
    var j :| 0 <= j < |members[i].displays| && members[i].displays[j] == d;
    assert members[i].displays[j].id in Names(members);
  }

  lemma NamedIsOwned(members: seq<Member>, id: string) returns (n: nat)
    requires ValidMembers(members) && id in Names(members)
    ensures n in Owners(members) && Decimal(n) == id
  {
    hide ParseDisplay;
    hide Decimal;
    hide OwnerMap;
    MembersCanonical(members);
    var i, j :| 0 <= i < |members| && 0 <= j < |members[i].displays| && members[i].displays[j].id == id;
    var d := members[i].displays[j];
    CanonicalId(members[i].displays, d);
    n := ParseDisplay(d.id).value;
    assert Shows(members[i].displays, n);
    OwnersExactly(members, n);
  }

  // ----- the whole check

  method ParseLinks(links: seq<LinkRequest>) returns (parsed: Option<seq<EdgeLink>>)
    ensures parsed.Some? <==> AllParsed(links)
    ensures parsed.Some? ==> parsed.value == Parsed(links)
  {
    hide ParseLink;
    var done, i := [], 0;
    while i < |links|
      invariant 0 <= i <= |links|
      invariant AllParsed(links[..i]) && done == Parsed(links[..i])
    {
      var link := ParseLink(links[i]);
      if link.None? { return None; }
      assert links[..i + 1] == links[..i] + [links[i]];
      done := done + [link.value];
      i := i + 1;
    }
    assert links[..i] == links;
    return Some(done);
  }

  // A record passes exactly when it is valid.
  method CheckRecord(r: Record, admits: Record -> bool) returns (ok: bool)
    ensures ok <==> Valid(r, admits)
  {
    hide ValidMembers;
    hide ValidArrangement;
    hide ValidControl;
    hide Names;
    hide OwnerMap;
    hide Reciprocal;
    hide Apart;
    hide AcrossComputers;
    hide ParseLink;
    if r.version != RECORD_VERSION || r.revision == 0 || !(2 <= |r.members| <= MAX_MEMBERS) { return false; }
    var known := IsMember(r);
    if !known { return false; }
    var owners := OwnersOf(r.members);
    if owners.None? { return false; }
    NumbersAreNames(r.members);
    if |owners.value| > MAX_DISPLAYS || |r.layout.links| > MAX_LINKS { return false; }
    var links := ParseLinks(r.layout.links);
    if links.None? || links.value == [] { return false; }
    if !ValidArrangement(r.layout, r.members) || !ValidControl(r.layout.control, r.members) { return false; }
    var crossings := CheckCrossings(links.value, owners.value);
    return crossings && admits(r);
  }

  method IsMember(r: Record) returns (known: bool)
    ensures known <==> exists i | 0 <= i < |r.members| :: r.members[i].fingerprint == r.author
  {
    for i := 0 to |r.members|
      invariant forall k | 0 <= k < i :: r.members[k].fingerprint != r.author
    {
      if r.members[i].fingerprint == r.author { return true; }
    }
    return false;
  }
}
