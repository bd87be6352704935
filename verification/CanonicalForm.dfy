/** The canonical form behind a record's content digest: what it forgets, and what it keeps apart. */
module CanonicalForm {
  import opened Prelude
  import opened Orders
  import opened Records

  // ----- display ids in order

  // An id that is no number comes first.
  function CompareNumber(a: Option<nat>, b: Option<nat>): Ordering {
    match (a, b)
    case (None, None) => Equal
    case (None, Some(_)) => Less
    case (Some(_), None) => Greater
    case (Some(x), Some(y)) => CompareNat(x, y)
  }

  function DisplayOrder(a: string, b: string): Ordering {
    CompareNumber(ParseDisplay(a), ParseDisplay(b)).ThenWith(CompareText(a, b))
  }

  // A total order whose only ties are identical texts, in which numbers come last, by value.
  lemma DisplayOrderIsTotal()
    ensures IsTotalOrder(DisplayOrder)
    ensures forall a, b | ParseDisplay(a).None? && ParseDisplay(b).Some? :: DisplayOrder(a, b).Less?
    ensures forall a, b | ParseDisplay(a).Some? && ParseDisplay(b).Some? && ParseDisplay(a).value < ParseDisplay(b).value :: DisplayOrder(a, b).Less?
  {
    CompareTextIsTotalOrder();
  }

  predicate DisplayBefore(a: Display, b: Display) {
    !DisplayOrder(a.id, b.id).Greater?
  }

  predicate PositionBefore(a: Position, b: Position) {
    !DisplayOrder(a.display, b.display).Greater?
  }

  predicate IdBefore(a: string, b: string) {
    !DisplayOrder(a, b).Greater?
  }

  predicate MemberBefore(a: Member, b: Member) {
    !CompareText(Key(a.fingerprint), Key(b.fingerprint)).Greater?
  }

  // ----- the form

  function Blank(display: Display): Display {
    display.(name := "")
  }

  function Blanked(displays: seq<Display>): seq<Display> {
    seq(|displays|, i requires 0 <= i < |displays| => Blank(displays[i]))
  }

  function CanonicalMember(member: Member): Member {
    member.(displays := Blanked(Sort(member.displays, DisplayBefore)))
  }

  function CanonicalMembers(members: seq<Member>): seq<Member> {
    var sorted := Sort(members, MemberBefore);
    seq(|sorted|, i requires 0 <= i < |sorted| => CanonicalMember(sorted[i]))
  }

  // `text` is the JSON text of a crossing.
  function CanonicalLayout(layout: Layout, text: LinkRequest -> string): Layout {
    var links := Sort(layout.links, (a: LinkRequest, b: LinkRequest) => !CompareText(text(a), text(b)).Greater?);
    var arrangement := if layout.arrangement.None? then None else
      Some(Arrangement(Sort(layout.arrangement.value.positions, PositionBefore), Sort(layout.arrangement.value.hidden, IdBefore)));
    Layout(links, arrangement, layout.control)
  }

  datatype Content = Content(members: seq<Member>, layout: Layout)

  function ContentOf(r: Record, text: LinkRequest -> string): Content {
    Content(CanonicalMembers(r.members), CanonicalLayout(r.layout, text))
  }

  // The form built as it is: copies sorted in place, then each member's displays.
  method BuildContent(r: Record, text: LinkRequest -> string) returns (content: Content)
    ensures content == ContentOf(r, text)
  {
    var members := Sort(r.members, MemberBefore);
    var i := 0;
    while i < |members|
      invariant 0 <= i <= |members| == |Sort(r.members, MemberBefore)|
      invariant forall k | 0 <= k < i :: members[k] == CanonicalMember(Sort(r.members, MemberBefore)[k])
      invariant forall k | i <= k < |members| :: members[k] == Sort(r.members, MemberBefore)[k]
    {
      var displays := Sort(members[i].displays, DisplayBefore);
      displays := ClearNames(displays);
      members := members[i := members[i].(displays := displays)];
      i := i + 1;
    }
    content := Content(members, CanonicalLayout(r.layout, text));
  }

  method ClearNames(displays: seq<Display>) returns (cleared: seq<Display>)
    ensures cleared == Blanked(displays)
  {
    cleared := displays;
    var j := 0;
    while j < |cleared|
      invariant 0 <= j <= |cleared| == |displays|
      invariant forall k | 0 <= k < j :: cleared[k] == Blank(displays[k])
      invariant forall k | j <= k < |cleared| :: cleared[k] == displays[k]
    {
      cleared := cleared[j := cleared[j].(name := "")];
      j := j + 1;
    }
  }

  // ----- what two records may differ in

  ghost predicate SameMember(a: Member, b: Member) {
    a.fingerprint == b.fingerprint && a.platform == b.platform && multiset(Blanked(a.displays)) == multiset(Blanked(b.displays))
  }

  ghost predicate SameArrangement(a: Option<Arrangement>, b: Option<Arrangement>) {
    match (a, b)
    case (None, None) => true
    case (Some(x), Some(y)) => multiset(x.positions) == multiset(y.positions) && multiset(x.hidden) == multiset(y.hidden)
    case _ => false
  }

  // Equal but for the order of displays, crossings, positions and hidden ids, display names, and the stamp.
  ghost predicate SameContent(a: Record, b: Record) {
    && |a.members| == |b.members| && (forall i | 0 <= i < |a.members| :: SameMember(a.members[i], b.members[i]))
    && multiset(a.layout.links) == multiset(b.layout.links)
    && SameArrangement(a.layout.arrangement, b.layout.arrangement)
    && a.layout.control == b.layout.control
  }

  // No two of these crossings are written alike.
  ghost predicate TellsApart(text: LinkRequest -> string, links: seq<LinkRequest>) {
    forall x, y | x in links && y in links && text(x) == text(y) :: x == y
  }

  // ----- sorting, part by part

  lemma {:induction false} SortedStays<T(!new)>(s: seq<T>, leq: (T, T) -> bool)
    requires Sorted(s, leq)
    ensures Sort(s, leq) == s
  {
    if s != [] {
      SortedTail(s, leq);
      SortedStays(s[1..], leq);
      assert |s| > 1 ==> leq(s[0], s[1..][0]);
      assert s == [s[0]] + s[1..];
    }
  }

  lemma {:induction false} KeysAscend(members: seq<Member>, i: nat, j: nat)
    requires SortedByKey(members) && i < j < |members|
    ensures CompareText(Key(members[i].fingerprint), Key(members[j].fingerprint)).Less?
  {
    if i + 1 < j {
      KeysAscend(members, i, j - 1);
      CompareSeqChains(Codes(Key(members[i].fingerprint)), Codes(Key(members[j - 1].fingerprint)), Codes(Key(members[j].fingerprint)));
    }
  }

  lemma MembersStay(members: seq<Member>)
    requires SortedByKey(members)
    ensures Sort(members, MemberBefore) == members
  {
    forall i, j | 0 <= i < j < |members| ensures MemberBefore(members[i], members[j]) { KeysAscend(members, i, j); }
    SortedStays(members, MemberBefore);
  }

  lemma {:induction false} InsertBlank(d: Display, s: seq<Display>)
    ensures Blanked(Insert(d, s, DisplayBefore)) == Insert(Blank(d), Blanked(s), DisplayBefore)
  {
    if s != [] && !DisplayBefore(d, s[0]) {
      InsertBlank(d, s[1..]);
      assert Blanked(s)[1..] == Blanked(s[1..]);
    }
  }

  lemma {:induction false} SortBlank(s: seq<Display>)
    ensures Blanked(Sort(s, DisplayBefore)) == Sort(Blanked(s), DisplayBefore)
  {
    if s != [] {
      SortBlank(s[1..]);
      assert Blanked(s)[1..] == Blanked(s[1..]);
      InsertBlank(s[0], Sort(s[1..], DisplayBefore));
    }
  }

  lemma IdsOrder(ids: seq<string>)
    ensures Orders.Orders(IdBefore, ids)
  {
    DisplayOrderIsTotal();
    hide DisplayOrder;
    forall x, y, z | IdBefore(x, y) && IdBefore(y, z) ensures IdBefore(x, z) { IdChains(x, y, z); }
  }

  lemma IdChains(x: string, y: string, z: string)
    requires IdBefore(x, y) && IdBefore(y, z)
    ensures IdBefore(x, z)
  {
    DisplayOrderIsTotal();
    hide DisplayOrder;
    if x != y && y != z { assert DisplayOrder(x, y).Less? && DisplayOrder(y, z).Less?; }
  }

  lemma DisplaysOrder(displays: seq<Display>)
    requires DistinctIds(displays)
    ensures Orders.Orders(DisplayBefore, displays)
  {
    hide DisplayOrder;
    IdsOrder([]);
    forall x, y, z | DisplayBefore(x, y) && DisplayBefore(y, z) ensures DisplayBefore(x, z) {
      assert IdBefore(x.id, y.id) && IdBefore(y.id, z.id);
      IdChains(x.id, y.id, z.id);
    }
    forall x, y ensures DisplayBefore(x, y) || DisplayBefore(y, x) { assert IdBefore(x.id, y.id) || IdBefore(y.id, x.id); }
    forall x, y | x in displays && y in displays && DisplayBefore(x, y) && DisplayBefore(y, x) ensures x == y { Tie(x.id, y.id); }
  }

  lemma Tie(a: string, b: string)
    requires IdBefore(a, b) && IdBefore(b, a)
    ensures a == b
  {
    DisplayOrderIsTotal();
    hide DisplayOrder;
    assert DisplayOrder(b, a) == DisplayOrder(a, b).Reverse();
  }

  lemma PositionsOrder(positions: seq<Position>)
    requires forall k, l | 0 <= k < l < |positions| :: positions[k].display != positions[l].display
    ensures Orders.Orders(PositionBefore, positions)
  {
    hide DisplayOrder;
    IdsOrder([]);
    forall x, y, z | PositionBefore(x, y) && PositionBefore(y, z) ensures PositionBefore(x, z) {
      assert IdBefore(x.display, y.display) && IdBefore(y.display, z.display);
      IdChains(x.display, y.display, z.display);
    }
    forall x, y ensures PositionBefore(x, y) || PositionBefore(y, x) { assert IdBefore(x.display, y.display) || IdBefore(y.display, x.display); }
    forall x, y | x in positions && y in positions && PositionBefore(x, y) && PositionBefore(y, x) ensures x == y { Tie(x.display, y.display); }
  }

  lemma LinksOrder(links: seq<LinkRequest>, text: LinkRequest -> string)
    requires TellsApart(text, links)
    ensures Orders.Orders((a: LinkRequest, b: LinkRequest) => !CompareText(text(a), text(b)).Greater?, links)
  {
    CompareTextIsTotalOrder();
    hide CompareText;
    var leq := (a: LinkRequest, b: LinkRequest) => !CompareText(text(a), text(b)).Greater?;
    forall x, y ensures leq(x, y) || leq(y, x) { assert CompareText(text(y), text(x)) == CompareText(text(x), text(y)).Reverse(); }
    forall x, y | x in links && y in links && leq(x, y) && leq(y, x) ensures x == y {
      assert CompareText(text(y), text(x)) == CompareText(text(x), text(y)).Reverse();
    }
    forall x, y, z | leq(x, y) && leq(y, z) ensures leq(x, z) { TextChains(text(x), text(y), text(z)); }
  }

  lemma TextChains(x: string, y: string, z: string)
    requires !CompareText(x, y).Greater? && !CompareText(y, z).Greater?
    ensures !CompareText(x, z).Greater?
  {
    CompareTextIsTotalOrder();
    hide CompareText;
    if x != y && y != z { assert CompareText(x, y).Less? && CompareText(y, z).Less?; }
  }

  // ----- the theorem

  lemma BlankKeepsIds(displays: seq<Display>)
    requires DistinctIds(displays)
    ensures DistinctIds(Blanked(displays))
  {
  }

  lemma SameMembersSameForm(a: Member, b: Member)
    requires DistinctIds(a.displays)
    ensures CanonicalMember(a) == CanonicalMember(b) <==> SameMember(a, b)
  {
    hide DisplayBefore;
    SortBlank(a.displays);
    SortBlank(b.displays);
    BlankKeepsIds(a.displays);
    DisplaysOrder(Blanked(a.displays));
    SortForgetsOrder(Blanked(a.displays), Blanked(b.displays), DisplayBefore);
  }

  lemma SameArrangementsSameForm(a: Arrangement, b: Arrangement)
    requires forall k, l | 0 <= k < l < |a.positions| :: a.positions[k].display != a.positions[l].display
    ensures Sort(a.positions, PositionBefore) == Sort(b.positions, PositionBefore) && Sort(a.hidden, IdBefore) == Sort(b.hidden, IdBefore)
       <==> SameArrangement(Some(a), Some(b))
  {
    hide PositionBefore;
    hide IdBefore;
    PositionsOrder(a.positions);
    SortForgetsOrder(a.positions, b.positions, PositionBefore);
    IdsOrder(a.hidden);
    SortForgetsOrder(a.hidden, b.hidden, IdBefore);
  }

  lemma SameLayoutsSameForm(a: Record, b: Record, text: LinkRequest -> string)
    requires Check(a) && TellsApart(text, a.layout.links)
    ensures CanonicalLayout(a.layout, text) == CanonicalLayout(b.layout, text) <==>
            multiset(a.layout.links) == multiset(b.layout.links)
            && SameArrangement(a.layout.arrangement, b.layout.arrangement) && a.layout.control == b.layout.control
  {
    hide ValidLinks;
    hide ValidMembers;
    hide ValidControl;
    hide CompareText;
    hide PositionBefore;
    hide IdBefore;
    LinksOrder(a.layout.links, text);
    SortForgetsOrder(a.layout.links, b.layout.links, (x: LinkRequest, y: LinkRequest) => !CompareText(text(x), text(y)).Greater?);
    if a.layout.arrangement.Some? && b.layout.arrangement.Some? {
      SameArrangementsSameForm(a.layout.arrangement.value, b.layout.arrangement.value);
    }
  }

  lemma FormIsMemberwise(members: seq<Member>)
    requires SortedByKey(members)
    ensures |CanonicalMembers(members)| == |members|
    ensures forall i | 0 <= i < |members| :: CanonicalMembers(members)[i] == CanonicalMember(members[i])
  {
    hide CanonicalMember;
    MembersStay(members);
  }

  lemma FormAt(a: seq<Member>, b: seq<Member>, i: nat)
    requires ValidMembers(a) && i < |a| && i < |b|
    ensures CanonicalMember(a[i]) == CanonicalMember(b[i]) <==> SameMember(a[i], b[i])
  {
    hide CanonicalMember;
    hide SameMember;
    assert ValidDisplays(a[i].displays);
    SameMembersSameForm(a[i], b[i]);
  }

  lemma Sorting(members: seq<Member>)
    requires ValidMembers(members)
    ensures SortedByKey(members)
  {
  }

  lemma SameMemberListsSameForm(a: seq<Member>, b: seq<Member>)
    requires ValidMembers(a) && ValidMembers(b)
    ensures CanonicalMembers(a) == CanonicalMembers(b) <==>
            |a| == |b| && forall i | 0 <= i < |a| :: SameMember(a[i], b[i])
  {
    hide ValidMembers;
    hide SortedByKey;
    hide CanonicalMember;
    hide CanonicalMembers;
    hide SameMember;
    Sorting(a);
    Sorting(b);
    FormIsMemberwise(a);
    FormIsMemberwise(b);
    var formA, formB := CanonicalMembers(a), CanonicalMembers(b);
    if |a| == |b| {
      forall i: nat | i < |a| ensures formA[i] == formB[i] <==> SameMember(a[i], b[i]) { FormAt(a, b, i); }
      if formA == formB { forall i | 0 <= i < |a| ensures SameMember(a[i], b[i]) { assert formA[i] == formB[i]; } }
    }
  }

  // Two valid records have one canonical form exactly when they say the same thing.
  lemma SameFormExactlyWhenSameContent(a: Record, b: Record, text: LinkRequest -> string)
    requires Check(a) && Check(b) && TellsApart(text, a.layout.links)
    ensures ContentOf(a, text) == ContentOf(b, text) <==> SameContent(a, b)
  {
    hide CanonicalLayout;
    hide CanonicalMembers;
    hide SameMember;
    SameMemberListsSameForm(a.members, b.members);
    SameLayoutsSameForm(a, b, text);
  }
}
