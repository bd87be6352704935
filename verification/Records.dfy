/**
The record a group of computers shares its layout in, and when it is valid.

Coordinates are reals. The two parts of validation that live outside this model, the pointer
topology every member must be able to build and the size of the record's JSON text, are one
predicate `admits` that every theorem quantifies over.
*/
module Records {
  import opened Prelude
  import opened Orders

  datatype Platform = Windows | Macos

  datatype Display = Display(
    id: string,
    name: string,
    origin: (real, real),
    size: (real, real),
    native: (nat, nat),
    scale: real,
    primary: bool,
    monitor: Option<string>)

  datatype LinkRequest = LinkRequest(
    fromDisplay: string, fromEdge: string, fromSpan: (real, real),
    toDisplay: string, toEdge: string, toSpan: (real, real),
    hysteresis: real)

  datatype Position = Position(display: string, x: real, y: real)

  datatype Arrangement = Arrangement(positions: seq<Position>, hidden: seq<string>)

  datatype Layout = Layout(links: seq<LinkRequest>, arrangement: Option<Arrangement>, control: map<string, bool>)

  datatype Member = Member(fingerprint: string, platform: Platform, displays: seq<Display>)

  datatype Record = Record(version: nat, revision: nat, author: string, members: seq<Member>, layout: Layout)

  datatype Edge = Left | Right | Top | Bottom
  datatype Span = Span(start: real, end: real)
  datatype EdgeLink = EdgeLink(
    fromDisplay: nat, fromEdge: Edge, fromSpan: Span,
    toDisplay: nat, toEdge: Edge, toSpan: Span,
    hysteresis: real)

  const RECORD_VERSION := 1
  const MAX_MEMBERS := 8
  const MAX_DISPLAYS := 16
  const MAX_LINKS := 64
  const MAX_ARRANGED := 32
  const MAX_COORDINATE := 20_000_000.0
  const MAX_NAME_BYTES := 96
  const MAX_NATIVE := 65_535
  const MAX_SIZE := 1_000_000.0
  const MAX_ORIGIN := 1_000_000_000.0

  // ----- identities

  function LowerHex(c: char): char {
    if 'A' <= c <= 'Z' then c - 'A' + 'a' else c
  }

  // A fingerprint in the one case identities are compared in.
  function Key(fingerprint: string): string {
    seq(|fingerprint|, i requires 0 <= i < |fingerprint| => LowerHex(fingerprint[i]))
  }

  predicate UpperHex(c: char) {
    '0' <= c <= '9' || 'A' <= c <= 'F'
  }

  predicate ValidFingerprint(fingerprint: string) {
    |fingerprint| == 64 && forall i | 0 <= i < 64 :: UpperHex(fingerprint[i])
  }

  // ----- display ids

  predicate IsDigit(c: char) {
    '0' <= c <= '9'
  }

  function DigitValue(c: char): nat
    requires IsDigit(c)
  {
    c as nat - '0' as nat
  }

  function Value(text: string): nat
    requires forall i | 0 <= i < |text| :: IsDigit(text[i])
  {
    if text == [] then 0 else Value(text[..|text| - 1]) * 10 + DigitValue(text[|text| - 1])
  }

  function ParseDisplay(text: string): Option<nat> {
    if text == [] || |text| > 20 || !(forall i | 0 <= i < |text| :: IsDigit(text[i])) then None
    else if Value(text) >= 0x1_0000_0000_0000_0000 then None
    else Some(Value(text))
  }

  function Decimal(n: nat): string {
    (if n < 10 then [] else Decimal(n / 10)) + ['0' + (n % 10) as char]
  }

  // ----- displays

  function Utf8Length(text: string): nat {
    if text == [] then 0
    else
      var c := text[0] as nat;
      (if c < 0x80 then 1 else if c < 0x800 then 2 else if c < 0x1_0000 then 3 else 4) + Utf8Length(text[1..])
  }

  function Abs(x: real): real {
    if x < 0.0 then -x else x
  }

  predicate ValidDisplay(d: Display) {
    && ParseDisplay(d.id).Some? && Decimal(ParseDisplay(d.id).value) == d.id
    && Utf8Length(d.name) <= MAX_NAME_BYTES
    && 0 < d.native.0 <= MAX_NATIVE && 0 < d.native.1 <= MAX_NATIVE
    && Abs(d.origin.0) <= MAX_ORIGIN && Abs(d.origin.1) <= MAX_ORIGIN
    && 0.0 < d.size.0 <= MAX_SIZE && 0.0 < d.size.1 <= MAX_SIZE
    && 0.1 <= d.scale <= 16.0
  }

  predicate DistinctIds(displays: seq<Display>) {
    forall i, j | 0 <= i < j < |displays| :: displays[i].id != displays[j].id
  }

  predicate ValidDisplays(displays: seq<Display>) {
    && 0 < |displays| <= MAX_DISPLAYS
    && (forall i | 0 <= i < |displays| :: ValidDisplay(displays[i]))
    && DistinctIds(displays)
    && (exists i | 0 <= i < |displays| :: displays[i].primary)
    && (forall i, j | 0 <= i < j < |displays| :: !(displays[i].primary && displays[j].primary))
  }

  // ----- crossings

  function ParseEdge(text: string): Option<Edge> {
    if text == "left" then Some(Left)
    else if text == "right" then Some(Right)
    else if text == "top" then Some(Top)
    else if text == "bottom" then Some(Bottom)
    else None
  }

  predicate ValidSpan(span: (real, real)) {
    0.0 <= span.0 < span.1 <= 1.0
  }

  function ParseLink(link: LinkRequest): Option<EdgeLink> {
    var from, to := ParseDisplay(link.fromDisplay), ParseDisplay(link.toDisplay);
    var leaves, enters := ParseEdge(link.fromEdge), ParseEdge(link.toEdge);
    if from.None? || to.None? || leaves.None? || enters.None? || !ValidSpan(link.fromSpan) || !ValidSpan(link.toSpan)
       || from == to || link.hysteresis <= 0.0
    then None
    else Some(EdgeLink(from.value, leaves.value, Span(link.fromSpan.0, link.fromSpan.1),
                       to.value, enters.value, Span(link.toSpan.0, link.toSpan.1), link.hysteresis))
  }

  // The two links have their ends swapped and nothing else, apart from the hysteresis.
  predicate Reverses(link: EdgeLink, other: EdgeLink) {
    && other.fromDisplay == link.toDisplay && other.fromEdge == link.toEdge && other.fromSpan == link.toSpan
    && other.toDisplay == link.fromDisplay && other.toEdge == link.fromEdge && other.toSpan == link.fromSpan
  }

  predicate Overlap(link: EdgeLink, other: EdgeLink) {
    && other.fromDisplay == link.fromDisplay && other.fromEdge == link.fromEdge
    && other.fromSpan.start < link.fromSpan.end && link.fromSpan.start < other.fromSpan.end
  }

  // Every crossing works both ways, none share a stretch of an edge, and each joins two computers.
  predicate HasReverse(links: seq<EdgeLink>, link: EdgeLink) {
    exists j | 0 <= j < |links| :: Reverses(link, links[j])
  }

  predicate Reciprocal(links: seq<EdgeLink>) {
    forall i | 0 <= i < |links| :: HasReverse(links, links[i])
  }

  predicate Apart(links: seq<EdgeLink>) {
    forall i, j | 0 <= i < j < |links| :: !Overlap(links[i], links[j])
  }

  predicate AcrossComputers(links: seq<EdgeLink>, owners: map<nat, nat>) {
    forall i | 0 <= i < |links| ::
      && links[i].fromDisplay in owners && links[i].toDisplay in owners
      && owners[links[i].fromDisplay] != owners[links[i].toDisplay]
  }

  predicate Spanned(links: seq<EdgeLink>) {
    forall i | 0 <= i < |links| :: 0.0 <= links[i].fromSpan.start < links[i].fromSpan.end <= 1.0
  }

  // ----- the record's own checks

  function DisplayAt(members: seq<Member>, i: nat, j: nat): Display
    requires i < |members| && j < |members[i].displays|
  {
    members[i].displays[j]
  }

  // No display id is named twice, within a member or across members.
  predicate DistinctAcross(members: seq<Member>) {
    forall i, j, k, l |
      0 <= i < |members| && 0 <= j < |members[i].displays| && 0 <= k < |members| && 0 <= l < |members[k].displays|
      && DisplayAt(members, i, j).id == DisplayAt(members, k, l).id :: i == k && j == l
  }

  predicate SortedByKey(members: seq<Member>) {
    forall i | 0 < i < |members| :: CompareText(Key(members[i - 1].fingerprint), Key(members[i].fingerprint)).Less?
  }

  predicate ValidMembers(members: seq<Member>) {
    && (forall i | 0 <= i < |members| :: ValidFingerprint(members[i].fingerprint) && ValidDisplays(members[i].displays))
    && SortedByKey(members)
    && DistinctAcross(members)
  }

  function Names(members: seq<Member>): set<string> {
    set i, j | 0 <= i < |members| && 0 <= j < |members[i].displays| :: members[i].displays[j].id
  }

  function OwnNames(member: Member): set<string> {
    set j | 0 <= j < |member.displays| :: member.displays[j].id
  }

  predicate ValidArrangement(layout: Layout, members: seq<Member>) {
    layout.arrangement.None? ||
    var a := layout.arrangement.value;
    && |a.positions| <= MAX_ARRANGED && |a.hidden| <= MAX_ARRANGED
    && (forall k | 0 <= k < |a.positions| ::
          && ParseDisplay(a.positions[k].display).Some? && a.positions[k].display in Names(members)
          && Abs(a.positions[k].x) <= MAX_COORDINATE && Abs(a.positions[k].y) <= MAX_COORDINATE)
    && (forall k, l | 0 <= k < l < |a.positions| :: a.positions[k].display != a.positions[l].display)
    && (forall k | 0 <= k < |a.hidden| ::
          && ParseDisplay(a.hidden[k]).Some? && a.hidden[k] in Names(members)
          && (forall l | 0 <= l < |a.positions| :: a.positions[l].display != a.hidden[k])
          && (forall l | 0 <= l < |layout.links| ::
                ParseDisplay(layout.links[l].fromDisplay) != ParseDisplay(a.hidden[k])
                && ParseDisplay(layout.links[l].toDisplay) != ParseDisplay(a.hidden[k])))
    && (forall k, l | 0 <= k < l < |a.hidden| :: a.hidden[k] != a.hidden[l])
    && (forall i | 0 <= i < |members| :: exists name | name in OwnNames(members[i]) :: name !in a.hidden)
  }

  predicate ValidControl(control: map<string, bool>, members: seq<Member>) {
    && |control| == |members|
    && (forall i | 0 <= i < |members| :: Key(members[i].fingerprint) in control)
    && (exists k | k in control :: control[k])
  }

  function Parsed(links: seq<LinkRequest>): seq<EdgeLink>
    requires forall i | 0 <= i < |links| :: ParseLink(links[i]).Some?
  {
    seq(|links|, i requires 0 <= i < |links| => ParseLink(links[i]).value)
  }

  // Which member shows each display number.
  function OwnerMap(members: seq<Member>): map<nat, nat>
    requires forall i, j | 0 <= i < |members| && 0 <= j < |members[i].displays| :: ParseDisplay(DisplayAt(members, i, j).id).Some?
  {
    if members == [] then map[]
    else
      var last := |members| - 1;
      assert forall j | 0 <= j < |members[last].displays| :: DisplayAt(members, last, j) == members[last].displays[j];
      assert forall i, j | 0 <= i < last && 0 <= j < |members[i].displays| :: DisplayAt(members[..last], i, j) == DisplayAt(members, i, j);
      OwnerMap(members[..last]) + OwnedBy(members[last].displays, last)
  }

  function OwnedBy(displays: seq<Display>, index: nat): map<nat, nat>
    requires forall j | 0 <= j < |displays| :: ParseDisplay(displays[j].id).Some?
  {
    map j | 0 <= j < |displays| :: ParseDisplay(displays[j].id).value := index
  }

  predicate ValidLinks(links: seq<LinkRequest>, members: seq<Member>)
    requires ValidMembers(members)
  {
    && 0 < |links| <= MAX_LINKS
    && (forall i | 0 <= i < |links| :: ParseLink(links[i]).Some?)
    && Reciprocal(Parsed(links))
    && Apart(Parsed(links))
    && (assert forall i, j | 0 <= i < |members| && 0 <= j < |members[i].displays| :: DisplayAt(members, i, j) == members[i].displays[j];
        AcrossComputers(Parsed(links), OwnerMap(members)))
  }

  predicate Check(r: Record) {
    && r.version == RECORD_VERSION && r.revision > 0 && 2 <= |r.members| <= MAX_MEMBERS
    && (exists i | 0 <= i < |r.members| :: r.members[i].fingerprint == r.author)
    && ValidMembers(r.members)
    && |Names(r.members)| <= MAX_DISPLAYS
    && ValidLinks(r.layout.links, r.members)
    && ValidArrangement(r.layout, r.members)
    && ValidControl(r.layout.control, r.members)
  }

  predicate Valid(r: Record, admits: Record -> bool) {
    Check(r) && admits(r)
  }
}
