/** Rebuilding a group record for the displays its computers show now. */
module Adapting {
  import opened Prelude
  import opened Records
  import opened Matching

  // What one computer shows now. Each list is a snapshot of a display topology, whose ids are the
  // decimal text of distinct numbers.
  datatype Shown = Shown(platform: Platform, displays: seq<Display>)

  // Keyed by lower-case fingerprint.
  type Known = map<string, Shown>

  predicate Canonical(id: string) {
    ParseDisplay(id).Some? && Decimal(ParseDisplay(id).value) == id
  }

  predicate Snapshot(displays: seq<Display>) {
    DistinctIds(displays) && forall i | 0 <= i < |displays| :: Canonical(displays[i].id)
  }

  predicate Snapshots(known: Known) {
    forall key | key in known :: Snapshot(known[key].displays)
  }

  // ----- changed members

  predicate SameGeometry(a: Display, b: Display) {
    a.id == b.id && a.origin == b.origin && a.size == b.size && a.native == b.native && a.scale == b.scale && a.primary == b.primary
  }

  predicate HasTwin(display: Display, list: seq<Display>) {
    exists j | 0 <= j < |list| :: SameGeometry(display, list[j])
  }

  predicate SameDisplayGeometry(left: seq<Display>, right: seq<Display>) {
    |left| == |right| && forall i | 0 <= i < |left| :: HasTwin(left[i], right)
  }

  predicate Fits(member: Member, shown: Shown) {
    shown.platform == member.platform && SameDisplayGeometry(member.displays, shown.displays)
  }

  // What a member shows now, when that is not what its entry holds.
  function Change(member: Member, known: Known): Option<Shown> {
    var key := Key(member.fingerprint);
    if key in known && !Fits(member, known[key]) then Some(known[key]) else None
  }

  function Changes(members: seq<Member>, known: Known): (changes: seq<Option<Shown>>)
    ensures |changes| == |members|
  {
    seq(|members|, i requires 0 <= i < |members| => Change(members[i], known))
  }

  predicate Unchanged(changes: seq<Option<Shown>>) {
    forall i | 0 <= i < |changes| :: changes[i].None?
  }

  // Both link ends are members, and they show exactly what the record holds.
  predicate FitsLink(r: Record, ends: (string, string), known: Known, admits: Record -> bool) {
    Valid(r, admits) && HasMember(r, ends.0) && HasMember(r, ends.1) && Unchanged(Changes(r.members, known))
  }

  predicate HasMember(r: Record, fingerprint: string) {
    exists i | 0 <= i < |r.members| :: Key(r.members[i].fingerprint) == Key(fingerprint)
  }

  // ----- ids follow monitor identity

  function PairsOf(member: Member, change: Option<Shown>): seq<(Display, Display)> {
    if change.Some? then Pairs(member.displays, change.value.displays) else []
  }

  function AllPairs(members: seq<Member>, changes: seq<Option<Shown>>): seq<(Display, Display)>
    requires |members| == |changes|
  {
    if members == [] then [] else
    var last := |members| - 1;
    AllPairs(members[..last], changes[..last]) + PairsOf(members[last], changes[last])
  }

  function IdMap(pairs: seq<(Display, Display)>): map<string, string> {
    if pairs == [] then map[] else
    var last := pairs[|pairs| - 1];
    IdMap(pairs[..|pairs| - 1])[last.0.id := last.1.id]
  }

  function Rename(ids: map<string, string>, id: string): string {
    if id in ids then ids[id] else id
  }

  function Kept(members: seq<Member>, changes: seq<Option<Shown>>): set<string>
    requires |members| == |changes|
  {
    var pairs := AllPairs(members, changes);
    (set k | 0 <= k < |pairs| :: pairs[k].1.id) +
    (set i, j | 0 <= i < |members| && changes[i].None? && 0 <= j < |members[i].displays| :: members[i].displays[j].id)
  }

  function RenameLink(ids: map<string, string>, link: LinkRequest): LinkRequest {
    link.(fromDisplay := Rename(ids, link.fromDisplay), toDisplay := Rename(ids, link.toDisplay))
  }

  predicate Present(kept: set<string>, link: LinkRequest) {
    link.fromDisplay in kept && link.toDisplay in kept
  }

  function Retained<T>(s: seq<T>, keep: T -> bool): (kept: seq<T>)
    ensures |kept| <= |s|
  {
    if s == [] then [] else
    var last := |s| - 1;
    Retained(s[..last], keep) + if keep(s[last]) then [s[last]] else []
  }

  function Mapped<T, U>(s: seq<T>, f: T -> U): (image: seq<U>)
    ensures |image| == |s| && forall i | 0 <= i < |s| :: image[i] == f(s[i])
  {
    seq(|s|, i requires 0 <= i < |s| => f(s[i]))
  }

  function Remapped(links: seq<LinkRequest>, ids: map<string, string>): seq<LinkRequest> {
    Mapped(links, (link: LinkRequest) => RenameLink(ids, link))
  }

  function KeptLinks(r: Record, changes: seq<Option<Shown>>): seq<LinkRequest>
    requires |changes| == |r.members|
  {
    var kept := Kept(r.members, changes);
    Retained(Remapped(r.layout.links, IdMap(AllPairs(r.members, changes))), (link: LinkRequest) => Present(kept, link))
  }

  // ----- blocks keep their place

  function PositionOf(positions: seq<Position>, id: string): Option<Position> {
    if positions == [] then None
    else if positions[0].display == id then Some(positions[0])
    else PositionOf(positions[1..], id)
  }

  function Number(id: string): nat {
    var parsed := ParseDisplay(id);
    if parsed.Some? then parsed.value else 0xFFFF_FFFF_FFFF_FFFF
  }

  // The first of the placed displays with the lowest number.
  function LowestPlaced(positions: seq<Position>, displays: seq<Display>): Option<Display> {
    if displays == [] then None
    else
      var rest := LowestPlaced(positions, displays[1..]);
      if PositionOf(positions, displays[0].id).None? then rest
      else if rest.Some? && Number(rest.value.id) < Number(displays[0].id) then rest
      else Some(displays[0])
  }

  function Anchor(positions: seq<Position>, displays: seq<Display>): Option<Display> {
    var main := FirstWhere(displays, (d: Display) => d.primary && PositionOf(positions, d.id).Some?);
    if main.Some? then main else LowestPlaced(positions, displays)
  }

  // How far the arrangement shifts a computer's displays from where its own system puts them.
  function Translation(arrangement: Option<Arrangement>, displays: seq<Display>): Option<(real, real)> {
    if arrangement.None? then None else
    var anchor := Anchor(arrangement.value.positions, displays);
    if anchor.None? then None else
    var position := PositionOf(arrangement.value.positions, anchor.value.id);
    if position.None? then None
    else Some((position.value.x - anchor.value.origin.0, position.value.y - anchor.value.origin.1))
  }

  function Moved(display: Display, move: (real, real)): Position {
    Position(display.id, display.origin.0 + move.0, display.origin.1 + move.1)
  }

  // One shown display after another takes its place, in the order the computer lists them.
  function PlaceOne(positions: seq<Position>, hidden: seq<string>, display: Display, move: (real, real)): seq<Position> {
    if display.id in hidden then positions
    else Retained(positions, (p: Position) => p.display != display.id) + [Moved(display, move)]
  }

  function PlaceBlock(positions: seq<Position>, hidden: seq<string>, displays: seq<Display>, move: (real, real)): seq<Position> {
    if displays == [] then positions else
    var last := |displays| - 1;
    PlaceOne(PlaceBlock(positions, hidden, displays[..last], move), hidden, displays[last], move)
  }

  function PlaceBlocks(positions: seq<Position>, hidden: seq<string>, changes: seq<Option<Shown>>, moves: seq<Option<(real, real)>>): seq<Position>
    requires |changes| == |moves|
  {
    if changes == [] then positions else
    var last := |changes| - 1;
    var before := PlaceBlocks(positions, hidden, changes[..last], moves[..last]);
    if changes[last].Some? && moves[last].Some? then PlaceBlock(before, hidden, changes[last].value.displays, moves[last].value)
    else before
  }

  function Moves(r: Record): (moves: seq<Option<(real, real)>>)
    ensures |moves| == |r.members|
  {
    seq(|r.members|, i requires 0 <= i < |r.members| => Translation(r.layout.arrangement, r.members[i].displays))
  }

  function KeptPositions(a: Arrangement, ids: map<string, string>, kept: set<string>): seq<Position> {
    Retained(Mapped(a.positions, (p: Position) => p.(display := Rename(ids, p.display))), (p: Position) => p.display in kept)
  }

  function KeptHidden(a: Arrangement, ids: map<string, string>, kept: set<string>): seq<string> {
    Retained(Mapped(a.hidden, (id: string) => Rename(ids, id)), (id: string) => id in kept)
  }

  // ----- the rebuild

  datatype Adapted = Adapted(record: Record, leftOut: bool)

  function NewMember(member: Member, change: Option<Shown>): Member {
    if change.Some? then member.(platform := change.value.platform, displays := change.value.displays) else member
  }

  function NewMembers(members: seq<Member>, changes: seq<Option<Shown>>): (rebuilt: seq<Member>)
    requires |members| == |changes|
    ensures |rebuilt| == |members|
  {
    seq(|members|, i requires 0 <= i < |members| => NewMember(members[i], changes[i]))
  }

  function NewArrangement(r: Record, changes: seq<Option<Shown>>): Option<Arrangement>
    requires |changes| == |r.members|
  {
    if r.layout.arrangement.None? then None else
    var a, ids, kept := r.layout.arrangement.value, IdMap(AllPairs(r.members, changes)), Kept(r.members, changes);
    var hidden := KeptHidden(a, ids, kept);
    Some(Arrangement(PlaceBlocks(KeptPositions(a, ids, kept), hidden, changes, Moves(r)), hidden))
  }

  function Appeared(changes: seq<Option<Shown>>, kept: set<string>): seq<string> {
    if changes == [] then [] else
    var last := |changes| - 1;
    Appeared(changes[..last], kept) +
    if changes[last].None? then []
    else Retained(Mapped(changes[last].value.displays, (d: Display) => d.id), (id: string) => id !in kept)
  }

  function Rebuilt(r: Record, changes: seq<Option<Shown>>): Adapted
    requires |changes| == |r.members|
  {
    var links := KeptLinks(r, changes);
    var ids, kept := IdMap(AllPairs(r.members, changes)), Kept(r.members, changes);
    var layout := r.layout.(links := links, arrangement := NewArrangement(r, changes));
    var a := r.layout.arrangement;
    Adapted(r.(members := NewMembers(r.members, changes), layout := layout),
            |links| != |r.layout.links| || (a.Some? && |KeptPositions(a.value, ids, kept)| != |a.value.positions|))
  }

  // Newcomers left unused: out of the picture and hidden.
  function WithoutNewcomers(r: Record, newcomers: seq<string>): Record {
    var a := if r.layout.arrangement.Some? then r.layout.arrangement.value else Arrangement([], []);
    var shown := Arrangement(Retained(a.positions, (p: Position) => p.display !in newcomers), a.hidden + newcomers);
    r.(layout := r.layout.(arrangement := Some(shown)))
  }

  function Adapt(r: Record, known: Known, admits: Record -> bool): Option<Adapted> {
    var changes := Changes(r.members, known);
    if Unchanged(changes) then if Valid(r, admits) then Some(Adapted(r, false)) else None
    else
      var first := Rebuilt(r, changes);
      if Valid(first.record, admits) then Some(first)
      else
        var newcomers := Appeared(changes, Kept(r.members, changes));
        var second := WithoutNewcomers(first.record, newcomers);
        if newcomers != [] && Valid(second, admits) then Some(Adapted(second, true)) else None
  }
}
