/** The rebuild as it runs: pairs gathered, lists pruned and positions pushed, member by member. */
module AdaptLoops {
  import opened Prelude
  import opened Records
  import opened Matching
  import opened Adapting

  lemma Prefixes<T>(s: seq<T>, i: nat)
    requires i < |s|
    ensures s[..i + 1][..i] == s[..i] && |s[..i + 1]| == i + 1 && s[..i + 1][i] == s[i]
  {
  }

  method GatherPairs(members: seq<Member>, changes: seq<Option<Shown>>) returns (pairs: seq<(Display, Display)>)
    requires |members| == |changes|
    ensures pairs == AllPairs(members, changes)
  {
    pairs := [];
    var i := 0;
    while i < |members|
      invariant 0 <= i <= |members|
      invariant pairs == AllPairs(members[..i], changes[..i])
    {
      Prefixes(members, i);
      Prefixes(changes, i);
      if changes[i].Some? {
        var more := PairDisplays(members[i].displays, changes[i].value.displays);
        pairs := pairs + more;
      }
      i := i + 1;
    }
    assert members[..i] == members && changes[..i] == changes;
  }

  method MapIds(pairs: seq<(Display, Display)>) returns (ids: map<string, string>)
    ensures ids == IdMap(pairs)
  {
    ids := map[];
    var i := 0;
    while i < |pairs|
      invariant 0 <= i <= |pairs|
      invariant ids == IdMap(pairs[..i])
    {
      Prefixes(pairs, i);
      ids := ids[pairs[i].0.id := pairs[i].1.id];
      i := i + 1;
    }
    assert pairs[..i] == pairs;
  }

  // The ids still shown: the paired live displays', and those of the members nothing changed for.
  method KeepIds(members: seq<Member>, changes: seq<Option<Shown>>, pairs: seq<(Display, Display)>) returns (kept: set<string>)
    requires |members| == |changes| && pairs == AllPairs(members, changes)
    ensures kept == Kept(members, changes)
  {
    hide AllPairs;
    kept := {};
    var k := 0;
    while k < |pairs|
      invariant 0 <= k <= |pairs|
      invariant kept == set l | 0 <= l < k :: pairs[l].1.id
    {
      kept := kept + {pairs[k].1.id};
      k := k + 1;
    }
    ghost var paired := kept;
    var i := 0;
    while i < |members|
      invariant 0 <= i <= |members|
      invariant kept == paired + UnchangedIds(members, changes, i)
    {
      if changes[i].None? {
        var j := 0;
        while j < |members[i].displays|
          invariant 0 <= j <= |members[i].displays|
          invariant kept == paired + UnchangedIds(members, changes, i) + set l | 0 <= l < j :: members[i].displays[l].id
        {
          kept := kept + {members[i].displays[j].id};
          j := j + 1;
        }
      }
      i := i + 1;
    }
  }

  ghost function UnchangedIds(members: seq<Member>, changes: seq<Option<Shown>>, n: nat): set<string>
    requires |members| == |changes| && n <= |members|
  {
    set i, j | 0 <= i < n && changes[i].None? && 0 <= j < |members[i].displays| :: members[i].displays[j].id
  }

  method PlaceShown(start: seq<Position>, hidden: seq<string>, displays: seq<Display>, move: (real, real)) returns (positions: seq<Position>)
    ensures positions == PlaceBlock(start, hidden, displays, move)
  {
    positions := start;
    var j := 0;
    while j < |displays|
      invariant 0 <= j <= |displays|
      invariant positions == PlaceBlock(start, hidden, displays[..j], move)
    {
      Prefixes(displays, j);
      if displays[j].id !in hidden {
        positions := Retained(positions, (p: Position) => p.display != displays[j].id);
        positions := positions + [Moved(displays[j], move)];
      }
      j := j + 1;
    }
    assert displays[..j] == displays;
  }

  method PlaceChanged(start: seq<Position>, hidden: seq<string>, changes: seq<Option<Shown>>, moves: seq<Option<(real, real)>>)
    returns (positions: seq<Position>)
    requires |changes| == |moves|
    ensures positions == PlaceBlocks(start, hidden, changes, moves)
  {
    positions := start;
    var i := 0;
    while i < |changes|
      invariant 0 <= i <= |changes|
      invariant positions == PlaceBlocks(start, hidden, changes[..i], moves[..i])
    {
      Prefixes(changes, i);
      Prefixes(moves, i);
      if changes[i].Some? && moves[i].Some? {
        positions := PlaceShown(positions, hidden, changes[i].value.displays, moves[i].value);
      }
      i := i + 1;
    }
    assert changes[..i] == changes && moves[..i] == moves;
  }

  method NewcomerIds(changes: seq<Option<Shown>>, kept: set<string>) returns (appeared: seq<string>)
    ensures appeared == Appeared(changes, kept)
  {
    appeared := [];
    var i := 0;
    while i < |changes|
      invariant 0 <= i <= |changes|
      invariant appeared == Appeared(changes[..i], kept)
    {
      Prefixes(changes, i);
      if changes[i].Some? {
        appeared := appeared + Retained(Mapped(changes[i].value.displays, (d: Display) => d.id), (id: string) => id !in kept);
      }
      i := i + 1;
    }
    assert changes[..i] == changes;
  }

  method RebuildLayout(r: Record, changes: seq<Option<Shown>>, ids: map<string, string>, kept: set<string>)
    returns (layout: Layout, leftOut: bool)
    requires |changes| == |r.members| && ids == IdMap(AllPairs(r.members, changes)) && kept == Kept(r.members, changes)
    ensures layout == Rebuilt(r, changes).record.layout && leftOut == Rebuilt(r, changes).leftOut
  {
    hide AllPairs;
    hide Kept;
    hide PlaceBlocks;
    layout := r.layout.(links := Retained(Remapped(r.layout.links, ids), (link: LinkRequest) => Present(kept, link)));
    leftOut := |layout.links| != |r.layout.links|;
    if layout.arrangement.Some? {
      var a := layout.arrangement.value;
      var positions := KeptPositions(a, ids, kept);
      leftOut := leftOut || |positions| != |a.positions|;
      var hidden := KeptHidden(a, ids, kept);
      positions := PlaceChanged(positions, hidden, changes, Moves(r));
      layout := layout.(arrangement := Some(Arrangement(positions, hidden)));
    }
  }

  method UpdateMembers(members: seq<Member>, changes: seq<Option<Shown>>) returns (rebuilt: seq<Member>)
    requires |members| == |changes|
    ensures rebuilt == NewMembers(members, changes)
  {
    rebuilt := members;
    var i := 0;
    while i < |members|
      invariant 0 <= i <= |members| == |rebuilt|
      invariant forall k | 0 <= k < |members| :: rebuilt[k] == if k < i then NewMember(members[k], changes[k]) else members[k]
    {
      if changes[i].Some? {
        rebuilt := rebuilt[i := rebuilt[i].(platform := changes[i].value.platform)];
        rebuilt := rebuilt[i := rebuilt[i].(displays := changes[i].value.displays)];
      }
      i := i + 1;
    }
  }

  method FindChanges(members: seq<Member>, known: Known) returns (changes: seq<Option<Shown>>, any: bool)
    ensures changes == Changes(members, known)
    ensures any <==> !Unchanged(changes)
  {
    changes, any := [], false;
    var i := 0;
    while i < |members|
      invariant 0 <= i <= |members| && |changes| == i
      invariant forall k | 0 <= k < i :: changes[k] == Change(members[k], known)
      invariant any <==> !Unchanged(changes)
    {
      var change, key := None, Key(members[i].fingerprint);
      if key in known && !Fits(members[i], known[key]) { change := Some(known[key]); }
      changes := changes + [change];
      any := any || change.Some?;
      i := i + 1;
    }
  }

  method RebuildFor(r: Record, known: Known, admits: Record -> bool) returns (out: Option<Adapted>)
    ensures out == Adapt(r, known, admits)
  {
    hide Valid;
    hide AllPairs;
    hide Kept;
    hide NewArrangement;
    hide KeptLinks;
    hide Appeared;
    hide Changes;
    var changes, any := FindChanges(r.members, known);
    if !any { return if Valid(r, admits) then Some(Adapted(r, false)) else None; }
    var pairs := GatherPairs(r.members, changes);
    var ids := MapIds(pairs);
    var kept := KeepIds(r.members, changes, pairs);
    var layout, leftOut := RebuildLayout(r, changes, ids, kept);
    var appeared := NewcomerIds(changes, kept);
    var members := UpdateMembers(r.members, changes);
    var record := r.(members := members, layout := layout);
    if Valid(record, admits) { return Some(Adapted(record, leftOut)); }
    if appeared == [] { return None; }
    var hidden := WithoutNewcomers(record, appeared);
    return if Valid(hidden, admits) then Some(Adapted(hidden, true)) else None;
  }
}
