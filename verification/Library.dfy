/** The arrangement library: saved layouts by name, bounded for each set of computers. */
module Library {
  import opened Prelude
  import opened Records
  import opened Matching
  import opened Adapting
  import opened EntryNames

  datatype Entry = Entry(name: string, record: Record, automatic: bool)

  datatype LibraryError = InvalidName | Full | Unknown

  datatype Outcome<T> = Ok(value: T) | Err(error: LibraryError)

  // The set of computers a record is for.
  function KeysOf(r: Record): seq<string> {
    Mapped(r.members, (m: Member) => Key(m.fingerprint))
  }

  // The entries for exactly these computers.
  function Of(entries: seq<Entry>, keys: seq<string>): seq<Entry> {
    Retained(entries, (e: Entry) => KeysOf(e.record) == keys)
  }

  predicate Named(e: Entry, name: string, keys: seq<string>) {
    e.name == name && KeysOf(e.record) == keys
  }

  predicate Held(entries: seq<Entry>, name: string, keys: seq<string>) {
    exists i | 0 <= i < |entries| :: Named(entries[i], name, keys)
  }

  function FirstIndex<T>(s: seq<T>, wanted: T -> bool, from: nat := 0): (found: Option<nat>)
    requires from <= |s|
    ensures found.Some? ==> from <= found.value < |s| && wanted(s[found.value]) && forall i | from <= i < found.value :: !wanted(s[i])
    ensures found.None? ==> forall i | from <= i < |s| :: !wanted(s[i])
    decreases |s| - from
  {
    if from == |s| then None else if wanted(s[from]) then Some(from) else FirstIndex(s, wanted, from + 1)
  }

  function PositionIn(entries: seq<Entry>, name: string, keys: seq<string>): Option<nat> {
    FirstIndex(entries, (e: Entry) => Named(e, name, keys))
  }

  function RemoveAt<T>(s: seq<T>, i: nat): seq<T>
    requires i < |s|
  {
    s[..i] + s[i + 1..]
  }

  predicate Unique(entries: seq<Entry>) {
    forall i, j | 0 <= i < |entries| && 0 <= j < |entries| && Named(entries[j], entries[i].name, KeysOf(entries[i].record)) :: i == j
  }

  // Every entry has a legal name and a valid record; a set of computers has no name twice and no 33rd entry.
  ghost predicate Sound(entries: seq<Entry>, admits: Record -> bool) {
    && (forall i | 0 <= i < |entries| :: Legal(entries[i].name) && Valid(entries[i].record, admits))
    && Unique(entries)
    && (forall keys :: |Of(entries, keys)| <= MAX_ARRANGEMENTS)
  }

  // ----- saving under a name

  function Upserted(entries: seq<Entry>, name: string, record: Record): (seq<Entry>, Outcome<()>) {
    var normal := Normalized(name);
    if normal.None? then (entries, Err(InvalidName)) else
    var existing := PositionIn(entries, normal.value, KeysOf(record));
    if existing.Some? then (entries[existing.value := entries[existing.value].(record := record, automatic := false)], Ok(()))
    else if |Of(entries, KeysOf(record))| >= MAX_ARRANGEMENTS then (entries, Err(Full))
    else (entries + [Entry(normal.value, record, false)], Ok(()))
  }

  // ----- remembering

  function MemberOf(r: Record, fingerprint: string): Option<Member> {
    var index := FirstIndex(r.members, (m: Member) => Key(m.fingerprint) == Key(fingerprint));
    if index.Some? then Some(r.members[index.value]) else None
  }

  predicate SameDisplays(remembered: seq<Display>, live: seq<Display>) {
    |remembered| == |live| && |Pairs(remembered, live)| == |remembered|
  }

  predicate SameMonitorsAs(a: Record, b: Record) {
    KeysOf(a) == KeysOf(b) && forall i | 0 <= i < |a.members| ::
      var theirs := MemberOf(b, a.members[i].fingerprint);
      theirs.Some? && SameDisplays(a.members[i].displays, theirs.value.displays)
  }

  predicate SameContentAs(a: Record, b: Record) {
    a.members == b.members && a.layout == b.layout
  }

  predicate Replaces(record: Record, e: Entry) {
    e.automatic && SameMonitorsAs(e.record, record)
  }

  predicate AlreadyRemembered(entries: seq<Entry>, record: Record) {
    exists i | 0 <= i < |entries| :: Replaces(record, entries[i]) && SameContentAs(entries[i].record, record)
  }

  // The first free name, numbered from 2 when the plain one is taken.
  function NameFrom(entries: seq<Entry>, base: string, keys: seq<string>, attempt: nat): Option<string>
    requires 1 <= attempt <= MAX_ARRANGEMENTS + 2
    decreases MAX_ARRANGEMENTS + 2 - attempt
  {
    if attempt == MAX_ARRANGEMENTS + 2 then None else
    var candidate := Candidate(base, attempt);
    if candidate.None? then None
    else if !Held(entries, candidate.value, keys) then candidate
    else NameFrom(entries, base, keys, attempt + 1)
  }

  function Appended(entries: seq<Entry>, record: Record, local: string): (seq<Entry>, Outcome<bool>) {
    var name := NameFrom(entries, Base(record, local), KeysOf(record), 1);
    if name.None? then (entries, Err(InvalidName)) else (entries + [Entry(name.value, record, true)], Ok(true))
  }

  function Remembered(entries: seq<Entry>, record: Record, local: string): (seq<Entry>, Outcome<bool>) {
    if AlreadyRemembered(entries, record) then (entries, Ok(false)) else
    var keys := KeysOf(record);
    var rest := Retained(entries, (e: Entry) => !Replaces(record, e));
    if |Of(rest, keys)| < MAX_ARRANGEMENTS then Appended(rest, record, local)
    else
      var oldest := FirstIndex(rest, (e: Entry) => e.automatic && KeysOf(e.record) == keys);
      if oldest.None? then (rest, Err(Full)) else Appended(RemoveAt(rest, oldest.value), record, local)
  }

  // ----- forgetting

  predicate MadeWith(e: Entry, computer: string, name: string, keys: Option<seq<string>>) {
    e.name == name && HasMember(e.record, computer) && (keys.None? || KeysOf(e.record) == keys.value)
  }

  function Indices(entries: seq<Entry>, wanted: Entry -> bool): (found: seq<nat>)
    ensures forall k | 0 <= k < |found| :: found[k] < |entries| && wanted(entries[found[k]])
  {
    if entries == [] then []
    else
      var last := |entries| - 1;
      Indices(entries[..last], wanted) + if wanted(entries[last]) then [last] else []
  }

  // The only one made with the computer under that name, or else the first pair's own.
  function Chosen(entries: seq<Entry>, computer: string, name: string, keys: Option<seq<string>>): (index: Option<nat>)
    ensures index.Some? ==> index.value < |entries| && MadeWith(entries[index.value], computer, name, keys)
  {
    var named := Indices(entries, (e: Entry) => MadeWith(e, computer, name, keys));
    if |named| == 1 then Some(named[0])
    else
      var pair := FirstIndex(named, (i: nat) => i < |entries| && |entries[i].record.members| == 2);
      if pair.Some? then Some(named[pair.value]) else None
  }

  lemma {:induction false} IndicesExactly(entries: seq<Entry>, wanted: Entry -> bool, i: nat)
    requires i < |entries| && wanted(entries[i])
    ensures i in Indices(entries, wanted)
  {
    var last := |entries| - 1;
    if i < last { IndicesExactly(entries[..last], wanted, i); }
  }

  lemma {:induction false} IndicesAscend(entries: seq<Entry>, wanted: Entry -> bool, a: nat, b: nat)
    requires a < b < |Indices(entries, wanted)|
    ensures Indices(entries, wanted)[a] < Indices(entries, wanted)[b]
  {
    var last := |entries| - 1;
    if b < |Indices(entries[..last], wanted)| { IndicesAscend(entries[..last], wanted, a, b); }
  }

  predicate PairMadeWith(e: Entry, computer: string, name: string, keys: Option<seq<string>>) {
    MadeWith(e, computer, name, keys) && |e.record.members| == 2
  }

  // The entry forgetting means: the only one made with the computer under that name, or the first of a pair.
  predicate Meant(entries: seq<Entry>, computer: string, name: string, keys: Option<seq<string>>, i: nat) {
    && i < |entries| && MadeWith(entries[i], computer, name, keys)
    && (|| (forall j | 0 <= j < |entries| && MadeWith(entries[j], computer, name, keys) :: j == i)
        || (PairMadeWith(entries[i], computer, name, keys) && forall j | 0 <= j < i :: !PairMadeWith(entries[j], computer, name, keys)))
  }

  lemma OneIsMeant(entries: seq<Entry>, computer: string, name: string, keys: Option<seq<string>>, i: nat, j: nat)
    requires Meant(entries, computer, name, keys, i) && Meant(entries, computer, name, keys, j)
    ensures i == j
  {
    hide MadeWith;
  }

  lemma ChosenMeans(entries: seq<Entry>, computer: string, name: string, keys: Option<seq<string>>)
    requires Chosen(entries, computer, name, keys).Some?
    ensures Meant(entries, computer, name, keys, Chosen(entries, computer, name, keys).value)
  {
    hide MadeWith;
    var wanted := (e: Entry) => MadeWith(e, computer, name, keys);
    var named, index := Indices(entries, wanted), Chosen(entries, computer, name, keys).value;
    if |named| == 1 {
      forall j | 0 <= j < |entries| && MadeWith(entries[j], computer, name, keys) ensures j == index { IndicesExactly(entries, wanted, j); }
    } else {
      var at := FirstIndex(named, (k: nat) => k < |entries| && |entries[k].record.members| == 2).value;
      forall j | 0 <= j < index ensures !PairMadeWith(entries[j], computer, name, keys) {
        if PairMadeWith(entries[j], computer, name, keys) {
          IndicesExactly(entries, wanted, j);
          var k :| 0 <= k < |named| && named[k] == j;
          if at < k { IndicesAscend(entries, wanted, at, k); }
        }
      }
    }
  }

  lemma MeantIsFound(entries: seq<Entry>, computer: string, name: string, keys: Option<seq<string>>, i: nat)
    requires Meant(entries, computer, name, keys, i)
    ensures Chosen(entries, computer, name, keys).Some?
  {
    hide MadeWith;
    var wanted := (e: Entry) => MadeWith(e, computer, name, keys);
    var named := Indices(entries, wanted);
    IndicesExactly(entries, wanted, i);
    var k :| 0 <= k < |named| && named[k] == i;
    if |named| > 1 {
      IndicesAscend(entries, wanted, 0, if k == 0 then 1 else k);
      var other := named[if k == 0 then 1 else 0];
      assert other != i && MadeWith(entries[other], computer, name, keys);
      assert |entries[named[k]].record.members| == 2;
    }
  }

  lemma ChosenIsMeant(entries: seq<Entry>, computer: string, name: string, keys: Option<seq<string>>, i: nat)
    ensures Chosen(entries, computer, name, keys) == Some(i) <==> Meant(entries, computer, name, keys, i)
  {
    hide Chosen;
    hide Meant;
    if Chosen(entries, computer, name, keys).Some? { ChosenMeans(entries, computer, name, keys); }
    if Meant(entries, computer, name, keys, i) {
      MeantIsFound(entries, computer, name, keys, i);
      OneIsMeant(entries, computer, name, keys, i, Chosen(entries, computer, name, keys).value);
    }
  }

  // `keys`: the member set asked for, as its sorted lower-case form.
  function Removed(entries: seq<Entry>, computer: string, name: string, keys: Option<seq<string>>): (seq<Entry>, Outcome<()>) {
    var normal := Normalized(name);
    if normal.None? then (entries, Err(InvalidName)) else
    var index := Chosen(entries, computer, normal.value, keys);
    if index.None? then (entries, Err(Unknown)) else (RemoveAt(entries, index.value), Ok(()))
  }

  // ----- carrying over the pairwise library

  // An old entry, with the two-member record it converts to, if it does.
  datatype OldEntry = OldEntry(name: string, record: Option<Record>, automatic: bool)

  predicate CarriesOver(entries: seq<Entry>, was: OldEntry) {
    && was.record.Some?
    && |Of(entries, KeysOf(was.record.value))| < MAX_ARRANGEMENTS
    && !Held(entries, was.name, KeysOf(was.record.value))
  }

  function Migrated(olds: seq<OldEntry>): seq<Entry> {
    if olds == [] then []
    else
      var last := olds[|olds| - 1];
      var before := Migrated(olds[..|olds| - 1]);
      if CarriesOver(before, last) then before + [Entry(last.name, last.record.value, last.automatic)] else before
  }

  // ----- the library itself

  class ArrangementLibrary {
    var arrangements: seq<Entry>

    constructor ()
      ensures arrangements == []
    {
      arrangements := [];
    }

    constructor Migrate(olds: seq<OldEntry>)
      ensures arrangements == Migrated(olds)
    {
      arrangements := [];
      new;
      var i := 0;
      while i < |olds|
        invariant 0 <= i <= |olds|
        invariant arrangements == Migrated(olds[..i])
        modifies this
      {
        assert olds[..i + 1][..i] == olds[..i];
        if olds[i].record.Some? {
          var members := KeysOf(olds[i].record.value);
          var kept := KeptFor(members);
          var at := Position(olds[i].name, members);
          if kept < MAX_ARRANGEMENTS && at.None? {
            arrangements := arrangements + [Entry(olds[i].name, olds[i].record.value, olds[i].automatic)];
          }
        }
        i := i + 1;
      }
      assert olds[..i] == olds;
    }

    method KeptFor(keys: seq<string>) returns (count: nat)
      ensures count == |Of(arrangements, keys)|
    {
      count := 0;
      var i := 0;
      while i < |arrangements|
        invariant 0 <= i <= |arrangements|
        invariant count == |Of(arrangements[..i], keys)|
      {
        assert arrangements[..i + 1][..i] == arrangements[..i];
        if KeysOf(arrangements[i].record) == keys { count := count + 1; }
        i := i + 1;
      }
      assert arrangements[..i] == arrangements;
    }

    method Position(name: string, keys: seq<string>) returns (at: Option<nat>)
      ensures at == PositionIn(arrangements, name, keys)
      ensures at.Some? <==> Held(arrangements, name, keys)
    {
      var i := 0;
      while i < |arrangements|
        invariant 0 <= i <= |arrangements|
        invariant forall k | 0 <= k < i :: !Named(arrangements[k], name, keys)
      {
        if Named(arrangements[i], name, keys) { return Some(i); }
        i := i + 1;
      }
      return None;
    }

    method Upsert(name: string, record: Record) returns (outcome: Outcome<()>)
      modifies this
      ensures (arrangements, outcome) == Upserted(old(arrangements), name, record)
    {
      var normal := Normalized(name);
      if normal.None? { return Err(InvalidName); }
      var members := KeysOf(record);
      var existing := Position(normal.value, members);
      if existing.Some? {
        arrangements := arrangements[existing.value := arrangements[existing.value].(record := record)];
        arrangements := arrangements[existing.value := arrangements[existing.value].(automatic := false)];
        assert arrangements == old(arrangements)[existing.value := old(arrangements)[existing.value].(record := record, automatic := false)];
        return Ok(());
      }
      var kept := KeptFor(members);
      if kept >= MAX_ARRANGEMENTS { return Err(Full); }
      arrangements := arrangements + [Entry(normal.value, record, false)];
      return Ok(());
    }

    method RememberedName(record: Record, local: string) returns (name: Option<string>)
      ensures name == NameFrom(arrangements, Base(record, local), KeysOf(record), 1)
    {
      hide Candidate;
      hide Held;
      hide Base;
      hide KeysOf;
      hide PositionIn;
      var base, members := Base(record, local), KeysOf(record);
      var attempt := 1;
      while attempt <= MAX_ARRANGEMENTS + 1
        invariant 1 <= attempt <= MAX_ARRANGEMENTS + 2
        invariant NameFrom(arrangements, base, members, attempt) == NameFrom(arrangements, base, members, 1)
      {
        var candidate := Candidate(base, attempt);
        if candidate.None? { return None; }
        var at := Position(candidate.value, members);
        if at.None? { return candidate; }
        attempt := attempt + 1;
      }
      return None;
    }

    method RememberAutomatically(record: Record, local: string) returns (outcome: Outcome<bool>)
      modifies this
      ensures (arrangements, outcome) == Remembered(old(arrangements), record, local)
    {
      hide Replaces;
      hide NameFrom;
      if AlreadyRemembered(arrangements, record) { return Ok(false); }
      arrangements := Retained(arrangements, (e: Entry) => !Replaces(record, e));
      var members := KeysOf(record);
      var kept := KeptFor(members);
      if kept >= MAX_ARRANGEMENTS {
        var oldest := FirstIndex(arrangements, (e: Entry) => e.automatic && KeysOf(e.record) == members);
        if oldest.None? { return Err(Full); }
        arrangements := RemoveAt(arrangements, oldest.value);
      }
      var name := RememberedName(record, local);
      if name.None? { return Err(InvalidName); }
      arrangements := arrangements + [Entry(name.value, record, true)];
      return Ok(true);
    }

    method IndicesOf(computer: string, name: string, keys: Option<seq<string>>) returns (named: seq<nat>)
      ensures named == Indices(arrangements, (e: Entry) => MadeWith(e, computer, name, keys))
    {
      named := [];
      var i := 0;
      while i < |arrangements|
        invariant 0 <= i <= |arrangements|
        invariant named == Indices(arrangements[..i], (e: Entry) => MadeWith(e, computer, name, keys))
      {
        assert arrangements[..i + 1][..i] == arrangements[..i];
        if MadeWith(arrangements[i], computer, name, keys) { named := named + [i]; }
        i := i + 1;
      }
      assert arrangements[..i] == arrangements;
    }

    // The first of these that is a pair's.
    method FirstPair(named: seq<nat>) returns (index: Option<nat>)
      requires forall k | 0 <= k < |named| :: named[k] < |arrangements|
      ensures index.Some? ==> exists k | 0 <= k < |named| ::
                && index.value == named[k] && |arrangements[named[k]].record.members| == 2
                && forall l | 0 <= l < k :: |arrangements[named[l]].record.members| != 2
      ensures index.None? ==> forall k | 0 <= k < |named| :: |arrangements[named[k]].record.members| != 2
    {
      var k := 0;
      while k < |named|
        invariant 0 <= k <= |named|
        invariant forall l | 0 <= l < k :: |arrangements[named[l]].record.members| != 2
      {
        if |arrangements[named[k]].record.members| == 2 { return Some(named[k]); }
        k := k + 1;
      }
      return None;
    }

    // The entry meant goes, if there is one; nothing else changes.
    method RemoveFor(computer: string, name: string, keys: Option<seq<string>>) returns (outcome: Outcome<()>)
      modifies this
      ensures outcome == Err(InvalidName) <==> Normalized(name).None?
      ensures Normalized(name).Some? ==>
                (outcome.Ok? <==> exists i: nat :: Meant(old(arrangements), computer, Normalized(name).value, keys, i))
      ensures outcome.Ok? ==> forall i: nat | Meant(old(arrangements), computer, Normalized(name).value, keys, i) ::
                arrangements == RemoveAt(old(arrangements), i)
      ensures outcome.Err? ==> arrangements == old(arrangements)
      ensures (arrangements, outcome) == Removed(old(arrangements), computer, name, keys)
    {
      hide MadeWith;
      hide Meant;
      hide Normalized;
      var normal := Normalized(name);
      if normal.None? { return Err(InvalidName); }
      var named := IndicesOf(computer, normal.value, keys);
      var index;
      if |named| == 1 { index := Some(named[0]); } else { index := FirstPair(named); }
      assert index == Chosen(arrangements, computer, normal.value, keys);
      forall i: nat ensures Meant(arrangements, computer, normal.value, keys, i) <==> index == Some(i) {
        ChosenIsMeant(arrangements, computer, normal.value, keys, i);
      }
      if index.None? { return Err(Unknown); }
      arrangements := RemoveAt(arrangements, index.value);
      return Ok(());
    }
  }
}
