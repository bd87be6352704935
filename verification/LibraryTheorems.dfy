/** What saving, remembering, forgetting and carrying over keep of a library. */
module LibraryTheorems {
  import opened Prelude
  import opened Records
  import opened Adapting
  import opened EntryNames
  import opened Library
  import opened Refitting
  import opened Rejoining

  // ----- lists with entries taken out or added

  lemma {:induction false} RetainedSum<T>(a: seq<T>, b: seq<T>, keep: T -> bool)
    ensures Retained(a + b, keep) == Retained(a, keep) + Retained(b, keep)
  {
    if b == [] {
      assert a + b == a;
    } else {
      var last := |b| - 1;
      assert (a + b)[..|a + b| - 1] == a + b[..last];
      RetainedSum(a, b[..last], keep);
    }
  }

  lemma RetainedOne<T>(x: T, keep: T -> bool)
    ensures Retained([x], keep) == if keep(x) then [x] else []
  {
    assert [x][..0] == [];
    assert Retained([x][..0], keep) == [];
  }

  // Taking out an entry no one keeps changes nothing for whoever keeps others.
  lemma RetainedRemoveAt<T>(s: seq<T>, i: nat, keep: T -> bool)
    requires i < |s|
    ensures !keep(s[i]) ==> Retained(RemoveAt(s, i), keep) == Retained(s, keep)
    ensures keep(s[i]) ==> |Retained(RemoveAt(s, i), keep)| == |Retained(s, keep)| - 1
  {
    assert s == s[..i] + ([s[i]] + s[i + 1..]);
    RetainedSum(s[..i], [s[i]] + s[i + 1..], keep);
    RetainedSum([s[i]], s[i + 1..], keep);
    RetainedSum(s[..i], s[i + 1..], keep);
    RetainedOne(s[i], keep);
  }

  lemma {:induction false} RetainedTwice<T>(s: seq<T>, first: T -> bool, then': T -> bool)
    ensures |Retained(Retained(s, first), then')| <= |Retained(s, then')|
    ensures (forall x | x in s && then'(x) :: first(x)) ==> Retained(Retained(s, first), then') == Retained(s, then')
    ensures (exists x :: x in s && then'(x) && !first(x)) ==> |Retained(Retained(s, first), then')| < |Retained(s, then')|
  {
    if s != [] {
      var last := |s| - 1;
      assert s == s[..last] + [s[last]];
      RetainedTwice(s[..last], first, then');
      var rest := Retained(s[..last], first);
      RetainedSum(rest, if first(s[last]) then [s[last]] else [], then');
      RetainedOne(s[last], then');
    }
  }

  lemma {:induction false} RetainedNone<T>(s: seq<T>, keep: T -> bool)
    requires forall x | x in s :: keep(x)
    ensures Retained(s, keep) == s
  {
    if s != [] {
      assert s == s[..|s| - 1] + [s[|s| - 1]];
      RetainedNone(s[..|s| - 1], keep);
    }
  }

  // ----- a library stays sound

  lemma RemoveAtSound(entries: seq<Entry>, i: nat, admits: Record -> bool)
    requires Sound(entries, admits) && i < |entries|
    ensures Sound(RemoveAt(entries, i), admits)
  {
    hide Legal;
    hide Valid;
    hide KeysOf;
    var rest := RemoveAt(entries, i);
    assert forall k | 0 <= k < |rest| :: rest[k] == entries[if k < i then k else k + 1];
    forall keys ensures |Of(rest, keys)| <= MAX_ARRANGEMENTS {
      RetainedRemoveAt(entries, i, (e: Entry) => KeysOf(e.record) == keys);
      assert |Of(entries, keys)| <= MAX_ARRANGEMENTS;
    }
  }

  lemma RetainedUnique(entries: seq<Entry>, keep: Entry -> bool)
    requires Unique(entries)
    ensures Unique(Retained(entries, keep))
  {
    hide KeysOf;
    var rest := Retained(entries, keep);
    forall i, j | 0 <= i < |rest| && 0 <= j < |rest| && i != j ensures !Named(rest[j], rest[i].name, KeysOf(rest[i].record)) {
      if i < j { var a, b := RetainedInOrder(entries, keep, i, j); } else { var b, a := RetainedInOrder(entries, keep, j, i); }
    }
  }

  lemma RetainedSound(entries: seq<Entry>, keep: Entry -> bool, admits: Record -> bool)
    requires Sound(entries, admits)
    ensures Sound(Retained(entries, keep), admits)
  {
    hide Legal;
    hide Valid;
    hide KeysOf;
    hide Unique;
    var rest := Retained(entries, keep);
    RetainedUnique(entries, keep);
    forall i | 0 <= i < |rest| ensures Legal(rest[i].name) && Valid(rest[i].record, admits) { RetainedMembers(entries, keep, rest[i]); }
    forall keys ensures |Of(rest, keys)| <= MAX_ARRANGEMENTS {
      RetainedTwice(entries, keep, (e: Entry) => KeysOf(e.record) == keys);
      assert |Of(entries, keys)| <= MAX_ARRANGEMENTS;
    }
  }

  lemma AppendSound(entries: seq<Entry>, e: Entry, admits: Record -> bool)
    requires Sound(entries, admits) && Legal(e.name) && Valid(e.record, admits)
    requires |Of(entries, KeysOf(e.record))| < MAX_ARRANGEMENTS && !Held(entries, e.name, KeysOf(e.record))
    ensures Sound(entries + [e], admits)
  {
    hide Legal;
    hide Valid;
    hide KeysOf;
    forall keys ensures |Of(entries + [e], keys)| <= MAX_ARRANGEMENTS {
      RetainedSum(entries, [e], (x: Entry) => KeysOf(x.record) == keys);
      RetainedOne(e, (x: Entry) => KeysOf(x.record) == keys);
      assert |Of(entries, keys)| <= MAX_ARRANGEMENTS;
    }
    assert forall i | 0 <= i < |entries| :: !Named(entries[i], e.name, KeysOf(e.record));
  }

  // ----- a free name is always found

  function NamesIn(entries: seq<Entry>): (names: set<string>)
    ensures |names| <= |entries|
    ensures forall i | 0 <= i < |entries| :: entries[i].name in names
  {
    if entries == [] then {} else NamesIn(entries[..|entries| - 1]) + {entries[|entries| - 1].name}
  }

  lemma NewEnding(base: string, attempt: nat, name: string, before: set<string>)
    requires EndsIn(name, attempt)
    requires forall other | other in before :: exists k :: 2 <= k <= attempt - 1 && Candidate(base, k) == Some(other) && EndsIn(other, k)
    ensures name !in before
  {
    hide Candidate;
    hide EndsIn;
    if name in before {
      var k :| 2 <= k <= attempt - 1 && Candidate(base, k) == Some(name) && EndsIn(name, k);
      OneEnding(name, k, attempt);
    }
  }

  // The candidates of the attempts from 2 to `attempt`, all different.
  lemma {:induction false} Candidates(base: string, attempt: nat) returns (names: set<string>)
    requires OneLine(base) && 1 <= attempt <= MAX_ARRANGEMENTS + 1
    ensures |names| == attempt - 1
    ensures forall name | name in names :: exists k :: 2 <= k <= attempt && Candidate(base, k) == Some(name) && EndsIn(name, k)
  {
    hide Candidate;
    hide EndsIn;
    hide OneLine;
    hide Legal;
    names := {};
    if attempt > 1 {
      LaterCandidate(base, attempt);
      var name := Candidate(base, attempt).value;
      names := Candidates(base, attempt - 1);
      NewEnding(base, attempt, name, names);
      names := names + {name};
    }
  }

  lemma {:induction false} NoNameMeansAllHeld(entries: seq<Entry>, base: string, keys: seq<string>, attempt: nat, k: nat)
    requires OneLine(base) && ARROW in base && 1 <= attempt <= k <= MAX_ARRANGEMENTS + 1
    requires NameFrom(entries, base, keys, attempt).None?
    ensures Candidate(base, k).Some? && Held(entries, Candidate(base, k).value, keys)
    decreases k - attempt
  {
    hide Candidate;
    hide Held;
    if attempt == 1 { FirstCandidate(base); } else { LaterCandidate(base, attempt); }
    if attempt < k { NoNameMeansAllHeld(entries, base, keys, attempt + 1, k); }
  }

  lemma HeldIsNamed(entries: seq<Entry>, name: string, keys: seq<string>)
    requires Held(entries, name, keys)
    ensures name in NamesIn(Of(entries, keys))
  {
    hide KeysOf;
    var i :| 0 <= i < |entries| && Named(entries[i], name, keys);
    RetainedMembers(entries, (e: Entry) => KeysOf(e.record) == keys, entries[i]);
    var j :| 0 <= j < |Of(entries, keys)| && Of(entries, keys)[j] == entries[i];
  }

  // 32 different candidates and at most 31 names taken: some attempt is free.
  lemma FreeNameExists(entries: seq<Entry>, base: string, keys: seq<string>)
    requires OneLine(base) && ARROW in base && |Of(entries, keys)| < MAX_ARRANGEMENTS
    ensures NameFrom(entries, base, keys, 1).Some?
  {
    hide Candidate;
    hide EndsIn;
    hide Held;
    hide Of;
    if NameFrom(entries, base, keys, 1).None? {
      var tried := Candidates(base, MAX_ARRANGEMENTS + 1);
      var taken := NamesIn(Of(entries, keys));
      forall name | name in tried ensures name in taken {
        var k :| 2 <= k <= MAX_ARRANGEMENTS + 1 && Candidate(base, k) == Some(name) && EndsIn(name, k);
        NoNameMeansAllHeld(entries, base, keys, 1, k);
        HeldIsNamed(entries, name, keys);
      }
      FewerThan(tried, taken);
    }
  }

  lemma FewerThan(a: set<string>, b: set<string>)
    requires forall x | x in a :: x in b
    ensures |a| <= |b|
  {
    assert b == a + (b - a);
  }

  lemma {:induction false} NameIsFreeAndLegal(entries: seq<Entry>, base: string, keys: seq<string>, attempt: nat)
    requires 1 <= attempt <= MAX_ARRANGEMENTS + 2 && NameFrom(entries, base, keys, attempt).Some?
    ensures var name := NameFrom(entries, base, keys, attempt).value; Legal(name) && !Held(entries, name, keys)
    decreases MAX_ARRANGEMENTS + 2 - attempt
  {
    hide Held;
    hide Legal;
    hide Shortened;
    hide Normalized;
    if attempt <= MAX_ARRANGEMENTS + 1 {
      var room := if |Suffix(attempt)| <= MAX_NAME_CHARS then MAX_NAME_CHARS - |Suffix(attempt)| else 0;
      if Candidate(base, attempt).Some? {
        NormalizedIsLegal(Shortened(base, room) + Suffix(attempt));
        if Held(entries, Candidate(base, attempt).value, keys) { NameIsFreeAndLegal(entries, base, keys, attempt + 1); }
      }
    }
  }

  // ----- remembering

  predicate ByUser(e: Entry) {
    !e.automatic
  }

  lemma AppendedSound(entries: seq<Entry>, record: Record, local: string, admits: Record -> bool)
    requires Sound(entries, admits) && Valid(record, admits) && |Of(entries, KeysOf(record))| < MAX_ARRANGEMENTS
    ensures var (after, outcome) := Appended(entries, record, local);
            && Sound(after, admits) && outcome == Ok(true) && |after| == |entries| + 1 && after[..|entries|] == entries
            && after[|entries|].record == record && after[|entries|].automatic
            && !Held(entries, after[|entries|].name, KeysOf(record))
  {
    hide NameFrom;
    hide Of;
    hide Sound;
    hide Legal;
    hide Held;
    hide Base;
    hide KeysOf;
    var base, keys := Base(record, local), KeysOf(record);
    BaseReads(record, local);
    FreeNameExists(entries, base, keys);
    NameIsFreeAndLegal(entries, base, keys, 1);
    AppendSound(entries, Entry(NameFrom(entries, base, keys, 1).value, record, true), admits);
  }

  // Nothing else is touched by dropping remembered entries of these computers.
  ghost predicate LeavesOthers(before: seq<Entry>, after: seq<Entry>, keys: seq<string>) {
    && Retained(after, ByUser) == Retained(before, ByUser)
    && (forall others | others != keys :: Of(after, others) == Of(before, others))
  }

  lemma DroppingReplacedLeavesOthers(entries: seq<Entry>, record: Record)
    ensures LeavesOthers(entries, Retained(entries, (e: Entry) => !Replaces(record, e)), KeysOf(record))
  {
    hide SameDisplays;
    hide MemberOf;
    hide KeysOf;
    RetainedTwice(entries, (e: Entry) => !Replaces(record, e), ByUser);
    forall others | others != KeysOf(record) ensures Of(Retained(entries, (e: Entry) => !Replaces(record, e)), others) == Of(entries, others) {
      RetainedTwice(entries, (e: Entry) => !Replaces(record, e), (e: Entry) => KeysOf(e.record) == others);
    }
  }

  lemma RemoveAtLeavesOthers(entries: seq<Entry>, i: nat, keys: seq<string>)
    requires i < |entries| && entries[i].automatic && KeysOf(entries[i].record) == keys
    ensures LeavesOthers(entries, RemoveAt(entries, i), keys)
    ensures |Of(RemoveAt(entries, i), keys)| == |Of(entries, keys)| - 1
  {
    hide KeysOf;
    RetainedRemoveAt(entries, i, ByUser);
    forall others ensures others != keys ==> Of(RemoveAt(entries, i), others) == Of(entries, others) {
      RetainedRemoveAt(entries, i, (e: Entry) => KeysOf(e.record) == others);
    }
    RetainedRemoveAt(entries, i, (e: Entry) => KeysOf(e.record) == keys);
  }

  lemma AppendLeavesOthers(entries: seq<Entry>, e: Entry)
    requires e.automatic
    ensures LeavesOthers(entries, entries + [e], KeysOf(e.record))
  {
    hide KeysOf;
    RetainedSum(entries, [e], ByUser);
    RetainedOne(e, ByUser);
    forall others | others != KeysOf(e.record) ensures Of(entries + [e], others) == Of(entries, others) {
      RetainedSum(entries, [e], (x: Entry) => KeysOf(x.record) == others);
      RetainedOne(e, (x: Entry) => KeysOf(x.record) == others);
    }
  }

  // When the set is still full after the drop, nothing was dropped.
  lemma FullMeansNothingDropped(entries: seq<Entry>, record: Record, admits: Record -> bool)
    requires Sound(entries, admits)
    requires |Of(Retained(entries, (e: Entry) => !Replaces(record, e)), KeysOf(record))| >= MAX_ARRANGEMENTS
    ensures Retained(entries, (e: Entry) => !Replaces(record, e)) == entries
    ensures Crowded(entries, record)
  {
    hide SameDisplays;
    hide MemberOf;
    hide KeysOf;
    hide Legal;
    hide Valid;
    hide Unique;
    var keep := (e: Entry) => !Replaces(record, e);
    RetainedTwice(entries, keep, (e: Entry) => KeysOf(e.record) == KeysOf(record));
    assert |Of(entries, KeysOf(record))| <= MAX_ARRANGEMENTS;
    forall i | 0 <= i < |entries| ensures !Replaces(record, entries[i]) { assert entries[i] in entries; }
    RetainedNone(entries, keep);
  }

  // 32 names, every one the user's own.
  predicate FullOfNames(entries: seq<Entry>, keys: seq<string>) {
    |Of(entries, keys)| == MAX_ARRANGEMENTS && forall i | 0 <= i < |entries| && KeysOf(entries[i].record) == keys :: ByUser(entries[i])
  }

  // The set still holds 32 once the entries for the record's own monitors are dropped: it held 32 and
  // none of them is for those monitors.
  predicate Crowded(entries: seq<Entry>, record: Record) {
    |Of(entries, KeysOf(record))| == MAX_ARRANGEMENTS && forall i | 0 <= i < |entries| :: !Replaces(record, entries[i])
  }

  predicate Oldest(entries: seq<Entry>, keys: seq<string>, i: nat) {
    && i < |entries| && entries[i].automatic && KeysOf(entries[i].record) == keys
    && forall j | 0 <= j < i :: ByUser(entries[j]) || KeysOf(entries[j].record) != keys
  }

  // What stays: all but the entries for the record's own monitors, in order; in a crowded set, all
  // but the one remembered longest ago.
  ghost predicate DropsExactly(entries: seq<Entry>, record: Record, rest: seq<Entry>) {
    if Crowded(entries, record) then exists i | Oldest(entries, KeysOf(record), i) :: rest == RemoveAt(entries, i)
    else rest == Retained(entries, (e: Entry) => !Replaces(record, e))
  }

  // The library stays sound, and no name the user gave and no other computers' entry changes; the
  // record is remembered last, after exactly the entries that stay, unless it already was, or 32
  // names of the user's fill the set, and then the library is as it was.
  ghost predicate RememberedWell(entries: seq<Entry>, record: Record, after: seq<Entry>, outcome: Outcome<bool>, admits: Record -> bool) {
    && Sound(after, admits) && LeavesOthers(entries, after, KeysOf(record))
    && outcome == (if AlreadyRemembered(entries, record) then Ok(false)
                   else if FullOfNames(entries, KeysOf(record)) then Err(Full) else Ok(true))
    && (if outcome == Ok(true) then AddedLast(after, record) && DropsExactly(entries, record, after[..|after| - 1])
        else after == entries)
  }

  predicate AddedLast(after: seq<Entry>, record: Record) {
    after != [] && after[|after| - 1].record == record && after[|after| - 1].automatic
  }

  // Remembering a valid record in a sound library; in particular a legal free name is always found.
  lemma RememberingKeepsTheLibrary(entries: seq<Entry>, record: Record, local: string, admits: Record -> bool)
    requires Sound(entries, admits) && Valid(record, admits)
    ensures var (after, outcome) := Remembered(entries, record, local); RememberedWell(entries, record, after, outcome, admits)
  {
    hide Sound;
    hide Valid;
    hide Replaces;
    hide KeysOf;
    hide Of;
    hide LeavesOthers;
    hide Appended;
    hide AlreadyRemembered;
    hide FullOfNames;
    hide Crowded;
    hide Oldest;
    SameLeaves(entries, KeysOf(record));
    if !AlreadyRemembered(entries, record) {
      var rest := Retained(entries, (e: Entry) => !Replaces(record, e));
      if |Of(rest, KeysOf(record))| < MAX_ARRANGEMENTS {
        RetainedSound(entries, (e: Entry) => !Replaces(record, e), admits);
        DroppingReplacedLeavesOthers(entries, record);
        AppendedKeeps(entries, rest, record, local, admits);
        NotFull(entries, record, rest);
        NotCrowded(entries, record);
      } else {
        FullMeansNothingDropped(entries, record, admits);
        EvictingKeeps(entries, record, local, admits);
      }
    }
  }

  lemma EvictingKeeps(entries: seq<Entry>, record: Record, local: string, admits: Record -> bool)
    requires Sound(entries, admits) && Valid(record, admits) && Crowded(entries, record)
    ensures var oldest := FirstIndex(entries, (e: Entry) => e.automatic && KeysOf(e.record) == KeysOf(record));
            && (oldest.None? <==> FullOfNames(entries, KeysOf(record)))
            && (oldest.Some? ==>
                var (after, outcome) := Appended(RemoveAt(entries, oldest.value), record, local);
                && Sound(after, admits) && LeavesOthers(entries, after, KeysOf(record)) && outcome == Ok(true)
                && AddedLast(after, record) && after[..|after| - 1] == RemoveAt(entries, oldest.value)
                && Oldest(entries, KeysOf(record), oldest.value))
  {
    hide Sound;
    hide Valid;
    hide KeysOf;
    hide Of;
    hide LeavesOthers;
    hide Appended;
    var keys := KeysOf(record);
    var oldest := FirstIndex(entries, (e: Entry) => e.automatic && KeysOf(e.record) == keys);
    if oldest.Some? {
      RemoveAtSound(entries, oldest.value, admits);
      RemoveAtLeavesOthers(entries, oldest.value, keys);
      AppendedKeeps(entries, RemoveAt(entries, oldest.value), record, local, admits);
    }
  }

  lemma SameLeaves(entries: seq<Entry>, keys: seq<string>)
    ensures LeavesOthers(entries, entries, keys)
  {
  }

  lemma NotFull(entries: seq<Entry>, record: Record, rest: seq<Entry>)
    requires rest == Retained(entries, (e: Entry) => !Replaces(record, e)) && |Of(rest, KeysOf(record))| < MAX_ARRANGEMENTS
    ensures !FullOfNames(entries, KeysOf(record))
  {
    hide SameMonitorsAs;
    hide KeysOf;
    if FullOfNames(entries, KeysOf(record)) {
      RetainedTwice(entries, (e: Entry) => !Replaces(record, e), (e: Entry) => KeysOf(e.record) == KeysOf(record));
    }
  }

  lemma NotCrowded(entries: seq<Entry>, record: Record)
    requires |Of(Retained(entries, (e: Entry) => !Replaces(record, e)), KeysOf(record))| < MAX_ARRANGEMENTS
    ensures !Crowded(entries, record)
  {
    hide Replaces;
    hide KeysOf;
    if Crowded(entries, record) {
      RetainedTwice(entries, (e: Entry) => !Replaces(record, e), (e: Entry) => KeysOf(e.record) == KeysOf(record));
    }
  }

  lemma AppendedKeeps(entries: seq<Entry>, rest: seq<Entry>, record: Record, local: string, admits: Record -> bool)
    requires Sound(rest, admits) && Valid(record, admits) && |Of(rest, KeysOf(record))| < MAX_ARRANGEMENTS
    requires LeavesOthers(entries, rest, KeysOf(record))
    ensures var (after, outcome) := Appended(rest, record, local);
            && Sound(after, admits) && LeavesOthers(entries, after, KeysOf(record)) && outcome == Ok(true)
            && AddedLast(after, record) && after[..|after| - 1] == rest
  {
    hide Appended;
    hide Sound;
    hide KeysOf;
    hide Valid;
    AppendedSound(rest, record, local, admits);
    var (after, outcome) := Appended(rest, record, local);
    assert after == rest + [after[|rest|]];
    AppendLeavesOthers(rest, after[|rest|]);
  }

  // ----- saving under a name

  lemma RetainedUpdate<T>(s: seq<T>, i: nat, x: T, keep: T -> bool)
    requires i < |s|
    ensures keep(s[i]) == keep(x) ==> |Retained(s[i := x], keep)| == |Retained(s, keep)|
    ensures !keep(s[i]) && !keep(x) ==> Retained(s[i := x], keep) == Retained(s, keep)
  {
    assert s == s[..i] + ([s[i]] + s[i + 1..]) && s[i := x] == s[..i] + ([x] + s[i + 1..]);
    RetainedSum(s[..i], [s[i]] + s[i + 1..], keep);
    RetainedSum([s[i]], s[i + 1..], keep);
    RetainedSum(s[..i], [x] + s[i + 1..], keep);
    RetainedSum([x], s[i + 1..], keep);
    RetainedOne(s[i], keep);
    RetainedOne(x, keep);
  }

  lemma UpdateSound(entries: seq<Entry>, i: nat, e: Entry, admits: Record -> bool)
    requires Sound(entries, admits) && i < |entries| && Valid(e.record, admits) && Named(entries[i], e.name, KeysOf(e.record))
    ensures Sound(entries[i := e], admits)
  {
    hide Legal;
    hide Valid;
    hide KeysOf;
    var after := entries[i := e];
    forall keys ensures |Of(after, keys)| <= MAX_ARRANGEMENTS {
      RetainedUpdate(entries, i, e, (x: Entry) => KeysOf(x.record) == keys);
      assert |Of(entries, keys)| <= MAX_ARRANGEMENTS;
    }
  }

  // Saving keeps the library sound and every entry of another name or other computers; it is refused
  // exactly for an illegal name or a new name in a full set, and then nothing changes.
  lemma SavingKeepsTheLibrary(entries: seq<Entry>, name: string, record: Record, admits: Record -> bool)
    requires Sound(entries, admits) && Valid(record, admits)
    ensures var (after, outcome) := Upserted(entries, name, record);
            var keys, normal := KeysOf(record), Normalized(name);
            && Sound(after, admits) && (outcome.Err? ==> after == entries)
            && (outcome == Err(InvalidName) <==> normal.None?)
            && (outcome == Err(Full) <==> normal.Some? && !Held(entries, normal.value, keys) && |Of(entries, keys)| == MAX_ARRANGEMENTS)
            && (outcome.Ok? ==> normal.Some? && Entry(normal.value, record, false) in after)
            && (outcome.Ok? ==> forall e: Entry | !Named(e, normal.value, keys) :: e in after <==> e in entries)
  {
    hide Legal;
    hide Valid;
    hide KeysOf;
    hide Normalized;
    hide Sound;
    var keys, normal := KeysOf(record), Normalized(name);
    if normal.Some? {
      AtMost(entries, keys, admits);
      NormalizedIsLegal(name);
      var existing := PositionIn(entries, normal.value, keys);
      var saved := Entry(normal.value, record, false);
      if existing.Some? {
        UpdateSound(entries, existing.value, saved, admits);
        UpdateMembers(entries, existing.value, saved, keys);
      } else if |Of(entries, keys)| < MAX_ARRANGEMENTS {
        AppendSound(entries, saved, admits);
      }
    }
  }

  lemma AtMost(entries: seq<Entry>, keys: seq<string>, admits: Record -> bool)
    requires Sound(entries, admits)
    ensures |Of(entries, keys)| <= MAX_ARRANGEMENTS
  {
  }

  lemma UpdateMembers(entries: seq<Entry>, i: nat, saved: Entry, keys: seq<string>)
    requires i < |entries| && Named(entries[i], saved.name, keys) && KeysOf(saved.record) == keys
    ensures saved in entries[i := saved]
    ensures forall e: Entry | !Named(e, saved.name, keys) :: e in entries[i := saved] <==> e in entries
  {
    hide KeysOf;
    var after := entries[i := saved];
    assert after[i] == saved;
    forall e: Entry | !Named(e, saved.name, keys) ensures e in after <==> e in entries {
      if e in entries { var k :| 0 <= k < |entries| && entries[k] == e; assert after[k] == e; }
      if e in after { var k :| 0 <= k < |after| && after[k] == e; assert entries[k] == e; }
    }
  }

  // ----- forgetting

  // Forgetting takes out one entry of that name made with that computer, or nothing.
  lemma ForgettingKeepsTheRest(entries: seq<Entry>, computer: string, name: string, keys: Option<seq<string>>, admits: Record -> bool)
    requires Sound(entries, admits)
    ensures var (after, outcome) := Removed(entries, computer, name, keys);
            && Sound(after, admits) && (outcome.Err? ==> after == entries)
            && (outcome.Ok? ==> exists i | 0 <= i < |entries| ::
                  after == RemoveAt(entries, i) && Normalized(name).Some? && MadeWith(entries[i], computer, Normalized(name).value, keys))
  {
    hide Sound;
    hide MadeWith;
    hide Normalized;
    var (after, outcome) := Removed(entries, computer, name, keys);
    if outcome.Ok? {
      var i := Chosen(entries, computer, Normalized(name).value, keys).value;
      RemoveAtSound(entries, i, admits);
      assert after == RemoveAt(entries, i);
    }
  }

  // With the computers given, whatever is there under that name is found.
  lemma ForgettingFindsIt(entries: seq<Entry>, computer: string, name: string, keys: seq<string>, i: nat)
    requires Unique(entries) && i < |entries| && Normalized(name).Some?
    requires MadeWith(entries[i], computer, Normalized(name).value, Some(keys))
    ensures Removed(entries, computer, name, Some(keys)) == (RemoveAt(entries, i), Ok(()))
  {
    hide HasMember;
    hide KeysOf;
    hide Normalized;
    var wanted := (e: Entry) => MadeWith(e, computer, Normalized(name).value, Some(keys));
    var named := Indices(entries, wanted);
    IndicesExactly(entries, wanted, i);
    forall k | 0 <= k < |named| ensures named[k] == i { assert Named(entries[named[k]], entries[i].name, KeysOf(entries[i].record)); }
    if |named| > 1 { IndicesAscend(entries, wanted, 0, 1); }
  }

  // ----- carrying over

  lemma {:induction false} CarryingOverIsSound(olds: seq<OldEntry>, admits: Record -> bool)
    requires forall i | 0 <= i < |olds| :: Legal(olds[i].name) && (olds[i].record.Some? ==> Valid(olds[i].record.value, admits))
    ensures Sound(Migrated(olds), admits)
  {
    hide Legal;
    hide Valid;
    hide KeysOf;
    if olds != [] {
      var last := |olds| - 1;
      CarryingOverIsSound(olds[..last], admits);
      if CarriesOver(Migrated(olds[..last]), olds[last]) {
        AppendSound(Migrated(olds[..last]), Entry(olds[last].name, olds[last].record.value, olds[last].automatic), admits);
      }
    } else {
      assert forall keys :: Of([], keys) == [];
    }
  }

  // An old entry that converts is left behind only for one of its name, or 32 of its pair.
  lemma {:induction false} CarryingOverKeeps(olds: seq<OldEntry>, i: nat)
    requires i < |olds| && olds[i].record.Some?
    ensures var keys := KeysOf(olds[i].record.value);
            Held(Migrated(olds), olds[i].name, keys) || |Of(Migrated(olds), keys)| >= MAX_ARRANGEMENTS
  {
    hide KeysOf;
    var last := |olds| - 1;
    var keys, before := KeysOf(olds[i].record.value), Migrated(olds[..last]);
    if i < last { CarryingOverKeeps(olds[..last], i); }
    if CarriesOver(before, olds[last]) {
      var e := Entry(olds[last].name, olds[last].record.value, olds[last].automatic);
      RetainedSum(before, [e], (x: Entry) => KeysOf(x.record) == keys);
      assert (before + [e])[|before|] == e;
      if Held(before, olds[i].name, keys) {
        var k :| 0 <= k < |before| && Named(before[k], olds[i].name, keys);
        assert (before + [e])[k] == before[k];
      }
    }
  }

  // ----- checking a library read from disk

  // What the check has seen of each set of computers: its names, all different.
  ghost predicate Seen(entries: seq<Entry>, names: map<seq<string>, set<string>>) {
    && (forall keys: seq<string> :: |Of(entries, keys)| == if keys in names then |names[keys]| else 0)
    && (forall i | 0 <= i < |entries| :: KeysOf(entries[i].record) in names && entries[i].name in names[KeysOf(entries[i].record)])
    && (forall keys, name | keys in names && name in names[keys] :: Held(entries, name, keys))
  }

  function SeenWith(names: map<seq<string>, set<string>>, name: string, keys: seq<string>): map<seq<string>, set<string>> {
    names[keys := (if keys in names then names[keys] else {}) + {name}]
  }

  lemma SeenNext(entries: seq<Entry>, e: Entry, names: map<seq<string>, set<string>>)
    requires Seen(entries, names) && !(KeysOf(e.record) in names && e.name in names[KeysOf(e.record)])
    ensures Seen(entries + [e], SeenWith(names, e.name, KeysOf(e.record)))
  {
    hide KeysOf;
    hide Held;
    hide Of;
    var mine, after := KeysOf(e.record), SeenWith(names, e.name, KeysOf(e.record));
    forall keys: seq<string> ensures |Of(entries + [e], keys)| == if keys in after then |after[keys]| else 0 {
      OfNext(entries, e, keys);
      assert |Of(entries, keys)| == if keys in names then |names[keys]| else 0;
    }
    forall keys, name | keys in after && name in after[keys] ensures Held(entries + [e], name, keys) {
      HeldNext(entries, e, name, keys);
    }
  }

  lemma OfNext(entries: seq<Entry>, e: Entry, keys: seq<string>)
    ensures Of(entries + [e], keys) == Of(entries, keys) + if keys == KeysOf(e.record) then [e] else []
  {
    hide KeysOf;
    RetainedSum(entries, [e], (x: Entry) => KeysOf(x.record) == keys);
    RetainedOne(e, (x: Entry) => KeysOf(x.record) == keys);
  }

  lemma HeldNext(entries: seq<Entry>, e: Entry, name: string, keys: seq<string>)
    ensures Held(entries + [e], name, keys) <==> Held(entries, name, keys) || Named(e, name, keys)
  {
    hide KeysOf;
    var all := entries + [e];
    if Named(e, name, keys) { assert all[|entries|] == e; }
    if Held(entries, name, keys) {
      var k :| 0 <= k < |entries| && Named(entries[k], name, keys);
      assert all[k] == entries[k];
    }
  }

  lemma UniqueNext(entries: seq<Entry>, e: Entry)
    ensures Unique(entries + [e]) <==> Unique(entries) && !Held(entries, e.name, KeysOf(e.record))
  {
    hide KeysOf;
    var all := entries + [e];
    assert forall i | 0 <= i < |entries| :: all[i] == entries[i];
    assert all[|entries|] == e;
    if Unique(entries) && !Held(entries, e.name, KeysOf(e.record)) {
      forall i, j | 0 <= i < |all| && 0 <= j < |all| && Named(all[j], all[i].name, KeysOf(all[i].record)) ensures i == j {
        assert Named(all[i], all[j].name, KeysOf(all[j].record));
      }
    }
  }

  lemma SoundPrefix(entries: seq<Entry>, i: nat, admits: Record -> bool)
    requires Sound(entries, admits) && i <= |entries|
    ensures Sound(entries[..i], admits)
  {
    hide KeysOf;
    hide Legal;
    hide Valid;
    var prefix := entries[..i];
    assert entries == prefix + entries[i..];
    forall keys ensures |Of(prefix, keys)| <= MAX_ARRANGEMENTS {
      RetainedSum(prefix, entries[i..], (x: Entry) => KeysOf(x.record) == keys);
      assert |Of(entries, keys)| <= MAX_ARRANGEMENTS;
    }
  }

  // One more entry is fine exactly when it is fine itself, its name is new, and its set has room.
  lemma SoundNext(entries: seq<Entry>, e: Entry, names: map<seq<string>, set<string>>, admits: Record -> bool)
    requires Sound(entries, admits) && Seen(entries, names)
    ensures Sound(entries + [e], admits) <==>
            var keys := KeysOf(e.record);
            && Legal(e.name) && Valid(e.record, admits) && !(keys in names && e.name in names[keys])
            && |SeenWith(names, e.name, keys)[keys]| <= MAX_ARRANGEMENTS
  {
    hide KeysOf;
    hide Legal;
    hide Valid;
    hide Sound;
    SeenMeans(entries, e, names);
    if Sound(entries + [e], admits) { SoundLast(entries, e, admits); }
    if Legal(e.name) && Valid(e.record, admits) && !Held(entries, e.name, KeysOf(e.record)) && |Of(entries, KeysOf(e.record))| < MAX_ARRANGEMENTS {
      AppendSound(entries, e, admits);
    }
  }

  lemma SeenMeans(entries: seq<Entry>, e: Entry, names: map<seq<string>, set<string>>)
    requires Seen(entries, names)
    ensures var keys := KeysOf(e.record);
            && (keys in names && e.name in names[keys] <==> Held(entries, e.name, keys))
            && (!Held(entries, e.name, keys) ==> |SeenWith(names, e.name, keys)[keys]| == |Of(entries, keys)| + 1)
  {
    hide KeysOf;
    hide Of;
    if Held(entries, e.name, KeysOf(e.record)) { var k :| 0 <= k < |entries| && Named(entries[k], e.name, KeysOf(e.record)); }
  }

  lemma SoundLast(entries: seq<Entry>, e: Entry, admits: Record -> bool)
    requires Sound(entries + [e], admits)
    ensures Legal(e.name) && Valid(e.record, admits) && !Held(entries, e.name, KeysOf(e.record)) && |Of(entries, KeysOf(e.record))| < MAX_ARRANGEMENTS
  {
    hide KeysOf;
    hide Legal;
    hide Valid;
    hide Unique;
    UniqueNext(entries, e);
    var all := entries + [e];
    assert all[|entries|] == e;
    RetainedSum(entries, [e], (x: Entry) => KeysOf(x.record) == KeysOf(e.record));
    RetainedOne(e, (x: Entry) => KeysOf(x.record) == KeysOf(e.record));
    assert |Of(all, KeysOf(e.record))| <= MAX_ARRANGEMENTS;
  }

  method Validate(library: ArrangementLibrary, admits: Record -> bool) returns (ok: bool)
    ensures ok <==> Sound(library.arrangements, admits)
  {
    hide KeysOf;
    hide Legal;
    hide Valid;
    hide Sound;
    hide Seen;
    var entries := library.arrangements;
    var names: map<seq<string>, set<string>> := map[];
    EmptyIsSound(admits);
    var i := 0;
    while i < |entries|
      invariant 0 <= i <= |entries|
      invariant Sound(entries[..i], admits) && Seen(entries[..i], names)
    {
      var e, keys := entries[i], KeysOf(entries[i].record);
      assert entries[..i + 1] == entries[..i] + [e];
      SoundNext(entries[..i], e, names, admits);
      if Sound(entries, admits) { SoundPrefix(entries, i + 1, admits); }
      if !Legal(e.name) || !Valid(e.record, admits) { return false; }
      var kept := if keys in names then names[keys] else {};
      if e.name in kept || |kept + {e.name}| > MAX_ARRANGEMENTS { return false; }
      SeenNext(entries[..i], e, names);
      names := names[keys := kept + {e.name}];
      i := i + 1;
    }
    assert entries[..i] == entries;
    return true;
  }

  lemma EmptyIsSound(admits: Record -> bool)
    ensures Sound([], admits) && Seen([], map[])
  {
    assert forall keys :: Of([], keys) == [];
  }
}
