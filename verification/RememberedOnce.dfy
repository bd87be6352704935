/** Of the layouts a library remembers, no two are for the same computers showing the same monitors. */
module RememberedOnce {
  import opened Prelude
  import opened Records
  import opened Matching
  import opened Adapting
  import opened EntryNames
  import opened Library
  import opened LibraryTheorems
  import opened Refitting
  import opened Rejoining
  import CanonicalForm
  import Orders

  // ----- "the same monitors" reads the same from either side

  lemma SameDisplaysBack(a: seq<Display>, b: seq<Display>)
    requires DistinctIds(a) && DistinctIds(b)
    ensures SameDisplays(a, b) <==> SameDisplays(b, a)
  {
    AsManyPairs(a, b);
  }

  // The same computers stand at the same place in two valid records.
  lemma MemberInPlace(a: Record, b: Record, i: nat)
    requires KeysOf(a) == KeysOf(b) && SortedByKey(b.members) && i < |a.members|
    ensures |a.members| == |b.members| && MemberOf(b, a.members[i].fingerprint) == Some(b.members[i])
  {
    hide Key;
    assert KeysOf(a)[i] == KeysOf(b)[i];
    forall j | 0 <= j < i ensures Key(b.members[j].fingerprint) != Key(a.members[i].fingerprint) {
      CanonicalForm.KeysAscend(b.members, j, i);
      LessDiffers(Key(b.members[j].fingerprint), Key(b.members[i].fingerprint));
    }
  }

  lemma LessDiffers(a: string, b: string)
    requires Orders.CompareText(a, b).Less?
    ensures a != b
  {
    Orders.CompareTextIsTotalOrder();
  }

  lemma SameMonitorsBack(a: Record, b: Record)
    requires ValidMembers(a.members) && ValidMembers(b.members) && SameMonitorsAs(a, b)
    ensures SameMonitorsAs(b, a)
  {
    hide MemberOf;
    hide KeysOf;
    hide SameDisplays;
    hide SortedByKey;
    hide DistinctAcross;
    forall i | 0 <= i < |b.members|
      ensures MemberOf(a, b.members[i].fingerprint).Some?
           && SameDisplays(b.members[i].displays, MemberOf(a, b.members[i].fingerprint).value.displays)
    {
      MemberInPlace(b, a, i);
      MemberInPlace(a, b, i);
      SameDisplaysBack(a.members[i].displays, b.members[i].displays);
    }
  }

  // ----- one remembered entry for each

  ghost predicate OnePerMonitors(entries: seq<Entry>) {
    forall i, j | 0 <= i < |entries| && 0 <= j < |entries| && entries[i].automatic && entries[j].automatic ::
      SameMonitorsAs(entries[i].record, entries[j].record) ==> i == j
  }

  lemma RemoveAtKeepsOne(entries: seq<Entry>, i: nat)
    requires OnePerMonitors(entries) && i < |entries|
    ensures OnePerMonitors(RemoveAt(entries, i))
  {
    hide SameMonitorsAs;
    var rest := RemoveAt(entries, i);
    assert forall k | 0 <= k < |rest| :: rest[k] == entries[if k < i then k else k + 1];
  }

  lemma RetainedKeepsOne(entries: seq<Entry>, keep: Entry -> bool)
    requires OnePerMonitors(entries)
    ensures OnePerMonitors(Retained(entries, keep))
  {
    hide SameMonitorsAs;
    var rest := Retained(entries, keep);
    forall i, j | 0 <= i < |rest| && 0 <= j < |rest| && rest[i].automatic && rest[j].automatic && i != j
      ensures !SameMonitorsAs(rest[i].record, rest[j].record)
    {
      if i < j { var a, b := RetainedInOrder(entries, keep, i, j); } else { var b, a := RetainedInOrder(entries, keep, j, i); }
    }
  }

  lemma AppendKeepsOne(entries: seq<Entry>, e: Entry)
    requires OnePerMonitors(entries) && ValidMembers(e.record.members)
    requires forall i | 0 <= i < |entries| :: ValidMembers(entries[i].record.members) && !Replaces(e.record, entries[i])
    ensures OnePerMonitors(entries + [e])
  {
    hide SameMonitorsAs;
    hide ValidMembers;
    forall i | 0 <= i < |entries| && entries[i].automatic
      ensures !SameMonitorsAs(entries[i].record, e.record) && !SameMonitorsAs(e.record, entries[i].record)
    {
      if SameMonitorsAs(e.record, entries[i].record) { SameMonitorsBack(e.record, entries[i].record); }
    }
  }

  lemma ValidRecords(entries: seq<Entry>, admits: Record -> bool)
    requires Sound(entries, admits)
    ensures forall i | 0 <= i < |entries| :: ValidMembers(entries[i].record.members)
  {
  }

  // What stays when a record is remembered is for other monitors.
  lemma NoneLeftToReplace(entries: seq<Entry>, record: Record, rest: seq<Entry>, i: nat)
    requires DropsExactly(entries, record, rest) && i < |rest|
    ensures rest[i] in entries && !Replaces(record, rest[i])
  {
    hide Replaces;
    hide KeysOf;
    hide Of;
    if Crowded(entries, record) {
      var k :| Oldest(entries, KeysOf(record), k) && rest == RemoveAt(entries, k);
      assert rest[i] == entries[if i < k then i else i + 1];
    } else {
      RetainedMembers(entries, (e: Entry) => !Replaces(record, e), rest[i]);
    }
  }

  lemma DropKeepsOne(entries: seq<Entry>, record: Record, rest: seq<Entry>)
    requires DropsExactly(entries, record, rest) && OnePerMonitors(entries)
    ensures OnePerMonitors(rest)
  {
    hide OnePerMonitors;
    hide Replaces;
    hide KeysOf;
    if Crowded(entries, record) {
      var k :| Oldest(entries, KeysOf(record), k) && rest == RemoveAt(entries, k);
      RemoveAtKeepsOne(entries, k);
    } else {
      RetainedKeepsOne(entries, (e: Entry) => !Replaces(record, e));
    }
  }

  lemma RememberingKeepsOne(entries: seq<Entry>, record: Record, local: string, admits: Record -> bool)
    requires Sound(entries, admits) && Valid(record, admits) && OnePerMonitors(entries)
    ensures OnePerMonitors(Remembered(entries, record, local).0)
  {
    hide OnePerMonitors;
    hide Sound;
    hide Remembered;
    hide Replaces;
    hide DropsExactly;
    hide LeavesOthers;
    hide AlreadyRemembered;
    hide FullOfNames;
    hide ValidMembers;
    RememberingKeepsTheLibrary(entries, record, local, admits);
    var (after, outcome) := Remembered(entries, record, local);
    if outcome == Ok(true) {
      var rest, e := after[..|after| - 1], after[|after| - 1];
      DropKeepsOne(entries, record, rest);
      ValidRecords(entries, admits);
      forall i | 0 <= i < |rest| ensures ValidMembers(rest[i].record.members) && !Replaces(e.record, rest[i]) {
        NoneLeftToReplace(entries, record, rest, i);
      }
      AppendKeepsOne(rest, e);
      assert after == rest + [e];
    }
  }

  // A saved entry is the user's, so it is never the second remembered one.
  lemma SavingKeepsOne(entries: seq<Entry>, name: string, record: Record)
    requires OnePerMonitors(entries)
    ensures OnePerMonitors(Upserted(entries, name, record).0)
  {
    hide SameMonitorsAs;
    hide Normalized;
    hide KeysOf;
    hide Of;
  }

  lemma ForgettingKeepsOne(entries: seq<Entry>, computer: string, name: string, keys: Option<seq<string>>)
    requires OnePerMonitors(entries)
    ensures OnePerMonitors(Removed(entries, computer, name, keys).0)
  {
    hide OnePerMonitors;
    hide Normalized;
    hide MadeWith;
    var normal := Normalized(name);
    if normal.Some? {
      var index := Chosen(entries, computer, normal.value, keys);
      if index.Some? { RemoveAtKeepsOne(entries, index.value); }
    }
  }

  // ----- over every run of changes

  datatype Change = Save(name: string, record: Record)
                  | Remember(record: Record, local: string)
                  | Forget(computer: string, name: string, keys: Option<seq<string>>)

  function Changed(entries: seq<Entry>, change: Change): seq<Entry> {
    match change
    case Save(name, record) => Upserted(entries, name, record).0
    case Remember(record, local) => Remembered(entries, record, local).0
    case Forget(computer, name, keys) => Removed(entries, computer, name, keys).0
  }

  function After(changes: seq<Change>): seq<Entry> {
    if changes == [] then [] else Changed(After(changes[..|changes| - 1]), changes[|changes| - 1])
  }

  // However it was saved to, remembered in and forgotten from, and whichever of those were refused.
  lemma {:induction false} EveryRunKeepsTheLibrary(changes: seq<Change>, admits: Record -> bool)
    requires forall i | 0 <= i < |changes| && !changes[i].Forget? :: Valid(changes[i].record, admits)
    ensures Sound(After(changes), admits) && OnePerMonitors(After(changes))
  {
    hide OnePerMonitors;
    hide Sound;
    hide Valid;
    hide Upserted;
    hide Remembered;
    hide Removed;
    hide RememberedWell;
    if changes == [] {
      NothingIsSound(admits);
    } else {
      var last := |changes| - 1;
      var before := After(changes[..last]);
      EveryRunKeepsTheLibrary(changes[..last], admits);
      match changes[last] {
        case Save(name, record) =>
          SavingKeepsTheLibrary(before, name, record, admits);
          SavingKeepsOne(before, name, record);
        case Remember(record, local) =>
          RememberingIsSound(before, record, local, admits);
          RememberingKeepsOne(before, record, local, admits);
        case Forget(computer, name, keys) =>
          ForgettingKeepsTheRest(before, computer, name, keys, admits);
          ForgettingKeepsOne(before, computer, name, keys);
      }
    }
  }

  lemma NothingIsSound(admits: Record -> bool)
    ensures Sound([], admits) && OnePerMonitors([])
  {
    assert forall keys :: Of([], keys) == [];
  }

  lemma RememberingIsSound(entries: seq<Entry>, record: Record, local: string, admits: Record -> bool)
    requires Sound(entries, admits) && Valid(record, admits)
    ensures Sound(Remembered(entries, record, local).0, admits)
  {
    hide Sound;
    hide Valid;
    hide Remembered;
    hide LeavesOthers;
    hide DropsExactly;
    RememberingKeepsTheLibrary(entries, record, local, admits);
  }
}
