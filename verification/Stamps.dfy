/** The one order every computer applies to copies of a record, and what exchanging them converges to. */
module Stamps {
  import opened Orders

  // Author DeviceIds and content digests are byte arrays.
  datatype Stamp = Stamp(revision: nat, author: seq<nat>, content: seq<nat>)

  // The higher revision is newer; ties go to the lower author, and then to the lower digest.
  function Compare(a: Stamp, b: Stamp): Ordering {
    CompareNat(a.revision, b.revision)
      .ThenWith(CompareSeq(b.author, a.author))
      .ThenWith(CompareSeq(b.content, a.content))
  }

  lemma CompareIsTotalOrder()
    ensures IsTotalOrder(Compare)
  {
    CompareSeqIsTotalOrder();
    forall a, b, c | Compare(a, b).Less? && Compare(b, c).Less? ensures Compare(a, c).Less? {
      CompareChains(a, b, c);
    }
  }

  lemma CompareChains(a: Stamp, b: Stamp, c: Stamp)
    requires Compare(a, b).Less? && Compare(b, c).Less?
    ensures Compare(a, c).Less?
  {
    CompareSeqIsTotalOrder();
    if a.revision == b.revision == c.revision {
      assert CompareSeq(b.author, a.author) != Greater && CompareSeq(c.author, b.author) != Greater;
      if a.author == b.author && b.author == c.author {
        assert CompareSeq(c.content, b.content).Less? && CompareSeq(b.content, a.content).Less?;
      } else if a.author == b.author || b.author == c.author {
        assert CompareSeq(c.author, a.author).Less?;
      } else {
        assert CompareSeq(c.author, b.author).Less? && CompareSeq(b.author, a.author).Less?;
      }
    }
  }

  // ----- copies

  // One copy of a group's record: its stamp, and whatever it says.
  datatype Copy<T> = Copy(stamp: Stamp, record: T)

  predicate Newer(a: Stamp, b: Stamp) {
    Compare(a, b).Greater?
  }

  predicate AtLeast(a: Stamp, b: Stamp) {
    !Compare(a, b).Less?
  }

  // The winner of two copies; on a tie this one is kept.
  function Merge<T>(mine: Copy<T>, other: Copy<T>): Copy<T> {
    if Newer(other.stamp, mine.stamp) then other else mine
  }

  lemma MergeIsTheGreater<T>(mine: Copy<T>, other: Copy<T>)
    ensures var won := Merge(mine, other);
            && (won == mine || won == other)
            && AtLeast(won.stamp, mine.stamp) && AtLeast(won.stamp, other.stamp)
            && Merge(mine, other).stamp == Merge(other, mine).stamp
  {
    CompareIsTotalOrder();
  }

  lemma AtLeastChains(a: Stamp, b: Stamp, c: Stamp)
    requires AtLeast(a, b) && AtLeast(b, c)
    ensures AtLeast(a, c)
  {
    CompareIsTotalOrder();
    if Compare(a, c).Less? {
      assert Compare(c, b) == Compare(b, c).Reverse();
      assert Compare(b, a) == Compare(a, b).Reverse();
    }
  }

  // ----- exchanging copies

  // Computers meet in pairs and each keeps the winner.
  datatype Meeting = Meeting(left: nat, right: nat)

  predicate Legal(schedule: seq<Meeting>, n: nat) {
    forall k | 0 <= k < |schedule| :: schedule[k].left < n && schedule[k].right < n
  }

  function Meet<T>(held: seq<Copy<T>>, m: Meeting): seq<Copy<T>>
    requires m.left < |held| && m.right < |held|
  {
    held[m.left := Merge(held[m.left], held[m.right])][m.right := Merge(held[m.right], held[m.left])]
  }

  function After<T>(held: seq<Copy<T>>, schedule: seq<Meeting>): (result: seq<Copy<T>>)
    requires Legal(schedule, |held|)
    ensures |result| == |held|
  {
    if schedule == [] then held
    else
      var last := |schedule| - 1;
      Meet(After(held, schedule[..last]), schedule[last])
  }

  // Computer `to` is reached from `from` by meetings one after the other.
  predicate Reached(schedule: seq<Meeting>, from: nat, to: nat) {
    if schedule == [] then from == to
    else
      var last := |schedule| - 1;
      var m := schedule[last];
      || Reached(schedule[..last], from, to)
      || (m.right == to && Reached(schedule[..last], from, m.left))
      || (m.left == to && Reached(schedule[..last], from, m.right))
  }

  lemma MeetRaises<T>(held: seq<Copy<T>>, m: Meeting, i: nat)
    requires m.left < |held| && m.right < |held| && i < |held|
    ensures AtLeast(Meet(held, m)[i].stamp, held[i].stamp)
    ensures Meet(held, m)[i] in held
    ensures i == m.left ==> AtLeast(Meet(held, m)[i].stamp, held[m.right].stamp)
    ensures i == m.right ==> AtLeast(Meet(held, m)[i].stamp, held[m.left].stamp)
  {
    MergeIsTheGreater(held[m.left], held[m.right]);
    MergeIsTheGreater(held[m.right], held[m.left]);
    CompareIsTotalOrder();
  }

  // Each held stamp never falls, and every held copy is one of the originals.
  lemma {:induction false} StampsNeverFall<T>(held: seq<Copy<T>>, schedule: seq<Meeting>, i: nat, k: nat)
    requires Legal(schedule, |held|) && i < |held| && k <= |schedule|
    ensures AtLeast(After(held, schedule)[i].stamp, After(held, schedule[..k])[i].stamp)
    ensures After(held, schedule)[i] in held
    decreases |schedule|
  {
    var last := |schedule| - 1;
    if schedule != [] {
      var before := After(held, schedule[..last]);
      MeetRaises(before, schedule[last], i);
      StampsNeverFall(held, schedule[..last], i, if k < |schedule| then k else last);
      var j :| 0 <= j < |before| && before[j] == After(held, schedule)[i];
      StampsNeverFall(held, schedule[..last], j, last);
      if k < |schedule| {
        assert schedule[..last][..k] == schedule[..k];
        AtLeastChains(After(held, schedule)[i].stamp, before[i].stamp, After(held, schedule[..k])[i].stamp);
      } else {
        assert schedule[..k] == schedule;
        CompareIsTotalOrder();
      }
    } else {
      assert schedule[..k] == [];
      CompareIsTotalOrder();
    }
  }

  // A stamp travels along every path of meetings in time order.
  lemma {:induction false} StampsTravel<T>(held: seq<Copy<T>>, schedule: seq<Meeting>, from: nat, to: nat)
    requires Legal(schedule, |held|) && from < |held| && to < |held| && Reached(schedule, from, to)
    ensures AtLeast(After(held, schedule)[to].stamp, held[from].stamp)
    decreases |schedule|
  {
    if schedule == [] {
      CompareIsTotalOrder();
    } else {
      var last := |schedule| - 1;
      var m := schedule[last];
      var before := After(held, schedule[..last]);
      MeetRaises(before, m, to);
      if Reached(schedule[..last], from, to) {
        StampsTravel(held, schedule[..last], from, to);
        AtLeastChains(After(held, schedule)[to].stamp, before[to].stamp, held[from].stamp);
      } else if m.right == to && Reached(schedule[..last], from, m.left) {
        StampsTravel(held, schedule[..last], from, m.left);
        AtLeastChains(After(held, schedule)[to].stamp, before[m.left].stamp, held[from].stamp);
      } else {
        StampsTravel(held, schedule[..last], from, m.right);
        AtLeastChains(After(held, schedule)[to].stamp, before[m.right].stamp, held[from].stamp);
      }
    }
  }

  // Every computer reached in time order from a holder of the greatest stamp ends with that stamp,
  // and so with its content.
  lemma GreatestStampWins<T>(held: seq<Copy<T>>, schedule: seq<Meeting>, from: nat, to: nat)
    requires Legal(schedule, |held|) && from < |held| && to < |held| && Reached(schedule, from, to)
    requires forall c | c in held :: AtLeast(held[from].stamp, c.stamp)
    ensures After(held, schedule)[to].stamp == held[from].stamp
    ensures After(held, schedule)[to] in held
  {
    StampsTravel(held, schedule, from, to);
    StampsNeverFall(held, schedule, to, 0);
    CompareIsTotalOrder();
  }
}
