/** Every session a hub took is ended exactly once, and by whose report. */
module SharingNetReports {
  import opened Prelude
  import opened SharingNet
  import opened SharingNetSafety

  ghost predicate Pumping(s: Net, h: HubId) {
    h in s.hubs && s.hubs[h].pumping
  }

  // Sessions and owed reports belong to hubs whose pump still runs.
  ghost predicate LiveInv(s: Net) {
    && (forall p :: Entry(s, p).session.Some? ==>
          Pumping(s, Entry(s, p).session.value.hub) && Entry(s, p).session.value.id < s.nextSession)
    && (forall p, k :: 0 <= k < |Entry(s, p).owed| ==> Pumping(s, Entry(s, p).owed[k].hub))
  }

  ghost predicate LiveId(s: Net, id: SessionId) {
    exists p :: Entry(s, p).session.Some? && Entry(s, p).session.value.id == id
  }

  // A session taken is live or was ended once, never both.
  ghost predicate EndsInv(s: Net) {
    && (forall p, q :: p != q && Entry(s, p).session.Some? && Entry(s, q).session.Some? ==>
          Entry(s, p).session.value.id != Entry(s, q).session.value.id)
    && (forall id: SessionId :: s.ends[id] == if id < s.nextSession && !LiveId(s, id) then 1 else 0)
  }

  // Per hub and computer, as many sessions are unreported as are owed or live; while reports came
  // in order they are the same sessions.
  ghost predicate CountInv(s: Net) {
    forall h, p :: Pumping(s, h) ==>
      && |Pending(s, h, p)| == |Slots(s, h, p)|
      && (s.inOrder ==> Pending(s, h, p) == Slots(s, h, p))
  }

  ghost predicate AccountInv(s: Net) {
    LiveInv(s) && EndsInv(s) && CountInv(s)
  }

  // ----- owed lists

  lemma {:induction false} OwedAppend(owed: seq<Owed>, o: Owed, h: HubId)
    ensures OwedTo(owed + [o], h) == OwedTo(owed, h) + if o.hub == h then [o.session] else []
  {
    if owed != [] {
      assert (owed + [o])[1..] == owed[1..] + [o];
      OwedAppend(owed[1..], o, h);
    }
  }

  lemma {:induction false} OwedTake(owed: seq<Owed>, h: HubId, g: HubId)
    ensures OwedTo(TakeFirst(owed, h), g)
         == if g == h && OwedTo(owed, h) != [] then OwedTo(owed, h)[1..] else OwedTo(owed, g)
    ensures forall o | o in TakeFirst(owed, h) :: o in owed
  {
    if owed != [] && owed[0].hub != h {
      var r := [owed[0]] + TakeFirst(owed[1..], h);
      assert r[1..] == TakeFirst(owed[1..], h);
      OwedTake(owed[1..], h, g);
    }
  }

  lemma {:induction false} OwedWithout(owed: seq<Owed>, h: HubId, g: HubId)
    ensures OwedTo(WithoutHub(owed, h), g) == if g == h then [] else OwedTo(owed, g)
    ensures forall o | o in WithoutHub(owed, h) :: o in owed && o.hub != h
  {
    if owed != [] {
      OwedWithout(owed[1..], h, g);
      if owed[0].hub != h {
        var r := [owed[0]] + WithoutHub(owed[1..], h);
        assert r[1..] == WithoutHub(owed[1..], h);
      } else {
        assert WithoutHub(owed, h) == WithoutHub(owed[1..], h);
      }
    }
  }

  lemma {:induction false} OwedNone(owed: seq<Owed>, h: HubId)
    requires forall k | 0 <= k < |owed| :: owed[k].hub != h
    ensures OwedTo(owed, h) == []
  {
    if owed != [] { OwedNone(owed[1..], h); }
  }

  // ----- steps that leave the books alone

  lemma AccountFrame(s: Net, r: Net)
    requires AccountInv(s) && SameBooks(s, r)
    ensures AccountInv(r)
  {
    assert forall p :: Entry(r, p).session == Entry(s, p).session && Entry(r, p).owed == Entry(s, p).owed;
    assert forall id :: LiveId(r, id) == LiveId(s, id);
    assert forall h, p :: Slots(r, h, p) == Slots(s, h, p);
  }

  // A hub's phase says nothing about its reports.
  lemma AccountPhase(s: Net, r: Net)
    requires AccountInv(s)
    requires r.hubs.Keys == s.hubs.Keys
    requires forall h | h in s.hubs :: r.hubs[h].pumping == s.hubs[h].pumping && r.hubs[h].pending == s.hubs[h].pending
    requires r.members == s.members && r.nextSession == s.nextSession && r.ends == s.ends && r.inOrder == s.inOrder
    ensures AccountInv(r)
  {
    assert forall p :: Entry(r, p).session == Entry(s, p).session && Entry(r, p).owed == Entry(s, p).owed;
    assert forall id :: LiveId(r, id) == LiveId(s, id);
    assert forall h, p :: Slots(r, h, p) == Slots(s, h, p);
    assert forall h, p :: Pending(r, h, p) == Pending(s, h, p);
  }

  lemma AccountStarted(s: Net, plan: Plan)
    requires AccountInv(s) && HubInv(s)
    ensures AccountInv(HubStarted(s, plan))
  {
    var r := HubStarted(s, plan);
    var g := s.nextHub;
    assert g !in s.hubs;
    hide HubInv;
    assert forall p :: Entry(r, p) == Entry(s, p);
    assert LiveInv(r);
    assert EndsInv(r) by { assert forall id :: LiveId(r, id) == LiveId(s, id); }
    CountStarted(s, plan);
  }

  lemma CountStarted(s: Net, plan: Plan)
    requires LiveInv(s) && CountInv(s) && s.nextHub !in s.hubs
    ensures CountInv(HubStarted(s, plan))
  {
    var r, g := HubStarted(s, plan), s.nextHub;
    assert forall p :: Entry(r, p) == Entry(s, p);
    forall p ensures Slots(r, g, p) == [] { OwedNone(Entry(s, p).owed, g); }
    forall h, p | Pumping(r, h)
      ensures |Pending(r, h, p)| == |Slots(r, h, p)| && (r.inOrder ==> Pending(r, h, p) == Slots(r, h, p))
    {
      if h != g {
        assert Pumping(s, h);
        assert Pending(r, h, p) == Pending(s, h, p) && Slots(r, h, p) == Slots(s, h, p);
      }
    }
  }

  // ----- a hub takes a session

  lemma JoinedEntry(s: Net, p: Peer, h: HubId, under: Agreement)
    requires Pumping(s, h)
    ensures var r := Joined(s, p, h, under);
            && (forall q | q != p :: Entry(r, q) == Entry(s, q))
            && Entry(r, p).session == Some(Session(h, s.nextSession, under))
            && (forall g :: Slots(r, g, p) == Slots(s, g, p) + if g == h then [s.nextSession] else [])
            && (forall g, q :: Pending(r, g, q) == Pending(s, g, q) + if g == h && q == p then [s.nextSession] else [])
            && (forall g :: Pumping(r, g) == Pumping(s, g))
  {
    var r := Joined(s, p, h, under);
    var m := Entry(s, p);
    forall g ensures Slots(r, g, p) == Slots(s, g, p) + if g == h then [s.nextSession] else [] {
      if m.session.Some? { OwedAppend(m.owed, Owed(m.session.value.hub, m.session.value.id), g); }
    }
  }

  lemma LiveJoined(s: Net, p: Peer, h: HubId, under: Agreement)
    requires LiveInv(s) && Pumping(s, h)
    ensures LiveInv(Joined(s, p, h, under))
  {
    var r := Joined(s, p, h, under);
    assert forall q | q != p :: Entry(r, q) == Entry(s, q);
    assert forall g :: Pumping(r, g) == Pumping(s, g);
  }

  lemma EndsJoined(s: Net, p: Peer, h: HubId, under: Agreement)
    requires LiveInv(s) && EndsInv(s) && Pumping(s, h)
    ensures EndsInv(Joined(s, p, h, under))
  {
    var r := Joined(s, p, h, under);
    assert forall q | q != p :: Entry(r, q) == Entry(s, q);
    assert Entry(r, p).session.value.id == s.nextSession;
    var old' := Entry(s, p).session;
    forall id: SessionId ensures r.ends[id] == if id < r.nextSession && !LiveId(r, id) then 1 else 0 {
      if LiveId(r, id) && id != s.nextSession {
        var q :| Entry(r, q).session.Some? && Entry(r, q).session.value.id == id;
        assert Entry(s, q).session.Some? && Entry(s, q).session.value.id == id;
      }
      if LiveId(s, id) && !(old'.Some? && old'.value.id == id) {
        var q :| Entry(s, q).session.Some? && Entry(s, q).session.value.id == id;
        assert Entry(r, q).session.Some? && Entry(r, q).session.value.id == id;
      }
    }
  }

  lemma AccountJoined(s: Net, p: Peer, h: HubId, under: Agreement)
    requires AccountInv(s) && Pumping(s, h)
    ensures AccountInv(Joined(s, p, h, under))
  {
    LiveJoined(s, p, h, under);
    EndsJoined(s, p, h, under);
    JoinedEntry(s, p, h, under);
    hide Joined;
    hide LiveInv;
    hide EndsInv;
    var r := Joined(s, p, h, under);
    assert forall g, q | q != p :: Slots(r, g, q) == Slots(s, g, q);
    JoinedOrder(s, p, h, under);
  }

  lemma JoinedOrder(s: Net, p: Peer, h: HubId, under: Agreement)
    requires h in s.hubs
    ensures Joined(s, p, h, under).inOrder == s.inOrder
  {
  }

  // ----- a hub reports an end

  // Of what is owed or live, the oldest is settled: an owed report goes, or the last session ends.
  ghost predicate SettlesOldest(s: Net, r: Net, h: HubId, p: Peer) {
    var oldest := Slots(s, h, p);
    && oldest != []
    && Slots(r, h, p) == oldest[1..]
    && (forall g | g != h :: Slots(r, g, p) == Slots(s, g, p))
    && (forall q | q != p :: Entry(r, q) == Entry(s, q))
    && (Entry(r, p).session != Entry(s, p).session ==>
          && Entry(s, p).session.Some? && Entry(r, p).session.None?
          && Entry(s, p).session.value.id == oldest[0] && |oldest| == 1
          && r.ends == s.ends + multiset{oldest[0]})
    && (Entry(r, p).session == Entry(s, p).session ==> r.ends == s.ends)
    && (forall o | o in Entry(r, p).owed :: o in Entry(s, p).owed)
  }

  lemma OwedSettles(s: Net, h: HubId, p: Peer)
    requires OwedTo(Entry(s, p).owed, h) != []
    ensures SettlesOldest(s, OwedTaken(s, h, p), h, p)
  {
    var m, r := Entry(s, p), OwedTaken(s, h, p);
    assert Entry(r, p) == m.(owed := TakeFirst(m.owed, h));
    forall g ensures Slots(r, g, p) == if g == h then Slots(s, h, p)[1..] else Slots(s, g, p) { OwedTake(m.owed, h, g); }
    OwedTake(m.owed, h, h);
  }

  lemma SessionSettles(s: Net, h: HubId, p: Peer)
    requires OwedTo(Entry(s, p).owed, h) == [] && InSession(s, p, h)
    ensures SettlesOldest(s, SessionEnded(s, h, p), h, p)
  {
    assert Entry(SessionEnded(s, h, p), p) == Entry(s, p).(session := None);
  }

  // Settling sees only members and ends.
  lemma SettlesAlike(s: Net, r: Net, s': Net, r': Net, h: HubId, p: Peer)
    requires SettlesOldest(s, r, h, p) && s'.ends == s.ends && r'.ends == r.ends
    requires forall q :: Entry(s', q) == Entry(s, q) && Entry(r', q) == Entry(r, q)
    ensures SettlesOldest(s', r', h, p)
  {
    assert forall g :: Slots(s', g, p) == Slots(s, g, p) && Slots(r', g, p) == Slots(r, g, p);
  }

  // Whatever a report says, it settles the oldest session of that computer still open with the hub:
  // one owed for a replaced session if any, else the live one. There always is one.
  lemma ReportSettlesOldest(s: Net, h: HubId, p: Peer, i: nat)
    requires AccountInv(s) && Enabled(s, PeerEnded(h, p, i))
    ensures SettlesOldest(s, Reported(s, h, p, i), h, p)
  {
    var s1 := ReportRead(s, h, p, i);
    assert |Slots(s, h, p)| == |Pending(s, h, p)| > 0;
    assert forall q :: Entry(s1, q) == Entry(s, q);
    hide AccountInv;
    hide SettlesOldest;
    hide ReportRead;
    hide OwedTaken;
    hide SessionEnded;
    hide NativeAfterEnd;
    if OwedTo(Entry(s, p).owed, h) != [] {
      OwedSettles(s1, h, p);
      SettlesAlike(s1, OwedTaken(s1, h, p), s, OwedTaken(s1, h, p), h, p);
    } else {
      SessionSettles(s1, h, p);
      NativeShape(SessionEnded(s1, h, p), h);
      SettlesAlike(s1, SessionEnded(s1, h, p), s, Ticked(NativeAfterEnd(SessionEnded(s1, h, p), h)), h, p);
    }
  }

  lemma ReportedPending(s: Net, h: HubId, p: Peer, i: nat)
    requires Enabled(s, PeerEnded(h, p, i))
    ensures var r := Reported(s, h, p, i);
            && Pending(r, h, p) == Pending(s, h, p)[..i] + Pending(s, h, p)[i + 1..]
            && (forall g, q | g != h || q != p :: Pending(r, g, q) == Pending(s, g, q))
            && (forall g :: Pumping(r, g) == Pumping(s, g))
            && r.nextSession == s.nextSession
            && r.inOrder == (s.inOrder && i == 0)
  {
    ReportedShape(s, h, p, i);
    var s1 := ReportRead(s, h, p, i);
    EndedShape(s1, h, p);
    NativeShape(SessionEnded(s1, h, p), h);
  }

  lemma CountReported(s: Net, h: HubId, p: Peer, i: nat)
    requires AccountInv(s) && Enabled(s, PeerEnded(h, p, i))
    ensures CountInv(Reported(s, h, p, i))
  {
    ReportSettlesOldest(s, h, p, i);
    ReportedPending(s, h, p, i);
    hide Reported;
    hide LiveInv;
    hide EndsInv;
    var r := Reported(s, h, p, i);
    assert forall g, q | q != p :: Slots(r, g, q) == Slots(s, g, q);
  }

  lemma LiveReported(s: Net, h: HubId, p: Peer, i: nat)
    requires AccountInv(s) && Enabled(s, PeerEnded(h, p, i))
    ensures LiveInv(Reported(s, h, p, i))
  {
    ReportSettlesOldest(s, h, p, i);
    ReportedPending(s, h, p, i);
    hide Reported;
    hide CountInv;
    hide EndsInv;
    var r := Reported(s, h, p, i);
    forall k | 0 <= k < |Entry(r, p).owed| ensures Pumping(r, Entry(r, p).owed[k].hub) {
      assert Entry(r, p).owed[k] in Entry(s, p).owed;
    }
  }

  lemma EndsReported(s: Net, h: HubId, p: Peer, i: nat)
    requires AccountInv(s) && Enabled(s, PeerEnded(h, p, i))
    ensures EndsInv(Reported(s, h, p, i))
  {
    ReportSettlesOldest(s, h, p, i);
    ReportedPending(s, h, p, i);
    hide Reported;
    hide CountInv;
    hide Slots;
    var r := Reported(s, h, p, i);
    if Entry(r, p).session == Entry(s, p).session {
      assert forall q :: Entry(r, q).session == Entry(s, q).session;
      assert forall id :: LiveId(r, id) == LiveId(s, id);
    } else {
      EndedOnce(s, r, p);
    }
  }

  // One live session ended and delivered once.
  lemma EndedOnce(s: Net, r: Net, p: Peer)
    requires LiveInv(s) && EndsInv(s) && Entry(s, p).session.Some? && Entry(r, p).session.None?
    requires forall q | q != p :: Entry(r, q) == Entry(s, q)
    requires r.ends == s.ends + multiset{Entry(s, p).session.value.id} && r.nextSession == s.nextSession
    ensures EndsInv(r)
  {
    var gone := Entry(s, p).session.value.id;
    forall id: SessionId ensures r.ends[id] == if id < r.nextSession && !LiveId(r, id) then 1 else 0 {
      if LiveId(r, id) {
        var q :| Entry(r, q).session.Some? && Entry(r, q).session.value.id == id;
        assert Entry(s, q).session.Some? && Entry(s, q).session.value.id == id;
      }
      if LiveId(s, id) && id != gone {
        var q :| Entry(s, q).session.Some? && Entry(s, q).session.value.id == id;
        assert Entry(r, q).session.Some? && Entry(r, q).session.value.id == id;
      }
    }
  }

  lemma AccountReported(s: Net, h: HubId, p: Peer, i: nat)
    requires AccountInv(s) && Enabled(s, PeerEnded(h, p, i))
    ensures AccountInv(Reported(s, h, p, i))
  {
    hide LiveInv;
    hide EndsInv;
    hide CountInv;
    LiveReported(s, h, p, i);
    EndsReported(s, h, p, i);
    CountReported(s, h, p, i);
  }

  // ----- a hub's report stream ends

  lemma StreamEntries(s: Net, h: HubId)
    requires h in s.hubs
    ensures var r := StreamEnded(s, h);
            && (forall p :: Entry(r, p) == Closing(Entry(s, p), h))
            && (forall p, g | g != h :: Slots(r, g, p) == Slots(s, g, p))
            && (forall g | g != h :: Pumping(r, g) == Pumping(s, g))
            && !Pumping(r, h)
            && (forall p, g :: Pending(r, g, p) == Pending(s, g, p))
  {
    var r := StreamEnded(s, h);
    assert WithoutHub([], h) == [];
    assert forall p :: Entry(r, p) == Closing(Entry(s, p), h);
    forall p, g | g != h ensures Slots(r, g, p) == Slots(s, g, p) { OwedWithout(Entry(s, p).owed, h, g); }
  }

  lemma LiveStreamEnded(s: Net, h: HubId)
    requires AccountInv(s) && h in s.hubs
    ensures LiveInv(StreamEnded(s, h)) && CountInv(StreamEnded(s, h))
  {
    StreamEntries(s, h);
    var r := StreamEnded(s, h);
    assert r.inOrder == s.inOrder && r.nextSession == s.nextSession;
    hide StreamEnded;
    hide EndsInv;
    forall p, k | 0 <= k < |Entry(r, p).owed| ensures Pumping(r, Entry(r, p).owed[k].hub) {
      OwedWithout(Entry(s, p).owed, h, h);
      assert Entry(r, p).owed[k] in WithoutHub(Entry(s, p).owed, h);
      assert Entry(r, p).owed[k] in Entry(s, p).owed;
    }
  }

  lemma EndsStreamEnded(s: Net, h: HubId)
    requires AccountInv(s) && h in s.hubs
    ensures EndsInv(StreamEnded(s, h))
  {
    StreamEntries(s, h);
    var r := StreamEnded(s, h);
    assert r.ends == s.ends + multiset(SessionIdsOf(s, h)) && r.nextSession == s.nextSession;
    hide StreamEnded;
    hide CountInv;
    forall id: SessionId ensures r.ends[id] == if id < r.nextSession && !LiveId(r, id) then 1 else 0 {
      if id in SessionIdsOf(s, h) {
        var p :| p in s.members && InSession(s, p, h) && s.members[p].session.value.id == id;
        assert Entry(s, p).session.Some? && Entry(s, p).session.value.id == id;
        assert LiveId(s, id);
      } else {
        if LiveId(s, id) {
          var q :| Entry(s, q).session.Some? && Entry(s, q).session.value.id == id;
          assert q in s.members && !InSession(s, q, h);
          assert Entry(r, q).session.Some? && Entry(r, q).session.value.id == id;
        }
        if LiveId(r, id) {
          var q :| Entry(r, q).session.Some? && Entry(r, q).session.value.id == id;
          assert Entry(s, q).session.Some? && Entry(s, q).session.value.id == id;
        }
      }
    }
  }

  lemma AccountHalted(s: Net)
    requires AccountInv(s)
    ensures AccountInv(Halted(s))
  {
    var r := Halted(s);
    forall id: SessionId ensures r.ends[id] == if id < r.nextSession && !LiveId(r, id) then 1 else 0 {
      if LiveId(s, id) {
        var q :| Entry(s, q).session.Some? && Entry(s, q).session.value.id == id;
        assert id in LiveSessions(s);
      }
      if id in LiveSessions(s) {
        var q :| q in s.members && s.members[q].session.Some? && s.members[q].session.value.id == id;
        assert Entry(s, q).session.Some? && Entry(s, q).session.value.id == id;
      }
    }
  }

  lemma AccountAdmitted(s: Net, t: TaskId, a: Answers)
    requires HubInv(s) && AccountInv(s) && Enabled(s, Admit(t, a))
    ensures AccountInv(Admitted(s, t, a))
  {
    AdmittedShape(s, t, a);
    if s.hub.Some? { assert s.hub.value.id in Unfinished(s); assert Pumping(s, s.hub.value.id); }
    hide HubInv;
    hide AccountInv;
    hide Admitted;
    hide Joined;
    hide SameBooks;
    var r := Admitted(s, t, a);
    var plan := s.tasks[t].plan;
    var p := s.tasks[t].peer;
    if r == s.(tasks := r.tasks, queue := r.queue) {
      PlainSame(s, r);
      AccountFrame(s, r);
    } else if s.hub.Some? {
      var h := s.hub.value.id;
      AccountJoined(s, p, h, plan.agreement);
      PlainSame(Joined(s, p, h, plan.agreement), r);
      AccountFrame(Joined(s, p, h, plan.agreement), r);
    } else {
      AccountStarted(s, plan);
      AccountJoined(HubStarted(s, plan), p, s.nextHub, plan.agreement);
      PlainSame(Joined(HubStarted(s, plan), p, s.nextHub, plan.agreement), r);
      AccountFrame(Joined(HubStarted(s, plan), p, s.nextHub, plan.agreement), r);
    }
  }

  lemma AccountSmall(s: Net, step: Step)
    requires AccountInv(s) && Enabled(s, step)
    requires step.RunReturns? || step.HubCloses? || step.NativeIdle? || step.PeerStarted?
    ensures AccountInv(Apply(s, step))
  {
    hide AccountInv;
    hide RunOver;
    if step.RunReturns? { RunOverShape(s, step.hub); }
    AccountPhase(s, Apply(s, step));
  }

  lemma AccountStep(s: Net, step: Step)
    requires HubInv(s) && AccountInv(s) && Enabled(s, step)
    ensures AccountInv(Apply(s, step))
  {
    hide HubInv;
    hide AccountInv;
    hide SameBooks;
    hide HubMove;
    var r := Apply(s, step);
    match step
    case Receive(a) =>
      var s1 := s.(queue := s.queue[1..]);
      PlainSame(s, s1);
      DispatchSame(s1, s.queue[0], a);
      AccountFrame(s, s1);
      AccountFrame(s1, r);
    case Advance(a) =>
      if s.loop.todo == Then(Halt) { AccountHalted(s); }
      else { AdvancedSame(s, s.loop.todo, a); AccountFrame(s, r); }
    case Resume(a) => ResumedSame(s, a); AccountFrame(s, r);
    case Admit(t, a) => AccountAdmitted(s, t, a);
    case RunReturns(h) => AccountSmall(s, step);
    case HubCloses(h) => AccountSmall(s, step);
    case NativeIdle(h) => AccountSmall(s, step);
    case PeerStarted(h, p) => AccountSmall(s, step);
    case PeerEnded(h, p, i) => AccountReported(s, h, p, i);
    case StreamEnds(h) => AccountStreamEnded(s, h);
    case _ => SideSame(s, step); AccountFrame(s, r);
  }

  lemma AccountStreamEnded(s: Net, h: HubId)
    requires AccountInv(s) && h in s.hubs
    ensures AccountInv(StreamEnded(s, h))
  {
    LiveStreamEnded(s, h);
    EndsStreamEnded(s, h);
  }

  // ----- sessions are numbered as they are taken

  ghost predicate Ascending(ids: seq<SessionId>, bound: SessionId) {
    && (forall i, j | 0 <= i < j < |ids| :: ids[i] < ids[j])
    && (forall i | 0 <= i < |ids| :: ids[i] < bound)
  }

  ghost predicate AgesInv(s: Net) {
    forall h, p :: Ascending(Pending(s, h, p), s.nextSession)
  }

  lemma AgesFrame(s: Net, r: Net)
    requires AgesInv(s) && r.nextSession == s.nextSession
    requires forall h, p :: Pending(r, h, p) == Pending(s, h, p)
    ensures AgesInv(r)
  {
  }

  lemma AgesJoined(s: Net, p: Peer, h: HubId, under: Agreement)
    requires AgesInv(s) && Pumping(s, h)
    ensures AgesInv(Joined(s, p, h, under))
  {
    JoinedEntry(s, p, h, under);
    var r := Joined(s, p, h, under);
    assert r.nextSession == s.nextSession + 1;
    hide Joined;
  }

  lemma AgesReported(s: Net, h: HubId, p: Peer, i: nat)
    requires AgesInv(s) && Enabled(s, PeerEnded(h, p, i))
    ensures AgesInv(Reported(s, h, p, i))
  {
    ReportedPending(s, h, p, i);
    hide Reported;
    var r := Reported(s, h, p, i);
    assert Ascending(Pending(s, h, p), s.nextSession);
    assert Ascending(Pending(r, h, p), r.nextSession);
  }

  lemma AgesAdmitted(s: Net, t: TaskId, a: Answers)
    requires HubInv(s) && AgesInv(s) && Enabled(s, Admit(t, a))
    ensures AgesInv(Admitted(s, t, a))
  {
    AdmittedShape(s, t, a);
    if s.hub.Some? { assert s.hub.value.id in Unfinished(s); assert Pumping(s, s.hub.value.id); }
    hide HubInv;
    hide AgesInv;
    hide Admitted;
    hide Joined;
    var r := Admitted(s, t, a);
    var plan := s.tasks[t].plan;
    var p := s.tasks[t].peer;
    if r == s.(tasks := r.tasks, queue := r.queue) {
      AgesFrame(s, r);
    } else if s.hub.Some? {
      AgesJoined(s, p, s.hub.value.id, plan.agreement);
      AgesFrame(Joined(s, p, s.hub.value.id, plan.agreement), r);
    } else {
      AgesStarted(s, plan);
      AgesJoined(HubStarted(s, plan), p, s.nextHub, plan.agreement);
      AgesFrame(Joined(HubStarted(s, plan), p, s.nextHub, plan.agreement), r);
    }
  }

  lemma AgesStarted(s: Net, plan: Plan)
    requires AgesInv(s)
    ensures AgesInv(HubStarted(s, plan)) && Pumping(HubStarted(s, plan), s.nextHub)
  {
    var r := HubStarted(s, plan);
    assert forall h, p :: Pending(r, h, p) == if h == s.nextHub then [] else Pending(s, h, p);
    assert forall h, p :: Ascending(Pending(r, h, p), r.nextSession) by {
      forall h, p ensures Ascending(Pending(r, h, p), r.nextSession) {
        assert Ascending(Pending(s, h, p), s.nextSession);
      }
    }
  }

  lemma AgesStep(s: Net, step: Step)
    requires HubInv(s) && AgesInv(s) && Enabled(s, step)
    ensures AgesInv(Apply(s, step))
  {
    hide HubInv;
    hide AgesInv;
    hide HubMove;
    hide Dispatch;
    hide Advanced;
    hide Reported;
    hide RunOver;
    hide StreamEnded;
    hide Admitted;
    var r := Apply(s, step);
    match step
    case Receive(a) => DispatchSame(s.(queue := s.queue[1..]), s.queue[0], a); AgesFrame(s, r);
    case Advance(a) =>
      if s.loop.todo == Then(Halt) { AgesHalted(s, a); } else { AdvancedSame(s, s.loop.todo, a); AgesFrame(s, r); }
    case Resume(a) => ResumedSame(s, a); AgesFrame(s, r);
    case Admit(t, a) => AgesAdmitted(s, t, a);
    case RunReturns(h) => RunOverShape(s, h); AgesFrame(s, r);
    case PeerEnded(h, p, i) => AgesReported(s, h, p, i);
    case StreamEnds(h) => StreamEntries(s, h); StreamCounter(s, h); AgesFrame(s, r);
    case _ => AgesFrame(s, r);
  }

  lemma AgesHalted(s: Net, a: Answers)
    ensures AgesInv(Advanced(s, Then(Halt), a))
  {
  }

  lemma StreamCounter(s: Net, h: HubId)
    requires h in s.hubs
    ensures StreamEnded(s, h).nextSession == s.nextSession
  {
  }
}
