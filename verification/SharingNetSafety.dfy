/** What every step of the sharing network thread keeps. */
module SharingNetSafety {
  import opened Prelude
  import opened SharingNet

  // ----- hub runs and the flags that publish them

  // At most one hub run is unfinished, and the flags say so.
  ghost predicate HubInv(s: Net) {
    && |Unfinished(s)| <= 1
    && s.hubRuns == |Unfinished(s)|
    && (forall h | h in s.hubs :: h < s.nextHub)
    && (forall h | h in Unfinished(s) :: s.hubs[h].pumping)
    && (s.hub.Some? ==> s.hub.value.id in Unfinished(s))
    && (s.hub.None? && Unfinished(s) != {} ==> s.loop.Stopping? && s.loop.hub in Unfinished(s))
    && (s.flags.hub <==> Unfinished(s) != {})
    && (s.flags.native ==> Unfinished(s) != {})
    && (s.hub.Some? && SessionsOf(s, s.hub.value.id) ==> s.flags.native)
  }

  // No lost wake-up: a connect waiting for a hub to end has one whose end will wake it.
  ghost predicate WaitInv(s: Net) {
    forall t | t in s.tasks && s.tasks[t].Connect? && s.tasks[t].waiting && !s.tasks[t].notified ::
      Unfinished(s) != {}
  }

  // The tasks a handler took off their members' lists to end them one by one.
  function Held(loop: Loop): set<TaskId> {
    if loop.Ending? then {loop.current} + loop.later else {}
  }

  // ----- what the command loop leaves alone

  // Hub runs, sessions, reports and ends are as they were; only `hub` itself may differ.
  ghost predicate SameBooks(s: Net, r: Net) {
    && r.hubs == s.hubs && r.hubRuns == s.hubRuns && r.nextHub == s.nextHub
    && r.flags.hub == s.flags.hub && r.flags.native == s.flags.native
    && r.nextSession == s.nextSession && r.ends == s.ends && r.inOrder == s.inOrder
    && forall p :: Entry(r, p).session == Entry(s, p).session && Entry(r, p).owed == Entry(s, p).owed
  }

  // The current hub is kept, or it was taken to be stopped and awaited.
  ghost predicate HubMove(s: Net, r: Net) {
    || (r.hub == s.hub && (s.loop.Stopping? ==> r.loop == s.loop || s.loop.hub !in Unfinished(s)))
    || (s.hub.Some? && r.hub.None? && !s.loop.Stopping? && r.loop.Stopping? && r.loop.hub == s.hub.value.id)
  }

  lemma PutSame(s: Net, p: Peer, m: Member)
    requires m.session == Entry(s, p).session && m.owed == Entry(s, p).owed
    ensures SameBooks(s, Put(s, p, m))
  {
  }

  lemma DrainedSame(s: Net)
    ensures SameBooks(s, Drained(s))
  {
  }

  lemma SameTrans(s: Net, q: Net, r: Net)
    requires SameBooks(s, q) && SameBooks(q, r)
    ensures SameBooks(s, r)
  {
  }

  lemma EndTasksSame(s: Net, tasks: set<TaskId>, todo: Todo, pick: TaskId)
    ensures var r := EndTasks(s, tasks, todo, pick);
            SameBooks(s, r) && r.hub == s.hub && (r.loop.Ready? || r.loop.Ending?)
  {
    EndTasksShape(s, tasks, todo, pick);
  }

  lemma EndTasksShape(s: Net, tasks: set<TaskId>, todo: Todo, pick: TaskId)
    ensures var r := EndTasks(s, tasks, todo, pick);
            && r == s.(loop := r.loop, tasks := r.tasks)
            && (if tasks == {} then r.loop == Ready(todo) && r.tasks == s.tasks
                else
                  && r.loop.Ending? && r.loop.todo == todo
                  && r.loop.current in tasks && r.loop.later == tasks - {r.loop.current}
                  && r.tasks == Aborted(s, r.loop.current).tasks)
            && Held(r.loop) == tasks
            && r.tasks.Keys == s.tasks.Keys
  {
    if tasks == {} {}
  }

  lemma PlainSame(s: Net, r: Net)
    requires r == s.(plan := r.plan, endpoint := r.endpoint, queue := r.queue, loop := r.loop, tasks := r.tasks,
                     nextEndpoint := r.nextEndpoint, nativeStarted := r.nativeStarted, hub := r.hub,
                     flags := s.flags.(inFlight := r.flags.inFlight, bound := r.flags.bound))
    ensures SameBooks(s, r)
    ensures r.hub == s.hub && !s.loop.Stopping? ==> HubMove(s, r)
  {
  }

  lemma StopSame(s: Net, todo: Todo)
    requires !s.loop.Stopping?
    ensures SameBooks(s, StopHub(s, todo)) && HubMove(s, StopHub(s, todo))
  {
    if s.hub.None? {}
  }

  // Adopting a plan touches nothing but the plan, the hub it takes out to stop, and the loop.
  lemma AdoptShape(s: Net, plan: Plan, todo: Todo)
    ensures var r := AdoptPlan(s, plan, todo);
            && r == s.(plan := r.plan, hub := r.hub, loop := r.loop)
            && ((r.hub == s.hub && r.loop == Ready(todo)) || (s.hub.Some? && r.hub.None? && r.loop == Stopping(s.hub.value.id, todo)))
  {
    if s.plan.Some? && s.plan.value.epoch >= plan.epoch {
      assert AdoptPlan(s, plan, todo) == s.(loop := Ready(todo));
    } else if s.hub.Some? && s.hub.value.agreement != plan.agreement {
      assert AdoptPlan(s, plan, todo) == s.(plan := Some(plan), hub := None, loop := Stopping(s.hub.value.id, todo));
    } else {
      assert AdoptPlan(s, plan, todo) == s.(plan := Some(plan), loop := Ready(todo));
    }
  }

  lemma AdoptSame(s: Net, plan: Plan, todo: Todo)
    requires s.loop.Receiving?
    ensures SameBooks(s, AdoptPlan(s, plan, todo)) && HubMove(s, AdoptPlan(s, plan, todo))
  {
    hide SameBooks;
    hide AdoptPlan;
    AdoptShape(s, plan, todo);
    PlainSame(s, AdoptPlan(s, plan, todo));
  }

  // A handler keeps the books except for the hub it stops.
  lemma DispatchSame(s: Net, c: Command, a: Answers)
    requires s.loop.Receiving?
    ensures SameBooks(s, Dispatch(s, c, a)) && HubMove(s, Dispatch(s, c, a))
  {
    hide SameBooks;
    hide HubMove;
    hide EndTasks;
    hide AdoptPlan;
    match c
    case Group(plan) => AdoptSame(s, plan, Then(Finish(true)));
    case Share(plan, peer) =>
      AdoptSame(s, plan, AfterPlan(ForShare(plan, peer)));
      PlainSame(s, s.(loop := Ready(Then(Finish(true)))));
    case Release(peer) =>
      PlainSame(s, s.(loop := Ready(Then(Finish(true)))));
      if peer in s.members { ReleaseSame(s, peer, a); }
    case Link(peer) => EntrySame(s, peer, Ready(Ensure(ForLink(peer))));
    case Forget(peer) => EntrySame(s, peer, Ready(Then(Finish(true))));
    case _ => PlainSame(s, Dispatch(s, c, a));
  }

  lemma EntrySame(s: Net, p: Peer, loop: Loop)
    requires !s.loop.Stopping?
    ensures var r := Put(s, p, Entry(s, p)).(loop := loop);
            SameBooks(s, r) && HubMove(s, r)
  {
    PutSame(s, p, Entry(s, p));
  }

  lemma ReleaseSame(s: Net, peer: Peer, a: Answers)
    requires s.loop.Receiving? && peer in s.members
    ensures var r := Dispatch(s, Release(peer), a);
            SameBooks(s, r) && HubMove(s, r)
  {
    var m := s.members[peer];
    var s1 := Put(s, peer, m.(enabled := false, connects := {}));
    PutSame(s, peer, m.(enabled := false, connects := {}));
    EndTasksSame(s1, m.connects, Settle(true), a.pick);
    SameTrans(s, s1, EndTasks(s1, m.connects, Settle(true), a.pick));
  }

  lemma AfterPlanSame(s: Net, q: Request, a: Answers)
    requires s.loop == Ready(AfterPlan(q))
    ensures var r := Advanced(s, AfterPlan(q), a);
            SameBooks(s, r) && HubMove(s, r)
  {
    var m := Entry(s, q.peer);
    var s1 := Put(s, q.peer, m.(links := {}));
    PutSame(s, q.peer, m.(links := {}));
    EndTasksSame(s1, m.links, AfterLinks(q), a.pick);
    SameTrans(s, s1, EndTasks(s1, m.links, AfterLinks(q), a.pick));
  }

  lemma AfterLinksSame(s: Net, q: Request, a: Answers)
    requires s.loop == Ready(AfterLinks(q))
    ensures var r := Advanced(s, AfterLinks(q), a);
            SameBooks(s, r) && HubMove(s, r)
  {
    PutSame(s, q.peer, Entry(s, q.peer).(enabled := true));
  }

  lemma TeardownSame(s: Net, rest: Rest, a: Answers)
    requires s.loop == Ready(Teardown(rest))
    ensures var r := Advanced(s, Teardown(rest), a);
            SameBooks(s, r) && HubMove(s, r)
  {
    DrainedSame(s);
    EndTasksSame(Drained(s), Listed(s), TearHub(rest), a.pick);
    SameTrans(s, Drained(s), EndTasks(Drained(s), Listed(s), TearHub(rest), a.pick));
  }

  lemma AdvancedSame(s: Net, todo: Todo, a: Answers)
    requires s.loop == Ready(todo) && todo != Then(Halt)
    ensures SameBooks(s, Advanced(s, todo, a)) && HubMove(s, Advanced(s, todo, a))
  {
    hide SameBooks;
    hide HubMove;
    hide EndTasks;
    hide StopHub;
    hide Spawn;
    hide Bind;
    hide Put;
    hide Drained;
    hide Listed;
    hide IdleNet;
    hide UnusedHub;
    hide Halted;
    match todo
    case AfterPlan(q) => AfterPlanSame(s, q, a);
    case AfterLinks(q) => AfterLinksSame(s, q, a);
    case Ensure(q) => EnsureSame(s, q, a);
    case Settle(counted) => SettleSame(s, counted, a);
    case Teardown(rest) => TeardownSame(s, rest, a);
    case TearHub(rest) => StopSame(s, TearEndpoint(rest));
    case Then(BindFor(q)) => BindSame(s, q, a);
    case _ => PlainSame(s, Advanced(s, todo, a));
  }

  lemma EnsureSame(s: Net, q: Request, a: Answers)
    requires s.loop == Ready(Ensure(q))
    ensures SameBooks(s, Advanced(s, Ensure(q), a)) && HubMove(s, Advanced(s, Ensure(q), a))
  {
    hide SameBooks;
    hide HubMove;
    hide Spawn;
    if s.endpoint.Some? && a.reuse { SpawnSame(s, q, s.endpoint.value); } else { PlainSame(s, Advanced(s, Ensure(q), a)); }
  }

  lemma SettleSame(s: Net, counted: bool, a: Answers)
    requires s.loop == Ready(Settle(counted))
    ensures SameBooks(s, Advanced(s, Settle(counted), a)) && HubMove(s, Advanced(s, Settle(counted), a))
  {
    hide SameBooks;
    hide HubMove;
    hide StopHub;
    hide IdleNet;
    hide UnusedHub;
    if !IdleNet(s) && UnusedHub(s) { StopSame(s, Then(Finish(counted))); } else { PlainSame(s, Advanced(s, Settle(counted), a)); }
  }

  lemma SpawnSame(s: Net, q: Request, e: EndpointId)
    requires s.loop.Ready?
    ensures SameBooks(s, Spawn(s, q, e)) && HubMove(s, Spawn(s, q, e))
  {
    var m := Entry(s, q.peer);
    var t := s.nextTask;
    PutSame(s, q.peer, if q.ForShare? then m.(connects := m.connects + {t}) else m.(links := m.links + {t}));
  }

  lemma BindSame(s: Net, q: Request, a: Answers)
    requires s.loop.Ready?
    ensures SameBooks(s, Bind(s, q, a)) && HubMove(s, Bind(s, q, a))
  {
    if a.binds {
      var e := s.nextEndpoint;
      var s1 := s.(endpoint := Some(e), nextEndpoint := e + 1, flags := s.flags.(bound := true));
      SpawnSame(s1, q, e);
    }
  }

  lemma ResumedSame(s: Net, a: Answers)
    requires Awaited(s)
    ensures SameBooks(s, Resumed(s, a)) && HubMove(s, Resumed(s, a))
  {
    if s.loop.Ending? { EndTasksSame(s, s.loop.later, s.loop.todo, a.pick); }
  }

  // ----- hub runs

  lemma Subset<T>(a: set<T>, b: set<T>)
    requires a <= b
    ensures |a| <= |b|
  {
    if a != {} {
      var x :| x in a;
      Subset(a - {x}, b - {x});
    }
  }

  lemma OneUnfinished(s: Net, h: HubId)
    requires |Unfinished(s)| <= 1 && h in Unfinished(s)
    ensures Unfinished(s) == {h}
  {
    forall g | g in Unfinished(s) ensures g == h {
      if g != h { Subset({h, g}, Unfinished(s)); }
    }
  }

  lemma HubFrame(s: Net, r: Net)
    requires HubInv(s) && SameBooks(s, r) && HubMove(s, r)
    ensures HubInv(r)
  {
    assert Unfinished(r) == Unfinished(s);
    if r.hub.Some? && SessionsOf(r, r.hub.value.id) {
      var p :| p in r.members && InSession(r, p, r.hub.value.id);
      assert p in s.members && InSession(s, p, s.hub.value.id);
    }
  }

  lemma HubJoined(s: Net, p: Peer, h: HubId, under: Agreement)
    requires HubInv(s) && IsCurrent(s, h)
    ensures h in s.hubs && HubInv(Joined(s, p, h, under))
  {
    assert h in Unfinished(s);
    assert Unfinished(Joined(s, p, h, under)) == Unfinished(s);
  }

  lemma HubBegun(s: Net, plan: Plan)
    requires HubInv(s) && s.hub.None? && s.hubRuns == 0
    ensures var r := HubStarted(s, plan);
            HubInv(r.(flags := r.flags.(native := true)))
  {
    assert Unfinished(HubStarted(s, plan)) == {s.nextHub};
  }

  // The state a connect leaves behind, apart from its own task: nothing taken, or a session joined.
  lemma AdmittedShape(s: Net, t: TaskId, a: Answers)
    requires HubInv(s) && Enabled(s, Admit(t, a))
    ensures var r := Admitted(s, t, a); var plan := s.tasks[t].plan; var p := s.tasks[t].peer;
            || (r == s.(tasks := r.tasks, queue := r.queue))
            || (exists h :: IsCurrent(s, h) && s.hub.value.agreement == plan.agreement && h in s.hubs
                            && s.plan.Some? && s.plan.value.epoch == plan.epoch
                            && r == Over(Joined(s, p, h, plan.agreement), t))
            || (s.hub.None? && s.hubRuns == 0 && s.plan.Some? && s.plan.value.epoch == plan.epoch
                && r == Over(Joined(HubStarted(s, plan), p, s.nextHub, plan.agreement), t))
  {
    hide Joined;
    hide HubStarted;
    if s.hubRuns <= 0 { assert s.hubRuns == 0; }
    hide HubInv;
  }

  lemma HubAdmitted(s: Net, t: TaskId, a: Answers)
    requires HubInv(s) && Enabled(s, Admit(t, a))
    ensures HubInv(Admitted(s, t, a))
  {
    hide HubInv;
    hide Admitted;
    hide Joined;
    AdmittedShape(s, t, a);
    var r := Admitted(s, t, a);
    var plan := s.tasks[t].plan;
    var p := s.tasks[t].peer;
    if r == s.(tasks := r.tasks, queue := r.queue) {
      PlainSame(s, r);
      HubFrame(s, r);
    } else if s.hub.Some? {
      var h := s.hub.value.id;
      HubJoined(s, p, h, plan.agreement);
      HubOver(Joined(s, p, h, plan.agreement), t);
    } else {
      HubBegun(s, plan);
      JoinedAnyNative(HubStarted(s, plan), p, s.nextHub, plan.agreement);
      var s1 := HubStarted(s, plan);
      HubJoined(s1.(flags := s1.flags.(native := true)), p, s.nextHub, plan.agreement);
      HubOver(Joined(s1, p, s.nextHub, plan.agreement), t);
    }
  }

  // Joining raises the native flag, whatever it was.
  lemma JoinedAnyNative(s: Net, p: Peer, h: HubId, under: Agreement)
    requires h in s.hubs
    ensures Joined(s.(flags := s.flags.(native := true)), p, h, under) == Joined(s, p, h, under)
  {
  }

  lemma HubOver(s: Net, t: TaskId)
    requires HubInv(s)
    ensures HubInv(Over(s, t))
  {
    hide HubInv;
    PlainSame(s, Over(s, t));
    HubFrame(s, Over(s, t));
  }

  // When a hub run finishes no other is left, so the flags it clears are right to be cleared.
  lemma HubReturned(s: Net, h: HubId)
    requires HubInv(s) && Enabled(s, RunReturns(h))
    ensures HubInv(RunOver(s, h)) && Unfinished(RunOver(s, h)) == {} && RunOver(s, h).hub.None?
  {
    OneUnfinished(s, h);
    var s1 := s.(hubs := s.hubs[h := s.hubs[h].(phase := Returned)], hubRuns := s.hubRuns - 1);
    assert Unfinished(s1) == {};
    assert RunOver(s, h).hubs == s1.hubs;
    assert Unfinished(RunOver(s, h)) == {};
  }

  lemma HubRead(s: Net, h: HubId, p: Peer, i: nat)
    requires HubInv(s) && Enabled(s, PeerEnded(h, p, i))
    ensures HubInv(ReportRead(s, h, p, i))
  {
    var r := ReportRead(s, h, p, i);
    assert Unfinished(r) == Unfinished(s);
    assert forall g :: SessionsOf(r, g) == SessionsOf(s, g);
  }

  lemma HubOwedTaken(s: Net, h: HubId, p: Peer)
    requires HubInv(s)
    ensures HubInv(OwedTaken(s, h, p))
  {
    var r := OwedTaken(s, h, p);
    assert Unfinished(r) == Unfinished(s);
    if r.hub.Some? && SessionsOf(r, r.hub.value.id) {
      var q :| q in r.members && InSession(r, q, r.hub.value.id);
      assert q in s.members && InSession(s, q, s.hub.value.id);
    }
  }

  lemma HubSessionEnded(s: Net, h: HubId, p: Peer)
    requires HubInv(s)
    ensures HubInv(SessionEnded(s, h, p))
  {
    var r := SessionEnded(s, h, p);
    assert Unfinished(r) == Unfinished(s);
    if r.hub.Some? && SessionsOf(r, r.hub.value.id) {
      var q :| q in r.members && InSession(r, q, r.hub.value.id);
      assert q in s.members && InSession(s, q, s.hub.value.id);
    }
  }

  lemma HubNativeAfterEnd(s: Net, h: HubId)
    requires HubInv(s)
    ensures HubInv(Ticked(NativeAfterEnd(s, h)))
  {
    var r := Ticked(NativeAfterEnd(s, h));
    assert Unfinished(r) == Unfinished(s);
    assert forall g :: SessionsOf(r, g) == SessionsOf(s, g);
  }

  lemma HubReported(s: Net, h: HubId, p: Peer, i: nat)
    requires HubInv(s) && Enabled(s, PeerEnded(h, p, i))
    ensures HubInv(Reported(s, h, p, i))
  {
    hide HubInv;
    hide ReportRead;
    HubRead(s, h, p, i);
    var s1 := ReportRead(s, h, p, i);
    HubOwedTaken(s1, h, p);
    HubSessionEnded(s1, h, p);
    HubNativeAfterEnd(SessionEnded(s1, h, p), h);
  }

  lemma HubStreamEnded(s: Net, h: HubId)
    requires HubInv(s) && Enabled(s, StreamEnds(h))
    ensures HubInv(StreamEnded(s, h))
  {
    var r := StreamEnded(s, h);
    assert Unfinished(r) == Unfinished(s);
    if r.hub.Some? && SessionsOf(r, r.hub.value.id) {
      var q :| q in r.members && InSession(r, q, r.hub.value.id);
      assert q in s.members && InSession(s, q, s.hub.value.id);
    }
  }

  lemma HubHalted(s: Net)
    ensures HubInv(Halted(s))
  {
    assert Unfinished(Halted(s)) == {};
  }

  lemma HubSmall(s: Net, step: Step)
    requires HubInv(s) && Enabled(s, step)
    requires step.HubCloses? || step.NativeIdle? || step.PeerStarted?
    ensures HubInv(Apply(s, step))
  {
    var r := Apply(s, step);
    assert Unfinished(r) == Unfinished(s);
    assert forall h :: SessionsOf(r, h) == SessionsOf(s, h);
  }

  lemma HubStep(s: Net, step: Step)
    requires HubInv(s) && Enabled(s, step)
    ensures HubInv(Apply(s, step))
  {
    hide HubInv;
    hide SameBooks;
    hide HubMove;
    var r := Apply(s, step);
    match step
    case Receive(a) =>
      var s1 := s.(queue := s.queue[1..]);
      PlainSame(s, s1);
      HubFrame(s, s1);
      DispatchSame(s1, s.queue[0], a);
      HubFrame(s1, r);
    case Advance(a) =>
      if s.loop.todo == Then(Halt) { HubHalted(s); } else { AdvancedSame(s, s.loop.todo, a); HubFrame(s, r); }
    case Resume(a) => ResumedSame(s, a); HubFrame(s, r);
    case Admit(t, a) => HubAdmitted(s, t, a);
    case RunReturns(h) => HubReturned(s, h);
    case PeerEnded(h, p, i) => HubReported(s, h, p, i);
    case StreamEnds(h) => HubStreamEnded(s, h);
    case HubCloses(h) => HubSmall(s, step);
    case NativeIdle(h) => HubSmall(s, step);
    case PeerStarted(h, p) => HubSmall(s, step);
    case _ => SideSame(s, step); HubFrame(s, r);
  }

  // Steps of one connect or link task, or of another thread.
  lemma SideSame(s: Net, step: Step)
    requires Enabled(s, step) && (step.Send? || step.Dropped? || step.ConnectFails? || step.LinkEnds?)
    ensures SameBooks(s, Apply(s, step)) && HubMove(s, Apply(s, step))
  {
    PlainSame(s, Apply(s, step));
  }

  lemma RunOverShape(s: Net, h: HubId)
    requires h in s.hubs
    ensures var r := RunOver(s, h);
            && r == s.(hubs := s.hubs[h := s.hubs[h].(phase := Returned)], hubRuns := s.hubRuns - 1, hub := r.hub,
                       nativeStarted := r.nativeStarted, queue := s.queue + [Tick], tasks := r.tasks,
                       flags := s.flags.(hub := r.flags.hub, native := r.flags.native))
            && r.tasks.Keys == s.tasks.Keys
            && (forall t | t in s.tasks :: r.tasks[t] == Notified(s.tasks[t]))
            && (r.hub == s.hub || r.hub.None?)
  {
    hide Notified;
    if IsCurrent(s, h) {} else if s.hub.None? {}
  }

  // What a report may touch: its hub's pending list, one member's session or owed list, the native
  // flag, and the queue, which gets a Tick whenever a session ended.
  lemma ReportedShape(s: Net, h: HubId, p: Peer, i: nat)
    requires Enabled(s, PeerEnded(h, p, i))
    ensures var r := Reported(s, h, p, i);
            && r == s.(hubs := ReportRead(s, h, p, i).hubs, inOrder := r.inOrder, members := r.members, ends := r.ends,
                       flags := s.flags.(native := r.flags.native), queue := r.queue)
            && (r.queue == s.queue + [Tick] ||
                (r.queue == s.queue && forall q :: Entry(r, q).session == Entry(s, q).session))
            && (forall q :: Entry(r, q) == Entry(s, q).(session := Entry(r, q).session, owed := Entry(r, q).owed))
  {
    hide ReportRead;
    hide NativeAfterEnd;
    hide SessionEnded;
    hide OwedTaken;
    ReadShape(s, h, p, i);
    var s1 := ReportRead(s, h, p, i);
    EndedShape(s1, h, p);
    NativeShape(SessionEnded(s1, h, p), h);
  }

  lemma ReadShape(s: Net, h: HubId, p: Peer, i: nat)
    requires Enabled(s, PeerEnded(h, p, i))
    ensures var r := ReportRead(s, h, p, i);
            r == s.(hubs := r.hubs, inOrder := r.inOrder) && forall q :: Entry(r, q) == Entry(s, q)
  {
  }

  lemma EndedShape(s: Net, h: HubId, p: Peer)
    ensures var r := SessionEnded(s, h, p);
            && r == s.(members := r.members, ends := r.ends)
            && forall q :: Entry(r, q) == Entry(s, q).(session := Entry(r, q).session)
    ensures var r := OwedTaken(s, h, p);
            && r == s.(members := r.members)
            && forall q :: Entry(r, q) == Entry(s, q).(owed := Entry(r, q).owed)
  {
  }

  lemma NativeShape(s: Net, h: HubId)
    ensures var r := NativeAfterEnd(s, h);
            r == s.(flags := s.flags.(native := r.flags.native)) && forall q :: Entry(r, q) == Entry(s, q)
  {
  }

  // ----- waiting connects

  lemma EndTasksWait(s: Net, tasks: set<TaskId>, todo: Todo, pick: TaskId)
    requires WaitInv(s)
    ensures WaitInv(EndTasks(s, tasks, todo, pick))
  {
    EndTasksShape(s, tasks, todo, pick);
    assert Unfinished(EndTasks(s, tasks, todo, pick)) == Unfinished(s);
  }

  // No new wait, and no hub run lost.
  lemma WaitFrame(s: Net, r: Net)
    requires WaitInv(s) && r.hubs == s.hubs
    requires forall t | t in r.tasks && r.tasks[t].Connect? && r.tasks[t].waiting :: t in s.tasks && s.tasks[t] == r.tasks[t]
    ensures WaitInv(r)
  {
    assert Unfinished(r) == Unfinished(s);
  }

  lemma WaitDispatch(s: Net, c: Command, a: Answers)
    requires WaitInv(s)
    ensures WaitInv(Dispatch(s, c, a))
  {
    hide WaitInv;
    hide EndTasks;
    hide AdoptPlan;
    match c
    case Group(plan) => WaitAdopt(s, plan, Then(Finish(true)));
    case Share(plan, peer) =>
      WaitAdopt(s, plan, AfterPlan(ForShare(plan, peer)));
      WaitFrame(s, s.(loop := Ready(Then(Finish(true)))));
    case Release(peer) =>
      if peer in s.members {
        var m := s.members[peer];
        var s1 := Put(s, peer, m.(enabled := false, connects := {}));
        WaitFrame(s, s1);
        EndTasksWait(s1, m.connects, Settle(true), a.pick);
      } else { WaitFrame(s, Dispatch(s, c, a)); }
    case _ => WaitFrame(s, Dispatch(s, c, a));
  }

  lemma WaitStop(s: Net, todo: Todo)
    requires WaitInv(s)
    ensures WaitInv(StopHub(s, todo))
  {
    hide WaitInv;
    if s.hub.None? { WaitPlain(s, s.(loop := Ready(todo))); }
    else { WaitPlain(s, s.(hub := None, loop := Stopping(s.hub.value.id, todo))); }
  }

  lemma WaitAdopt(s: Net, plan: Plan, todo: Todo)
    requires WaitInv(s)
    ensures WaitInv(AdoptPlan(s, plan, todo))
  {
    hide WaitInv;
    hide AdoptPlan;
    AdoptShape(s, plan, todo);
    WaitFrame(s, AdoptPlan(s, plan, todo));
  }

  lemma WaitAdvanced(s: Net, todo: Todo, a: Answers)
    requires WaitInv(s)
    ensures WaitInv(Advanced(s, todo, a))
  {
    hide WaitInv;
    hide EndTasks;
    hide IdleNet;
    hide UnusedHub;
    hide StopHub;
    match todo
    case Settle(counted) =>
      if IdleNet(s) { WaitPlain(s, s.(loop := Ready(Teardown(Finish(counted))))); }
      else if UnusedHub(s) { WaitStop(s, Then(Finish(counted))); }
      else { WaitPlain(s, s.(loop := Ready(Then(Finish(counted))))); }
    case TearHub(rest) => WaitStop(s, TearEndpoint(rest));
    case TearEndpoint(rest) =>
      if s.endpoint.Some? { WaitPlain(s, s.(endpoint := None, loop := Retiring(rest))); }
      else { WaitPlain(s, s.(loop := Ready(TearFlag(rest)))); }
    case AfterPlan(q) =>
      var m := Entry(s, q.peer);
      var s1 := Put(s, q.peer, m.(links := {}));
      WaitFrame(s, s1);
      EndTasksWait(s1, m.links, AfterLinks(q), a.pick);
    case Teardown(rest) =>
      WaitFrame(s, Drained(s));
      EndTasksWait(Drained(s), Listed(s), TearHub(rest), a.pick);
    case Ensure(q) =>
      if s.endpoint.Some? && a.reuse { WaitSpawn(s, q, s.endpoint.value); } else { WaitPlain(s, Advanced(s, todo, a)); }
    case Then(BindFor(q)) =>
      if a.binds {
        var e := s.nextEndpoint;
        var s1 := s.(endpoint := Some(e), nextEndpoint := e + 1, flags := s.flags.(bound := true));
        WaitPlain(s, s1);
        WaitSpawn(s1, q, e);
      } else { WaitPlain(s, Advanced(s, todo, a)); }
    case Then(Halt) => WaitHalted(s);
    case _ => WaitPlain(s, Advanced(s, todo, a));
  }

  lemma WaitPlain(s: Net, r: Net)
    requires WaitInv(s) && r.hubs == s.hubs && r.tasks == s.tasks
    ensures WaitInv(r)
  {
    WaitFrame(s, r);
  }

  lemma WaitSpawn(s: Net, q: Request, e: EndpointId)
    requires WaitInv(s)
    ensures WaitInv(Spawn(s, q, e))
  {
    WaitFrame(s, Spawn(s, q, e));
  }

  lemma WaitHalted(s: Net)
    ensures WaitInv(Halted(s))
  {
  }

  lemma WaitAdmitted(s: Net, t: TaskId, a: Answers)
    requires HubInv(s) && WaitInv(s) && Enabled(s, Admit(t, a))
    ensures WaitInv(Admitted(s, t, a))
  {
    var r := Admitted(s, t, a);
    if Unfinished(s) == {} {
      assert forall u | u in r.tasks :: u in s.tasks && s.tasks[u] == r.tasks[u];
    } else {
      var h :| h in Unfinished(s);
      assert h in Unfinished(r);
    }
  }

  lemma WaitStep(s: Net, step: Step)
    requires HubInv(s) && WaitInv(s) && Enabled(s, step)
    ensures WaitInv(Apply(s, step))
  {
    hide WaitInv;
    hide HubInv;
    hide EndTasks;
    var r := Apply(s, step);
    match step
    case Receive(a) =>
      var s1 := s.(queue := s.queue[1..]);
      WaitFrame(s, s1);
      WaitDispatch(s1, s.queue[0], a);
    case Advance(a) => WaitAdvanced(s, s.loop.todo, a);
    case Resume(a) =>
      if s.loop.Ending? { EndTasksWait(s, s.loop.later, s.loop.todo, a.pick); } else { WaitFrame(s, r); }
    case Admit(t, a) => WaitAdmitted(s, t, a);
    case _ => WaitReports(s, step);
  }

  lemma WaitReports(s: Net, step: Step)
    requires WaitInv(s) && Enabled(s, step)
    requires !step.Receive? && !step.Advance? && !step.Resume? && !step.Admit?
    ensures WaitInv(Apply(s, step))
  {
    hide WaitInv;
    hide Reported;
    var r := Apply(s, step);
    match step
    case RunReturns(h) => WaitReturned(s, h);
    case HubCloses(h) => WaitSameRuns(s, r);
    case PeerEnded(h, p, i) => ReportedShape(s, h, p, i); WaitSameRuns(s, r);
    case StreamEnds(h) => WaitSameRuns(s, r);
    case _ => WaitFrame(s, r);
  }

  lemma WaitSameRuns(s: Net, r: Net)
    requires WaitInv(s) && r.tasks == s.tasks && r.hubs.Keys == s.hubs.Keys
    requires forall h | h in s.hubs :: r.hubs[h].phase.Returned? == s.hubs[h].phase.Returned?
    ensures WaitInv(r)
  {
    assert Unfinished(r) == Unfinished(s);
  }

  lemma WaitReturned(s: Net, h: HubId)
    requires h in s.hubs
    ensures WaitInv(RunOver(s, h))
  {
  }
}
