/** The port is never left bound for nothing, and the published flags can be trusted. */
module SharingNetPort {
  import opened Prelude
  import opened SharingNet
  import opened SharingNetSafety
  import opened SharingNetEndpoint

  // ----- no stranded port

  predicate CommittedTodo(todo: Todo) {
    todo.AfterLinks? || todo.Settle? || todo.Teardown? || todo.TearHub? || todo.TearEndpoint?
  }

  // The handler at work still ends with a teardown or a settle, or makes its computer wanted again.
  predicate Committed(loop: Loop) {
    (loop.Ready? || loop.Ending? || loop.Stopping?) && CommittedTodo(loop.todo)
  }

  ghost predicate StrandInv(s: Net) {
    s.endpoint.Some? && IdleNet(s) ==> Tick in s.queue || Committed(s.loop)
  }

  lemma IdleEverywhere(s: Net)
    ensures IdleNet(s) <==> forall p :: Resting(s, p)
  {
    assert forall p | p !in s.members :: Resting(s, p);
  }

  // Idle afterwards means idle before, unless something worth a Tick happened.
  lemma IdleBack(s: Net, r: Net)
    requires IdleNet(r)
    requires forall p :: Entry(r, p).enabled == Entry(s, p).enabled && Entry(r, p).session == Entry(s, p).session
    requires forall p :: Entry(r, p).connects == Entry(s, p).connects && Entry(r, p).links == Entry(s, p).links
    requires r.tasks.Keys == s.tasks.Keys
    ensures IdleNet(s)
  {
    IdleEverywhere(s);
    IdleEverywhere(r);
    forall p ensures Resting(s, p) { assert Resting(r, p); }
  }

  // A step outside the loop either queues a Tick or leaves every computer as wanted as it was.
  lemma OutsideTicks(s: Net, step: Step)
    requires Enabled(s, step) && !step.Receive? && !step.Advance? && !step.Resume? && !step.Dropped?
    ensures var r := Apply(s, step);
            || r.queue == s.queue + [Tick]
            || (&& (r.queue == s.queue || (step.Send? && r.queue == s.queue + [step.command]))
                && (forall p :: Entry(r, p).session == Entry(s, p).session)
                && r.tasks.Keys == s.tasks.Keys)
  {
    hide RunOver;
    hide StreamEnded;
    hide Reported;
    hide Joined;
    hide HubStarted;
    var r := Apply(s, step);
    match step
    case PeerEnded(h, p, i) => ReportedShape(s, h, p, i);
    case RunReturns(h) => RunOverShape(s, h);
    case StreamEnds(h) => StreamTicks(s, h);
    case Admit(t, a) => AdmitTicks(s, t, a);
    case _ =>
  }

  lemma StreamTicks(s: Net, h: HubId)
    requires h in s.hubs
    ensures StreamEnded(s, h).queue == s.queue + [Tick]
  {
  }

  lemma AdmitTicks(s: Net, t: TaskId, a: Answers)
    requires Enabled(s, Admit(t, a))
    ensures var r := Admitted(s, t, a);
            r.queue == s.queue + [Tick] || (r.queue == s.queue && r.members == s.members && r.tasks.Keys == s.tasks.Keys)
  {
    hide Joined;
    hide HubStarted;
    var task := s.tasks[t];
    if s.hub.Some? && s.hub.value.id in s.hubs { JoinedQueue(s, task.peer, s.hub.value.id, task.plan.agreement); }
    StartedQueue(s, task.plan);
    JoinedQueue(HubStarted(s, task.plan), task.peer, s.nextHub, task.plan.agreement);
  }

  lemma JoinedQueue(s: Net, p: Peer, h: HubId, under: Agreement)
    requires h in s.hubs
    ensures Joined(s, p, h, under).queue == s.queue
  {
  }

  lemma StartedQueue(s: Net, plan: Plan)
    ensures HubStarted(s, plan).queue == s.queue && s.nextHub in HubStarted(s, plan).hubs
  {
  }

  lemma StrandOutside(s: Net, step: Step)
    requires TaskInv(s) && StrandInv(s) && Enabled(s, step) && !step.Receive? && !step.Advance? && !step.Resume?
    ensures StrandInv(Apply(s, step))
  {
    hide Apply;
    var r := Apply(s, step);
    OutsideStep(s, step);
    if step.Dropped? {
      DroppedCommitted(s, step.task);
    } else {
      OutsideTicks(s, step);
      hide TaskInv;
      if r.queue == s.queue + [Tick] {
        assert r.queue[|s.queue|] == Tick;
      } else if IdleNet(r) {
        IdleBack(s, r);
      }
    }
  }

  // Only a handler that is committed drops tasks.
  lemma DroppedCommitted(s: Net, t: TaskId)
    requires TaskInv(s) && t in s.tasks && s.tasks[t].aborted
    ensures Committed(s.loop)
  {
  }

  // ----- no stranded port: the command loop

  // A move of the loop that leaves every computer as wanted as it was.
  lemma StrandMove(s: Net, r: Net)
    requires StrandInv(s) && r.endpoint == s.endpoint && r.members == s.members && r.tasks == s.tasks && r.queue == s.queue
    requires Committed(s.loop) ==> Committed(r.loop) || r.endpoint.None? || !IdleNet(r)
    ensures StrandInv(r)
  {
    if IdleNet(r) { IdleBack(s, r); }
  }

  lemma StrandCommitted(s: Net)
    requires Committed(s.loop) || s.endpoint.None?
    ensures StrandInv(s)
  {
  }

  lemma StrandDispatch(s: Net, c: Command, a: Answers)
    requires s.loop.Receiving?
    requires !c.Tick? ==> StrandInv(s)
    ensures StrandInv(Dispatch(s, c, a))
  {
    hide StrandInv;
    hide EndTasks;
    hide AdoptPlan;
    var r := Dispatch(s, c, a);
    match c
    case Group(plan) => StrandAdopt(s, plan, Then(Finish(true)));
    case Share(plan, peer) =>
      StrandAdopt(s, plan, AfterPlan(ForShare(plan, peer)));
      StrandMove(s, s.(loop := Ready(Then(Finish(true)))));
    case Release(peer) =>
      if peer in s.members {
        var m := s.members[peer];
        EndTasksShape(Put(s, peer, m.(enabled := false, connects := {})), m.connects, Settle(true), a.pick);
        StrandCommitted(r);
      } else { StrandMove(s, r); }
    case Link(peer) => StrandPut(s, peer, Ready(Ensure(ForLink(peer))));
    case Forget(peer) => StrandPut(s, peer, Ready(Then(Finish(true))));
    case Tick => StrandCommitted(r);
    case Shutdown => StrandCommitted(r);
  }

  lemma StrandAdopt(s: Net, plan: Plan, todo: Todo)
    requires StrandInv(s) && s.loop.Receiving?
    ensures StrandInv(AdoptPlan(s, plan, todo))
  {
    hide StrandInv;
    hide AdoptPlan;
    AdoptShape(s, plan, todo);
    StrandMove(s, AdoptPlan(s, plan, todo));
  }

  lemma StrandPut(s: Net, p: Peer, loop: Loop)
    requires StrandInv(s) && s.loop.Receiving?
    ensures StrandInv(Put(s, p, Entry(s, p)).(loop := loop))
  {
    var r := Put(s, p, Entry(s, p)).(loop := loop);
    assert forall q :: Entry(r, q) == Entry(s, q);
    if IdleNet(r) { IdleBack(s, r); }
  }

  // A computer with a worker or a fresh task is wanted.
  lemma Wanted(s: Net, p: Peer)
    requires p in s.members && !Resting(s, p)
    ensures StrandInv(s)
  {
  }

  lemma SpawnWanted(s: Net, q: Request, e: EndpointId)
    ensures StrandInv(Spawn(s, q, e))
  {
    var r := Spawn(s, q, e);
    assert s.nextTask in r.tasks.Keys;
    assert s.nextTask in r.members[q.peer].connects + r.members[q.peer].links;
    Wanted(r, q.peer);
  }

  lemma StrandAdvanced(s: Net, todo: Todo, a: Answers)
    requires TaskInv(s) && StrandInv(s) && s.loop == Ready(todo)
    ensures StrandInv(Advanced(s, todo, a))
  {
    hide TaskInv;
    hide StrandInv;
    hide EndTasks;
    hide Spawn;
    hide Bind;
    hide IdleNet;
    hide UnusedHub;
    PhaseHere(s, todo);
    var r := Advanced(s, todo, a);
    match todo
    case AfterPlan(q) =>
      var m := Entry(s, q.peer);
      EndTasksShape(Put(s, q.peer, m.(links := {})), m.links, AfterLinks(q), a.pick);
      StrandCommitted(r);
    case AfterLinks(q) => StrandAfterLinks(s, q, a);
    case Ensure(q) =>
      if s.endpoint.Some? && a.reuse { SpawnWanted(s, q, s.endpoint.value); } else { StrandMove(s, r); }
    case Settle(counted) => StrandSettle(s, counted);
    case Teardown(rest) =>
      EndTasksShape(Drained(s), Listed(s), TearHub(rest), a.pick);
      StrandCommitted(r);
    case TearHub(rest) => if s.hub.None? { StrandCommitted(r); } else { StrandCommitted(r); }
    case TearEndpoint(rest) => if s.endpoint.None? { StrandCommitted(r); } else { StrandCommitted(r); }
    case TearFlag(rest) => StrandCommitted(r);
    case Then(Finish(counted)) => StrandMove(s, r);
    case Then(Halt) => StrandCommitted(r);
    case Then(BindFor(q)) => StrandBind(s, q, a);
  }

  lemma StrandAfterLinks(s: Net, q: Request, a: Answers)
    ensures StrandInv(Advanced(s, AfterLinks(q), a))
  {
    Wanted(Advanced(s, AfterLinks(q), a), q.peer);
  }

  lemma StrandBind(s: Net, q: Request, a: Answers)
    requires s.endpoint.None?
    ensures StrandInv(Bind(s, q, a))
  {
    hide StrandInv;
    hide Spawn;
    if a.binds {
      var e := s.nextEndpoint;
      SpawnWanted(s.(endpoint := Some(e), nextEndpoint := e + 1, flags := s.flags.(bound := true)), q, e);
    } else { StrandCommitted(Bind(s, q, a)); }
  }

  lemma StrandSettle(s: Net, counted: bool)
    requires StrandInv(s) && s.loop == Ready(Settle(counted))
    ensures forall a :: StrandInv(Advanced(s, Settle(counted), a))
  {
    hide StrandInv;
    forall a ensures StrandInv(Advanced(s, Settle(counted), a)) {
      var r := Advanced(s, Settle(counted), a);
      if IdleNet(s) { StrandCommitted(r); }
      else {
        if IdleNet(r) { IdleBack(s, r); }
        StrandMove(s, r);
      }
    }
  }

  lemma StrandResumed(s: Net, a: Answers)
    requires TaskInv(s) && StrandInv(s) && Awaited(s)
    ensures StrandInv(Resumed(s, a))
  {
    var r := Resumed(s, a);
    if s.loop.Ending? {
      EndTasksShape(s, s.loop.later, s.loop.todo, a.pick);
    } else {
      StrandMove(s, r);
    }
  }

  lemma StrandStep(s: Net, step: Step)
    requires TaskInv(s) && StrandInv(s) && Enabled(s, step)
    ensures StrandInv(Apply(s, step))
  {
    match step
    case Receive(a) =>
      var s1 := s.(queue := s.queue[1..]);
      assert forall p :: Resting(s1, p) == Resting(s, p);
      assert IdleNet(s1) == IdleNet(s);
      hide TaskInv;
      StrandDispatch(s1, s.queue[0], a);
    case Advance(a) =>
      hide TaskInv; hide StrandInv;
      StrandAdvanced(s, s.loop.todo, a);
    case Resume(a) =>
      hide TaskInv; hide StrandInv;
      StrandResumed(s, a);
    case _ =>
      hide TaskInv; hide StrandInv;
      StrandOutside(s, step);
  }
}
