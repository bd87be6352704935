/** Who holds the endpoint, and that the port is never left bound for nothing. */
module SharingNetEndpoint {
  import opened Prelude
  import opened SharingNet
  import opened SharingNetSafety

  // ----- tasks and the endpoint they hold

  ghost predicate ListedTask(s: Net, t: TaskId)
    requires t in s.tasks
  {
    var m := Entry(s, s.tasks[t].peer);
    t in if s.tasks[t].Connect? then m.connects else m.links
  }

  // Every unfinished task holds the bound endpoint and is listed by its member or in `held`.
  ghost predicate Tracked(s: Net, held: set<TaskId>) {
    && (forall t | t in s.tasks ::
          t < s.nextTask && s.endpoint == Some(s.tasks[t].endpoint) && (t in held || ListedTask(s, t)))
    && (forall p, t :: t in Entry(s, p).connects + Entry(s, p).links ==> t < s.nextTask)
    && (forall t | t in held :: t < s.nextTask)
  }

  // The only aborted task is the one being awaited.
  ghost predicate AbortInv(s: Net) {
    && (forall t | t in s.tasks && s.tasks[t].aborted :: s.loop.Ending? && s.loop.current == t)
    && (s.loop.Ending? ==> s.loop.todo.AfterLinks? || s.loop.todo.Settle? || s.loop.todo.TearHub?)
  }

  ghost predicate NoLists(s: Net) {
    forall p :: Entry(s, p).connects == {} && Entry(s, p).links == {}
  }

  // The teardown is past its tasks.
  predicate PastTasks(loop: Loop) {
    match loop
    case Ready(todo) => todo.TearHub? || todo.TearEndpoint? || todo.TearFlag? || todo == Then(Halt)
    case Stopping(_, todo) => todo.TearEndpoint?
    case Retiring(_) => true
    case _ => false
  }

  // The endpoint is taken, or there was none.
  predicate PastEndpoint(loop: Loop) {
    match loop
    case Ready(todo) => todo.TearFlag? || (todo.Then? && !todo.rest.Finish?)
    case Retiring(_) => true
    case _ => false
  }

  // What a handler may do once a hub it stopped is over.
  predicate AfterStop(todo: Todo) {
    todo.AfterPlan? || todo.TearEndpoint? || (todo.Then? && todo.rest.Finish?)
  }

  ghost predicate PhaseInv(s: Net) {
    && (s.loop.Stopping? ==> AfterStop(s.loop.todo))
    && (s.loop.Ending? && s.loop.todo.TearHub? ==> NoLists(s))
    && (PastTasks(s.loop) ==> s.tasks == map[])
    && (PastEndpoint(s.loop) ==> s.endpoint.None?)
    && (s.endpoint.Some? ==> s.flags.bound)
    && (s.flags.bound && s.endpoint.None? ==> s.loop.Retiring? || (s.loop.Ready? && s.loop.todo.TearFlag?))
  }

  ghost predicate TaskInv(s: Net) {
    Tracked(s, Held(s.loop)) && AbortInv(s) && PhaseInv(s)
  }

  // ----- steps outside the command loop

  ghost predicate SameLists(s: Net, r: Net) {
    forall p :: Entry(r, p).connects == Entry(s, p).connects && Entry(r, p).links == Entry(s, p).links
  }

  // Tasks may finish or change what they wait for; nothing else about them moves.
  ghost predicate FewerTasks(s: Net, r: Net) {
    forall t | t in r.tasks ::
      && t in s.tasks && r.tasks[t].Connect? == s.tasks[t].Connect?
      && r.tasks[t].peer == s.tasks[t].peer && r.tasks[t].endpoint == s.tasks[t].endpoint
      && r.tasks[t].aborted == s.tasks[t].aborted
  }

  // Nothing was bound, spawned, listed, enabled or aborted.
  ghost predicate Outside(s: Net, r: Net) {
    && SameLists(s, r) && FewerTasks(s, r)
    && (forall p :: Entry(r, p).enabled == Entry(s, p).enabled)
    && r.loop == s.loop && r.endpoint == s.endpoint && r.flags.bound == s.flags.bound && r.nextTask == s.nextTask
    && r.nextEndpoint == s.nextEndpoint
  }

  lemma TaskFrame(s: Net, r: Net)
    requires TaskInv(s) && Outside(s, r)
    ensures TaskInv(r)
  {
    assert forall p :: Entry(r, p).connects == Entry(s, p).connects && Entry(r, p).links == Entry(s, p).links;
  }

  lemma OverOutside(s: Net, t: TaskId)
    ensures Outside(s, Over(s, t))
  {
  }

  lemma WaitOutside(s: Net, t: TaskId)
    requires t in s.tasks && s.tasks[t].Connect?
    ensures Outside(s, s.(tasks := s.tasks[t := s.tasks[t].(waiting := true, notified := false)]))
  {
  }

  lemma StartedOutside(s: Net, plan: Plan)
    ensures Outside(s, HubStarted(s, plan))
  {
  }

  lemma JoinedOutside(s: Net, p: Peer, h: HubId, under: Agreement)
    requires h in s.hubs
    ensures Outside(s, Joined(s, p, h, under))
  {
  }

  lemma OutsideTrans(s: Net, q: Net, r: Net)
    requires Outside(s, q) && Outside(q, r)
    ensures Outside(s, r)
  {
  }

  lemma AdmittedOutside(s: Net, t: TaskId, a: Answers)
    requires Enabled(s, Admit(t, a))
    ensures Outside(s, Admitted(s, t, a))
  {
    hide Outside;
    hide Joined;
    hide HubStarted;
    hide Over;
    var task := s.tasks[t];
    OverOutside(s, t);
    WaitOutside(s, t);
    if s.hub.Some? && s.hub.value.id in s.hubs {
      var s1 := Joined(s, task.peer, s.hub.value.id, task.plan.agreement);
      JoinedOutside(s, task.peer, s.hub.value.id, task.plan.agreement);
      OverOutside(s1, t);
      OutsideTrans(s, s1, Over(s1, t));
    }
    StartJoinOutside(s, task.plan, task.peer, t);
  }

  lemma StartJoinOutside(s: Net, plan: Plan, p: Peer, t: TaskId)
    ensures s.nextHub in HubStarted(s, plan).hubs
    ensures Outside(s, Over(Joined(HubStarted(s, plan), p, s.nextHub, plan.agreement), t))
  {
    var s1 := HubStarted(s, plan);
    StartedOutside(s, plan);
    JoinedOutside(s1, p, s.nextHub, plan.agreement);
    hide Outside;
    hide HubStarted;
    hide Joined;
    var s2 := Joined(s1, p, s.nextHub, plan.agreement);
    OverOutside(s2, t);
    OutsideTrans(s, s1, s2);
    OutsideTrans(s, s2, Over(s2, t));
  }

  lemma OutsideStep(s: Net, step: Step)
    requires Enabled(s, step) && !step.Receive? && !step.Advance? && !step.Resume?
    ensures Outside(s, Apply(s, step))
  {
    hide Outside;
    hide Admitted;
    hide Reported;
    hide RunOver;
    hide StreamEnded;
    hide Over;
    var r := Apply(s, step);
    match step
    case Admit(t, a) => AdmittedOutside(s, t, a);
    case PeerEnded(h, p, i) => ReportedOutside(s, h, p, i);
    case RunReturns(h) => ReturnedOutside(s, h);
    case StreamEnds(h) => StreamOutside(s, h);
    case ConnectFails(t) => OverOutside(s, t);
    case LinkEnds(t) => OverOutside(s, t);
    case _ => PlainOutside(s, r);
  }

  lemma PlainOutside(s: Net, r: Net)
    requires r == s.(queue := r.queue, hubs := r.hubs, nativeStarted := r.nativeStarted, tasks := r.tasks,
                     flags := s.flags.(inFlight := r.flags.inFlight, native := r.flags.native))
    requires forall t | t in r.tasks :: t in s.tasks && r.tasks[t] == s.tasks[t]
    ensures Outside(s, r)
  {
  }

  lemma ReportedOutside(s: Net, h: HubId, p: Peer, i: nat)
    requires Enabled(s, PeerEnded(h, p, i))
    ensures Outside(s, Reported(s, h, p, i))
  {
    ReportedShape(s, h, p, i);
    hide Reported;
    hide ReportRead;
  }

  lemma ReturnedOutside(s: Net, h: HubId)
    requires h in s.hubs
    ensures Outside(s, RunOver(s, h))
  {
    RunOverShape(s, h);
    hide RunOver;
  }

  lemma StreamOutside(s: Net, h: HubId)
    requires h in s.hubs
    ensures Outside(s, StreamEnded(s, h))
  {
    assert forall p :: Entry(StreamEnded(s, h), p) == Closing(Entry(s, p), h);
  }

  // ----- the command loop

  // No task is being ended.
  ghost predicate Loose(s: Net, held: set<TaskId>) {
    Tracked(s, held) && (forall t | t in s.tasks :: !s.tasks[t].aborted) && (s.endpoint.Some? <==> s.flags.bound)
  }

  lemma LooseHere(s: Net)
    requires TaskInv(s) && (s.loop.Receiving? || (s.loop.Ready? && !s.loop.todo.TearFlag?))
    ensures Loose(s, {})
  {
  }

  lemma EndTasksTask(s: Net, tasks: set<TaskId>, todo: Todo, pick: TaskId)
    requires Loose(s, tasks)
    requires todo.AfterLinks? || todo.Settle? || (todo.TearHub? && NoLists(s))
    ensures TaskInv(EndTasks(s, tasks, todo, pick))
  {
    EndTasksShape(s, tasks, todo, pick);
    hide EndTasks;
    var r := EndTasks(s, tasks, todo, pick);
    assert forall p :: Entry(r, p) == Entry(s, p);
    if tasks == {} && todo.TearHub? { NoneLeft(s); }
  }

  lemma NoneLeft(s: Net)
    requires Loose(s, {}) && NoLists(s)
    ensures s.tasks == map[]
  {
    assert s.tasks.Keys == {};
  }

  // Handing lists over to be ended keeps every task in sight.
  lemma LooseHanded(s: Net, r: Net, tasks: set<TaskId>)
    requires Loose(s, {})
    requires r == s.(members := r.members, loop := r.loop)
    requires forall p, t :: t in Entry(s, p).connects ==> t in Entry(r, p).connects || t in tasks
    requires forall p, t :: t in Entry(s, p).links ==> t in Entry(r, p).links || t in tasks
    requires forall p :: Entry(r, p).connects <= Entry(s, p).connects && Entry(r, p).links <= Entry(s, p).links
    requires forall t | t in tasks :: exists p :: t in Entry(s, p).connects + Entry(s, p).links
    ensures Loose(r, tasks)
  {
    forall p, t | t in Entry(r, p).connects + Entry(r, p).links ensures t < r.nextTask {
      assert t in Entry(s, p).connects + Entry(s, p).links;
    }
    forall t | t in s.tasks ensures t in tasks || ListedTask(r, t) { assert ListedTask(s, t); }
  }

  lemma ReleaseTask(s: Net, peer: Peer, a: Answers)
    requires TaskInv(s) && s.loop.Receiving? && peer in s.members
    ensures TaskInv(Dispatch(s, Release(peer), a))
  {
    LooseHere(s);
    hide TaskInv;
    hide EndTasks;
    hide Loose;
    var m := s.members[peer];
    var s1 := Put(s, peer, m.(enabled := false, connects := {}));
    assert forall q | q != peer :: Entry(s1, q) == Entry(s, q);
    assert Entry(s, peer) == m && Entry(s1, peer) == m.(enabled := false, connects := {});
    LooseHanded(s, s1, m.connects);
    EndTasksTask(s1, m.connects, Settle(true), a.pick);
  }

  lemma AfterPlanTask(s: Net, q: Request, a: Answers)
    requires TaskInv(s) && s.loop == Ready(AfterPlan(q))
    ensures TaskInv(Advanced(s, AfterPlan(q), a))
  {
    LooseHere(s);
    hide TaskInv;
    hide EndTasks;
    hide Loose;
    var m := Entry(s, q.peer);
    var s1 := Put(s, q.peer, m.(links := {}));
    assert forall p | p != q.peer :: Entry(s1, p) == Entry(s, p);
    assert Entry(s1, q.peer) == m.(links := {});
    LooseHanded(s, s1, m.links);
    EndTasksTask(s1, m.links, AfterLinks(q), a.pick);
  }

  lemma TeardownTask(s: Net, rest: Rest, a: Answers)
    requires TaskInv(s) && s.loop == Ready(Teardown(rest))
    ensures TaskInv(Advanced(s, Teardown(rest), a))
  {
    LooseHere(s);
    hide TaskInv;
    hide EndTasks;
    hide Loose;
    var s1 := Drained(s);
    assert forall p :: Entry(s1, p) == Entry(s, p).(connects := {}, links := {});
    forall p, t | t in Entry(s, p).connects + Entry(s, p).links ensures t in Listed(s) { assert p in s.members; }
    forall t | t in Listed(s) ensures exists p :: t in Entry(s, p).connects + Entry(s, p).links {
      var p :| p in s.members && t in s.members[p].connects + s.members[p].links;
      assert t in Entry(s, p).connects + Entry(s, p).links;
    }
    LooseHanded(s, s1, Listed(s));
    EndTasksTask(s1, Listed(s), TearHub(rest), a.pick);
  }

  // A step of the loop that only moves it on.
  lemma TaskMove(s: Net, r: Net)
    requires TaskInv(s) && !s.loop.Ending? && !r.loop.Ending?
    requires r == s.(plan := r.plan, hub := r.hub, queue := r.queue, loop := r.loop,
                     flags := s.flags.(inFlight := r.flags.inFlight))
    requires PastTasks(r.loop) ==> PastTasks(s.loop) || s.tasks == map[]
    requires PastEndpoint(r.loop) ==> s.endpoint.None?
    requires r.loop.Stopping? ==> AfterStop(r.loop.todo)
    requires s.flags.bound && s.endpoint.None? ==> r.loop.Ready? && r.loop.todo.TearFlag?
    ensures TaskInv(r)
  {
    assert forall p :: Entry(r, p) == Entry(s, p);
  }

  lemma PutTask(s: Net, p: Peer, m: Member, loop: Loop)
    requires TaskInv(s) && (s.loop.Receiving? || (s.loop.Ready? && !s.loop.todo.TearFlag?))
    requires m.connects == Entry(s, p).connects && m.links == Entry(s, p).links
    requires loop.Ready? && !PastTasks(loop) && !PastEndpoint(loop)
    ensures TaskInv(Put(s, p, m).(loop := loop))
  {
    var r := Put(s, p, m).(loop := loop);
    assert forall q :: Entry(r, q).connects == Entry(s, q).connects && Entry(r, q).links == Entry(s, q).links;
  }

  lemma SpawnTask(s: Net, q: Request, e: EndpointId)
    requires Loose(s, {}) && s.endpoint == Some(e)
    ensures TaskInv(Spawn(s, q, e))
  {
    var r := Spawn(s, q, e);
    var t := s.nextTask;
    assert forall p | p != q.peer :: Entry(r, p) == Entry(s, p);
    forall u | u in r.tasks ensures ListedTask(r, u) {
      if u != t { assert ListedTask(s, u); }
    }
    forall p, u | u in Entry(r, p).connects + Entry(r, p).links ensures u < r.nextTask {
      if u != t { assert u in Entry(s, p).connects + Entry(s, p).links; }
    }
  }

  lemma BindTask(s: Net, q: Request, a: Answers)
    requires TaskInv(s) && s.loop == Ready(Then(BindFor(q)))
    ensures TaskInv(Bind(s, q, a))
  {
    LooseHere(s);
    if a.binds {
      var e := s.nextEndpoint;
      BoundLoose(s, e);
      SpawnTask(s.(endpoint := Some(e), nextEndpoint := e + 1, flags := s.flags.(bound := true)), q, e);
    } else {
      hide TaskInv;
      TaskMove(s, Bind(s, q, a));
    }
  }

  // Before a bind no task is left to hold another endpoint.
  lemma BoundLoose(s: Net, e: EndpointId)
    requires TaskInv(s) && s.loop.Ready? && s.loop.todo.Then? && s.loop.todo.rest.BindFor?
    ensures Loose(s.(endpoint := Some(e), nextEndpoint := e + 1, flags := s.flags.(bound := true)), {})
  {
    LooseHere(s);
    var s1 := s.(endpoint := Some(e), nextEndpoint := e + 1, flags := s.flags.(bound := true));
    assert forall t | t in s.tasks :: s.endpoint.Some?;
    assert s.tasks == map[];
    assert forall p :: Entry(s1, p) == Entry(s, p);
  }

  lemma AdoptTask(s: Net, plan: Plan, todo: Todo)
    requires TaskInv(s) && s.loop.Receiving? && AfterStop(todo) && !todo.TearEndpoint?
    ensures TaskInv(AdoptPlan(s, plan, todo))
  {
    LooseHere(s);
    hide TaskInv;
    hide AdoptPlan;
    AdoptShape(s, plan, todo);
    TaskMove(s, AdoptPlan(s, plan, todo));
  }

  lemma StopTask(s: Net, todo: Todo)
    requires TaskInv(s) && s.loop.Ready? && AfterStop(todo) && (s.flags.bound ==> s.endpoint.Some?)
    requires todo.TearEndpoint? ==> s.tasks == map[]
    ensures TaskInv(StopHub(s, todo))
  {
    hide TaskInv;
    TaskMove(s, s.(loop := Ready(todo)));
    if s.hub.Some? { TaskMove(s, s.(hub := None, loop := Stopping(s.hub.value.id, todo))); }
  }

  lemma TaskDispatch(s: Net, c: Command, a: Answers)
    requires TaskInv(s) && s.loop.Receiving?
    ensures TaskInv(Dispatch(s, c, a))
  {
    LooseHere(s);
    hide TaskInv;
    hide EndTasks;
    hide AdoptPlan;
    var r := Dispatch(s, c, a);
    match c
    case Group(plan) => AdoptTask(s, plan, Then(Finish(true)));
    case Share(plan, peer) =>
      AdoptTask(s, plan, AfterPlan(ForShare(plan, peer)));
      TaskMove(s, s.(loop := Ready(Then(Finish(true)))));
    case Release(peer) => if peer in s.members { ReleaseTask(s, peer, a); } else { TaskMove(s, r); }
    case Link(peer) => PutTask(s, peer, Entry(s, peer), Ready(Ensure(ForLink(peer))));
    case Forget(peer) => PutTask(s, peer, Entry(s, peer), Ready(Then(Finish(true))));
    case _ => TaskMove(s, r);
  }

  lemma PhaseHere(s: Net, todo: Todo)
    requires TaskInv(s) && s.loop == Ready(todo)
    ensures PastTasks(s.loop) ==> s.tasks == map[]
    ensures PastEndpoint(s.loop) ==> s.endpoint.None?
    ensures !todo.TearFlag? ==> (s.endpoint.Some? <==> s.flags.bound)
  {
  }

  lemma TaskAdvanced(s: Net, todo: Todo, a: Answers)
    requires TaskInv(s) && s.loop == Ready(todo)
    ensures TaskInv(Advanced(s, todo, a))
  {
    hide TaskInv;
    hide Loose;
    hide EndTasks;
    hide Spawn;
    hide Bind;
    hide StopHub;
    hide IdleNet;
    hide UnusedHub;
    hide Halted;
    if !todo.TearFlag? { LooseHere(s); }
    PhaseHere(s, todo);
    var r := Advanced(s, todo, a);
    match todo
    case AfterPlan(q) => AfterPlanTask(s, q, a);
    case AfterLinks(q) => AfterLinksTask(s, q, a);
    case Ensure(q) => EnsureTask(s, q, a);
    case Settle(counted) => SettleTask(s, counted, a);
    case Teardown(rest) => TeardownTask(s, rest, a);
    case TearHub(rest) => StopTask(s, TearEndpoint(rest));
    case TearEndpoint(rest) => TearEndpointTask(s, rest, a);
    case TearFlag(rest) => TearFlagTask(s, rest, a);
    case Then(BindFor(q)) => BindTask(s, q, a);
    case Then(Halt) => HaltedTask(s);
    case _ => TaskMove(s, r);
  }

  lemma AfterLinksTask(s: Net, q: Request, a: Answers)
    requires TaskInv(s) && s.loop == Ready(AfterLinks(q))
    ensures TaskInv(Advanced(s, AfterLinks(q), a))
  {
    hide TaskInv;
    var m := Entry(s, q.peer).(enabled := true);
    PutTask(s, q.peer, m, Ready(Then(Finish(true))));
    PutTask(s, q.peer, m, Ready(Ensure(q)));
  }

  lemma EnsureTask(s: Net, q: Request, a: Answers)
    requires TaskInv(s) && s.loop == Ready(Ensure(q))
    ensures TaskInv(Advanced(s, Ensure(q), a))
  {
    hide TaskInv;
    hide Loose;
    hide Spawn;
    LooseHere(s);
    PhaseHere(s, Ensure(q));
    if s.endpoint.None? { TaskMove(s, s.(loop := Ready(Then(BindFor(q))))); }
    else if a.reuse { SpawnTask(s, q, s.endpoint.value); }
    else { TaskMove(s, s.(loop := Ready(Teardown(BindFor(q))))); }
  }

  lemma SettleTask(s: Net, counted: bool, a: Answers)
    requires TaskInv(s) && s.loop == Ready(Settle(counted))
    ensures TaskInv(Advanced(s, Settle(counted), a))
  {
    hide TaskInv;
    hide Loose;
    hide StopHub;
    hide IdleNet;
    hide UnusedHub;
    LooseHere(s);
    PhaseHere(s, Settle(counted));
    if IdleNet(s) { TaskMove(s, s.(loop := Ready(Teardown(Finish(counted))))); }
    else if UnusedHub(s) { StopTask(s, Then(Finish(counted))); }
    else { TaskMove(s, s.(loop := Ready(Then(Finish(counted))))); }
  }

  lemma TearEndpointTask(s: Net, rest: Rest, a: Answers)
    requires TaskInv(s) && s.loop == Ready(TearEndpoint(rest))
    ensures TaskInv(Advanced(s, TearEndpoint(rest), a))
  {
    if s.endpoint.Some? {
      var r := s.(endpoint := None, loop := Retiring(rest));
      assert forall p :: Entry(r, p) == Entry(s, p);
    } else {
      var r := s.(loop := Ready(TearFlag(rest)));
      assert forall p :: Entry(r, p) == Entry(s, p);
    }
  }

  lemma TearFlagTask(s: Net, rest: Rest, a: Answers)
    requires TaskInv(s) && s.loop == Ready(TearFlag(rest))
    ensures TaskInv(Advanced(s, TearFlag(rest), a))
  {
    var r := Advanced(s, TearFlag(rest), a);
    assert forall p :: Entry(r, p) == Entry(s, p);
  }

  lemma HaltedTask(s: Net)
    ensures TaskInv(Halted(s))
  {
  }

  lemma TaskResumed(s: Net, a: Answers)
    requires TaskInv(s) && Awaited(s)
    ensures TaskInv(Resumed(s, a))
  {
    if s.loop.Ending? {
      assert Loose(s, s.loop.later);
      EndTasksTask(s, s.loop.later, s.loop.todo, a.pick);
    } else {
      var r := Resumed(s, a);
      assert forall p :: Entry(r, p) == Entry(s, p);
    }
  }

  lemma TaskStep(s: Net, step: Step)
    requires TaskInv(s) && Enabled(s, step)
    ensures TaskInv(Apply(s, step))
  {
    hide TaskInv;
    hide Outside;
    match step
    case Receive(a) =>
      var s1 := s.(queue := s.queue[1..]);
      TaskReceive(s);
      TaskDispatch(s1, s.queue[0], a);
    case Advance(a) => TaskAdvanced(s, s.loop.todo, a);
    case Resume(a) => TaskResumed(s, a);
    case _ => OutsideStep(s, step); TaskFrame(s, Apply(s, step));
  }

  lemma TaskReceive(s: Net)
    requires TaskInv(s) && s.queue != [] && s.loop.Receiving?
    ensures TaskInv(s.(queue := s.queue[1..]))
  {
    var r := s.(queue := s.queue[1..]);
    assert forall p :: Entry(r, p) == Entry(s, p);
  }
}
