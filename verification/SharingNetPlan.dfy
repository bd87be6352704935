/** Commands in flight, the current plan, and the record every session runs under. */
module SharingNetPlan {
  import opened Prelude
  import opened SharingNet
  import opened SharingNetSafety
  import opened SharingNetReports

  // ----- commands in flight

  function InQueue(queue: seq<Command>): nat {
    if queue == [] then 0 else (if Counted(queue[0]) then 1 else 0) + InQueue(queue[1..])
  }

  function RestCounts(rest: Rest): nat {
    if rest.Finish? && !rest.counted then 0 else 1
  }

  function TodoCounts(todo: Todo): nat {
    match todo
    case Settle(counted) => if counted then 1 else 0
    case Teardown(rest) => RestCounts(rest)
    case TearHub(rest) => RestCounts(rest)
    case TearEndpoint(rest) => RestCounts(rest)
    case TearFlag(rest) => RestCounts(rest)
    case Then(rest) => RestCounts(rest)
    case _ => 1
  }

  function Handling(loop: Loop): nat {
    match loop
    case Ready(todo) => TodoCounts(todo)
    case Ending(_, _, todo) => TodoCounts(todo)
    case Stopping(_, todo) => TodoCounts(todo)
    case Retiring(rest) => RestCounts(rest)
    case _ => 0
  }

  // The counter is exactly the commands queued and the one being handled.
  ghost predicate FlightInv(s: Net) {
    s.flags.inFlight == InQueue(s.queue) + Handling(s.loop)
  }

  lemma {:induction false} InQueueAppend(queue: seq<Command>, c: Command)
    ensures InQueue(queue + [c]) == InQueue(queue) + if Counted(c) then 1 else 0
  {
    if queue != [] {
      assert (queue + [c])[1..] == queue[1..] + [c];
      InQueueAppend(queue[1..], c);
    }
  }

  lemma EndTasksFlight(s: Net, tasks: set<TaskId>, todo: Todo, pick: TaskId)
    ensures var r := EndTasks(s, tasks, todo, pick);
            Handling(r.loop) == TodoCounts(todo) && r.queue == s.queue && r.flags == s.flags
  {
    EndTasksShape(s, tasks, todo, pick);
  }

  lemma StopFlight(s: Net, todo: Todo)
    ensures var r := StopHub(s, todo);
            Handling(r.loop) == TodoCounts(todo) && r.queue == s.queue && r.flags == s.flags
  {
    hide TodoCounts;
    if s.hub.None? {}
  }

  lemma AdoptFlight(s: Net, plan: Plan, todo: Todo)
    ensures var r := AdoptPlan(s, plan, todo);
            Handling(r.loop) == TodoCounts(todo) && r.queue == s.queue && r.flags == s.flags
  {
    hide TodoCounts;
    hide AdoptPlan;
    AdoptShape(s, plan, todo);
  }

  lemma SpawnFlight(s: Net, q: Request, e: EndpointId)
    ensures var r := Spawn(s, q, e);
            Handling(r.loop) == 1 && r.queue == s.queue && r.flags == s.flags
  {
  }

  lemma FlightDispatch(s: Net, c: Command, a: Answers)
    requires s.loop.Receiving?
    ensures var r := Dispatch(s, c, a);
            r.flags.inFlight == s.flags.inFlight && r.queue == s.queue
            && Handling(r.loop) == if Counted(c) then 1 else 0
  {
    hide EndTasks;
    hide AdoptPlan;
    match c
    case Group(plan) => AdoptFlight(s, plan, Then(Finish(true)));
    case Share(plan, peer) => AdoptFlight(s, plan, AfterPlan(ForShare(plan, peer)));
    case Release(peer) =>
      if peer in s.members {
        var m := s.members[c.peer];
        EndTasksFlight(Put(s, c.peer, m.(enabled := false, connects := {})), m.connects, Settle(true), a.pick);
      }
    case _ =>
  }

  lemma FlightAdvanced(s: Net, todo: Todo, a: Answers)
    requires s.loop == Ready(todo) && todo != Then(Halt)
    ensures var r := Advanced(s, todo, a);
            r.queue == s.queue && r.flags.inFlight + TodoCounts(todo) == s.flags.inFlight + Handling(r.loop)
  {
    if todo.AfterPlan? || todo.Teardown? { FlightLists(s, todo, a); }
    else if todo.Then? { FlightThen(s, todo.rest, a); }
    else { FlightRoutine(s, todo, a); }
  }

  lemma FlightThen(s: Net, rest: Rest, a: Answers)
    requires rest != Halt
    ensures var r := Advanced(s, Then(rest), a);
            r.queue == s.queue && r.flags.inFlight + RestCounts(rest) == s.flags.inFlight + Handling(r.loop)
  {
    hide Spawn;
    if rest.BindFor? {
      var e := s.nextEndpoint;
      SpawnFlight(s.(endpoint := Some(e), nextEndpoint := e + 1, flags := s.flags.(bound := true)), rest.request, e);
    }
  }

  lemma FlightRoutine(s: Net, todo: Todo, a: Answers)
    requires !todo.AfterPlan? && !todo.Teardown? && !todo.Then?
    ensures var r := Advanced(s, todo, a);
            r.queue == s.queue && r.flags.inFlight == s.flags.inFlight && Handling(r.loop) == TodoCounts(todo)
  {
    hide StopHub;
    hide Spawn;
    hide IdleNet;
    hide UnusedHub;
    match todo
    case Ensure(q) => if s.endpoint.None? {} else if a.reuse { SpawnFlight(s, q, s.endpoint.value); } else {}
    case Settle(counted) => if IdleNet(s) {} else if UnusedHub(s) { StopFlight(s, Then(Finish(counted))); } else {}
    case TearHub(rest) => StopFlight(s, TearEndpoint(rest));
    case TearEndpoint(rest) => if s.endpoint.Some? {} else {}
    case _ =>
  }

  lemma FlightLists(s: Net, todo: Todo, a: Answers)
    requires s.loop == Ready(todo) && (todo.AfterPlan? || todo.Teardown?)
    ensures var r := Advanced(s, todo, a);
            r.queue == s.queue && r.flags == s.flags && Handling(r.loop) == TodoCounts(todo)
  {
    hide EndTasks;
    if todo.AfterPlan? {
      var m := Entry(s, todo.request.peer);
      EndTasksFlight(Put(s, todo.request.peer, m.(links := {})), m.links, AfterLinks(todo.request), a.pick);
    } else {
      EndTasksFlight(Drained(s), Listed(s), TearHub(todo.rest), a.pick);
    }
  }

  // Nothing else touches the counter, and only Ticks are queued.
  lemma FlightOutside(s: Net, step: Step)
    requires Enabled(s, step) && !step.Receive? && !step.Advance? && !step.Resume? && !step.Send?
    ensures var r := Apply(s, step);
            && r.flags.inFlight == s.flags.inFlight && r.loop == s.loop && r.plan == s.plan
            && (r.queue == s.queue || r.queue == s.queue + [Tick])
  {
    hide Reported;
    hide RunOver;
    hide Admitted;
    var r := Apply(s, step);
    match step
    case PeerEnded(h, p, i) => ReportedShape(s, h, p, i);
    case RunReturns(h) => RunOverShape(s, h);
    case Admit(t, a) => AdmittedFlight(s, t, a);
    case _ =>
  }

  lemma AdmittedFlight(s: Net, t: TaskId, a: Answers)
    requires t in s.tasks && s.tasks[t].Connect?
    ensures var r := Admitted(s, t, a);
            && r.flags.inFlight == s.flags.inFlight && r.loop == s.loop && r.plan == s.plan
            && (r.queue == s.queue || r.queue == s.queue + [Tick])
  {
    hide Joined;
    hide HubStarted;
    var task := s.tasks[t];
    if s.hub.Some? && s.hub.value.id in s.hubs { JoinedFlight(s, task.peer, s.hub.value.id, task.plan.agreement); }
    StartedFlight(s, task.plan);
    JoinedFlight(HubStarted(s, task.plan), task.peer, s.nextHub, task.plan.agreement);
  }

  lemma JoinedFlight(s: Net, p: Peer, h: HubId, under: Agreement)
    requires h in s.hubs
    ensures var r := Joined(s, p, h, under);
            r.queue == s.queue && r.flags.inFlight == s.flags.inFlight && r.loop == s.loop && r.plan == s.plan
            && r.tasks == s.tasks
  {
  }

  lemma StartedFlight(s: Net, plan: Plan)
    ensures var r := HubStarted(s, plan);
            r.queue == s.queue && r.flags.inFlight == s.flags.inFlight && r.loop == s.loop && r.plan == s.plan
            && s.nextHub in r.hubs && r.tasks == s.tasks
  {
  }

  lemma FlightStep(s: Net, step: Step)
    requires FlightInv(s) && Enabled(s, step)
    ensures FlightInv(Apply(s, step))
  {
    hide Dispatch;
    hide Advanced;
    hide EndTasks;
    match step
    case Receive(a) => FlightDispatch(s.(queue := s.queue[1..]), s.queue[0], a);
    case Advance(a) => if s.loop.todo == Then(Halt) { FlightHalted(s, a); } else { FlightAdvanced(s, s.loop.todo, a); }
    case Resume(a) => if s.loop.Ending? { EndTasksFlight(s, s.loop.later, s.loop.todo, a.pick); }
    case Send(c) => InQueueAppend(s.queue, c);
    case _ => FlightOutside(s, step); InQueueAppend(s.queue, Tick);
  }

  lemma FlightHalted(s: Net, a: Answers)
    ensures FlightInv(Advanced(s, Then(Halt), a))
  {
  }

  // ----- plans: `record` is the one agreement each epoch stands for

  predicate Fits(plan: Plan, record: nat -> Agreement) {
    plan.agreement == record(plan.epoch)
  }

  predicate CommandFits(c: Command, record: nat -> Agreement) {
    c.Group? || c.Share? ==> Fits(c.plan, record)
  }

  predicate RequestFits(q: Request, record: nat -> Agreement) {
    q.ForShare? ==> Fits(q.plan, record)
  }

  predicate RestFits(rest: Rest, record: nat -> Agreement) {
    rest.BindFor? ==> RequestFits(rest.request, record)
  }

  predicate TodoFits(todo: Todo, record: nat -> Agreement) {
    match todo
    case AfterPlan(q) => RequestFits(q, record)
    case AfterLinks(q) => RequestFits(q, record)
    case Ensure(q) => RequestFits(q, record)
    case Settle(_) => true
    case Teardown(rest) => RestFits(rest, record)
    case TearHub(rest) => RestFits(rest, record)
    case TearEndpoint(rest) => RestFits(rest, record)
    case TearFlag(rest) => RestFits(rest, record)
    case Then(rest) => RestFits(rest, record)
  }

  predicate LoopFits(loop: Loop, record: nat -> Agreement) {
    match loop
    case Ready(todo) => TodoFits(todo, record)
    case Ending(_, _, todo) => TodoFits(todo, record)
    case Stopping(_, todo) => TodoFits(todo, record)
    case Retiring(rest) => RestFits(rest, record)
    case _ => true
  }

  ghost predicate QueueFits(queue: seq<Command>, record: nat -> Agreement) {
    forall c | c in queue :: CommandFits(c, record)
  }

  ghost predicate TasksFit(tasks: map<TaskId, Task>, record: nat -> Agreement) {
    forall t | t in tasks && tasks[t].Connect? :: Fits(tasks[t].plan, record)
  }

  // The hub that runs is the one for the current plan.
  ghost predicate PlanInv(s: Net, record: nat -> Agreement) {
    && (s.plan.Some? ==> Fits(s.plan.value, record))
    && QueueFits(s.queue, record)
    && TasksFit(s.tasks, record)
    && LoopFits(s.loop, record)
    && (s.hub.Some? ==> s.plan.Some? && s.hub.value.agreement == s.plan.value.agreement)
  }

  lemma EndTasksPlan(s: Net, tasks: set<TaskId>, todo: Todo, pick: TaskId, record: nat -> Agreement)
    requires PlanInv(s, record) && TodoFits(todo, record)
    ensures PlanInv(EndTasks(s, tasks, todo, pick), record)
  {
    EndTasksShape(s, tasks, todo, pick);
  }

  lemma PlanMove(s: Net, r: Net, record: nat -> Agreement)
    requires PlanInv(s, record) && r.plan == s.plan && (r.hub == s.hub || r.hub.None?)
    requires r.queue == s.queue || r.queue == s.queue + [Tick]
    requires forall t | t in r.tasks && r.tasks[t].Connect? :: t in s.tasks && s.tasks[t].Connect? && r.tasks[t].plan == s.tasks[t].plan
    requires r.loop == s.loop || LoopFits(r.loop, record)
    ensures PlanInv(r, record)
  {
  }

  lemma AdoptPlanInv(s: Net, plan: Plan, todo: Todo, record: nat -> Agreement)
    requires PlanInv(s, record) && Fits(plan, record) && TodoFits(todo, record)
    ensures PlanInv(AdoptPlan(s, plan, todo), record)
  {
    hide PlanInv;
    if s.plan.Some? && s.plan.value.epoch >= plan.epoch {
      PlanMove(s, s.(loop := Ready(todo)), record);
    } else if s.hub.Some? && s.hub.value.agreement != plan.agreement {
      PlanTaken(s, s.(plan := Some(plan), hub := None, loop := Stopping(s.hub.value.id, todo)), plan, record);
    } else {
      PlanTaken(s, s.(plan := Some(plan), loop := Ready(todo)), plan, record);
    }
  }

  // A newer plan is taken; a hub kept under it has its agreement.
  lemma PlanTaken(s: Net, r: Net, plan: Plan, record: nat -> Agreement)
    requires PlanInv(s, record) && Fits(plan, record) && LoopFits(r.loop, record)
    requires r == s.(plan := Some(plan), hub := r.hub, loop := r.loop)
    requires r.hub.Some? ==> r.hub.value.agreement == plan.agreement
    ensures PlanInv(r, record)
  {
  }

  lemma PlanDispatch(s: Net, c: Command, a: Answers, record: nat -> Agreement)
    requires PlanInv(s, record) && CommandFits(c, record)
    ensures PlanInv(Dispatch(s, c, a), record)
  {
    hide PlanInv;
    hide EndTasks;
    hide AdoptPlan;
    var r := Dispatch(s, c, a);
    match c
    case Group(plan) => AdoptPlanInv(s, plan, Then(Finish(true)), record);
    case Share(plan, peer) =>
      AdoptPlanInv(s, plan, AfterPlan(ForShare(plan, peer)), record);
      PlanMove(s, s.(loop := Ready(Then(Finish(true)))), record);
    case Release(peer) =>
      if peer in s.members {
        var m := s.members[peer];
        var s1 := Put(s, peer, m.(enabled := false, connects := {}));
        PlanMove(s, s1, record);
        EndTasksPlan(s1, m.connects, Settle(true), a.pick, record);
      } else { PlanMove(s, r, record); }
    case _ => PlanMove(s, r, record);
  }

  lemma SpawnPlan(s: Net, q: Request, e: EndpointId, record: nat -> Agreement)
    requires PlanInv(s, record) && RequestFits(q, record)
    ensures PlanInv(Spawn(s, q, e), record)
  {
  }

  lemma PlanAdvanced(s: Net, todo: Todo, a: Answers, record: nat -> Agreement)
    requires PlanInv(s, record) && s.loop == Ready(todo)
    ensures PlanInv(Advanced(s, todo, a), record)
  {
    hide PlanInv;
    hide Spawn;
    hide IdleNet;
    hide UnusedHub;
    hide Bind;
    PlanLoop(s, record);
    if todo.AfterPlan? || todo.Teardown? { PlanLists(s, todo, a, record); }
    else if todo == Then(Halt) { PlanHalted(s, record); }
    else if todo.Then? && todo.rest.BindFor? { BindPlan(s, todo.rest.request, a, record); }
    else if todo.AfterLinks? || todo.Ensure? { PlanWants(s, todo, a, record); }
    else { PlanRoutine(s, todo, a, record); }
  }

  lemma PlanWants(s: Net, todo: Todo, a: Answers, record: nat -> Agreement)
    requires PlanInv(s, record) && s.loop == Ready(todo) && (todo.AfterLinks? || todo.Ensure?)
    ensures PlanInv(Advanced(s, todo, a), record)
  {
    hide PlanInv;
    hide Spawn;
    hide Entry;
    PlanLoop(s, record);
    var q := todo.request;
    if todo.AfterLinks? {
      var s1 := Put(s, q.peer, Entry(s, q.peer).(enabled := true));
      PlanMove(s, s1.(loop := Ready(Then(Finish(true)))), record);
      PlanMove(s, s1.(loop := Ready(Ensure(q))), record);
    } else {
      if s.endpoint.Some? { SpawnPlan(s, q, s.endpoint.value, record); }
      PlanMove(s, s.(loop := Ready(Then(BindFor(q)))), record);
      PlanMove(s, s.(loop := Ready(Teardown(BindFor(q)))), record);
    }
  }

  lemma PlanRoutine(s: Net, todo: Todo, a: Answers, record: nat -> Agreement)
    requires PlanInv(s, record) && s.loop == Ready(todo) && !todo.AfterPlan? && !todo.Teardown?
    requires !todo.AfterLinks? && !todo.Ensure? && (todo.Then? ==> todo.rest.Finish?)
    ensures PlanInv(Advanced(s, todo, a), record)
  {
    hide PlanInv;
    assert todo.Settle? ==> RestFits(Finish(todo.counted), record);
    hide RestFits;
    hide StopHub;
    hide IdleNet;
    hide UnusedHub;
    PlanLoop(s, record);
    match todo
    case Settle(counted) =>
      StopPlan(s, Then(Finish(counted)), record);
      PlanMove(s, s.(loop := Ready(Teardown(Finish(counted)))), record);
      PlanMove(s, s.(loop := Ready(Then(Finish(counted)))), record);
    case TearHub(rest) => StopPlan(s, TearEndpoint(rest), record);
    case TearEndpoint(rest) =>
      PlanMove(s, s.(endpoint := None, loop := Retiring(rest)), record);
      PlanMove(s, s.(loop := Ready(TearFlag(rest))), record);
    case TearFlag(rest) => PlanMove(s, s.(flags := s.flags.(bound := false), loop := Ready(Then(rest))), record);
    case Then(rest) =>
      PlanMove(s, Advanced(s, Then(rest), a), record);
  }

  lemma StopPlan(s: Net, todo: Todo, record: nat -> Agreement)
    requires PlanInv(s, record) && TodoFits(todo, record)
    ensures PlanInv(StopHub(s, todo), record)
  {
    hide PlanInv;
    if s.hub.None? {}
    PlanMove(s, StopHub(s, todo), record);
  }

  lemma BindPlan(s: Net, q: Request, a: Answers, record: nat -> Agreement)
    requires PlanInv(s, record) && RequestFits(q, record)
    ensures PlanInv(Bind(s, q, a), record)
  {
    hide PlanInv;
    hide Spawn;
    if a.binds {
      var e := s.nextEndpoint;
      var s1 := s.(endpoint := Some(e), nextEndpoint := e + 1, flags := s.flags.(bound := true));
      PlanMove(s, s1, record);
      SpawnPlan(s1, q, e, record);
    } else { PlanMove(s, Bind(s, q, a), record); }
  }

  lemma PlanLists(s: Net, todo: Todo, a: Answers, record: nat -> Agreement)
    requires PlanInv(s, record) && s.loop == Ready(todo) && (todo.AfterPlan? || todo.Teardown?)
    ensures PlanInv(Advanced(s, todo, a), record)
  {
    hide PlanInv;
    hide EndTasks;
    PlanLoop(s, record);
    if todo.AfterPlan? {
      var q := todo.request;
      var m := Entry(s, q.peer);
      var s1 := Put(s, q.peer, m.(links := {}));
      PlanMove(s, s1, record);
      EndTasksPlan(s1, m.links, AfterLinks(q), a.pick, record);
    } else {
      PlanMove(s, Drained(s), record);
      EndTasksPlan(Drained(s), Listed(s), TearHub(todo.rest), a.pick, record);
    }
  }

  lemma PlanHalted(s: Net, record: nat -> Agreement)
    requires PlanInv(s, record)
    ensures PlanInv(Halted(s), record)
  {
  }

  lemma StartedPlan(s: Net, plan: Plan, record: nat -> Agreement)
    requires PlanInv(s, record) && Fits(plan, record) && s.plan.Some? && s.plan.value.epoch == plan.epoch
    ensures PlanInv(HubStarted(s, plan), record)
  {
  }

  lemma JoinedPlan(s: Net, p: Peer, h: HubId, under: Agreement, record: nat -> Agreement)
    requires PlanInv(s, record) && h in s.hubs
    ensures PlanInv(Joined(s, p, h, under), record)
  {
  }

  lemma PlanAdmitted(s: Net, t: TaskId, a: Answers, record: nat -> Agreement)
    requires PlanInv(s, record) && Enabled(s, Admit(t, a))
    ensures PlanInv(Admitted(s, t, a), record)
  {
    var task := s.tasks[t];
    assert Fits(task.plan, record);
    hide PlanInv;
    hide Joined;
    hide HubStarted;
    hide JoinableHub;
    if a.revoked || s.plan.None? || s.plan.value.epoch != task.plan.epoch || !a.fits {
      PlanMove(s, Over(s, t), record);
    } else {
      match JoinableHub(s, task.plan, a)
      case Refused => PlanMove(s, Over(s, t), record);
      case Wait => PlanMove(s, s.(tasks := s.tasks[t := task.(waiting := true, notified := false)]), record);
      case Join(h) =>
        if h in s.hubs && s.hubs[h].phase.Open? { JoinedPlan(s, task.peer, h, task.plan.agreement, record); }
        var s1 := if h in s.hubs && s.hubs[h].phase.Open? then Joined(s, task.peer, h, task.plan.agreement) else s;
        PlanMove(s1, Over(s1, t), record);
      case StartHub =>
        StartedPlan(s, task.plan, record);
        StartedFlight(s, task.plan);
        JoinedPlan(HubStarted(s, task.plan), task.peer, s.nextHub, task.plan.agreement, record);
        var s2 := Joined(HubStarted(s, task.plan), task.peer, s.nextHub, task.plan.agreement);
        PlanMove(s2, Over(s2, t), record);
    }
  }

  lemma PlanStep(s: Net, step: Step, record: nat -> Agreement)
    requires PlanInv(s, record) && Enabled(s, step) && (step.Send? ==> CommandFits(step.command, record))
    ensures PlanInv(Apply(s, step), record)
  {
    hide PlanInv;
    hide Reported;
    hide RunOver;
    hide Dispatch;
    hide Advanced;
    hide EndTasks;
    hide Admitted;
    var r := Apply(s, step);
    match step
    case Send(c) => PlanSend(s, c, record);
    case Receive(a) =>
      PlanReceive(s, record);
      PlanDispatch(s.(queue := s.queue[1..]), s.queue[0], a, record);
    case Advance(a) => PlanAdvanced(s, s.loop.todo, a, record);
    case Resume(a) =>
      PlanLoop(s, record);
      if s.loop.Ending? { EndTasksPlan(s, s.loop.later, s.loop.todo, a.pick, record); } else { PlanMove(s, r, record); }
    case Admit(t, a) => PlanAdmitted(s, t, a, record);
    case RunReturns(h) => RunOverShape(s, h); PlanMove(s, r, record);
    case PeerEnded(h, p, i) => ReportedShape(s, h, p, i); PlanMove(s, r, record);
    case _ => PlanMove(s, r, record);
  }

  lemma PlanLoop(s: Net, record: nat -> Agreement)
    requires PlanInv(s, record)
    ensures LoopFits(s.loop, record)
  {
  }

  lemma PlanSend(s: Net, c: Command, record: nat -> Agreement)
    requires PlanInv(s, record) && CommandFits(c, record) && Enabled(s, Send(c))
    ensures PlanInv(Apply(s, Send(c)), record)
  {
  }

  lemma PlanReceive(s: Net, record: nat -> Agreement)
    requires PlanInv(s, record) && s.queue != []
    ensures PlanInv(s.(queue := s.queue[1..]), record) && CommandFits(s.queue[0], record)
  {
    assert s.queue[0] in s.queue;
    assert forall c | c in s.queue[1..] :: c in s.queue;
  }

  // ----- the record a session was connected under

  // Whoever is in session with the hub that runs came under its agreement.
  ghost predicate UnderInv(s: Net) {
    s.hub.Some? ==> forall p :: InSession(s, p, s.hub.value.id) ==> Entry(s, p).session.value.under == s.hub.value.agreement
  }

  lemma UnderFrame(s: Net, r: Net)
    requires UnderInv(s) && (r.hub == s.hub || r.hub.None?)
    requires forall p :: Entry(r, p).session == Entry(s, p).session || Entry(r, p).session.None?
    ensures UnderInv(r)
  {
    if r.hub.Some? {
      forall p | InSession(r, p, r.hub.value.id) ensures Entry(r, p).session.value.under == r.hub.value.agreement {
        assert InSession(s, p, s.hub.value.id);
      }
    }
  }

  lemma UnderJoined(s: Net, p: Peer, h: HubId, under: Agreement)
    requires UnderInv(s) && IsCurrent(s, h) && s.hub.value.agreement == under && h in s.hubs
    ensures UnderInv(Joined(s, p, h, under))
  {
    var r := Joined(s, p, h, under);
    forall q | InSession(r, q, h) ensures Entry(r, q).session.value.under == under {
      if q != p { assert InSession(s, q, h); }
    }
  }

  lemma UnderStarted(s: Net, plan: Plan)
    requires HubInv(s) && LiveInv(s)
    ensures UnderInv(HubStarted(s, plan))
  {
    var r := HubStarted(s, plan);
    assert s.nextHub !in s.hubs;
    forall p ensures !InSession(r, p, s.nextHub) { assert Entry(r, p) == Entry(s, p); }
  }

  lemma UnderAdmitted(s: Net, t: TaskId, a: Answers)
    requires HubInv(s) && LiveInv(s) && UnderInv(s) && Enabled(s, Admit(t, a))
    ensures UnderInv(Admitted(s, t, a))
  {
    hide HubInv;
    hide LiveInv;
    hide UnderInv;
    hide Admitted;
    hide Joined;
    AdmittedShape(s, t, a);
    var r := Admitted(s, t, a);
    var plan := s.tasks[t].plan;
    var p := s.tasks[t].peer;
    if r == s.(tasks := r.tasks, queue := r.queue) {
      UnderFrame(s, r);
    } else if s.hub.Some? {
      UnderJoined(s, p, s.hub.value.id, plan.agreement);
      UnderFrame(Joined(s, p, s.hub.value.id, plan.agreement), r);
    } else {
      UnderStarted(s, plan);
      UnderJoined(HubStarted(s, plan), p, s.nextHub, plan.agreement);
      UnderFrame(Joined(HubStarted(s, plan), p, s.nextHub, plan.agreement), r);
    }
  }

  lemma UnderStep(s: Net, step: Step)
    requires HubInv(s) && AccountInv(s) && UnderInv(s) && Enabled(s, step)
    ensures UnderInv(Apply(s, step))
  {
    assert LiveInv(s);
    hide AccountInv;
    hide LiveInv;
    hide HubInv;
    hide UnderInv;
    hide Dispatch;
    hide Advanced;
    hide Reported;
    hide RunOver;
    hide StreamEnded;
    hide Admitted;
    var r := Apply(s, step);
    match step
    case Receive(a) => DispatchSame(s.(queue := s.queue[1..]), s.queue[0], a); UnderFrame(s, r);
    case Advance(a) =>
      if s.loop.todo == Then(Halt) { UnderHalted(s, a); } else { AdvancedSame(s, s.loop.todo, a); UnderFrame(s, r); }
    case Resume(a) => ResumedSame(s, a); UnderFrame(s, r);
    case Admit(t, a) => UnderAdmitted(s, t, a);
    case RunReturns(h) => RunOverShape(s, h); UnderFrame(s, r);
    case PeerEnded(h, p, i) => UnderReported(s, h, p, i);
    case StreamEnds(h) => UnderStream(s, h);
    case _ => UnderFrame(s, r);
  }

  lemma UnderHalted(s: Net, a: Answers)
    ensures UnderInv(Advanced(s, Then(Halt), a))
  {
  }

  lemma UnderReported(s: Net, h: HubId, p: Peer, i: nat)
    requires AccountInv(s) && UnderInv(s) && Enabled(s, PeerEnded(h, p, i))
    ensures UnderInv(Reported(s, h, p, i))
  {
    hide AccountInv;
    hide UnderInv;
    ReportedShape(s, h, p, i);
    ReportSettlesOldest(s, h, p, i);
    hide Reported;
    var r := Reported(s, h, p, i);
    UnderFrame(s, r);
  }

  lemma UnderStream(s: Net, h: HubId)
    requires UnderInv(s) && h in s.hubs
    ensures UnderInv(StreamEnded(s, h))
  {
    hide UnderInv;
    StreamEntries(s, h);
    UnderFrame(s, StreamEnded(s, h));
  }

  // ----- epochs

  lemma EpochStep(s: Net, step: Step)
    requires Enabled(s, step) && s.plan.Some?
    ensures var r := Apply(s, step); r.plan.Some? && r.plan.value.epoch >= s.plan.value.epoch
  {
    hide EndTasks;
    hide AdoptPlan;
    hide Advanced;
    match step
    case Receive(a) => EpochDispatch(s.(queue := s.queue[1..]), s.queue[0], a);
    case Advance(a) => PlanKept(s, s.loop.todo, a);
    case Resume(a) => if s.loop.Ending? { EndTasksShape(s, s.loop.later, s.loop.todo, a.pick); }
    case Send(c) =>
    case _ => FlightOutside(s, step);
  }

  lemma EpochDispatch(s: Net, c: Command, a: Answers)
    requires s.plan.Some?
    ensures var r := Dispatch(s, c, a); r.plan.Some? && r.plan.value.epoch >= s.plan.value.epoch
  {
    if c.Release? && c.peer in s.members {
      var m := s.members[c.peer];
      EndTasksShape(Put(s, c.peer, m.(enabled := false, connects := {})), m.connects, Settle(true), a.pick);
    }
    hide EndTasks;
  }

  lemma PlanKept(s: Net, todo: Todo, a: Answers)
    ensures Advanced(s, todo, a).plan == s.plan
  {
    hide EndTasks;
    hide IdleNet;
    hide UnusedHub;
    match todo
    case AfterPlan(q) =>
      var m := Entry(s, q.peer);
      EndTasksShape(Put(s, q.peer, m.(links := {})), m.links, AfterLinks(q), a.pick);
    case Teardown(rest) => EndTasksShape(Drained(s), Listed(s), TearHub(rest), a.pick);
    case _ =>
  }
}
