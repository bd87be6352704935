/** The sharing network thread's guarantees, over every run. */
module SharingNetTheorems {
  import opened Prelude
  import opened SharingNet
  import opened SharingNetSafety
  import opened SharingNetReports
  import opened SharingNetEndpoint
  import opened SharingNetPort
  import opened SharingNetPlan

  ghost predicate Inv(s: Net) {
    && HubInv(s) && WaitInv(s) && AccountInv(s) && AgesInv(s)
    && TaskInv(s) && StrandInv(s) && FlightInv(s) && UnderInv(s)
  }

  lemma InvStart()
    ensures Inv(START)
  {
    assert Unfinished(START) == {};
    assert forall id :: !LiveId(START, id);
  }

  lemma InvStep(s: Net, step: Step)
    requires Inv(s) && Enabled(s, step)
    ensures Inv(Apply(s, step))
  {
    hide HubInv; hide WaitInv; hide AccountInv; hide AgesInv;
    hide TaskInv; hide StrandInv; hide FlightInv; hide UnderInv;
    HubStep(s, step);
    WaitStep(s, step);
    AccountStep(s, step);
    AgesStep(s, step);
    TaskStep(s, step);
    StrandStep(s, step);
    FlightStep(s, step);
    UnderStep(s, step);
  }

  lemma {:induction false} Always(states: seq<Net>, steps: seq<Step>, i: nat)
    requires IsRun(states, steps) && i < |states|
    ensures Inv(states[i])
    decreases i
  {
    if i == 0 {
      InvStart();
    } else {
      Always(states, steps, i - 1);
      InvStep(states[i - 1], steps[i - 1]);
    }
  }

  // ----- hubs

  // At most one hub run is unfinished; the hub flag is up exactly while one is, the native flag
  // only while one is, and any session of the current hub means the native flag is up.
  lemma OneHubAtATime(states: seq<Net>, steps: seq<Step>, i: nat)
    requires IsRun(states, steps) && i < |states|
    ensures var s := states[i];
            && (forall g, h | g in Unfinished(s) && h in Unfinished(s) :: g == h)
            && (s.flags.hub <==> Unfinished(s) != {})
            && (s.flags.native ==> Unfinished(s) != {})
            && (s.hub.Some? && SessionsOf(s, s.hub.value.id) ==> s.flags.native)
  {
    Always(states, steps, i);
    var s := states[i];
    forall g, h | g in Unfinished(s) && h in Unfinished(s) ensures g == h { OneUnfinished(s, g); }
  }

  // A connect that waits for a hub to end is woken by one: while it has not been, a run is unfinished.
  lemma NoLostWakeup(states: seq<Net>, steps: seq<Step>, i: nat, t: TaskId)
    requires IsRun(states, steps) && i < |states|
    requires t in states[i].tasks && states[i].tasks[t].Connect? && states[i].tasks[t].waiting && !states[i].tasks[t].notified
    ensures exists h :: h in states[i].hubs && !states[i].hubs[h].phase.Returned?
  {
    Always(states, steps, i);
    var h :| h in Unfinished(states[i]);
  }

  // ----- sessions

  // Every session a hub took is live or has been ended exactly once; per hub and computer, those not
  // reported yet are as many as are owed or live; and once no pump runs, every one has ended.
  lemma EverySessionEndsOnce(states: seq<Net>, steps: seq<Step>, i: nat)
    requires IsRun(states, steps) && i < |states|
    ensures var s := states[i];
            && (forall id: SessionId | id < s.nextSession :: s.ends[id] == if LiveId(s, id) then 0 else 1)
            && (forall h, p | Pumping(s, h) ::
                  |Pending(s, h, p)| == |OwedTo(Entry(s, p).owed, h)| + if InSession(s, p, h) then 1 else 0)
            && ((forall h | h in s.hubs :: !s.hubs[h].pumping) ==>
                  forall id: SessionId | id < s.nextSession :: s.ends[id] == 1)
  {
    Always(states, steps, i);
    var s := states[i];
    assert AccountInv(s);
    assert forall h, p | Pumping(s, h) :: |Pending(s, h, p)| == |Slots(s, h, p)|;
    if forall h | h in s.hubs :: !s.hubs[h].pumping {
      assert forall id :: !LiveId(s, id);
    }
  }

  // While reports came in order, the session a report settles is the oldest open one, so the report
  // is credited to the session it is about exactly when it is in order too.
  lemma ReportIsCreditedRightIffInOrder(states: seq<Net>, steps: seq<Step>, i: nat, h: HubId, p: Peer, k: nat)
    requires IsRun(states, steps) && i < |steps| && steps[i] == PeerEnded(h, p, k) && states[i].inOrder
    ensures var s := states[i]; var open := Slots(s, h, p);
            && open == Pending(s, h, p)
            && Slots(states[i + 1], h, p) == open[1..]
            && (open[0] == Pending(s, h, p)[k] <==> k == 0)
  {
    Always(states, steps, i);
    var s := states[i];
    assert AccountInv(s) && AgesInv(s);
    assert Pumping(s, h);
    ReportSettlesOldest(s, h, p, k);
    assert Ascending(Pending(s, h, p), s.nextSession);
  }

  // With reports in order, a report ends the live session exactly when it is that session's own: the
  // report of a replaced session never ends its replacement.
  lemma ReportEndsItsOwnSession(states: seq<Net>, steps: seq<Step>, i: nat, h: HubId, p: Peer)
    requires IsRun(states, steps) && i < |steps| && steps[i] == PeerEnded(h, p, 0) && states[i].inOrder
    requires Entry(states[i], p).session.Some?
    ensures var live := Entry(states[i], p).session; var after := Entry(states[i + 1], p).session;
            && (after == None <==> live.value.hub == h && live.value.id == Pending(states[i], h, p)[0])
            && (after != None ==> after == live)
  {
    Always(states, steps, i);
    var s := states[i];
    assert AccountInv(s) && AgesInv(s) && Pumping(s, h);
    ReportSettlesOldest(s, h, p, 0);
    assert Ascending(Pending(s, h, p), s.nextSession);
    var r := states[i + 1];
    if Entry(r, p).session == Entry(s, p).session && InSession(s, p, h) {
      assert Slots(s, h, p)[|Slots(s, h, p)| - 1] == Entry(s, p).session.value.id;
      assert InSession(r, p, h);
      assert Slots(r, h, p)[|Slots(r, h, p)| - 1] == Entry(s, p).session.value.id;
    }
  }

  // ----- the port

  // Wherever the thread yields: a bound endpoint nobody wants has a Tick coming, or the loop is in a
  // handler that ends tasks, settles or tears down.
  lemma NoStrandedPort(states: seq<Net>, steps: seq<Step>, i: nat)
    requires IsRun(states, steps) && i < |states|
    requires Yielding(states[i]) && states[i].endpoint.Some? && IdleNet(states[i])
    ensures var s := states[i];
            || Tick in s.queue
            || (s.loop.Ending? && (s.loop.todo.AfterLinks? || s.loop.todo.Settle? || s.loop.todo.TearHub?))
            || (s.loop.Stopping? && s.loop.todo.TearEndpoint?)
  {
    Always(states, steps, i);
    assert TaskInv(states[i]) && StrandInv(states[i]);
  }

  // When the endpoint is retired no task holds it, and none can before the next bind.
  lemma RetiredAlone(states: seq<Net>, steps: seq<Step>, i: nat)
    requires IsRun(states, steps) && i < |states| && states[i].loop.Retiring?
    ensures states[i].tasks == map[] && states[i].endpoint.None?
  {
    Always(states, steps, i);
    assert TaskInv(states[i]);
  }

  // Every unfinished task holds the one bound endpoint.
  lemma TasksHoldTheEndpoint(states: seq<Net>, steps: seq<Step>, i: nat, t: TaskId)
    requires IsRun(states, steps) && i < |states| && t in states[i].tasks
    ensures states[i].endpoint == Some(states[i].tasks[t].endpoint)
  {
    Always(states, steps, i);
    assert TaskInv(states[i]);
  }

  lemma QuietFree(s: Net)
    requires Inv(s) && Quiet(s) && !s.loop.Stopped?
    ensures s.endpoint.None? && s.tasks == map[] && Unfinished(s) == {} && s.hub.None?
    ensures forall c | c in s.queue :: c == Tick
  {
    assert HubInv(s) && TaskInv(s) && FlightInv(s);
    assert s.tasks == map[] by {
      assert forall t | t in s.tasks :: s.endpoint.Some?;
    }
    OnlyTicks(s.queue);
  }

  lemma {:induction false} OnlyTicks(queue: seq<Command>)
    requires InQueue(queue) == 0
    ensures forall c | c in queue :: c == Tick
  {
    if queue != [] {
      assert queue == [queue[0]] + queue[1..];
      OnlyTicks(queue[1..]);
    }
  }

  // Quiet means free: no endpoint, no hub run, no connect and no link.
  lemma QuietIsFree(states: seq<Net>, steps: seq<Step>, i: nat)
    requires IsRun(states, steps) && i < |states| && Quiet(states[i])
    ensures states[i].tasks == map[] && Unfinished(states[i]) == {} && states[i].endpoint.None?
  {
    Always(states, steps, i);
    if !states[i].loop.Stopped? { QuietFree(states[i]); } else { StoppedIsEmpty(states, steps, i); }
  }

  lemma StoppedIsEmpty(states: seq<Net>, steps: seq<Step>, i: nat)
    requires IsRun(states, steps) && i < |states| && states[i].loop.Stopped?
    ensures states[i].tasks == map[] && states[i].hubs == map[] && states[i].endpoint.None?
  {
    if i > 0 { StoppedNow(states[i - 1], steps[i - 1]); }
  }

  // Nothing runs on a stopped thread.
  lemma StoppedNow(s: Net, step: Step)
    requires Enabled(s, step) && Apply(s, step).loop.Stopped?
    ensures !s.loop.Stopped? && step.Advance? && s.loop == Ready(Then(Halt))
  {
    hide Advanced;
    hide Dispatch;
    match step
    case Receive(a) => DispatchGoes(s.(queue := s.queue[1..]), s.queue[0], a);
    case Advance(a) => AdvancedGoes(s, s.loop.todo, a);
    case Resume(a) => if s.loop.Ending? { EndTasksShape(s, s.loop.later, s.loop.todo, a.pick); }
    case Send(c) =>
    case _ => FlightOutside(s, step);
  }

  lemma DispatchGoes(s: Net, c: Command, a: Answers)
    ensures Dispatch(s, c, a).loop.Ready? || Dispatch(s, c, a).loop.Ending? || Dispatch(s, c, a).loop.Stopping?
  {
    if c.Release? && c.peer in s.members {
      var m := s.members[c.peer];
      EndTasksShape(Put(s, c.peer, m.(enabled := false, connects := {})), m.connects, Settle(true), a.pick);
    }
    hide EndTasks;
  }

  lemma AdvancedGoes(s: Net, todo: Todo, a: Answers)
    ensures Advanced(s, todo, a).loop.Stopped? ==> todo == Then(Halt)
  {
    hide EndTasks;
    hide IdleNet;
    hide UnusedHub;
    match todo
    case AfterPlan(q) =>
      var m := Entry(s, q.peer);
      EndTasksShape(Put(s, q.peer, m.(links := {})), m.links, AfterLinks(q), a.pick);
    case Teardown(rest) => EndTasksShape(Drained(s), Listed(s), TearHub(rest), a.pick);
    case _ =>
  }

  // A step that is no new command never raises the count, and with none in flight never binds.
  lemma NothingBinds(s: Net, step: Step)
    requires Inv(s) && Enabled(s, step) && !step.Send? && s.flags.inFlight == 0
    ensures var r := Apply(s, step); r.flags.inFlight == 0 && (!s.flags.bound ==> !r.flags.bound)
  {
    hide Inv; hide Outside; hide Dispatch; hide Advanced;
    FlightZero(s);
    var r := Apply(s, step);
    match step
    case Receive(a) =>
      OnlyTicks(s.queue);
      assert s.queue[0] == Tick;
      TickTaken(s.(queue := s.queue[1..]), a);
    case Advance(a) => BoundAdvanced(s, s.loop.todo, a);
    case Resume(a) => if s.loop.Ending? { EndTasksShape(s, s.loop.later, s.loop.todo, a.pick); }
    case _ =>
      OutsideStep(s, step);
      OutsideBound(s, r);
      FlightOutside(s, step);
  }

  lemma TickTaken(s: Net, a: Answers)
    ensures Dispatch(s, Tick, a).flags == s.flags
  {
  }

  lemma OutsideBound(s: Net, r: Net)
    requires Outside(s, r)
    ensures r.flags.bound == s.flags.bound
  {
  }

  lemma FlightZero(s: Net)
    requires Inv(s) && s.flags.inFlight == 0
    ensures InQueue(s.queue) == 0 && Handling(s.loop) == 0
  {
  }

  lemma BoundAdvanced(s: Net, todo: Todo, a: Answers)
    requires TodoCounts(todo) == 0
    ensures var r := Advanced(s, todo, a);
            (!s.flags.bound ==> !r.flags.bound) && r.flags.inFlight == s.flags.inFlight
  {
    hide EndTasks;
    hide IdleNet;
    hide UnusedHub;
    if todo.Teardown? { EndTasksShape(Drained(s), Listed(s), TearHub(todo.rest), a.pick); }
  }

  lemma HubFlagStays(s: Net, step: Step)
    requires Inv(s) && Quiet(s) && !s.loop.Stopped? && Enabled(s, step) && !step.Send?
    ensures !Apply(s, step).flags.hub
  {
    QuietFree(s);
    InvStep(s, step);
    var r := Apply(s, step);
    assert HubInv(r);
    hide Inv;
    match step
    case Receive(a) => DispatchSame(s.(queue := s.queue[1..]), s.queue[0], a);
    case Advance(a) => if s.loop.todo != Then(Halt) { AdvancedSame(s, s.loop.todo, a); }
    case Resume(a) => ResumedSame(s, a);
    case PeerEnded(h, p, i) => ReportedShape(s, h, p, i);
    case _ =>
  }

  lemma StillRuns(s: Net, step: Step)
    requires Enabled(s, step)
    ensures !s.loop.Stopped?
  {
  }

  // Quiet stays free: until a new command is sent, every step keeps it.
  lemma {:induction false} QuietStays(states: seq<Net>, steps: seq<Step>, i: nat, j: nat)
    requires IsRun(states, steps) && i <= j < |states| && Quiet(states[i])
    requires forall k | i <= k < j :: !steps[k].Send?
    ensures Quiet(states[j])
    decreases j
  {
    hide Inv; hide Apply; hide Enabled;
    if i < j {
      QuietStays(states, steps, i, j - 1);
      Always(states, steps, j - 1);
      var s := states[j - 1];
      StillRuns(s, steps[j - 1]);
      NothingBinds(s, steps[j - 1]);
      HubFlagStays(s, steps[j - 1]);
    }
  }

  // The controller reads the three flags one after the other while the thread runs on; with no
  // command sent meanwhile the answer is as good as one read at the end.
  lemma {:induction false} QuietReadsAreASnapshot(states: seq<Net>, steps: seq<Step>, i: nat, j: nat, k: nat)
    requires IsRun(states, steps) && i <= j <= k < |states|
    requires forall n | i <= n < k :: !steps[n].Send?
    requires states[i].flags.inFlight == 0 && !states[j].flags.bound && !states[k].flags.hub
    ensures Quiet(states[k])
  {
    InFlightStays(states, steps, i, j);
    UnboundStays(states, steps, j, k);
  }

  lemma {:induction false} InFlightStays(states: seq<Net>, steps: seq<Step>, i: nat, j: nat)
    requires IsRun(states, steps) && i <= j < |states| && states[i].flags.inFlight == 0
    requires forall k | i <= k < j :: !steps[k].Send?
    ensures states[j].flags.inFlight == 0
    decreases j
  {
    hide Inv; hide Apply; hide Enabled;
    if i < j {
      InFlightStays(states, steps, i, j - 1);
      Always(states, steps, j - 1);
      NothingBinds(states[j - 1], steps[j - 1]);
    }
  }

  lemma {:induction false} UnboundStays(states: seq<Net>, steps: seq<Step>, i: nat, j: nat)
    requires IsRun(states, steps) && i <= j < |states| && states[i].flags.inFlight == 0 && !states[i].flags.bound
    requires forall k | i <= k < j :: !steps[k].Send?
    ensures states[j].flags.inFlight == 0 && !states[j].flags.bound
    decreases j
  {
    hide Inv; hide Apply; hide Enabled;
    if i < j {
      UnboundStays(states, steps, i, j - 1);
      Always(states, steps, j - 1);
      NothingBinds(states[j - 1], steps[j - 1]);
    }
  }

  // ----- plans

  lemma {:induction false} PlanNeverOlder(states: seq<Net>, steps: seq<Step>, i: nat, j: nat)
    requires IsRun(states, steps) && i <= j < |states| && states[i].plan.Some?
    ensures states[j].plan.Some? && states[j].plan.value.epoch >= states[i].plan.value.epoch
    decreases j
  {
    hide Apply; hide Enabled;
    if i < j {
      PlanNeverOlder(states, steps, i, j - 1);
      EpochStep(states[j - 1], steps[j - 1]);
    }
  }

  // Every session handed to the hub that runs was connected under that hub's agreement.
  lemma SessionsUnderTheirHub(states: seq<Net>, steps: seq<Step>, i: nat, p: Peer)
    requires IsRun(states, steps) && i < |states|
    requires states[i].hub.Some? && InSession(states[i], p, states[i].hub.value.id)
    ensures Entry(states[i], p).session.value.under == states[i].hub.value.agreement
  {
    Always(states, steps, i);
    assert UnderInv(states[i]);
  }
}
