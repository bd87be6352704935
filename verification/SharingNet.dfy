/**
The sharing network thread of MonHop as an interleaving of atomic steps.

One current-thread runtime runs everything, so code between two awaits is atomic. The command
loop is a program counter: while it is `Ready(todo)` its handler is running and nothing else on
the thread moves; in every other position it is waiting, and connect tasks, link tasks, hub runs
and event pumps take turns. What comes from outside (the transport, the clock, the user, the
operating system) is an `Answers` value or the choice of the next step.
*/
module SharingNet {
  import opened Prelude

  type Peer = nat        // a computer, by fingerprint; DeviceIds are taken as distinct
  type TaskId = nat
  type HubId = nat
  type SessionId = nat
  type EndpointId = nat
  type Agreement = nat   // a record's content digest

  datatype Plan = Plan(epoch: nat, agreement: Agreement)

  datatype Command =
    | Group(plan: Plan)
    | Share(plan: Plan, peer: Peer)
    | Release(peer: Peer)
    | Link(peer: Peer)
    | Forget(peer: Peer)
    | Tick
    | Shutdown

  // What an endpoint is wanted for.
  datatype Request = ForShare(plan: Plan, peer: Peer) | ForLink(peer: Peer)

  // `id` and `under` are history: which session this is, and the agreement its connect bound.
  datatype Session = Session(hub: HubId, id: SessionId, under: Agreement)

  // One end report a hub still owes for a replaced session; `session` is history.
  datatype Owed = Owed(hub: HubId, session: SessionId)

  // Task sets keep finished handles; a handle is finished once its task is gone from `Net.tasks`.
  datatype Member = Member(
    enabled: bool,
    connects: set<TaskId>,
    links: set<TaskId>,
    session: Option<Session>,
    owed: seq<Owed>)

  const BLANK := Member(false, {}, {}, None, [])

  // A task that has not finished. An aborted one never runs again but lives until it is dropped.
  datatype Task =
    | Connect(peer: Peer, plan: Plan, endpoint: EndpointId, waiting: bool, notified: bool, aborted: bool)
    | LinkRun(peer: Peer, endpoint: EndpointId, aborted: bool)

  datatype RunningHub = RunningHub(id: HubId, agreement: Agreement)

  // Open: takes commands. Closed: its loop is ending. Returned: its run task finished.
  datatype Phase = Open | Closed | Returned

  // `pending`: per computer, sessions the hub took whose end its pump has not read yet.
  datatype HubState = HubState(phase: Phase, pumping: bool, pending: map<Peer, seq<SessionId>>)

  datatype Flags = Flags(inFlight: int, bound: bool, hub: bool, native: bool)

  // What a handler does once a shared routine it awaits is over.
  datatype Rest = Finish(counted: bool) | Halt | BindFor(request: Request)

  datatype Todo =
    | AfterPlan(request: Request)
    | AfterLinks(request: Request)
    | Ensure(request: Request)
    | Settle(counted: bool)
    | Teardown(rest: Rest)
    | TearHub(rest: Rest)
    | TearEndpoint(rest: Rest)
    | TearFlag(rest: Rest)
    | Then(rest: Rest)

  datatype Loop =
    | Receiving
    | Ready(todo: Todo)
    | Ending(current: TaskId, later: set<TaskId>, todo: Todo)
    | Stopping(hub: HubId, todo: Todo)
    | Retiring(rest: Rest)
    | Stopped

  // `ends` and `inOrder` are history: the ends delivered per session, and whether every report so
  // far was for its computer's oldest unreported session.
  datatype Net = Net(
    plan: Option<Plan>,
    endpoint: Option<EndpointId>,
    hub: Option<RunningHub>,
    hubRuns: int,
    nativeStarted: bool,
    members: map<Peer, Member>,
    flags: Flags,
    queue: seq<Command>,
    loop: Loop,
    tasks: map<TaskId, Task>,
    hubs: map<HubId, HubState>,
    nextTask: TaskId,
    nextHub: HubId,
    nextSession: SessionId,
    nextEndpoint: EndpointId,
    ends: multiset<SessionId>,
    inOrder: bool)

  const START := Net(None, None, None, 0, false, map[], Flags(0, false, false, false), [], Receiving,
                     map[], map[], 0, 0, 0, 0, multiset{}, true)

  datatype Answers = Answers(
    abandoned: bool,   // the worker gave up, or the app is quitting
    claimed: bool,     // native input is claimed in this process
    buildable: bool,   // the record builds the group here
    reuse: bool,       // the bound endpoint serves this request
    binds: bool,       // a bind succeeds
    revoked: bool,     // the connect's own cancel
    fits: bool,        // the record fits the displays the connection met
    starts: bool,      // a hub starts for this record
    pick: TaskId)      // which of the listed tasks is ended next

  datatype Step =
    | Send(command: Command)
    | Receive(answers: Answers)
    | Advance(answers: Answers)
    | Resume(answers: Answers)
    | Dropped(task: TaskId)
    | ConnectFails(task: TaskId)
    | Admit(task: TaskId, answers: Answers)
    | LinkEnds(task: TaskId)
    | HubCloses(hub: HubId)
    | RunReturns(hub: HubId)
    | PeerStarted(hub: HubId, peer: Peer)
    | PeerEnded(hub: HubId, peer: Peer, index: nat)
    | NativeIdle(hub: HubId)
    | StreamEnds(hub: HubId)

  // ----- reading the state

  function Entry(s: Net, p: Peer): Member {
    if p in s.members then s.members[p] else BLANK
  }

  function Put(s: Net, p: Peer, m: Member): Net {
    s.(members := s.members[p := m])
  }

  function Ticked(s: Net): Net {
    s.(queue := s.queue + [Tick])
  }

  predicate InSession(s: Net, p: Peer, h: HubId) {
    Entry(s, p).session.Some? && Entry(s, p).session.value.hub == h
  }

  predicate SessionsOf(s: Net, h: HubId) {
    exists p | p in s.members :: InSession(s, p, h)
  }

  predicate IsCurrent(s: Net, h: HubId) {
    s.hub.Some? && s.hub.value.id == h
  }

  predicate UnusedHub(s: Net) {
    s.hub.Some? && !SessionsOf(s, s.hub.value.id)
  }

  // One computer wants nothing: no worker, no session, no unfinished connect or link.
  predicate Resting(s: Net, p: Peer) {
    var m := Entry(s, p);
    && !m.enabled
    && m.session.None?
    && m.connects !! s.tasks.Keys
    && m.links !! s.tasks.Keys
  }

  predicate IdleNet(s: Net) {
    forall p | p in s.members :: Resting(s, p)
  }

  function Unfinished(s: Net): set<HubId> {
    set h | h in s.hubs && !s.hubs[h].phase.Returned?
  }

  function Pending(s: Net, h: HubId, p: Peer): seq<SessionId> {
    if h in s.hubs && p in s.hubs[h].pending then s.hubs[h].pending[p] else []
  }

  predicate Quiet(s: Net) {
    s.loop.Stopped? || (s.flags.inFlight == 0 && !s.flags.bound && !s.flags.hub)
  }

  predicate Counted(c: Command) {
    !c.Tick?
  }

  // ----- owed reports

  // The replaced sessions hub `h` still owes a report for, oldest first.
  function OwedTo(owed: seq<Owed>, h: HubId): seq<SessionId> {
    if owed == [] then []
    else (if owed[0].hub == h then [owed[0].session] else []) + OwedTo(owed[1..], h)
  }

  function TakeFirst(owed: seq<Owed>, h: HubId): seq<Owed> {
    if owed == [] then []
    else if owed[0].hub == h then owed[1..]
    else [owed[0]] + TakeFirst(owed[1..], h)
  }

  function WithoutHub(owed: seq<Owed>, h: HubId): seq<Owed> {
    if owed == [] then []
    else (if owed[0].hub == h then [] else [owed[0]]) + WithoutHub(owed[1..], h)
  }

  // Every session of computer `p` that hub `h` took and has not been settled here, oldest first.
  function Slots(s: Net, h: HubId, p: Peer): seq<SessionId> {
    OwedTo(Entry(s, p).owed, h) + if InSession(s, p, h) then [Entry(s, p).session.value.id] else []
  }

  // ----- the command loop

  ghost function EndTasks(s: Net, tasks: set<TaskId>, todo: Todo, pick: TaskId): Net {
    if tasks == {} then s.(loop := Ready(todo))
    else
      var t: TaskId := if pick in tasks then pick else var t :| t in tasks; t;
      Aborted(s, t).(loop := Ending(t, tasks - {t}, todo))
  }

  function Aborted(s: Net, t: TaskId): Net {
    if t in s.tasks then s.(tasks := s.tasks[t := s.tasks[t].(aborted := true)]) else s
  }

  function StopHub(s: Net, todo: Todo): Net {
    if s.hub.None? then s.(loop := Ready(todo))
    else s.(hub := None, loop := Stopping(s.hub.value.id, todo))
  }

  function AdoptPlan(s: Net, plan: Plan, todo: Todo): Net {
    if s.plan.Some? && s.plan.value.epoch >= plan.epoch then s.(loop := Ready(todo))
    else
      var stale := s.hub.Some? && s.hub.value.agreement != plan.agreement;
      var s1 := s.(plan := Some(plan));
      if stale then StopHub(s1, todo) else s1.(loop := Ready(todo))
  }

  ghost function Dispatch(s: Net, c: Command, a: Answers): Net {
    match c
    case Group(plan) => AdoptPlan(s, plan, Then(Finish(true)))
    case Share(plan, peer) =>
      if a.abandoned || (s.plan.Some? && s.plan.value.epoch > plan.epoch) then
        s.(loop := Ready(Then(Finish(true))))
      else AdoptPlan(s, plan, AfterPlan(ForShare(plan, peer)))
    case Release(peer) =>
      if peer !in s.members then s.(loop := Ready(Then(Finish(true))))
      else
        var m := s.members[peer];
        EndTasks(Put(s, peer, m.(enabled := false, connects := {})), m.connects, Settle(true), a.pick)
    case Link(peer) => Put(s, peer, Entry(s, peer)).(loop := Ready(Ensure(ForLink(peer))))
    case Forget(peer) => Put(s, peer, Entry(s, peer)).(loop := Ready(Then(Finish(true))))
    case Tick => s.(loop := Ready(Settle(false)))
    case Shutdown => s.(loop := Ready(Teardown(Halt)))
  }

  function Spawn(s: Net, r: Request, endpoint: EndpointId): Net {
    var t := s.nextTask;
    var m := Entry(s, r.peer);
    var task := if r.ForShare? then Connect(r.peer, r.plan, endpoint, false, false, false)
                else LinkRun(r.peer, endpoint, false);
    Put(s, r.peer, if r.ForShare? then m.(connects := m.connects + {t}) else m.(links := m.links + {t}))
      .(tasks := s.tasks[t := task], nextTask := t + 1, loop := Ready(Then(Finish(true))))
  }

  function Bind(s: Net, r: Request, a: Answers): Net {
    if a.binds then
      var e := s.nextEndpoint;
      Spawn(s.(endpoint := Some(e), nextEndpoint := e + 1, flags := s.flags.(bound := true)), r, e)
    else s.(loop := Ready(if r.ForShare? then Then(Finish(true)) else Settle(true)))
  }

  // Every unfinished or finished handle any member lists.
  function Listed(s: Net): set<TaskId> {
    set p, t | p in s.members && t in s.members[p].connects + s.members[p].links :: t
  }

  function Drained(s: Net): Net {
    s.(members := map p | p in s.members :: s.members[p].(connects := {}, links := {}))
  }

  function LiveSessions(s: Net): set<SessionId> {
    set p | p in s.members && s.members[p].session.Some? :: s.members[p].session.value.id
  }

  // The thread is over: what still runs on it is dropped, and a session dropped this way reads as
  // ended to its worker.
  function Halted(s: Net): Net {
    s.(loop := Stopped, queue := [], tasks := map[], hubs := map[], members := map[], endpoint := None,
       hub := None, hubRuns := 0, flags := Flags(0, false, false, false),
       ends := s.ends + multiset(LiveSessions(s)))
  }

  ghost function Advanced(s: Net, todo: Todo, a: Answers): Net {
    match todo
    case AfterPlan(r) =>
      var m := Entry(s, r.peer);
      EndTasks(Put(s, r.peer, m.(links := {})), m.links, AfterLinks(r), a.pick)
    case AfterLinks(r) =>
      var s1 := Put(s, r.peer, Entry(s, r.peer).(enabled := true));
      if (a.claimed && !s.flags.native) || !a.buildable || a.abandoned
      then s1.(loop := Ready(Then(Finish(true))))
      else s1.(loop := Ready(Ensure(r)))
    case Ensure(r) =>
      if s.endpoint.None? then s.(loop := Ready(Then(BindFor(r))))
      else if a.reuse then Spawn(s, r, s.endpoint.value)
      else s.(loop := Ready(Teardown(BindFor(r))))
    case Settle(counted) =>
      if IdleNet(s) then s.(loop := Ready(Teardown(Finish(counted))))
      else if UnusedHub(s) then StopHub(s, Then(Finish(counted)))
      else s.(loop := Ready(Then(Finish(counted))))
    case Teardown(rest) => EndTasks(Drained(s), Listed(s), TearHub(rest), a.pick)
    case TearHub(rest) => StopHub(s, TearEndpoint(rest))
    case TearEndpoint(rest) =>
      if s.endpoint.Some? then s.(endpoint := None, loop := Retiring(rest))
      else s.(loop := Ready(TearFlag(rest)))
    case TearFlag(rest) => s.(flags := s.flags.(bound := false), loop := Ready(Then(rest)))
    case Then(Finish(counted)) =>
      s.(flags := s.flags.(inFlight := s.flags.inFlight - if counted then 1 else 0), loop := Receiving)
    case Then(Halt) => Halted(s)
    case Then(BindFor(r)) => Bind(s, r, a)
  }

  // What the loop awaits is there.
  predicate Awaited(s: Net) {
    match s.loop
    case Ending(t, _, _) => t !in s.tasks
    case Stopping(h, _) => h in s.hubs ==> s.hubs[h].phase.Returned? && !s.hubs[h].pumping
    case Retiring(_) => true
    case _ => false
  }

  ghost function Resumed(s: Net, a: Answers): Net
    requires Awaited(s)
  {
    match s.loop
    case Ending(_, later, todo) => EndTasks(s, later, todo, a.pick)
    case Stopping(_, todo) => s.(loop := Ready(todo))
    case Retiring(rest) => s.(loop := Ready(TearFlag(rest)))
  }

  // ----- connects

  // A connect's last words: its task is over and the loop is told to look.
  function Over(s: Net, t: TaskId): Net {
    Ticked(s.(tasks := s.tasks - {t}))
  }

  datatype Joinable = Join(hub: HubId) | StartHub | Wait | Refused

  function JoinableHub(s: Net, plan: Plan, a: Answers): Joinable {
    match s.hub
    case Some(r) =>
      if r.agreement != plan.agreement then Refused
      else if r.id in s.hubs && s.hubs[r.id].phase.Open? then Join(r.id)
      else Wait
    case None =>
      if s.hubRuns > 0 then Wait
      else if a.claimed && !s.flags.native then Refused
      else if a.buildable && a.starts then StartHub
      else Refused
  }

  function HubStarted(s: Net, plan: Plan): Net {
    var h := s.nextHub;
    s.(hub := Some(RunningHub(h, plan.agreement)), hubs := s.hubs[h := HubState(Open, true, map[])],
       nextHub := h + 1, hubRuns := s.hubRuns + 1, nativeStarted := false,
       flags := s.flags.(hub := true))
  }

  // Hub `h` takes the session of `p`; a session it replaces is ended here and owed by its hub.
  function Joined(s: Net, p: Peer, h: HubId, under: Agreement): Net
    requires h in s.hubs
  {
    var id := s.nextSession;
    var m := Entry(s, p);
    var hub := s.hubs[h];
    var replaced := m.session;
    Put(s, p, m.(session := Some(Session(h, id, under)),
                 owed := if replaced.Some? then m.owed + [Owed(replaced.value.hub, replaced.value.id)]
                         else m.owed))
      .(hubs := s.hubs[h := hub.(pending := hub.pending[p := Pending(s, h, p) + [id]])],
        nextSession := id + 1,
        flags := s.flags.(native := true),
        ends := if replaced.Some? then s.ends + multiset{replaced.value.id} else s.ends)
  }

  function Admitted(s: Net, t: TaskId, a: Answers): Net
    requires t in s.tasks && s.tasks[t].Connect?
  {
    var task := s.tasks[t];
    if a.revoked || s.plan.None? || s.plan.value.epoch != task.plan.epoch || !a.fits then Over(s, t)
    else
      match JoinableHub(s, task.plan, a)
      case Refused => Over(s, t)
      case Wait => s.(tasks := s.tasks[t := task.(waiting := true, notified := false)])
      case Join(h) =>
        if h in s.hubs && s.hubs[h].phase.Open? then Over(Joined(s, task.peer, h, task.plan.agreement), t)
        else Over(s, t)
      case StartHub =>
        Over(Joined(HubStarted(s, task.plan), task.peer, s.nextHub, task.plan.agreement), t)
  }

  // ----- hub runs and their reports

  function RunOver(s: Net, h: HubId): Net
    requires h in s.hubs
  {
    var s1 := s.(hubs := s.hubs[h := s.hubs[h].(phase := Returned)], hubRuns := s.hubRuns - 1);
    var s2 := if IsCurrent(s1, h) then s1.(hub := None) else s1;
    var s3 := if s2.hub.None? then
                s2.(nativeStarted := false, flags := s2.flags.(hub := false, native := false))
              else s2;
    Ticked(s3.(tasks := map t | t in s3.tasks :: Notified(s3.tasks[t])))
  }

  function Notified(t: Task): Task {
    if t.Connect? && t.waiting then t.(notified := true) else t
  }

  function SessionStarted(s: Net, h: HubId, p: Peer): Net {
    if IsCurrent(s, h) then s.(nativeStarted := true) else s
  }

  // The pump reads the end of computer `p`'s session number `index` among those unreported.
  function ReportRead(s: Net, h: HubId, p: Peer, index: nat): Net
    requires h in s.hubs && index < |Pending(s, h, p)|
  {
    var hub := s.hubs[h];
    var left := Pending(s, h, p);
    s.(hubs := s.hubs[h := hub.(pending := hub.pending[p := left[..index] + left[index + 1..]])],
       inOrder := s.inOrder && index == 0)
  }

  function OwedTaken(s: Net, h: HubId, p: Peer): Net {
    Put(s, p, Entry(s, p).(owed := TakeFirst(Entry(s, p).owed, h)))
  }

  function SessionEnded(s: Net, h: HubId, p: Peer): Net {
    if InSession(s, p, h) then
      Put(s, p, Entry(s, p).(session := None)).(ends := s.ends + multiset{Entry(s, p).session.value.id})
    else s
  }

  // With its last session over, native input is announced on only if it had started: then an idle report follows.
  function NativeAfterEnd(s: Net, h: HubId): Net {
    if IsCurrent(s, h) && !SessionsOf(s, h) then s.(flags := s.flags.(native := s.nativeStarted)) else s
  }

  // The end report settles one owed for a replaced session, else it ends the session there is.
  function Reported(s: Net, h: HubId, p: Peer, index: nat): Net
    requires h in s.hubs && index < |Pending(s, h, p)|
  {
    var s1 := ReportRead(s, h, p, index);
    if OwedTo(Entry(s, p).owed, h) != [] then OwedTaken(s1, h, p)
    else Ticked(NativeAfterEnd(SessionEnded(s1, h, p), h))
  }

  function IdleReported(s: Net, h: HubId): Net {
    if IsCurrent(s, h) then
      s.(nativeStarted := false, flags := s.flags.(native := SessionsOf(s, h)))
    else s
  }

  function Closing(m: Member, h: HubId): Member {
    m.(session := if m.session.Some? && m.session.value.hub == h then None else m.session,
       owed := WithoutHub(m.owed, h))
  }

  function SessionIdsOf(s: Net, h: HubId): set<SessionId> {
    set p | p in s.members && InSession(s, p, h) :: s.members[p].session.value.id
  }

  function StreamEnded(s: Net, h: HubId): Net
    requires h in s.hubs
  {
    Ticked(s.(hubs := s.hubs[h := s.hubs[h].(pumping := false)],
              members := map p | p in s.members :: Closing(s.members[p], h),
              ends := s.ends + multiset(SessionIdsOf(s, h))))
  }

  // ----- steps

  // Nothing else on the thread moves while a handler runs, nor after the thread stopped.
  predicate Yielding(s: Net) {
    !s.loop.Ready? && !s.loop.Stopped?
  }

  predicate Enabled(s: Net, step: Step) {
    match step
    case Send(c) => !s.loop.Stopped? && Counted(c)
    case Receive(_) => s.loop.Receiving? && s.queue != []
    case Advance(_) => s.loop.Ready?
    case Resume(_) => Awaited(s)
    case Dropped(t) => Yielding(s) && t in s.tasks && s.tasks[t].aborted
    case ConnectFails(t) =>
      Yielding(s) && t in s.tasks && s.tasks[t].Connect? && !s.tasks[t].aborted && !s.tasks[t].waiting
    case Admit(t, _) =>
      Yielding(s) && t in s.tasks && s.tasks[t].Connect? && !s.tasks[t].aborted
      && (s.tasks[t].waiting ==> s.tasks[t].notified)
    case LinkEnds(t) => Yielding(s) && t in s.tasks && s.tasks[t].LinkRun? && !s.tasks[t].aborted
    case HubCloses(h) => Yielding(s) && h in s.hubs && s.hubs[h].phase.Open?
    case RunReturns(h) => Yielding(s) && h in s.hubs && !s.hubs[h].phase.Returned?
    case PeerStarted(h, _) => Yielding(s) && h in s.hubs && s.hubs[h].pumping
    case PeerEnded(h, p, i) => Yielding(s) && h in s.hubs && s.hubs[h].pumping && i < |Pending(s, h, p)|
    case NativeIdle(h) => Yielding(s) && h in s.hubs && s.hubs[h].pumping
    case StreamEnds(h) => Yielding(s) && h in s.hubs && s.hubs[h].pumping && s.hubs[h].phase.Returned?
  }

  ghost function Apply(s: Net, step: Step): Net
    requires Enabled(s, step)
  {
    match step
    case Send(c) => s.(queue := s.queue + [c], flags := s.flags.(inFlight := s.flags.inFlight + 1))
    case Receive(a) => Dispatch(s.(queue := s.queue[1..]), s.queue[0], a)
    case Advance(a) => Advanced(s, s.loop.todo, a)
    case Resume(a) => Resumed(s, a)
    case Dropped(t) => s.(tasks := s.tasks - {t})
    case ConnectFails(t) => Over(s, t)
    case Admit(t, a) => Admitted(s, t, a)
    case LinkEnds(t) => Over(s, t)
    case HubCloses(h) => s.(hubs := s.hubs[h := s.hubs[h].(phase := Closed)])
    case RunReturns(h) => RunOver(s, h)
    case PeerStarted(h, p) => SessionStarted(s, h, p)
    case PeerEnded(h, p, i) => Reported(s, h, p, i)
    case NativeIdle(h) => IdleReported(s, h)
    case StreamEnds(h) => StreamEnded(s, h)
  }

  // ----- runs

  ghost predicate IsRun(states: seq<Net>, steps: seq<Step>) {
    && |states| == |steps| + 1
    && states[0] == START
    && forall i | 0 <= i < |steps| :: Enabled(states[i], steps[i]) && states[i + 1] == Apply(states[i], steps[i])
  }
}
