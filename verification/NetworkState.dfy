/** What the network thread keeps, and the updates its handlers and tasks make to it in place. */
module NetworkState {
  import opened Prelude
  import Spec = SharingNet
  import opened SharingNet

  // ----- owed reports, found and taken out of the list

  lemma {:induction false} TakeAt(owed: seq<Owed>, h: HubId, k: nat)
    requires k < |owed| && owed[k].hub == h && forall j | 0 <= j < k :: owed[j].hub != h
    ensures TakeFirst(owed, h) == owed[..k] + owed[k + 1..]
    ensures OwedTo(owed, h) != []
  {
    if k > 0 {
      TakeAt(owed[1..], h, k - 1);
      assert owed[..k] + owed[k + 1..] == [owed[0]] + (owed[1..][..k - 1] + owed[1..][k..]);
    } else {
      assert owed[..0] + owed[1..] == owed[1..];
    }
  }

  lemma {:induction false} NoneOwed(owed: seq<Owed>, h: HubId)
    requires forall j | 0 <= j < |owed| :: owed[j].hub != h
    ensures OwedTo(owed, h) == [] && WithoutHub(owed, h) == owed
  {
    if owed != [] {
      NoneOwed(owed[1..], h);
      assert owed == [owed[0]] + owed[1..];
    }
  }

  method FindOwed(owed: seq<Owed>, h: HubId) returns (at: Option<nat>)
    ensures at.Some? <==> OwedTo(owed, h) != []
    ensures at.Some? ==> at.value < |owed| && TakeFirst(owed, h) == owed[..at.value] + owed[at.value + 1..]
  {
    var k := 0;
    while k < |owed|
      invariant 0 <= k <= |owed|
      invariant forall j | 0 <= j < k :: owed[j].hub != h
    {
      if owed[k].hub == h {
        TakeAt(owed, h, k);
        return Some(k);
      }
      k := k + 1;
    }
    NoneOwed(owed, h);
    return None;
  }

  lemma {:induction false} WithoutHubNext(owed: seq<Owed>, last: Owed, h: HubId)
    ensures WithoutHub(owed + [last], h) == WithoutHub(owed, h) + if last.hub == h then [] else [last]
  {
    var end: seq<Owed> := if last.hub == h then [] else [last];
    if owed == [] {
      assert owed + [last] == [last] && [last][1..] == [];
      assert WithoutHub([last], h) == end + WithoutHub([], h) == end;
    } else {
      var first: seq<Owed> := if owed[0].hub == h then [] else [owed[0]];
      var rest := WithoutHub(owed[1..], h);
      assert (owed + [last])[1..] == owed[1..] + [last];
      WithoutHubNext(owed[1..], last, h);
      assert WithoutHub(owed + [last], h) == first + (rest + end);
      assert first + (rest + end) == first + rest + end;
    }
  }

  method RetainOthers(owed: seq<Owed>, h: HubId) returns (kept: seq<Owed>)
    ensures kept == WithoutHub(owed, h)
  {
    kept := [];
    var k := 0;
    while k < |owed|
      invariant 0 <= k <= |owed|
      invariant kept == WithoutHub(owed[..k], h)
    {
      assert owed[..k + 1] == owed[..k] + [owed[k]];
      WithoutHubNext(owed[..k], owed[k], h);
      if owed[k].hub != h { kept := kept + [owed[k]]; }
      k := k + 1;
    }
    assert owed[..k] == owed;
  }

  // What is owed once a member's session is replaced.
  function Replaced(m: Member): seq<Owed> {
    if m.session.Some? then m.owed + [Owed(m.session.value.hub, m.session.value.id)] else m.owed
  }

  // A member a hub's stream leaves, and the session that ends with it.
  method CloseMember(m: Member, h: HubId) returns (closed: Member, ended: multiset<SessionId>)
    ensures closed == Closing(m, h)
    ensures ended == if m.session.Some? && m.session.value.hub == h then multiset{m.session.value.id} else multiset{}
  {
    var kept := RetainOthers(m.owed, h);
    closed, ended := m.(owed := kept), multiset{};
    if m.session.Some? && m.session.value.hub == h {
      ended := multiset{m.session.value.id};
      closed := closed.(session := None);
    }
  }

  // Every connect that waits for a hub to end is woken.
  method NotifyWaiting(tasks: map<TaskId, Task>) returns (woken: map<TaskId, Task>)
    ensures woken == map t | t in tasks :: Notified(tasks[t])
  {
    hide Notified;
    woken := tasks;
    var left := tasks.Keys;
    while left != {}
      invariant left <= woken.Keys == tasks.Keys
      invariant forall t | t in tasks :: woken[t] == if t in left then tasks[t] else Notified(tasks[t])
      decreases |left|
    {
      var t :| t in left;
      woken := woken[t := Notified(woken[t])];
      left := left - {t};
    }
  }

  // A hub's report stream is over: every session of it ends, and nothing is owed by it any more.
  method CloseAll(members: map<Peer, Member>, h: HubId) returns (closed: map<Peer, Member>, ended: multiset<SessionId>)
    requires Distinct(members)
    ensures closed == map p | p in members :: Closing(members[p], h)
    ensures ended == multiset(SessionIds(members, h, members.Keys))
  {
    hide Closing;
    hide SessionIds;
    hide Distinct;
    NoSessionIds(members, h);
    closed, ended := members, multiset{};
    var left := members.Keys;
    while left != {}
      invariant left <= closed.Keys == members.Keys
      invariant forall p | p in members :: closed[p] == if p in left then members[p] else Closing(members[p], h)
      invariant ended == multiset(SessionIds(members, h, members.Keys - left))
      decreases |left|
    {
      var p :| p in left;
      SessionIdsGrow(members, h, members.Keys - left, p);
      assert members.Keys - (left - {p}) == members.Keys - left + {p};
      var member, session := CloseMember(closed[p], h);
      closed, ended := closed[p := member], ended + session;
      left := left - {p};
    }
    assert members.Keys - {} == members.Keys;
  }

  // Every handle is taken from the members, to be ended one by one.
  method TakeHandles(members: map<Peer, Member>) returns (handles: set<TaskId>, drained: map<Peer, Member>)
    ensures drained == map p | p in members :: members[p].(connects := {}, links := {})
    ensures handles == set p, t | p in members && t in members[p].connects + members[p].links :: t
  {
    handles, drained := {}, members;
    var left := members.Keys;
    while left != {}
      invariant left <= drained.Keys == members.Keys
      invariant forall p | p in members :: drained[p] == if p in left then members[p] else members[p].(connects := {}, links := {})
      invariant forall t :: t in handles <==> exists p | p in members && p !in left :: t in members[p].connects + members[p].links
      decreases |left|
    {
      var p :| p in left;
      handles := handles + drained[p].connects + drained[p].links;
      drained := drained[p := drained[p].(connects := {}, links := {})];
      left := left - {p};
    }
  }

  class State {
    var plan: Option<Plan>
    var endpoint: Option<EndpointId>
    var hub: Option<RunningHub>
    var hubRuns: int
    var nativeStarted: bool
    var members: map<Peer, Member>
    var flags: Flags
    var queue: seq<Command>
    var loop: Loop
    var tasks: map<TaskId, Task>
    var hubs: map<HubId, HubState>
    var nextTask: TaskId
    var nextHub: HubId
    var nextSession: SessionId
    var nextEndpoint: EndpointId
    var ends: multiset<SessionId>
    var inOrder: bool

    function Value(): Net
      reads this
    {
      Net(plan, endpoint, hub, hubRuns, nativeStarted, members, flags, queue, loop, tasks, hubs,
          nextTask, nextHub, nextSession, nextEndpoint, ends, inOrder)
    }

    constructor ()
      ensures Value() == Spec.START
    {
      plan, endpoint, hub, hubRuns, nativeStarted := None, None, None, 0, false;
      members, flags, queue, loop, tasks, hubs := map[], Flags(0, false, false, false), [], Receiving, map[], map[];
      nextTask, nextHub, nextSession, nextEndpoint, ends, inOrder := 0, 0, 0, 0, multiset{}, true;
    }

    // ----- plans and hubs

    method StopHub(todo: Todo)
      modifies this
      ensures Value() == Spec.StopHub(old(Value()), todo)
    {
      if hub.None? {
        loop := Ready(todo);
      } else {
        loop := Stopping(hub.value.id, todo);
        hub := None;
      }
    }

    method AdoptPlan(next: Plan, todo: Todo)
      modifies this
      ensures Value() == Spec.AdoptPlan(old(Value()), next, todo)
    {
      if plan.Some? && plan.value.epoch >= next.epoch {
        Go(todo);
        return;
      }
      var stale := hub.Some? && hub.value.agreement != next.agreement;
      plan := Some(next);
      if stale { StopHub(todo); } else { Go(todo); }
    }

    method StartHub(under: Plan)
      modifies this
      ensures Value() == HubStarted(old(Value()), under)
    {
      var h := RunHub();
      hide Value;
      Announce(RunningHub(h, under.agreement));
    }

    method RunHub() returns (h: HubId)
      modifies `hubs, `nextHub, `hubRuns
      ensures var s := old(Value());
              h == s.nextHub && Value() == s.(hubs := s.hubs[h := HubState(Open, true, map[])], nextHub := h + 1, hubRuns := s.hubRuns + 1)
    {
      h := nextHub;
      hubs := hubs[h := HubState(Open, true, map[])];
      nextHub := h + 1;
      hubRuns := hubRuns + 1;
    }

    method Announce(running: RunningHub)
      modifies `hub, `nativeStarted, `flags
      ensures Value() == old(Value()).(hub := Some(running), nativeStarted := false, flags := old(Value()).flags.(hub := true))
    {
      hub := Some(running);
      nativeStarted := false;
      flags := flags.(hub := true);
    }

    // ----- sessions

    method Join(p: Peer, h: HubId, under: Agreement)
      requires h in hubs
      modifies this
      ensures Value() == Joined(old(Value()), p, h, under)
    {
      hide Value;
      Take(p, h);
      Seat(p, h, under);
    }

    // The hub takes one more session of a computer.
    method Take(p: Peer, h: HubId)
      requires h in hubs
      modifies `hubs
      ensures var s := old(Value());
              Value() == s.(hubs := s.hubs[h := s.hubs[h].(pending := s.hubs[h].pending[p := Pending(s, h, p) + [s.nextSession]])])
    {
      var state := hubs[h];
      var taken := if p in state.pending then state.pending[p] else [];
      hubs := hubs[h := state.(pending := state.pending[p := taken + [nextSession]])];
    }

    // The computer is in a session of the hub; one it was in before ends here.
    method Seat(p: Peer, h: HubId, under: Agreement)
      modifies `members, `ends, `nextSession, `flags
      ensures var s := old(Value());
              var m := Entry(s, p);
              Value() == Put(s, p, m.(session := Some(Session(h, s.nextSession, under)), owed := Replaced(m)))
                           .(nextSession := s.nextSession + 1, flags := s.flags.(native := true),
                             ends := if m.session.Some? then s.ends + multiset{m.session.value.id} else s.ends)
    {
      var m := if p in members then members[p] else BLANK;
      if m.session.Some? { ends := ends + multiset{m.session.value.id}; }
      members := members[p := m.(session := Some(Session(h, nextSession, under)), owed := Replaced(m))];
      nextSession := nextSession + 1;
      flags := flags.(native := true);
    }

    method Tick()
      modifies `queue
      ensures Value() == Ticked(old(Value()))
    {
      queue := queue + [Command.Tick];
    }

    method FinishTask(t: TaskId)
      modifies this
      ensures Value() == Over(old(Value()), t)
    {
      tasks := tasks - {t};
      Tick();
    }

    // The hub a session under this plan may join: the one that runs, once it takes sessions, or a new one
    // when no run is left.
    method FindHub(under: Plan, a: Answers) returns (joinable: Joinable)
      ensures joinable == JoinableHub(Value(), under, a)
    {
      if hub.Some? {
        if hub.value.agreement != under.agreement { return Refused; }
        var open := hub.value.id in hubs && hubs[hub.value.id].phase.Open?;
        return if open then Joinable.Join(hub.value.id) else Wait;
      }
      if hubRuns > 0 { return Wait; }
      if a.claimed && !flags.native { return Refused; }
      return if a.buildable && a.starts then Joinable.StartHub else Refused;
    }

    method Admit(t: TaskId, a: Answers)
      requires t in tasks && tasks[t].Connect?
      modifies this
      ensures Value() == Admitted(old(Value()), t, a)
    {
      var task := tasks[t];
      if a.revoked || plan.None? || plan.value.epoch != task.plan.epoch || !a.fits {
        FinishTask(t);
        return;
      }
      var joinable := FindHub(task.plan, a);
      match joinable
      case Refused => FinishTask(t);
      case Wait => tasks := tasks[t := task.(waiting := true, notified := false)];
      case Join(h) =>
        if h in hubs && hubs[h].phase.Open? { Join(task.peer, h, task.plan.agreement); }
        FinishTask(t);
      case StartHub =>
        var h := nextHub;
        StartHub(task.plan);
        Join(task.peer, h, task.plan.agreement);
        FinishTask(t);
    }

    // A report settles the oldest one owed; `taken` tells whether one was.
    method TakeOwed(h: HubId, p: Peer) returns (taken: bool)
      modifies this
      ensures taken <==> OwedTo(Entry(old(Value()), p).owed, h) != []
      ensures Value() == if taken then OwedTaken(old(Value()), h, p) else old(Value())
    {
      var m := if p in members then members[p] else BLANK;
      var at := FindOwed(m.owed, h);
      if at.None? { return false; }
      members := members[p := m.(owed := m.owed[..at.value] + m.owed[at.value + 1..])];
      return true;
    }

    method AnySessionOf(h: HubId) returns (any: bool)
      ensures any <==> SessionsOf(Value(), h)
    {
      var left := members.Keys;
      while left != {}
        invariant left <= members.Keys
        invariant forall p | p in members && p !in left :: !InSession(Value(), p, h)
        decreases |left|
      {
        var p :| p in left;
        if members[p].session.Some? && members[p].session.value.hub == h {
          assert InSession(Value(), p, h);
          return true;
        }
        left := left - {p};
      }
      return false;
    }

    method EndSession(h: HubId, p: Peer)
      modifies this
      ensures Value() == NativeAfterEnd(SessionEnded(old(Value()), h, p), h)
    {
      if p in members && members[p].session.Some? && members[p].session.value.hub == h {
        ends := ends + multiset{members[p].session.value.id};
        members := members[p := members[p].(session := None)];
      }
      assert Value() == SessionEnded(old(Value()), h, p);
      if hub.Some? && hub.value.id == h {
        var any := AnySessionOf(h);
        if !any { flags := flags.(native := nativeStarted); }
      }
    }

    method PeerEnded(h: HubId, p: Peer, index: nat)
      requires h in hubs && index < |Pending(Value(), h, p)|
      modifies this
      ensures Value() == Reported(old(Value()), h, p, index)
    {
      var state := hubs[h];
      var left := state.pending[p];
      hubs := hubs[h := state.(pending := state.pending[p := left[..index] + left[index + 1..]])];
      inOrder := inOrder && index == 0;
      assert Value() == ReportRead(old(Value()), h, p, index);
      hide Value;
      var owed := TakeOwed(h, p);
      if !owed {
        EndSession(h, p);
        Tick();
      }
    }

    method NativeIdle(h: HubId)
      modifies this
      ensures Value() == IdleReported(old(Value()), h)
    {
      if hub.Some? && hub.value.id == h {
        nativeStarted := false;
        var any := AnySessionOf(h);
        flags := flags.(native := any);
      }
    }

    // ----- hub runs

    method RunReturns(h: HubId)
      requires h in hubs
      modifies this
      ensures Value() == RunOver(old(Value()), h)
    {
      hide Notified;
      hubs := hubs[h := hubs[h].(phase := Returned)];
      hubRuns := hubRuns - 1;
      hide Value;
      LetGoOf(h);
      Wake();
      Tick();
    }

    // With no hub left, no hub and no native input is announced.
    method LetGoOf(h: HubId)
      modifies `hub, `nativeStarted, `flags
      ensures var s := old(Value());
              Value() == if s.hub.None? || IsCurrent(s, h)
                         then s.(hub := None, nativeStarted := false, flags := s.flags.(hub := false, native := false)) else s
    {
      if hub.Some? && hub.value.id == h { hub := None; }
      if hub.None? {
        nativeStarted := false;
        flags := flags.(hub := false, native := false);
      }
    }

    method Wake()
      modifies `tasks
      ensures Value() == old(Value()).(tasks := map t | t in old(Value()).tasks :: Notified(old(Value()).tasks[t]))
    {
      tasks := NotifyWaiting(tasks);
    }

    method StreamEnds(h: HubId)
      requires h in hubs && Distinct(members)
      modifies this
      ensures Value() == StreamEnded(old(Value()), h)
    {
      hubs := hubs[h := hubs[h].(pumping := false)];
      CloseSessions(h);
      Tick();
    }

    method Started(h: HubId, p: Peer)
      modifies `nativeStarted
      ensures Value() == SessionStarted(old(Value()), h, p)
    {
      if hub.Some? && hub.value.id == h { nativeStarted := true; }
    }

    method CloseSessions(h: HubId)
      requires Distinct(members)
      modifies `members, `ends
      ensures var s := old(Value());
              Value() == s.(members := map p | p in s.members :: Closing(s.members[p], h), ends := s.ends + multiset(SessionIdsOf(s, h)))
    {
      hide Closing;
      hide SessionIds;
      hide Distinct;
      AllSessionIds(Value(), h);
      hide SessionIdsOf;
      var closed, ended := CloseAll(members, h);
      members := closed;
      ends := ends + ended;
    }

    // ----- endpoints and tasks

    method SpawnTask(r: Request, e: EndpointId)
      modifies this
      ensures Value() == Spawn(old(Value()), r, e)
    {
      hide Value;
      var t := AddTask(match r case ForShare(under, peer) => Connect(peer, under, e, false, false, false) case ForLink(peer) => LinkRun(peer, e, false));
      List(r, t);
      Go(Then(Finish(true)));
    }

    method AddTask(task: Task) returns (t: TaskId)
      modifies `tasks, `nextTask
      ensures var s := old(Value()); t == s.nextTask && Value() == s.(tasks := s.tasks[t := task], nextTask := t + 1)
    {
      t := nextTask;
      tasks := tasks[t := task];
      nextTask := t + 1;
    }

    // The member keeps a handle of it.
    method List(r: Request, t: TaskId)
      modifies `members
      ensures var s := old(Value());
              var m := Entry(s, r.peer);
              Value() == Put(s, r.peer, if r.ForShare? then m.(connects := m.connects + {t}) else m.(links := m.links + {t}))
    {
      var m := if r.peer in members then members[r.peer] else BLANK;
      m := if r.ForShare? then m.(connects := m.connects + {t}) else m.(links := m.links + {t});
      members := members[r.peer := m];
    }

    method Go(todo: Todo)
      modifies `loop
      ensures Value() == old(Value()).(loop := Ready(todo))
    {
      loop := Ready(todo);
    }

    method BindEndpoint(r: Request, a: Answers)
      modifies this
      ensures Value() == Bind(old(Value()), r, a)
    {
      hide Spawn;
      if a.binds {
        var e := nextEndpoint;
        endpoint := Some(e);
        nextEndpoint := e + 1;
        flags := flags.(bound := true);
        SpawnTask(r, e);
      } else {
        Go(if r.ForShare? then Then(Finish(true)) else Settle(true));
      }
    }

    method IsIdle() returns (idle: bool)
      ensures idle <==> IdleNet(Value())
    {
      var left := members.Keys;
      while left != {}
        invariant left <= members.Keys
        invariant forall p | p in members && p !in left :: Resting(Value(), p)
        decreases |left|
      {
        var p :| p in left;
        var m := members[p];
        if m.enabled || m.session.Some? || !(m.connects !! tasks.Keys) || !(m.links !! tasks.Keys) {
          assert !Resting(Value(), p);
          return false;
        }
        left := left - {p};
      }
      return true;
    }

    // Nothing wanted: everything is torn down. A hub nobody is in session with: it stops.
    method SettleNow(counted: bool)
      modifies this
      ensures var s := old(Value());
              Value() == if IdleNet(s) then s.(loop := Ready(Teardown(Finish(counted))))
                         else if UnusedHub(s) then Spec.StopHub(s, Then(Finish(counted)))
                         else s.(loop := Ready(Then(Finish(counted))))
    {
      var idle := IsIdle();
      if idle {
        Go(Teardown(Finish(counted)));
        return;
      }
      var used := false;
      if hub.Some? { used := AnySessionOf(hub.value.id); }
      if hub.Some? && !used { StopHub(Then(Finish(counted))); } else { Go(Then(Finish(counted))); }
    }

    // The tasks are aborted and awaited one by one, in whatever order; `pick` is the first.
    method EndTasksNow(handles: set<TaskId>, todo: Todo) returns (pick: TaskId)
      modifies `tasks, `loop
      ensures Value() == EndTasks(old(Value()), handles, todo, pick)
    {
      pick := 0;
      if handles == {} {
        loop := Ready(todo);
      } else {
        pick :| pick in handles;
        if pick in tasks { tasks := tasks[pick := tasks[pick].(aborted := true)]; }
        loop := Ending(pick, handles - {pick}, todo);
      }
    }

    // ----- commands

    method SetMember(p: Peer, m: Member)
      modifies `members
      ensures Value() == Put(old(Value()), p, m)
    {
      members := members[p := m];
    }

    method GetMember(p: Peer) returns (m: Member)
      ensures m == Entry(Value(), p)
    {
      m := if p in members then members[p] else BLANK;
    }

    method Handle(c: Command, a: Answers) returns (pick: TaskId)
      modifies this
      ensures Value() == Dispatch(old(Value()), c, a.(pick := pick))
    {
      hide Value;
      hide Spec.AdoptPlan;
      hide EndTasks;
      pick := 0;
      match c
      case Group(next) => AdoptPlan(next, Then(Finish(true)));
      case Share(next, peer) =>
        var older := IsOlder(next);
        if a.abandoned || older { Go(Then(Finish(true))); } else { AdoptPlan(next, AfterPlan(ForShare(next, peer))); }
      case Release(peer) => pick := ReleaseNow(peer);
      case Link(peer) =>
        var m := GetMember(peer);
        SetMember(peer, m);
        Go(Ensure(ForLink(peer)));
      case Forget(peer) =>
        var m := GetMember(peer);
        SetMember(peer, m);
        Go(Then(Finish(true)));
      case Tick => Go(Settle(false));
      case Shutdown => Go(Teardown(Halt));
    }

    method IsOlder(next: Plan) returns (older: bool)
      ensures older <==> Value().plan.Some? && Value().plan.value.epoch > next.epoch
    {
      older := plan.Some? && plan.value.epoch > next.epoch;
    }

    method ReleaseNow(peer: Peer) returns (pick: TaskId)
      modifies this
      ensures forall a: Answers :: Value() == Dispatch(old(Value()), Release(peer), a.(pick := pick))
    {
      pick := 0;
      if peer !in members {
        Go(Then(Finish(true)));
      } else {
        var m := members[peer];
        SetMember(peer, m.(enabled := false, connects := {}));
        hide Value;
        hide EndTasks;
        pick := EndTasksNow(m.connects, Settle(true));
      }
    }

    // ----- what a handler does next

    method Continue(todo: Todo, a: Answers) returns (pick: TaskId)
      modifies this
      ensures Value() == Advanced(old(Value()), todo, a.(pick := pick))
    {
      hide Value;
      hide EndTasks;
      hide Spec.StopHub;
      hide Bind;
      hide Spawn;
      hide IdleNet;
      hide UnusedHub;
      hide Halted;
      hide Drained;
      hide Listed;
      pick := 0;
      match todo
      case AfterPlan(q) =>
        var m := GetMember(q.peer);
        SetMember(q.peer, m.(links := {}));
        pick := EndTasksNow(m.links, AfterLinks(q));
      case AfterLinks(q) => Enable(q, a);
      case Ensure(q) => EnsureEndpoint(q, a);
      case Settle(counted) => SettleNow(counted);
      case Teardown(rest) =>
        var handles := Drain();
        pick := EndTasksNow(handles, TearHub(rest));
      case TearHub(rest) => StopHub(TearEndpoint(rest));
      case TearEndpoint(rest) => Retire(rest);
      case TearFlag(rest) => Unbind(rest);
      case Then(Finish(counted)) => Finished(counted);
      case Then(Halt) => StopThread();
      case Then(BindFor(q)) => BindEndpoint(q, a.(pick := pick));
    }

    method Enable(q: Request, a: Answers)
      modifies this
      ensures var s := old(Value());
              var enabled := Put(s, q.peer, Entry(s, q.peer).(enabled := true));
              var refused := (a.claimed && !s.flags.native) || !a.buildable || a.abandoned;
              Value() == enabled.(loop := Ready(if refused then Then(Finish(true)) else Ensure(q)))
    {
      hide Value;
      var m := GetMember(q.peer);
      var refused := Refuses(a);
      SetMember(q.peer, m.(enabled := true));
      if refused { Go(Then(Finish(true))); } else { Go(Ensure(q)); }
    }

    method Refuses(a: Answers) returns (refused: bool)
      ensures refused <==> (a.claimed && !Value().flags.native) || !a.buildable || a.abandoned
    {
      refused := (a.claimed && !flags.native) || !a.buildable || a.abandoned;
    }

    method EnsureEndpoint(q: Request, a: Answers)
      modifies this
      ensures forall pick :: Value() == Advanced(old(Value()), Ensure(q), a.(pick := pick))
    {
      hide Spawn;
      if endpoint.None? {
        Go(Then(BindFor(q)));
      } else if a.reuse {
        SpawnTask(q, endpoint.value);
      } else {
        Go(Teardown(BindFor(q)));
      }
    }

    method Retire(rest: Rest)
      modifies `endpoint, `loop
      ensures var s := old(Value());
              Value() == if s.endpoint.Some? then s.(endpoint := None, loop := Retiring(rest)) else s.(loop := Ready(TearFlag(rest)))
    {
      if endpoint.Some? {
        endpoint := None;
        loop := Retiring(rest);
      } else {
        loop := Ready(TearFlag(rest));
      }
    }

    method Unbind(rest: Rest)
      modifies `flags, `loop
      ensures var s := old(Value()); Value() == s.(flags := s.flags.(bound := false), loop := Ready(Then(rest)))
    {
      flags := flags.(bound := false);
      loop := Ready(Then(rest));
    }

    method Finished(counted: bool)
      modifies `flags, `loop
      ensures var s := old(Value());
              Value() == s.(flags := s.flags.(inFlight := s.flags.inFlight - if counted then 1 else 0), loop := Receiving)
    {
      if counted { flags := flags.(inFlight := flags.inFlight - 1); }
      loop := Receiving;
    }

    // Whoever is still in session when the thread ends reads its session as ended.
    method StopThread()
      modifies this
      ensures Value() == Halted(old(Value()))
    {
      hide Value;
      hide LiveSessions;
      EndLive();
      DropTasks();
      DropHub();
    }

    method EndLive()
      modifies `ends, `members
      ensures var s := old(Value()); Value() == s.(ends := s.ends + multiset(LiveSessions(s)), members := map[])
    {
      hide LiveSessions;
      var live := LiveIds();
      ends := ends + multiset(live);
      members := map[];
    }

    method DropTasks()
      modifies `loop, `queue, `tasks
      ensures Value() == old(Value()).(loop := Stopped, queue := [], tasks := map[])
    {
      loop := Stopped;
      queue := [];
      tasks := map[];
    }

    method DropHub()
      modifies `hubs, `endpoint, `hub, `hubRuns, `flags
      ensures Value() == old(Value()).(hubs := map[], endpoint := None, hub := None, hubRuns := 0, flags := Flags(0, false, false, false))
    {
      NoHub();
      hide Value;
      NoEndpoint();
    }

    method NoHub()
      modifies `hubs, `hub, `hubRuns
      ensures Value() == old(Value()).(hubs := map[], hub := None, hubRuns := 0)
    {
      hubs := map[];
      hub := None;
      hubRuns := 0;
    }

    method NoEndpoint()
      modifies `endpoint, `flags
      ensures Value() == old(Value()).(endpoint := None, flags := Flags(0, false, false, false))
    {
      endpoint := None;
      flags := Flags(0, false, false, false);
    }

    method LiveIds() returns (live: set<SessionId>)
      ensures live == LiveSessions(Value())
    {
      live := {};
      var left := members.Keys;
      while left != {}
        invariant left <= members.Keys
        invariant forall id :: id in live <==> exists p | p in members && p !in left :: members[p].session.Some? && members[p].session.value.id == id
        decreases |left|
      {
        var p :| p in left;
        if members[p].session.Some? { live := live + {members[p].session.value.id}; }
        left := left - {p};
      }
    }

    method Drain() returns (handles: set<TaskId>)
      modifies `members
      ensures handles == Listed(old(Value())) && Value() == Drained(old(Value()))
    {
      handles, members := TakeHandles(members);
    }
  }

  // ----- the sessions a hub ends

  function SessionIds(members: map<Peer, Member>, h: HubId, among: set<Peer>): set<SessionId>
    requires among <= members.Keys
  {
    set p | p in among && members[p].session.Some? && members[p].session.value.hub == h :: members[p].session.value.id
  }

  // No two computers are in one session.
  ghost predicate Distinct(members: map<Peer, Member>) {
    forall p, q | p in members && q in members && members[p].session.Some? && members[q].session.Some?
      && members[p].session.value.id == members[q].session.value.id :: p == q
  }

  lemma AllSessionIds(s: Net, h: HubId)
    ensures SessionIds(s.members, h, s.members.Keys) == SessionIdsOf(s, h)
  {
  }

  lemma NoSessionIds(members: map<Peer, Member>, h: HubId)
    ensures multiset(SessionIds(members, h, members.Keys - members.Keys)) == multiset{}
  {
  }

  lemma SessionIdsGrow(members: map<Peer, Member>, h: HubId, among: set<Peer>, p: Peer)
    requires among <= members.Keys && p in members && p !in among && Distinct(members)
    ensures multiset(SessionIds(members, h, among + {p})) == multiset(SessionIds(members, h, among))
         + if members[p].session.Some? && members[p].session.value.hub == h then multiset{members[p].session.value.id} else multiset{}
  {
    var m := members[p];
    if m.session.Some? && m.session.value.hub == h {
      assert SessionIds(members, h, among + {p}) == SessionIds(members, h, among) + {m.session.value.id};
      assert m.session.value.id !in SessionIds(members, h, among);
    } else {
      assert SessionIds(members, h, among + {p}) == SessionIds(members, h, among);
    }
  }

  lemma DistinctFromEnds(s: Net)
    requires forall p, q :: p != q && Entry(s, p).session.Some? && Entry(s, q).session.Some? ==>
               Entry(s, p).session.value.id != Entry(s, q).session.value.id
    ensures Distinct(s.members)
  {
    forall p, q | p in s.members && q in s.members && s.members[p].session.Some? && s.members[q].session.Some?
      && s.members[p].session.value.id == s.members[q].session.value.id
      ensures p == q
    {
      assert Entry(s, p) == s.members[p] && Entry(s, q) == s.members[q];
    }
  }
}
