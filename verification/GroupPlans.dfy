/**
Where the plans the network thread receives come from. The controller numbers the group's records: an
epoch goes up under one lock whenever the record in force changes, and every plan is made under that
lock. So the thread is never sent two records under one epoch, and its hub is always the current plan's.
*/
module GroupPlans {
  import opened Prelude
  import opened SharingNet
  import opened SharingNetSafety
  import opened SharingNetPlan

  // The epoch is a 64-bit counter that wraps.
  const EPOCHS: nat := 0x1_0000_0000_0000_0000

  // The record in force, if any, and its epoch.
  datatype Standing = Standing(agreement: Option<Agreement>, epoch: nat)

  function Moved(g: Standing, current: Option<Agreement>): Standing {
    if g.agreement == current then g else Standing(current, (g.epoch + 1) % EPOCHS)
  }

  // `held`: plans made and kept, by a worker that connects with one again and again or on their way to the
  // thread. `latest`: the newest noted for the thread. `changes` and `allotted` are history: how often
  // the record changed, and the record each epoch stood for.
  datatype World = World(
    net: Net,
    group: Standing,
    held: set<Plan>,
    latest: Option<Plan>,
    changes: nat,
    allotted: map<nat, Agreement>)

  const OUTSET := World(START, Standing(None, 0), {}, None, 0, map[])

  datatype Move =
    | Follow(current: Option<Agreement>)        // the saved record is read again
    | Make(agreement: Agreement)                // a worker starts sharing under a record
    | Note(plan: Plan)                          // a plan is noted as the newest, unless it is not
    | Tell(plan: Plan)                          // any plan made is sent, however long after it was noted
    | Deliver                                   // a thread that starts is told the newest plan
    | Ask(plan: Plan, peer: Peer)               // a worker asks for a session
    | Other(step: Step)                         // anything else the thread does or is sent

  predicate Plain(step: Step) {
    step.Send? ==> !step.command.Group? && !step.command.Share?
  }

  function Changed(w: World, current: Option<Agreement>): World {
    var g := Moved(w.group, current);
    if w.group.agreement == current then w
    else w.(group := g, changes := w.changes + 1,
            allotted := if current.Some? then w.allotted[g.epoch := current.value] else w.allotted)
  }

  predicate Newer(latest: Option<Plan>, plan: Plan) {
    latest.None? || latest.value.epoch < plan.epoch
  }

  function StepOf(w: World, move: Move): Option<Step> {
    match move
    case Follow(_) => None
    case Make(_) => None
    case Note(_) => None
    case Tell(plan) => Some(Send(Command.Group(plan)))
    case Deliver => if w.latest.Some? then Some(Send(Command.Group(w.latest.value))) else None
    case Ask(plan, peer) => Some(Send(Share(plan, peer)))
    case Other(step) => Some(step)
  }

  predicate Enabled(w: World, move: Move) {
    && (move.Note? || move.Tell? || move.Ask? ==> move.plan in w.held)
    && (move.Other? ==> Plain(move.step))
    && (StepOf(w, move).Some? ==> SharingNet.Enabled(w.net, StepOf(w, move).value))
  }

  ghost function Apply(w: World, move: Move): World
    requires Enabled(w, move)
  {
    var net := if StepOf(w, move).Some? then SharingNet.Apply(w.net, StepOf(w, move).value) else w.net;
    match move
    case Follow(current) =>
      var after := Changed(w, current);
      if current.None? || w.group.agreement == current then after
      else after.(held := w.held + {Plan(after.group.epoch, current.value)})
    case Make(agreement) =>
      var after := Changed(w, Some(agreement));
      after.(held := w.held + {Plan(after.group.epoch, agreement)})
    case Note(plan) => w.(latest := if Newer(w.latest, plan) then Some(plan) else w.latest)
    case _ => w.(net := net)
  }

  ghost predicate IsRun(worlds: seq<World>, moves: seq<Move>) {
    && |worlds| == |moves| + 1
    && worlds[0] == OUTSET
    && forall i | 0 <= i < |moves| :: Enabled(worlds[i], moves[i]) && worlds[i + 1] == Apply(worlds[i], moves[i])
  }

  // ----- one epoch, one record

  predicate Allotted(m: map<nat, Agreement>, plan: Plan) {
    plan.epoch in m && m[plan.epoch] == plan.agreement
  }

  ghost predicate Fair(w: World) {
    && w.group.epoch == w.changes < EPOCHS
    && (forall e | e in w.allotted :: e <= w.group.epoch)
    && (w.group.agreement.Some? ==> Allotted(w.allotted, Plan(w.group.epoch, w.group.agreement.value)))
    && (forall plan | plan in w.held :: Allotted(w.allotted, plan))
    && (w.latest.Some? ==> w.latest.value in w.held)
  }

  predicate Extends(m: map<nat, Agreement>, more: map<nat, Agreement>) {
    forall e | e in m :: e in more && more[e] == m[e]
  }

  lemma ChangedFair(w: World, current: Option<Agreement>)
    requires Fair(w) && Changed(w, current).changes < EPOCHS
    ensures Fair(Changed(w, current)) && Extends(w.allotted, Changed(w, current).allotted)
    ensures current.Some? ==> Allotted(Changed(w, current).allotted, Plan(Changed(w, current).group.epoch, current.value))
  {
  }

  lemma MoveFair(w: World, move: Move)
    requires Fair(w) && Enabled(w, move) && Apply(w, move).changes < EPOCHS
    ensures Fair(Apply(w, move)) && Extends(w.allotted, Apply(w, move).allotted)
  {
    hide SharingNet.Apply;
    hide SharingNet.Enabled;
    hide Changed;
    match move
    case Follow(current) => ChangedFair(w, current); ChangedKeeps(w, current);
    case Make(agreement) => ChangedFair(w, Some(agreement)); ChangedKeeps(w, Some(agreement));
    case _ =>
  }

  lemma ChangedKeeps(w: World, current: Option<Agreement>)
    ensures var r := Changed(w, current); r.held == w.held && r.latest == w.latest && r.net == w.net && r.changes >= w.changes
  {
  }

  lemma ChangesGrow(w: World, move: Move)
    requires Enabled(w, move)
    ensures Apply(w, move).changes >= w.changes
  {
    hide SharingNet.Apply;
    hide SharingNet.Enabled;
  }

  lemma {:induction false} AlwaysFair(worlds: seq<World>, moves: seq<Move>, i: nat)
    requires IsRun(worlds, moves) && i < |worlds| && worlds[i].changes < EPOCHS
    ensures Fair(worlds[i])
    decreases i
  {
    hide Fair;
    hide Apply;
    hide Enabled;
    if i == 0 {
      OutsetFair();
    } else {
      ChangesGrow(worlds[i - 1], moves[i - 1]);
      AlwaysFair(worlds, moves, i - 1);
      MoveFair(worlds[i - 1], moves[i - 1]);
    }
  }

  lemma OutsetFair()
    ensures Fair(OUTSET)
  {
  }

  lemma {:induction false} AllotmentGrows(worlds: seq<World>, moves: seq<Move>, i: nat, n: nat)
    requires IsRun(worlds, moves) && i <= n < |worlds| && worlds[n].changes < EPOCHS
    ensures Extends(worlds[i].allotted, worlds[n].allotted) && worlds[i].changes < EPOCHS
    decreases n
  {
    hide Apply;
    hide Enabled;
    if i < n {
      ChangesGrow(worlds[n - 1], moves[n - 1]);
      AllotmentGrows(worlds, moves, i, n - 1);
      AlwaysFair(worlds, moves, n - 1);
      MoveFair(worlds[n - 1], moves[n - 1]);
    }
  }

  // ----- the hub is the current plan's

  ghost function RecordOf(m: map<nat, Agreement>): nat -> Agreement {
    (e: nat) => if e in m then m[e] else 0
  }

  // What a move sends to the thread fits every later allotment.
  lemma SentFits(w: World, move: Move, m: map<nat, Agreement>)
    requires Fair(w) && Enabled(w, move) && Extends(w.allotted, m) && StepOf(w, move).Some? && StepOf(w, move).value.Send?
    ensures CommandFits(StepOf(w, move).value.command, RecordOf(m))
  {
    hide SharingNet.Enabled;
  }

  lemma NetMoves(w: World, move: Move)
    requires Enabled(w, move)
    ensures Apply(w, move).net == if StepOf(w, move).Some? then SharingNet.Apply(w.net, StepOf(w, move).value) else w.net
  {
    hide SharingNet.Apply;
    hide SharingNet.Enabled;
  }

  lemma {:induction false} PlansFit(worlds: seq<World>, moves: seq<Move>, i: nat, n: nat)
    requires IsRun(worlds, moves) && i <= n < |worlds| && worlds[n].changes < EPOCHS
    ensures PlanInv(worlds[i].net, RecordOf(worlds[n].allotted))
    decreases i
  {
    hide Apply;
    hide Enabled;
    hide PlanInv;
    hide RecordOf;
    if i == 0 {
      StartFits(RecordOf(worlds[n].allotted));
    } else {
      var w, move := worlds[i - 1], moves[i - 1];
      PlansFit(worlds, moves, i - 1, n);
      AllotmentGrows(worlds, moves, i - 1, n);
      AlwaysFair(worlds, moves, i - 1);
      NetMoves(w, move);
      PlansFitStep(w, move, worlds[n].allotted);
    }
  }

  lemma PlansFitStep(w: World, move: Move, m: map<nat, Agreement>)
    requires Fair(w) && Enabled(w, move) && Extends(w.allotted, m) && PlanInv(w.net, RecordOf(m))
    ensures StepOf(w, move).Some? ==> PlanInv(SharingNet.Apply(w.net, StepOf(w, move).value), RecordOf(m))
  {
    hide SharingNet.Apply;
    hide SharingNet.Enabled;
    hide PlanInv;
    hide RecordOf;
    hide CommandFits;
    if StepOf(w, move).Some? {
      if StepOf(w, move).value.Send? { SentFits(w, move, m); }
      PlanStep(w.net, StepOf(w, move).value, RecordOf(m));
    }
  }

  lemma StartFits(record: nat -> Agreement)
    ensures PlanInv(START, record)
  {
  }

  // Through the first 2^64 - 1 changes of the record, whatever the controller, its workers and the thread
  // do in whatever order: a hub that runs is the current plan's.
  lemma HubIsTheCurrentPlans(worlds: seq<World>, moves: seq<Move>, i: nat)
    requires IsRun(worlds, moves) && i < |worlds| && worlds[i].changes < EPOCHS
    ensures var s := worlds[i].net; s.hub.Some? ==> s.plan.Some? && s.hub.value.agreement == s.plan.value.agreement
  {
    PlansFit(worlds, moves, i, i);
  }

  // ----- what the thread itself relies on

  ghost predicate Agrees(s: Net) {
    s.hub.Some? ==> s.plan.Some? && s.hub.value.agreement == s.plan.value.agreement
  }

  // The connect passes the stale check, which compares epochs, and a hub starts for its plan.
  predicate StartsFor(s: Net, step: Step) {
    step.Admit? && step.task in s.tasks && s.tasks[step.task].Connect? &&
    var plan := s.tasks[step.task].plan;
    && !step.answers.revoked && s.plan.Some? && s.plan.value.epoch == plan.epoch && step.answers.fits
    && JoinableHub(s, plan, step.answers).StartHub?
  }

  predicate StartsAnother(s: Net, step: Step) {
    StartsFor(s, step) && s.tasks[step.task].plan.agreement != s.plan.value.agreement
  }

  lemma AdoptAgrees(s: Net, plan: Plan, todo: Todo)
    requires Agrees(s)
    ensures Agrees(AdoptPlan(s, plan, todo))
  {
    if s.plan.Some? && s.plan.value.epoch >= plan.epoch {
      assert AdoptPlan(s, plan, todo) == s.(loop := Ready(todo));
    } else if s.hub.Some? && s.hub.value.agreement != plan.agreement {
      assert AdoptPlan(s, plan, todo).hub.None?;
    } else {
      assert AdoptPlan(s, plan, todo) == s.(plan := Some(plan), loop := Ready(todo));
    }
  }

  lemma KeepsHub(s: Net, r: Net)
    requires Agrees(s) && r.plan == s.plan && (r.hub == s.hub || r.hub.None?)
    ensures Agrees(r)
  {
  }

  lemma DispatchAgrees(s: Net, c: Command, a: Answers)
    requires Agrees(s)
    ensures Agrees(Dispatch(s, c, a))
  {
    hide Agrees;
    hide AdoptPlan;
    hide EndTasks;
    match c
    case Group(plan) => AdoptAgrees(s, plan, Then(Finish(true)));
    case Share(plan, peer) =>
      if a.abandoned || (s.plan.Some? && s.plan.value.epoch > plan.epoch) {
        KeepsHub(s, s.(loop := Ready(Then(Finish(true)))));
      } else {
        AdoptAgrees(s, plan, AfterPlan(ForShare(plan, peer)));
      }
    case Release(peer) =>
      if peer in s.members {
        var m := s.members[peer];
        EndTasksShape(Put(s, peer, m.(enabled := false, connects := {})), m.connects, Settle(true), a.pick);
      }
      KeepsHub(s, Dispatch(s, c, a));
    case _ => KeepsHub(s, Dispatch(s, c, a));
  }

  lemma AdvancedAgrees(s: Net, todo: Todo, a: Answers)
    requires Agrees(s) && s.loop == Ready(todo)
    ensures Agrees(Advanced(s, todo, a))
  {
    if todo == Then(Halt) {
      assert Advanced(s, todo, a).hub.None?;
    } else {
      hide Agrees;
      hide Advanced;
      AdvancedSame(s, todo, a);
      PlanKept(s, todo, a);
      KeepsHub(s, Advanced(s, todo, a));
    }
  }

  lemma AdmittedAgrees(s: Net, t: TaskId, a: Answers)
    requires Agrees(s) && t in s.tasks && s.tasks[t].Connect?
    ensures !Agrees(Admitted(s, t, a)) <==> StartsAnother(s, Admit(t, a))
  {
    hide Joined;
    hide JoinableHub;
    var task := s.tasks[t];
    if !(a.revoked || s.plan.None? || s.plan.value.epoch != task.plan.epoch || !a.fits) {
      match JoinableHub(s, task.plan, a)
      case Join(h) => if h in s.hubs { JoinedFlight(s, task.peer, h, task.plan.agreement); JoinedHub(s, task.peer, h, task.plan.agreement); }
      case StartHub =>
        var started := HubStarted(s, task.plan);
        JoinedFlight(started, task.peer, s.nextHub, task.plan.agreement);
        JoinedHub(started, task.peer, s.nextHub, task.plan.agreement);
      case _ =>
    }
  }

  lemma JoinedHub(s: Net, p: Peer, h: HubId, under: Agreement)
    requires h in s.hubs
    ensures Joined(s, p, h, under).hub == s.hub
  {
  }

  // A step of the thread parts the hub from the current plan if and only if it starts a hub for a connect
  // whose plan has the current plan's epoch and another record.
  lemma HubPartsExactly(s: Net, step: Step)
    requires Agrees(s) && SharingNet.Enabled(s, step)
    ensures !Agrees(SharingNet.Apply(s, step)) <==> StartsAnother(s, step)
  {
    hide Agrees;
    hide Dispatch;
    hide Advanced;
    hide Admitted;
    hide RunOver;
    hide Reported;
    hide JoinableHub;
    var r := SharingNet.Apply(s, step);
    match step
    case Receive(a) =>
      var popped := s.(queue := s.queue[1..]);
      KeepsHub(s, popped);
      DispatchAgrees(popped, s.queue[0], a);
    case Advance(a) => AdvancedAgrees(s, s.loop.todo, a);
    case Resume(a) =>
      if s.loop.Ending? { EndTasksShape(s, s.loop.later, s.loop.todo, a.pick); }
      KeepsHub(s, r);
    case Admit(t, a) => AdmittedAgrees(s, t, a);
    case RunReturns(h) => RunOverShape(s, h); KeepsHub(s, r);
    case PeerEnded(h, p, i) => ReportedShape(s, h, p, i); KeepsHub(s, r);
    case _ => KeepsHub(s, r);
  }
}
