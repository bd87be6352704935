/**
Pairing as it runs: user actions, the one operation at a time they serialize on, and workers, in any
interleaving. A worker may fail at any point: the network, storage, the timer or a cancel did it.
*/
module PairingRuns {
  import opened Prelude
  import opened Pairing

  // How far an operation that holds the operation lock has come.
  datatype Operation =
    | NoOperation
    | OpenCheck | OpenReset | OpenReading(generation: nat)
    | Spend(role: Role) | SpendCancel(role: Role) | SpendTake(role: Role) | Joining(worker: nat, role: Role)
    | MustBeIdle(role: Role) | Start(role: Role)
    | ForgetCancel | ForgetTake | ForgetJoining(worker: nat) | ForgetStore

  // How far a worker has come; Closing has reported its end and lets go of the network.
  datatype Place = Preparing | Waiting | Checking | Storing | Written | Stored | Badged | Closing

  datatype Worker = Worker(role: Role, place: Place)

  // `handle`: the worker whose thread the controller still has to join. `workers`: the threads that
  // run. `begun`: the last attempt begun.
  datatype Controller = Controller(
    shared: Shared,
    operation: Operation,
    handle: Option<nat>,
    workers: map<nat, Worker>,
    closing: bool,
    begun: nat)

  const FRESH := Controller(Shared(CLOSED_VIEW, 0, None, None, false), NoOperation, None, map[], false, 0)

  datatype Step =
    | Open | Show | Enter | Forget
    | Operate(read: Reading, ok: bool)
    | Abandon
    | Cancel
    | Shutdown
    | ShowCode(worker: nat)
    | Reach(worker: nat, place: Place)
    | Finish(worker: nat, ok: bool)
    | Exit(worker: nat)

  predicate AtPlace(c: Controller, w: nat, place: Place) {
    w in c.workers && c.workers[w].place == place
  }

  // ----- the operation

  function Unhandled(c: Controller): Controller {
    c.(handle := None)
  }

  predicate HandleRuns(c: Controller) {
    c.handle.Some? && c.handle.value in c.workers
  }

  function Begin(c: Controller, role: Role, spawned: bool): Controller {
    var begun := Begun(c.shared, role);
    if begun.None? then c.(operation := NoOperation)
    else
      var id := begun.value.generation;
      if spawned then
        c.(shared := begun.value, operation := NoOperation, handle := Some(id), begun := id,
           workers := c.workers[id := Worker(role, Preparing)])
      else c.(shared := NotSpawned(begun.value), operation := NoOperation, begun := id)
  }

  function Operated(c: Controller, read: Reading, ok: bool): Controller {
    match c.operation
    case NoOperation => c
    case OpenCheck => if HandleRuns(c) then c.(operation := NoOperation) else Unhandled(c).(operation := OpenReset)
    case OpenReset => var reset := Reset(c.shared); c.(shared := reset, operation := OpenReading(reset.generation))
    case OpenReading(generation) =>
      c.(operation := NoOperation,
         shared := if c.shared.generation != generation || c.closing then c.shared else Opened(c.shared, read))
    case Spend(role) => c.(operation := if c.shared.view.phase.ShowingCode? then SpendCancel(role) else MustBeIdle(role))
    case SpendCancel(role) => c.(shared := Cancelled(c.shared), operation := SpendTake(role))
    case SpendTake(role) =>
      Unhandled(c).(operation := if c.handle.Some? then Joining(c.handle.value, role) else MustBeIdle(role))
    case Joining(worker, role) => c.(operation := MustBeIdle(role))
    case MustBeIdle(role) => if HandleRuns(c) then c.(operation := NoOperation) else Unhandled(c).(operation := Start(role))
    case Start(role) => Begin(c, role, ok)
    case ForgetCancel => c.(shared := Cancelled(c.shared), operation := ForgetTake)
    case ForgetTake => Unhandled(c).(operation := if c.handle.Some? then ForgetJoining(c.handle.value) else ForgetStore)
    case ForgetJoining(worker) => c.(operation := ForgetStore)
    case ForgetStore => c.(shared := Forgotten(c.shared, ok), operation := NoOperation)
  }

  // Joining waits for the worker's thread to end.
  predicate MayOperate(c: Controller) {
    match c.operation
    case NoOperation => false
    case Joining(worker, _) => worker !in c.workers
    case ForgetJoining(worker) => worker !in c.workers
    case _ => true
  }

  // Where an operation checks whether the app is closing, and gives up.
  predicate MayAbandon(op: Operation) {
    op.OpenCheck? || op.OpenReset? || op.Spend? || op.MustBeIdle? || op.Start? || op.ForgetCancel? || op.ForgetStore?
  }

  // ----- workers

  function Shows(v: View, id: nat): View {
    v.(code := Some(id))
  }

  // What the worker writes to the view, while its attempt is current, as it reaches a place.
  function Writes(v: View, id: nat, place: Place): View {
    match place
    case Checking => ClearCode(v).(phase := Verifying)
    case Storing => v.(phase := Saving, peer := Some(id))
    case Written => v.(storage := Unverified)
    case Stored => v.(storage := Verified)
    case Badged => v.(badge := Some(id))
    case _ => v
  }

  // The places in order. A peer saved before is not written again.
  predicate Follows(role: Role, from: Place, to: Place) {
    match to
    case Waiting => from.Preparing? && role.Entering?
    case Checking => from.Waiting?
    case Storing => from.Checking?
    case Written => from.Storing?
    case Stored => from.Storing? || from.Written?
    case Badged => from.Stored?
    case _ => false
  }

  function Moved(c: Controller, w: nat, place: Place): map<nat, Worker>
    requires w in c.workers
  {
    c.workers[w := c.workers[w].(place := place)]
  }

  // ----- steps

  predicate Enabled(c: Controller, step: Step) {
    match step
    case Open => c.operation.NoOperation?
    case Show => c.operation.NoOperation?
    case Enter => c.operation.NoOperation?
    case Forget => c.operation.NoOperation?
    case Operate(_, _) => MayOperate(c)
    case Abandon => c.closing && MayAbandon(c.operation)
    case Cancel => true
    case Shutdown => true
    case ShowCode(w) => AtPlace(c, w, Preparing) && c.workers[w].role.Showing?
    case Reach(w, place) => w in c.workers && Follows(c.workers[w].role, c.workers[w].place, place)
    case Finish(w, ok) => w in c.workers && !c.workers[w].place.Closing? && (ok ==> c.workers[w].place.Badged?)
    case Exit(w) => AtPlace(c, w, Closing)
  }

  function Apply(c: Controller, step: Step): Controller
    requires Enabled(c, step)
  {
    match step
    case Open => c.(operation := OpenCheck)
    case Show => c.(operation := Spend(Role.Showing))
    case Enter => c.(operation := Spend(Role.Entering))
    case Forget => c.(operation := ForgetCancel)
    case Operate(read, ok) => Operated(c, read, ok)
    case Abandon => c.(operation := NoOperation)
    case Cancel => c.(shared := Cancelled(c.shared))
    case Shutdown => c.(closing := true)
    case ShowCode(w) => c.(shared := Updated(c.shared, w, (v: View) => Shows(v, w)), workers := Moved(c, w, Waiting))
    case Reach(w, place) => c.(shared := Updated(c.shared, w, (v: View) => Writes(v, w, place)), workers := Moved(c, w, place))
    case Finish(w, ok) => c.(shared := Finished(c.shared, w, ok), workers := Moved(c, w, Closing))
    case Exit(w) => c.(workers := c.workers - {w})
  }

  ghost predicate IsRun(states: seq<Controller>, steps: seq<Step>) {
    && |states| == |steps| + 1
    && states[0] == FRESH
    && forall i | 0 <= i < |steps| :: Enabled(states[i], steps[i]) && states[i + 1] == Apply(states[i], steps[i])
  }

  // ----- what every step keeps

  predicate IsJoining(op: Operation, w: nat) {
    (op.Joining? && op.worker == w) || (op.ForgetJoining? && op.worker == w)
  }

  predicate JoinsAny(op: Operation) {
    op.Joining? || op.ForgetJoining?
  }

  // Every running worker is the one to join, and none runs past the point an operation counts on it.
  ghost predicate OneWorker(c: Controller) {
    && (forall w | w in c.workers :: if JoinsAny(c.operation) then IsJoining(c.operation, w) else c.handle == Some(w))
    && (JoinsAny(c.operation) || c.operation.OpenReset? || c.operation.OpenReading? || c.operation.Start? || c.operation.ForgetStore? ==> c.handle.None?)
    && (forall w | w in c.workers :: w <= c.begun)
    && (c.operation.OpenReading? ==> c.shared.attempt.None?)
  }

  predicate PhaseFits(worker: Worker, phase: Phase) {
    match worker.place
    case Preparing => phase == if worker.role.Showing? then ShowingCode else Connecting
    case Waiting => phase == if worker.role.Showing? then ShowingCode else Connecting
    case Checking => phase.Verifying?
    case Closing => phase.Paired?
    case _ => phase.Saving?
  }

  // The current attempt is the last begun, its worker is the only one, and the phase is where that is.
  ghost predicate AttemptFits(c: Controller) {
    && c.begun <= c.shared.generation
    && (c.shared.attempt.Some? ==>
        var id := c.shared.attempt.value.id;
        && id == c.begun == c.shared.generation
        && (forall w | w in c.workers :: w == id)
        && (if id in c.workers then PhaseFits(c.workers[id], c.shared.view.phase) else c.shared.view.phase.Paired?))
  }

  predicate Busy(c: Controller, w: nat) {
    w in c.workers && !c.workers[w].place.Closing?
  }

  // A code is its own attempt's, current and showing; what else an attempt wrote is the last one's.
  ghost predicate ViewFits(c: Controller) {
    var v := c.shared.view;
    && (v.code.Some? ==> IsCurrent(c.shared, v.code.value) && v.phase.ShowingCode? && AtPlace(c, v.code.value, Waiting))
    && (v.peer.Some? ==> v.peer.value == c.begun) && (v.badge.Some? ==> v.badge.value == c.begun)
    && (v.busy <==> exists w :: Busy(c, w))
    && (v.phase.Stopping? ==> v.busy)
    && (v.phase.ShowingCode? || v.phase.Connecting? || v.phase.Verifying? || v.phase.Saving? ==> c.shared.attempt.Some?)
  }

  ghost predicate Inv(c: Controller) {
    OneWorker(c) && AttemptFits(c) && ViewFits(c)
  }
}
