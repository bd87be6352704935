/** What holds of pairing in every run. */
module PairingTheorems {
  import opened Prelude
  import opened Pairing
  import opened PairingRuns

  // ----- the shared state, operation by operation

  lemma CancelKeeps(c: Controller, operation: Operation)
    requires Inv(c)
    requires forall w | w in c.workers :: if JoinsAny(operation) then IsJoining(operation, w) else c.handle == Some(w)
    requires JoinsAny(operation) || operation.OpenReset? || operation.OpenReading? || operation.Start? || operation.ForgetStore? ==> c.handle.None?
    ensures Inv(c.(shared := Cancelled(c.shared), operation := operation))
  {
    var r := c.(shared := Cancelled(c.shared), operation := operation);
    assert forall w :: Busy(r, w) == Busy(c, w);
    assert c.shared.attempt.Some? && !c.shared.view.phase.Paired? ==> Busy(c, c.shared.attempt.value.id);
  }

  // Only the lock's own bookkeeping changed.
  lemma OperationKeeps(c: Controller, r: Controller)
    requires Inv(c) && r.shared == c.shared && r.workers == c.workers && r.begun == c.begun && OneWorker(r)
    ensures Inv(r)
  {
    assert forall w :: Busy(r, w) == Busy(c, w);
  }

  lemma NoWorkers(c: Controller)
    requires OneWorker(c) && !JoinsAny(c.operation) && c.handle.None?
    ensures c.workers == map[]
  {
    assert forall w :: w !in c.workers;
  }

  lemma StartKeeps(c: Controller, spawned: bool)
    requires Inv(c) && c.operation.Start?
    ensures Inv(Begin(c, c.operation.role, spawned))
  {
    NoWorkers(c);
    var r := Begin(c, c.operation.role, spawned);
    var begun := Begun(c.shared, c.operation.role);
    if begun.None? {
      OperationKeeps(c, r);
    } else if spawned {
      assert Busy(r, begun.value.generation);
    } else {
      assert forall w :: !Busy(r, w);
    }
  }

  lemma ResetKeeps(c: Controller)
    requires Inv(c) && c.operation.OpenReset?
    ensures Inv(c.(shared := Reset(c.shared), operation := OpenReading(Reset(c.shared).generation)))
  {
    NoWorkers(c);
    var r := c.(shared := Reset(c.shared), operation := OpenReading(Reset(c.shared).generation));
    assert forall w :: !Busy(r, w);
  }

  lemma OpenedKeeps(c: Controller, read: Reading)
    requires Inv(c) && c.operation.OpenReading?
    ensures Inv(c.(shared := Opened(c.shared, read), operation := NoOperation))
    ensures Inv(c.(operation := NoOperation))
  {
    NoWorkers(c);
    var r := c.(shared := Opened(c.shared, read), operation := NoOperation);
    assert forall w :: !Busy(r, w) && !Busy(c, w);
    OperationKeeps(c, c.(operation := NoOperation));
  }

  lemma ForgottenKeeps(c: Controller, ok: bool)
    requires Inv(c) && c.operation.ForgetStore?
    ensures Inv(c.(shared := Forgotten(c.shared, ok), operation := NoOperation))
  {
    NoWorkers(c);
    var r := c.(shared := Forgotten(c.shared, ok), operation := NoOperation);
    assert forall w :: !Busy(r, w) && !Busy(c, w);
  }

  lemma OperateKeeps(c: Controller, read: Reading, ok: bool)
    requires Inv(c) && MayOperate(c)
    ensures Inv(Operated(c, read, ok))
  {
    hide AttemptFits;
    hide ViewFits;
    hide Begin;
    hide Cancelled;
    hide Opened;
    hide Forgotten;
    hide Reset;
    var r := Operated(c, read, ok);
    match c.operation
    case OpenReset => ResetKeeps(c);
    case OpenReading(_) => OpenedKeeps(c, read);
    case SpendCancel(role) => CancelKeeps(c, SpendTake(role));
    case Start(_) => StartKeeps(c, ok);
    case ForgetCancel => CancelKeeps(c, ForgetTake);
    case ForgetStore => ForgottenKeeps(c, ok);
    case _ => OperationKeeps(c, r);
  }

  // ----- workers

  lemma ShowCodeKeeps(c: Controller, w: nat)
    requires Inv(c) && Enabled(c, ShowCode(w))
    ensures Inv(Apply(c, ShowCode(w)))
  {
    var r := Apply(c, ShowCode(w));
    assert forall x :: Busy(r, x) == Busy(c, x);
  }

  lemma ReachKeeps(c: Controller, w: nat, place: Place)
    requires Inv(c) && Enabled(c, Reach(w, place))
    ensures Inv(Apply(c, Reach(w, place)))
  {
    var r := Apply(c, Reach(w, place));
    assert forall x :: Busy(r, x) == Busy(c, x);
  }

  lemma OnlyWorker(c: Controller, w: nat, x: nat)
    requires OneWorker(c) && w in c.workers && x in c.workers
    ensures w == x
  {
  }

  lemma FinishKeeps(c: Controller, w: nat, ok: bool)
    requires Inv(c) && Enabled(c, Finish(w, ok))
    ensures Inv(Apply(c, Finish(w, ok)))
  {
    var r := Apply(c, Finish(w, ok));
    forall x ensures !Busy(r, x) { if x in c.workers { OnlyWorker(c, w, x); } }
    assert Busy(c, w);
  }

  lemma ExitKeeps(c: Controller, w: nat)
    requires Inv(c) && Enabled(c, Exit(w))
    ensures Inv(Apply(c, Exit(w)))
  {
    var r := Apply(c, Exit(w));
    assert forall x :: Busy(r, x) == Busy(c, x);
  }

  lemma StepKeeps(c: Controller, step: Step)
    requires Inv(c) && Enabled(c, step)
    ensures Inv(Apply(c, step))
  {
    hide AttemptFits;
    hide ViewFits;
    hide Operated;
    hide Cancelled;
    hide Updated;
    hide Finished;
    hide Follows;
    var r := Apply(c, step);
    match step
    case Operate(read, ok) => OperateKeeps(c, read, ok);
    case Cancel => CancelKeeps(c, c.operation);
    case ShowCode(w) => ShowCodeKeeps(c, w);
    case Reach(w, place) => ReachKeeps(c, w, place);
    case Finish(w, ok) => FinishKeeps(c, w, ok);
    case Exit(w) => ExitKeeps(c, w);
    case _ => OperationKeeps(c, r);
  }

  lemma {:induction false} Always(states: seq<Controller>, steps: seq<Step>, i: nat)
    requires IsRun(states, steps) && i < |states|
    ensures Inv(states[i])
    decreases i
  {
    if i > 0 {
      Always(states, steps, i - 1);
      StepKeeps(states[i - 1], steps[i - 1]);
    } else {
      assert forall w :: !Busy(FRESH, w);
    }
  }

  // ----- the switch at hand

  ghost predicate Controls(c: Controller) {
    forall w | w in c.workers :: c.shared.control == Some(w)
  }

  lemma ControlKept(c: Controller, step: Step)
    requires Inv(c) && Controls(c) && Enabled(c, step)
    ensures Controls(Apply(c, step))
  {
    hide ViewFits;
    hide AttemptFits;
    hide Follows;
    if step.Operate? && (c.operation.OpenReset? || c.operation.Start?) { NoWorkers(c); }
  }

  // The switch the controller has at hand is the running worker's own.
  lemma {:induction false} SwitchIsTheWorkers(states: seq<Controller>, steps: seq<Step>, i: nat)
    requires IsRun(states, steps) && i < |states|
    ensures Controls(states[i])
    decreases i
  {
    if i > 0 {
      SwitchIsTheWorkers(states, steps, i - 1);
      Always(states, steps, i - 1);
      ControlKept(states[i - 1], steps[i - 1]);
    }
  }

  // ----- the theorems

  // A code is visible only while its own attempt is current, showing, and its worker listens.
  lemma CodeOnlyWhileShowing(states: seq<Controller>, steps: seq<Step>, i: nat)
    requires IsRun(states, steps) && i < |states| && states[i].shared.view.code.Some?
    ensures var c := states[i];
            var id := c.shared.view.code.value;
            IsCurrent(c.shared, id) && c.shared.view.phase.ShowingCode? && AtPlace(c, id, Waiting)
  {
    Always(states, steps, i);
  }

  function WorkerOf(step: Step): Option<nat> {
    match step
    case ShowCode(w) => Some(w)
    case Reach(w, _) => Some(w)
    case Finish(w, _) => Some(w)
    case Exit(w) => Some(w)
    case _ => None
  }

  // At most one worker runs. What it writes goes into its own attempt's view; once that attempt is no
  // longer current it writes nothing of its own, and no later attempt has begun.
  lemma WorkersWriteTheirOwnAttempt(states: seq<Controller>, steps: seq<Step>, i: nat)
    requires IsRun(states, steps) && i < |steps| && WorkerOf(steps[i]).Some?
    ensures var w, before, after := WorkerOf(steps[i]).value, states[i].shared, states[i + 1].shared;
            && w == states[i].begun && (forall x | x in states[i].workers :: x == w)
            && (before.attempt.Some? ==> before.attempt.value.id == w)
            && (before.attempt.None? ==> after.view == before.view || after.view == Settled(before.view).(busy := false))
  {
    Always(states, steps, i);
    var c, w := states[i], WorkerOf(steps[i]).value;
    OnlyWorkerIsLast(states, steps, i, w);
  }

  // The one worker is the last attempt's.
  lemma {:induction false} OnlyWorkerIsLast(states: seq<Controller>, steps: seq<Step>, i: nat, w: nat)
    requires IsRun(states, steps) && i < |states| && w in states[i].workers
    ensures w == states[i].begun && forall x | x in states[i].workers :: x == w
    decreases i
  {
    Always(states, steps, i);
    if i > 0 {
      Always(states, steps, i - 1);
      var c, step := states[i - 1], steps[i - 1];
      LastKept(c, step, w);
      if w in c.workers { OnlyWorkerIsLast(states, steps, i - 1, w); }
    }
    forall x | x in states[i].workers ensures x == w { OnlyWorker(states[i], w, x); }
  }

  lemma LastKept(c: Controller, step: Step, w: nat)
    requires Inv(c) && Enabled(c, step) && w in Apply(c, step).workers
    ensures w in c.workers ==> Apply(c, step).begun == c.begun
    ensures w !in c.workers ==> Apply(c, step).begun == w
  {
    hide ViewFits;
    hide AttemptFits;
    hide Updated;
    hide Finished;
    hide Cancelled;
    hide Follows;
    if step.Operate? && c.operation.Start? { NoWorkers(c); }
  }

  // Pairing says it is stopping exactly until the worker it stopped has reported its end.
  lemma StoppingMeansAWorkerRuns(states: seq<Controller>, steps: seq<Step>, i: nat)
    requires IsRun(states, steps) && i < |states|
    ensures states[i].shared.view.busy <==> exists w :: Busy(states[i], w)
    ensures states[i].shared.view.phase.Stopping? ==> states[i].shared.view.busy
  {
    Always(states, steps, i);
  }

  // What the view tells of a peer or shows as a badge is the last attempt's.
  lemma ViewIsTheLastAttempts(states: seq<Controller>, steps: seq<Step>, i: nat)
    requires IsRun(states, steps) && i < |states|
    ensures var v := states[i].shared.view;
            (v.peer.Some? ==> v.peer.value == states[i].begun) && (v.badge.Some? ==> v.badge.value == states[i].begun)
  {
    Always(states, steps, i);
  }
}
