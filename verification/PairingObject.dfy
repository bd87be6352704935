/**
The pairing controller as an object. Every method is one stretch under the lock, by a user, by the one
operation or by a worker; whatever order they come in, what the object has gone through is a run.
*/
module PairingObject {
  import opened Prelude
  import opened Pairing
  import opened PairingRuns
  import Theorems = PairingTheorems

  class PairingController {
    const state: PairingState
    var operation: Operation
    var handle: Option<nat>
    var workers: map<nat, Worker>
    var closing: bool
    var begun: nat
    // Everything the controller has been, and the steps that led there.
    ghost var states: seq<Controller>
    ghost var steps: seq<Step>

    function Value(): Controller
      reads this, state
    {
      Controller(state.Value(), operation, handle, workers, closing, begun)
    }

    ghost predicate Valid()
      reads this, state
    {
      IsRun(states, steps) && states[|steps|] == Value()
    }

    constructor ()
      ensures Valid() && fresh(state) && Value() == FRESH
    {
      state := new PairingState();
      operation, handle, workers, closing, begun := NoOperation, None, map[], false, 0;
      states, steps := [FRESH], [];
    }

    twostate predicate Took(step: Step)
      reads this, state
    {
      && Valid() && old(Valid()) && Enabled(old(Value()), step) && Value() == Apply(old(Value()), step)
      && states == old(states) + [Value()] && steps == old(steps) + [step]
    }

    ghost method Note(before: Controller, step: Step)
      requires IsRun(states, steps) && states[|steps|] == before && Enabled(before, step) && Value() == Apply(before, step)
      modifies `states, `steps
      ensures Valid() && states == old(states) + [Value()] && steps == old(steps) + [step]
    {
      hide Enabled;
      hide Apply;
      Longer(states, steps, step, Value());
      states, steps := states + [Value()], steps + [step];
    }

    // ----- the user

    method Begin(step: Step)
      requires Valid() && Enabled(Value(), step) && (step.Open? || step.Show? || step.Enter? || step.Forget?)
      modifies this
      ensures Took(step)
    {
      ghost var before := Value();
      match step {
        case Open => operation := OpenCheck;
        case Show => operation := Spend(Role.Showing);
        case Enter => operation := Spend(Role.Entering);
        case Forget => operation := ForgetCancel;
      }
      Note(before, step);
    }

    method Cancel()
      requires Valid()
      modifies this, state
      ensures Took(Step.Cancel)
    {
      ghost var before := Value();
      var stopped := state.Cancel();
      Note(before, Step.Cancel);
    }

    method Shutdown()
      requires Valid()
      modifies this
      ensures Took(Step.Shutdown)
    {
      ghost var before := Value();
      closing := true;
      Note(before, Step.Shutdown);
    }

    method Abandon()
      requires Valid() && Enabled(Value(), Step.Abandon)
      modifies this
      ensures Took(Step.Abandon)
    {
      ghost var before := Value();
      operation := NoOperation;
      Note(before, Step.Abandon);
    }

    // ----- the operation that holds the lock

    method Proceed(read: Reading, ok: bool)
      requires Valid() && Enabled(Value(), Operate(read, ok))
      modifies this, state
      ensures Took(Operate(read, ok))
    {
      hide Enabled;
      hide Operated;
      ghost var before := Value();
      Work(read, ok);
      Note(before, Operate(read, ok));
    }

    method Work(read: Reading, ok: bool)
      modifies this`operation, this`handle, this`workers, this`begun, state
      ensures Value() == Operated(old(Value()), read, ok)
    {
      hide Cancelled;
      hide Reset;
      hide Opened;
      hide Forgotten;
      match operation
      case NoOperation =>
      case OpenCheck => RequireIdle(OpenReset);
      case OpenReset =>
        state.ResetAll();
        operation := OpenReading(state.generation);
        Generations(old(Value()));
      case OpenReading(generation) =>
        if state.generation == generation && !closing { state.ShowReading(read); }
        operation := NoOperation;
      case Spend(role) => operation := if state.view.phase.ShowingCode? then SpendCancel(role) else MustBeIdle(role);
      case SpendCancel(role) =>
        var stopped := state.Cancel();
        operation := SpendTake(role);
      case SpendTake(role) =>
        operation := if handle.Some? then Joining(handle.value, role) else MustBeIdle(role);
        handle := None;
      case Joining(_, role) => operation := MustBeIdle(role);
      case MustBeIdle(role) => RequireIdle(Start(role));
      case Start(role) => StartWorker(role, ok);
      case ForgetCancel =>
        var stopped := state.Cancel();
        operation := ForgetTake;
      case ForgetTake =>
        operation := if handle.Some? then ForgetJoining(handle.value) else ForgetStore;
        handle := None;
      case ForgetJoining(_) => operation := ForgetStore;
      case ForgetStore =>
        state.ShowForgotten(ok);
        operation := NoOperation;
    }

    // A worker that still runs refuses the operation; one that is over is joined.
    method RequireIdle(next: Operation)
      modifies this`operation, this`handle
      ensures Value() == if HandleRuns(old(Value())) then old(Value()).(operation := NoOperation)
                         else Unhandled(old(Value())).(operation := next)
    {
      if handle.Some? && handle.value in workers {
        operation := NoOperation;
      } else {
        handle := None;
        operation := next;
      }
    }

    method StartWorker(role: Role, spawned: bool)
      modifies this`operation, this`handle, this`workers, this`begun, state
      ensures Value() == PairingRuns.Begin(old(Value()), role, spawned)
    {
      var id := state.BeginAttempt(role);
      operation := NoOperation;
      if id.Some? {
        begun := state.generation;
        if spawned {
          handle := Some(begun);
          workers := workers[begun := Worker(role, Preparing)];
        } else {
          state.GiveUp();
        }
      }
    }

    // ----- a worker

    method ShowCode(w: nat)
      requires Valid() && Enabled(Value(), Step.ShowCode(w))
      modifies this, state
      ensures Took(Step.ShowCode(w))
    {
      ghost var before := Value();
      state.Update(w, (v: View) => Shows(v, w));
      workers := workers[w := workers[w].(place := Waiting)];
      Note(before, Step.ShowCode(w));
    }

    method Reach(w: nat, place: Place)
      requires Valid() && Enabled(Value(), Step.Reach(w, place))
      modifies this, state
      ensures Took(Step.Reach(w, place))
    {
      hide Writes;
      ghost var before := Value();
      state.Update(w, (v: View) => Writes(v, w, place));
      workers := workers[w := workers[w].(place := place)];
      Note(before, Step.Reach(w, place));
    }

    method Finish(w: nat, ok: bool)
      requires Valid() && Enabled(Value(), Step.Finish(w, ok))
      modifies this, state
      ensures Took(Step.Finish(w, ok))
    {
      hide Finished;
      ghost var before := Value();
      state.FinishAttempt(w, ok);
      workers := workers[w := workers[w].(place := Closing)];
      Note(before, Step.Finish(w, ok));
    }

    method Exit(w: nat)
      requires Valid() && Enabled(Value(), Step.Exit(w))
      modifies this
      ensures Took(Step.Exit(w))
    {
      ghost var before := Value();
      workers := workers - {w};
      Note(before, Step.Exit(w));
    }
  }

  lemma Generations(c: Controller)
    ensures Reset(c.shared).generation == c.shared.generation + 1
  {
  }

  lemma Longer(states: seq<Controller>, steps: seq<Step>, step: Step, next: Controller)
    requires IsRun(states, steps) && Enabled(states[|steps|], step) && next == Apply(states[|steps|], step)
    ensures IsRun(states + [next], steps + [step])
  {
    hide Enabled;
    hide Apply;
    var longer, more := states + [next], steps + [step];
    forall i | 0 <= i < |more| ensures Enabled(longer[i], more[i]) && longer[i + 1] == Apply(longer[i], more[i]) {
      if i < |steps| { assert longer[i] == states[i] && longer[i + 1] == states[i + 1] && more[i] == steps[i]; }
    }
  }

  // Whatever was called before: a code shows only for its own current attempt in the showing phase, the
  // view is busy exactly while a worker has not reported its end, says stopping only then, there is never a
  // second worker, and the switch at hand is the worker's own.
  lemma ObjectKeepsItsPromises(c: PairingController)
    requires c.Valid()
    ensures var v := c.state.view;
            && (v.code.Some? ==> IsCurrent(c.state.Value(), v.code.value) && v.phase.ShowingCode?)
            && (v.busy <==> exists w :: Busy(c.Value(), w))
            && (v.phase.Stopping? ==> v.busy)
            && (forall w, x | w in c.workers && x in c.workers :: w == x)
            && (forall w | w in c.workers && c.state.attempt.Some? :: c.state.attempt.value.id == w)
            && (forall w | w in c.workers :: c.state.control == Some(w))
  {
    var i := |c.steps|;
    Theorems.Always(c.states, c.steps, i);
    Theorems.SwitchIsTheWorkers(c.states, c.steps, i);
    forall w, x | w in c.workers && x in c.workers ensures w == x { Theorems.OnlyWorker(c.Value(), w, x); }
  }
}
