/**
Pairing with the stop switch of every attempt. A cancel throws the switch at hand and only then changes the
shared state; stops, the timer's too, race the worker that attaches its endpoint. So whoever waits for a
worker to end waits for one that was told to.
*/
module PairingStops {
  import opened Prelude
  import opened Pairing
  import opened PairingRuns
  import Theorems = PairingTheorems
  import StopSwitch

  // `switches`: the switch of every attempt begun.
  datatype World = World(c: Controller, switches: map<nat, StopSwitch.Switch>)

  const OUTSET := World(FRESH, map[])

  datatype Move =
    | Take(step: Step)                               // the controller or a worker
    | Turn(attempt: nat, turn: StopSwitch.Move)      // a stop, or the worker that attaches, at one switch

  predicate Cancels(c: Controller, step: Step) {
    step.Cancel? || (step.Operate? && (c.operation.SpendCancel? || c.operation.ForgetCancel?))
  }

  predicate Begins(c: Controller, step: Step) {
    step.Operate? && c.operation.Start? && Begun(c.shared, c.operation.role).Some?
  }

  // Some stop of this attempt has returned.
  predicate Thrown(w: World, id: nat) {
    id in w.switches && StopSwitch.AnyReturned(w.switches[id])
  }

  // A cancel goes on once a stop of the switch at hand has returned. Its own call is one such stop, so every
  // order the code allows is here, and so are orders in which an earlier stop lets it go on sooner.
  predicate Enabled(w: World, move: Move) {
    match move
    case Take(step) =>
      && PairingRuns.Enabled(w.c, step)
      && (Cancels(w.c, step) && w.c.shared.control.Some? ==> Thrown(w, w.c.shared.control.value))
    case Turn(id, turn) => id in w.switches && StopSwitch.Enabled(w.switches[id], turn)
  }

  function Apply(w: World, move: Move): World
    requires Enabled(w, move)
  {
    match move
    case Take(step) =>
      World(PairingRuns.Apply(w.c, step),
            if Begins(w.c, step) then w.switches[w.c.shared.generation + 1 := StopSwitch.UNTOUCHED] else w.switches)
    case Turn(id, turn) => w.(switches := w.switches[id := StopSwitch.Apply(w.switches[id], turn)])
  }

  ghost predicate IsRun(worlds: seq<World>, moves: seq<Move>) {
    && |worlds| == |moves| + 1
    && worlds[0] == OUTSET
    && forall i | 0 <= i < |moves| :: Enabled(worlds[i], moves[i]) && worlds[i + 1] == Apply(worlds[i], moves[i])
  }

  // ----- what every move keeps

  predicate Waits(op: Operation) {
    op.SpendTake? || op.ForgetTake? || JoinsAny(op)
  }

  ghost predicate SwitchesFit(w: World) {
    && (forall id | id in w.switches :: id <= w.c.shared.generation && StopSwitch.Inv(w.switches[id]))
    && (w.c.shared.control.Some? ==> w.c.shared.control.value in w.switches)
    && (Waits(w.c.operation) ==> forall v | v in w.c.workers :: Thrown(w, v))
  }

  ghost predicate Fits(w: World) {
    Inv(w.c) && Theorems.Controls(w.c) && SwitchesFit(w)
  }

  lemma ReturnedStays(s: StopSwitch.Switch, turn: StopSwitch.Move)
    requires StopSwitch.Enabled(s, turn) && StopSwitch.AnyReturned(s)
    ensures StopSwitch.AnyReturned(StopSwitch.Apply(s, turn))
  {
    var i :| 0 <= i < |s.stoppers| && s.stoppers[i].place.Returned?;
    assert StopSwitch.Apply(s, turn).stoppers[i].place.Returned?;
  }

  // A thrown switch stays thrown: an attempt's number is never given again.
  lemma ThrownStays(w: World, move: Move, id: nat)
    requires SwitchesFit(w) && Enabled(w, move) && Thrown(w, id)
    ensures Thrown(Apply(w, move), id)
  {
    if move.Turn? && move.attempt == id { ReturnedStays(w.switches[id], move.turn); }
  }

  lemma TurnFits(w: World, id: nat, turn: StopSwitch.Move)
    requires Fits(w) && Enabled(w, Turn(id, turn))
    ensures Fits(Apply(w, Turn(id, turn)))
  {
    hide Inv;
    StopSwitch.MoveKeeps(w.switches[id], turn);
    forall v | Thrown(w, v) ensures Thrown(Apply(w, Turn(id, turn)), v) { ThrownStays(w, Turn(id, turn), v); }
  }

  // What a step does to the numbers, the switch at hand and the workers.
  lemma StepShape(c: Controller, step: Step)
    requires PairingRuns.Enabled(c, step)
    ensures var r := PairingRuns.Apply(c, step);
            && r.shared.generation >= c.shared.generation
            && (if Begins(c, step) then r.shared.control == Some(c.shared.generation + 1) && r.shared.generation == c.shared.generation + 1
                else r.shared.control == c.shared.control || r.shared.control.None?)
            && (Waits(r.operation) ==> (Waits(c.operation) || Cancels(c, step)) && forall v | v in r.workers :: v in c.workers)
  {
    hide Follows;
    hide Settled;
    hide Writes;
    if step.Operate? {
      hide PairingRuns.Enabled;
      if c.operation.Start? { assert PairingRuns.Apply(c, step) == Begin(c, c.operation.role, step.ok); }
      else if c.operation.OpenReset? { assert PairingRuns.Apply(c, step).shared == Reset(c.shared); }
    }
  }

  lemma StepFits(w: World, step: Step)
    requires Fits(w) && Enabled(w, Take(step))
    ensures Fits(Apply(w, Take(step)))
  {
    StepShape(w.c, step);
    Theorems.StepKeeps(w.c, step);
    Theorems.ControlKept(w.c, step);
    hide Inv;
    hide PairingRuns.Apply;
    hide PairingRuns.Enabled;
    hide Waits;
    hide Begins;
    var r := Apply(w, Take(step));
    if Waits(r.c.operation) {
      forall v | v in r.c.workers ensures Thrown(r, v) {
        assert Thrown(w, v);
        ThrownStays(w, Take(step), v);
      }
    }
  }

  lemma {:induction false} AlwaysFits(worlds: seq<World>, moves: seq<Move>, i: nat)
    requires IsRun(worlds, moves) && i < |worlds|
    ensures Fits(worlds[i])
    decreases i
  {
    hide SwitchesFit;
    hide Inv;
    if i > 0 {
      AlwaysFits(worlds, moves, i - 1);
      match moves[i - 1] {
        case Take(step) => StepFits(worlds[i - 1], step);
        case Turn(id, turn) => TurnFits(worlds[i - 1], id, turn);
      }
    } else {
      OutsetFits();
    }
  }

  lemma OutsetFits()
    ensures Fits(OUTSET)
  {
    assert forall v :: !Busy(FRESH, v);
  }

  // ----- the theorems

  // The worker was told to stop: it finds its switch thrown, and an endpoint it holds revoked.
  ghost predicate Stopped(w: World, id: nat) {
    && id in w.switches && w.switches[id].cancelled && !w.switches[id].reason.NotStopped?
    && (w.switches[id].attaching.Attached? ==> w.switches[id].revoked)
  }

  lemma ThrownIsStopped(w: World, id: nat)
    requires SwitchesFit(w) && Thrown(w, id)
    ensures Stopped(w, id)
  {
  }

  // However cancels, the timer, attaching and everything else interleave: whoever waits for a worker to
  // end waits for one that was told to stop.
  lemma JoinsOnlyTheStopped(worlds: seq<World>, moves: seq<Move>, i: nat, v: nat)
    requires IsRun(worlds, moves) && i < |worlds| && v in worlds[i].c.workers && IsJoining(worlds[i].c.operation, v)
    ensures Stopped(worlds[i], v)
  {
    hide Inv;
    AlwaysFits(worlds, moves, i);
    ThrownIsStopped(worlds[i], v);
  }

  // A cancel reaches every worker there is, and for good.
  lemma {:induction false} CancelStopsTheWorker(worlds: seq<World>, moves: seq<Move>, i: nat, j: nat, v: nat)
    requires IsRun(worlds, moves) && i < j < |worlds| && moves[i].Take? && Cancels(worlds[i].c, moves[i].step)
    requires v in worlds[i].c.workers
    ensures Thrown(worlds[j], v) && Stopped(worlds[j], v)
    decreases j
  {
    hide Inv;
    hide Stopped;
    hide Apply;
    hide SwitchesFit;
    hide PairingRuns.Enabled;
    AlwaysFits(worlds, moves, j);
    AlwaysFits(worlds, moves, j - 1);
    if i < j - 1 { CancelStopsTheWorker(worlds, moves, i, j - 1, v); } else { assert Thrown(worlds[i], v); }
    ThrownStays(worlds[j - 1], moves[j - 1], v);
    ThrownIsStopped(worlds[j], v);
  }
}
