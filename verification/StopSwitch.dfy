/** The stop switch of a pairing attempt: stops race the worker that attaches its endpoint. */
module StopSwitch {
  import opened Prelude
  import opened Pairing

  datatype Reason = NotStopped | Stopped | TimedOut

  // ----- one call at a time

  class Endpoint {
    var revoked: bool

    constructor ()
      ensures !revoked
    {
      revoked := false;
    }
  }

  datatype Verdict = GoOn | PairingStopped | CodeExpired | EnteringTimedOut | NetworkChanged

  class PairingControl {
    const role: Role
    var reason: Reason
    var cancelled: bool
    var revoker: Option<Endpoint>

    constructor (role: Role)
      ensures reason == NotStopped && !cancelled && revoker == None && this.role == role
    {
      this.role := role;
      reason, cancelled, revoker := NotStopped, false, None;
    }

    // The first reason is kept; whatever endpoint is attached is revoked.
    method Stop(why: Reason)
      modifies this, if revoker.Some? then {revoker.value} else {}
      ensures cancelled && revoker == old(revoker)
      ensures reason == if old(reason).NotStopped? then why else old(reason)
      ensures revoker.Some? ==> revoker.value.revoked
    {
      cancelled := true;
      if reason.NotStopped? { reason := why; }
      if revoker.Some? { revoker.value.revoked := true; }
    }

    // An endpoint attached after a stop is revoked as it is attached.
    method Attach(endpoint: Endpoint)
      modifies this`revoker, endpoint
      ensures revoker == Some(endpoint)
      ensures endpoint.revoked == (old(endpoint.revoked) || !reason.NotStopped?)
    {
      if !reason.NotStopped? { endpoint.revoked := true; }
      revoker := Some(endpoint);
    }

    // A stop is told before a revoked endpoint is.
    method Check() returns (verdict: Verdict)
      ensures verdict.GoOn? <==> reason.NotStopped? && !(revoker.Some? && revoker.value.revoked)
      ensures verdict.PairingStopped? <==> reason.Stopped?
      ensures verdict.CodeExpired? <==> reason.TimedOut? && role.Showing?
      ensures verdict.EnteringTimedOut? <==> reason.TimedOut? && role.Entering?
    {
      if reason.Stopped? { return PairingStopped; }
      if reason.TimedOut? { return if role.Showing? then CodeExpired else EnteringTimedOut; }
      if revoker.Some? && revoker.value.revoked { return NetworkChanged; }
      return GoOn;
    }
  }

  // ----- all at once

  // A stop marks the switch, then offers its reason, then locks the slot and revokes what is in it.
  datatype StopPlace = Called | Marked | Offered | Returned
  datatype Stopper = Stopper(why: Reason, place: StopPlace)

  // Attaching locks the slot, looks at the reason, and fills the slot as it unlocks. The worker takes
  // the endpoint out again when it is done with it.
  datatype AttachPlace = Unattached | Locked | Looked | Attached | Taken

  datatype Switch = Switch(reason: Reason, cancelled: bool, attaching: AttachPlace, revoked: bool, stoppers: seq<Stopper>)

  const UNTOUCHED := Switch(NotStopped, false, Unattached, false, [])

  datatype Move = CallStop(why: Reason) | AdvanceStop(index: nat) | AdvanceAttach | Take

  predicate SlotFree(s: Switch) {
    !s.attaching.Locked? && !s.attaching.Looked?
  }

  predicate Enabled(s: Switch, move: Move) {
    match move
    case CallStop(why) => !why.NotStopped?
    case AdvanceStop(i) => i < |s.stoppers| && !s.stoppers[i].place.Returned? && (s.stoppers[i].place.Offered? ==> SlotFree(s))
    case AdvanceAttach => s.attaching.Unattached? || s.attaching.Locked? || s.attaching.Looked?
    case Take => s.attaching.Attached?
  }

  function Placed(s: Switch, i: nat, place: StopPlace): seq<Stopper>
    requires i < |s.stoppers|
  {
    s.stoppers[i := s.stoppers[i].(place := place)]
  }

  function Apply(s: Switch, move: Move): Switch
    requires Enabled(s, move)
  {
    match move
    case CallStop(why) => s.(stoppers := s.stoppers + [Stopper(why, Called)])
    case AdvanceStop(i) => (
      match s.stoppers[i].place
      case Called => s.(cancelled := true, stoppers := Placed(s, i, Marked))
      case Marked => s.(reason := if s.reason.NotStopped? then s.stoppers[i].why else s.reason, stoppers := Placed(s, i, Offered))
      case _ => s.(revoked := s.revoked || s.attaching.Attached?, stoppers := Placed(s, i, Returned)))
    case AdvanceAttach => (
      match s.attaching
      case Unattached => s.(attaching := Locked)
      case Locked => s.(attaching := Looked, revoked := s.revoked || !s.reason.NotStopped?)
      case _ => s.(attaching := Attached))
    case Take => s.(attaching := Taken)
  }

  ghost predicate IsRun(states: seq<Switch>, moves: seq<Move>) {
    && |states| == |moves| + 1
    && states[0] == UNTOUCHED
    && forall i | 0 <= i < |moves| :: Enabled(states[i], moves[i]) && states[i + 1] == Apply(states[i], moves[i])
  }

  predicate AnyReturned(s: Switch) {
    exists i | 0 <= i < |s.stoppers| :: s.stoppers[i].place.Returned?
  }

  ghost predicate Inv(s: Switch) {
    && (forall i | 0 <= i < |s.stoppers| :: !s.stoppers[i].why.NotStopped?)
    && (forall i | 0 <= i < |s.stoppers| && !s.stoppers[i].place.Called? :: s.cancelled)
    && (forall i | 0 <= i < |s.stoppers| && (s.stoppers[i].place.Offered? || s.stoppers[i].place.Returned?) :: !s.reason.NotStopped?)
    && ((s.attaching.Looked? || s.attaching.Attached?) && AnyReturned(s) ==> s.revoked)
  }

  lemma MoveKeeps(s: Switch, move: Move)
    requires Inv(s) && Enabled(s, move)
    ensures Inv(Apply(s, move))
  {
    var r := Apply(s, move);
    if AnyReturned(r) && !AnyReturned(s) {
      var i :| 0 <= i < |r.stoppers| && r.stoppers[i].place.Returned?;
      assert move == AdvanceStop(i) && s.stoppers[i].place.Offered?;
    }
  }

  lemma {:induction false} Always(states: seq<Switch>, moves: seq<Move>, i: nat)
    requires IsRun(states, moves) && i < |states|
    ensures Inv(states[i])
    decreases i
  {
    if i > 0 {
      Always(states, moves, i - 1);
      MoveKeeps(states[i - 1], moves[i - 1]);
    }
  }

  // However stops and attaching interleave, once a stop has returned an attached endpoint is revoked.
  lemma StopReachesTheEndpoint(states: seq<Switch>, moves: seq<Move>, i: nat)
    requires IsRun(states, moves) && i < |states| && AnyReturned(states[i]) && states[i].attaching.Attached?
    ensures states[i].revoked && states[i].cancelled && !states[i].reason.NotStopped?
  {
    Always(states, moves, i);
  }

  lemma ReasonStays(s: Switch, move: Move)
    requires Enabled(s, move)
    ensures !s.reason.NotStopped? ==> Apply(s, move).reason == s.reason
    ensures s.revoked ==> Apply(s, move).revoked
  {
  }

  // The first reason offered is the one kept, whoever stops later; and revoking is never undone.
  lemma {:induction false} FirstReasonIsKept(states: seq<Switch>, moves: seq<Move>, i: nat, j: nat)
    requires IsRun(states, moves) && i <= j < |states|
    ensures !states[i].reason.NotStopped? ==> states[j].reason == states[i].reason
    ensures states[i].revoked ==> states[j].revoked
    decreases j
  {
    if i < j {
      FirstReasonIsKept(states, moves, i, j - 1);
      ReasonStays(states[j - 1], moves[j - 1]);
    }
  }

  // And it is the reason of the stop that offered one first.
  lemma FirstOfferDecides(states: seq<Switch>, moves: seq<Move>, i: nat, j: nat)
    requires IsRun(states, moves) && i < j < |states| && states[i].reason.NotStopped?
    requires moves[i].AdvanceStop? && states[i].stoppers[moves[i].index].place.Marked?
    ensures states[j].reason == states[i].stoppers[moves[i].index].why
  {
    Always(states, moves, i);
    FirstReasonIsKept(states, moves, i + 1, j);
  }
}
