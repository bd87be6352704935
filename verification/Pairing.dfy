/** One pairing at a time: the state user actions and the pairing worker share under one lock. */
module Pairing {
  import opened Prelude

  datatype Role = Showing | Entering

  datatype Phase = Closed | IdentityMissing | Ready | Failed | ShowingCode | Connecting | Verifying | Saving | Paired | Stopping

  datatype Storage = Unchanged | Unverified | Verified

  // What the window shows. `code`, `peer` and `badge` hold the attempt they came from.
  datatype View = View(
    phase: Phase,
    role: Option<Role>,
    code: Option<nat>,
    busy: bool,
    peer: Option<nat>,
    badge: Option<nat>,
    storage: Storage)

  const CLOSED_VIEW := View(Closed, None, None, false, None, None, Unchanged)

  datatype Attempt = Attempt(id: nat, role: Role)

  // `control`: the attempt whose stop switch is at hand. `local`: this computer's identity is read.
  datatype Shared = Shared(view: View, generation: nat, attempt: Option<Attempt>, control: Option<nat>, local: bool)

  function ClearCode(v: View): View {
    v.(code := None)
  }

  function ClearAttempt(v: View): View {
    ClearCode(v).(role := None, peer := None, badge := None, storage := Unchanged)
  }

  predicate IsCurrent(s: Shared, id: nat) {
    s.attempt.Some? && s.attempt.value.id == id
  }

  // An attempt starts from a settled phase only.
  function Begun(s: Shared, role: Role): Option<Shared> {
    if !s.local || !(s.view.phase.Ready? || s.view.phase.Failed? || s.view.phase.Paired?) then None
    else
      var id := s.generation + 1;
      var phase := if role.Showing? then ShowingCode else Connecting;
      Some(s.(generation := id, attempt := Some(Attempt(id, role)), control := Some(id),
              view := ClearAttempt(s.view).(role := Some(role), busy := true, phase := phase)))
  }

  // The worker could not be started.
  function NotSpawned(s: Shared): Shared {
    s.(attempt := None, view := s.view.(busy := false, phase := Failed))
  }

  function Updated(s: Shared, id: nat, change: View -> View): Shared {
    if IsCurrent(s, id) then s.(view := change(s.view)) else s
  }

  function Ended(s: Shared, id: nat, ok: bool): Shared {
    if !IsCurrent(s, id) then s
    else if ok then s.(view := ClearCode(s.view).(phase := Paired))
    else s.(attempt := None, view := ClearCode(s.view).(badge := None, phase := Failed))
  }

  function Settled(v: View): View {
    if !v.phase.Stopping? then v
    else if v.storage.Unverified? then ClearCode(v).(phase := Failed)
    else ClearAttempt(v).(phase := Ready)
  }

  function Finished(s: Shared, id: nat, ok: bool): Shared {
    var ended := Ended(s, id, ok);
    ended.(view := Settled(ended.view).(busy := false))
  }

  function Cancelled(s: Shared): Shared {
    var v := ClearCode(s.view);
    s.(generation := s.generation + 1, attempt := None,
       view := if v.busy then v.(phase := Stopping)
               else if s.local then ClearAttempt(v).(phase := Ready)
               else v)
  }

  function Reset(s: Shared): Shared {
    Shared(CLOSED_VIEW, s.generation + 1, None, None, false)
  }

  datatype Reading = NoIdentity | Identity | Unreadable

  function Opened(s: Shared, read: Reading): Shared {
    match read
    case NoIdentity => s.(view := s.view.(phase := IdentityMissing))
    case Identity => s.(local := true, view := s.view.(phase := Ready))
    case Unreadable => s.(view := s.view.(phase := Failed))
  }

  function Forgotten(s: Shared, ok: bool): Shared {
    var v := ClearAttempt(s.view).(busy := false);
    if ok then s.(attempt := None, view := if s.local then v.(phase := Ready) else v)
    else s.(attempt := None, local := false, view := v.(storage := Unverified, phase := Failed))
  }

  // ----- the same, as the code keeps it

  class PairingState {
    var view: View
    var generation: nat
    var attempt: Option<Attempt>
    var control: Option<nat>
    var local: bool

    function Value(): Shared
      reads this
    {
      Shared(view, generation, attempt, control, local)
    }

    constructor ()
      ensures Value() == Shared(CLOSED_VIEW, 0, None, None, false)
    {
      view, generation, attempt, control, local := CLOSED_VIEW, 0, None, None, false;
    }

    // An attempt starts under an id no attempt had before, and nothing the last one wrote is left to see.
    method BeginAttempt(role: Role) returns (id: Option<nat>)
      modifies this
      ensures id.Some? <==> old(local && (view.phase.Ready? || view.phase.Failed? || view.phase.Paired?))
      ensures id.Some? ==> id.value > old(generation) && IsCurrent(Value(), id.value) && control == id && local && view.busy
      ensures id.Some? ==> view.code.None? && view.peer.None? && view.badge.None? && view.storage.Unchanged?
      ensures id.Some? ==> Begun(old(Value()), role) == Some(Value())
      ensures id.None? ==> Begun(old(Value()), role).None? && Value() == old(Value())
    {
      if !local { return None; }
      if !(view.phase.Ready? || view.phase.Failed? || view.phase.Paired?) { return None; }
      generation := generation + 1;
      attempt := Some(Attempt(generation, role));
      control := Some(generation);
      view := ClearAttempt(view);
      view := view.(role := Some(role));
      view := view.(busy := true);
      match role {
        case Showing => view := view.(phase := ShowingCode);
        case Entering => view := view.(phase := Connecting);
      }
      return Some(generation);
    }

    // Nothing is busy or stopping afterwards. An attempt that is still current shows how it ended; of any
    // other the view tells at most that stopping is over.
    method FinishAttempt(id: nat, ok: bool)
      modifies this
      ensures !view.busy && !view.phase.Stopping? && generation == old(generation) && local == old(local)
      ensures old(IsCurrent(Value(), id)) && ok ==> view.phase.Paired? && view.code.None? && attempt == old(attempt)
      ensures old(IsCurrent(Value(), id)) && !ok ==> view.phase.Failed? && view.code.None? && view.badge.None? && attempt.None?
      ensures !old(IsCurrent(Value(), id)) ==> attempt == old(attempt)
      ensures !old(IsCurrent(Value(), id)) && !old(view.phase.Stopping?) ==> view == old(view).(busy := false)
      ensures !old(IsCurrent(Value(), id)) && old(view.phase.Stopping?) ==>
                view.code.None? && if old(view.storage.Unverified?) then view.phase.Failed? else view.phase.Ready? && view.peer.None? && view.badge.None?
      ensures Value() == Finished(old(Value()), id, ok)
    {
      if attempt.Some? && attempt.value.id == id {
        view := ClearCode(view);
        if ok {
          view := view.(phase := Paired);
        } else {
          attempt := None;
          view := view.(badge := None);
          view := view.(phase := Failed);
        }
      }
      if view.phase.Stopping? {
        view := ClearCode(view);
        if view.storage.Unverified? {
          view := view.(phase := Failed);
        } else {
          view := ClearAttempt(view);
          view := view.(phase := Ready);
        }
      }
      view := view.(busy := false);
    }

    method Update(id: nat, change: View -> View)
      modifies this
      ensures Value() == Updated(old(Value()), id, change)
    {
      if attempt.Some? && attempt.value.id == id { view := change(view); }
    }

    // No attempt is current and no code shows; while a worker is busy the view says stopping, and else it
    // is ready with nothing of an attempt left, if an identity was read at all.
    method Cancel() returns (stopped: Option<nat>)
      modifies this
      ensures attempt.None? && view.code.None? && generation > old(generation) && view.busy == old(view.busy)
      ensures old(view.phase.Stopping? ==> view.busy) ==> (view.phase.Stopping? <==> view.busy)
      ensures !view.busy && local ==> view.phase.Ready? && view.peer.None? && view.badge.None? && view.storage.Unchanged?
      ensures Value() == Cancelled(old(Value())) && stopped == old(control)
    {
      stopped := control;
      generation := generation + 1;
      attempt := None;
      view := ClearCode(view);
      if view.busy {
        view := view.(phase := Stopping);
      } else if local {
        view := ClearAttempt(view);
        view := view.(phase := Ready);
      }
    }

    method ResetAll()
      modifies this
      ensures Value() == Reset(old(Value()))
    {
      generation := generation + 1;
      attempt, control, local := None, None, false;
      view := CLOSED_VIEW;
    }

    method ShowReading(read: Reading)
      modifies this
      ensures Value() == Opened(old(Value()), read)
    {
      match read
      case NoIdentity => view := view.(phase := IdentityMissing);
      case Identity =>
        local := true;
        view := view.(phase := Ready);
      case Unreadable => view := view.(phase := Failed);
    }

    method ShowForgotten(ok: bool)
      modifies this
      ensures Value() == Forgotten(old(Value()), ok)
    {
      attempt := None;
      view := ClearAttempt(view);
      view := view.(busy := false);
      if ok {
        if local { view := view.(phase := Ready); }
      } else {
        view := view.(storage := Unverified, phase := Failed);
        local := false;
      }
    }

    method GiveUp()
      modifies this
      ensures Value() == NotSpawned(old(Value()))
    {
      attempt := None;
      view := view.(busy := false);
      view := view.(phase := Failed);
    }
  }
}
