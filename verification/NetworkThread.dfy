/**
The network thread as an object. Each stretch of code between two awaits is one method, and whatever is
called in whatever order, what the object has gone through is a run of the state machine: so every
theorem about runs is a theorem about the object.
*/
module NetworkThread {
  import opened SharingNet
  import opened NetworkState
  import opened SharingNetReports
  import Theorems = SharingNetTheorems

  class Thread {
    const net: State
    // Everything the thread has been, and the steps it took.
    ghost var states: seq<Net>
    ghost var steps: seq<Step>

    ghost predicate Valid()
      reads this, net
    {
      IsRun(states, steps) && states[|steps|] == net.Value()
    }

    constructor ()
      ensures Valid() && fresh(net) && net.Value() == START
    {
      net := new State();
      states, steps := [START], [];
    }

    // The object took this step, and no other.
    twostate predicate Took(step: Step)
      reads this, net
    {
      && Valid() && old(Valid()) && Enabled(old(net.Value()), step)
      && net.Value() == Apply(old(net.Value()), step)
      && states == old(states) + [net.Value()] && steps == old(steps) + [step]
    }

    ghost method Note(before: Net, step: Step)
      requires IsRun(states, steps) && states[|steps|] == before && Enabled(before, step)
      requires net.Value() == Apply(before, step)
      modifies `states, `steps
      ensures Valid() && states == old(states) + [net.Value()] && steps == old(steps) + [step]
    {
      hide Enabled;
      hide Apply;
      Longer(states, steps, step, net.Value());
      states, steps := states + [net.Value()], steps + [step];
    }

    // ----- the controller

    method Send(c: Command)
      requires Valid() && Enabled(net.Value(), Step.Send(c))
      modifies this, net
      ensures Took(Step.Send(c))
    {
      ghost var before := net.Value();
      net.queue := net.queue + [c];
      net.flags := net.flags.(inFlight := net.flags.inFlight + 1);
      Note(before, Step.Send(c));
    }

    // ----- the command loop; `pick` is whichever it happens to end first

    method Receive(a: Answers) returns (pick: TaskId)
      requires Valid() && Enabled(net.Value(), Step.Receive(a))
      modifies this, net
      ensures Took(Step.Receive(a.(pick := pick)))
    {
      hide Dispatch;
      ghost var before := net.Value();
      var c := net.queue[0];
      net.queue := net.queue[1..];
      pick := net.Handle(c, a);
      Note(before, Step.Receive(a.(pick := pick)));
    }

    method Advance(a: Answers) returns (pick: TaskId)
      requires Valid() && Enabled(net.Value(), Step.Advance(a))
      modifies this, net
      ensures Took(Step.Advance(a.(pick := pick)))
    {
      hide Advanced;
      ghost var before := net.Value();
      pick := net.Continue(net.loop.todo, a);
      Note(before, Step.Advance(a.(pick := pick)));
    }

    method Resume(a: Answers) returns (pick: TaskId)
      requires Valid() && Enabled(net.Value(), Step.Resume(a))
      modifies this, net
      ensures Took(Step.Resume(a.(pick := pick)))
    {
      hide EndTasks;
      ghost var before := net.Value();
      pick := 0;
      match net.loop {
        case Ending(_, later, todo) => pick := net.EndTasksNow(later, todo);
        case Stopping(_, todo) => net.Go(todo);
        case Retiring(rest) => net.Go(TearFlag(rest));
      }
      Note(before, Step.Resume(a.(pick := pick)));
    }

    // ----- tasks

    method Drop(t: TaskId)
      requires Valid() && Enabled(net.Value(), Dropped(t))
      modifies this, net
      ensures Took(Dropped(t))
    {
      ghost var before := net.Value();
      net.tasks := net.tasks - {t};
      Note(before, Dropped(t));
    }

    method FailConnect(t: TaskId)
      requires Valid() && Enabled(net.Value(), ConnectFails(t))
      modifies this, net
      ensures Took(ConnectFails(t))
    {
      ghost var before := net.Value();
      net.FinishTask(t);
      Note(before, ConnectFails(t));
    }

    method Admit(t: TaskId, a: Answers)
      requires Valid() && Enabled(net.Value(), Step.Admit(t, a))
      modifies this, net
      ensures Took(Step.Admit(t, a))
    {
      hide Admitted;
      ghost var before := net.Value();
      net.Admit(t, a);
      Note(before, Step.Admit(t, a));
    }

    method EndLink(t: TaskId)
      requires Valid() && Enabled(net.Value(), LinkEnds(t))
      modifies this, net
      ensures Took(LinkEnds(t))
    {
      ghost var before := net.Value();
      net.FinishTask(t);
      Note(before, LinkEnds(t));
    }

    // ----- hubs

    method CloseHub(h: HubId)
      requires Valid() && Enabled(net.Value(), HubCloses(h))
      modifies this, net
      ensures Took(HubCloses(h))
    {
      ghost var before := net.Value();
      net.hubs := net.hubs[h := net.hubs[h].(phase := Closed)];
      Note(before, HubCloses(h));
    }

    method ReturnRun(h: HubId)
      requires Valid() && Enabled(net.Value(), RunReturns(h))
      modifies this, net
      ensures Took(RunReturns(h))
    {
      hide RunOver;
      ghost var before := net.Value();
      net.RunReturns(h);
      Note(before, RunReturns(h));
    }

    method StartPeer(h: HubId, p: Peer)
      requires Valid() && Enabled(net.Value(), PeerStarted(h, p))
      modifies this, net
      ensures Took(PeerStarted(h, p))
    {
      ghost var before := net.Value();
      net.Started(h, p);
      Note(before, PeerStarted(h, p));
    }

    method EndPeer(h: HubId, p: Peer, index: nat)
      requires Valid() && Enabled(net.Value(), PeerEnded(h, p, index))
      modifies this, net
      ensures Took(PeerEnded(h, p, index))
    {
      hide Reported;
      ghost var before := net.Value();
      net.PeerEnded(h, p, index);
      Note(before, PeerEnded(h, p, index));
    }

    method IdleNative(h: HubId)
      requires Valid() && Enabled(net.Value(), NativeIdle(h))
      modifies this, net
      ensures Took(NativeIdle(h))
    {
      ghost var before := net.Value();
      net.NativeIdle(h);
      Note(before, NativeIdle(h));
    }

    method EndStream(h: HubId)
      requires Valid() && Enabled(net.Value(), StreamEnds(h))
      modifies this, net
      ensures Took(StreamEnds(h))
    {
      hide StreamEnded;
      ghost var before := net.Value();
      SessionsAreDistinct(states, steps, |steps|);
      net.StreamEnds(h);
      Note(before, StreamEnds(h));
    }
  }

  lemma Longer(states: seq<Net>, steps: seq<Step>, step: Step, next: Net)
    requires IsRun(states, steps) && Enabled(states[|steps|], step) && next == Apply(states[|steps|], step)
    ensures IsRun(states + [next], steps + [step])
  {
    hide Enabled;
    hide Apply;
    var longer, more := states + [next], steps + [step];
    forall i | 0 <= i < |more| ensures Enabled(longer[i], more[i]) && longer[i + 1] == Apply(longer[i], more[i]) {
      if i < |steps| { assert longer[i] == states[i] && longer[i + 1] == states[i + 1] && more[i] == steps[i]; }
    }
  }

  lemma SessionsAreDistinct(states: seq<Net>, steps: seq<Step>, i: nat)
    requires IsRun(states, steps) && i < |states|
    ensures Distinct(states[i].members)
  {
    Theorems.Always(states, steps, i);
    assert EndsInv(states[i]);
    DistinctFromEnds(states[i]);
  }

  // ----- what the flags, the counts and the port of the object mean, whatever was called before

  lemma ObjectKeepsItsPromises(t: Thread)
    requires t.Valid()
    ensures var s := t.net.Value();
            && (forall g, h | g in Unfinished(s) && h in Unfinished(s) :: g == h)
            && (s.flags.hub <==> Unfinished(s) != {})
            && (s.flags.native ==> Unfinished(s) != {})
            && (s.hub.Some? && SessionsOf(s, s.hub.value.id) ==> s.flags.native)
            && (Quiet(s) ==> s.tasks == map[] && Unfinished(s) == {} && s.endpoint.None?)
            && (s.loop.Retiring? ==> s.tasks == map[] && s.endpoint.None?)
            && (forall id: SessionId | id < s.nextSession :: s.ends[id] == if LiveId(s, id) then 0 else 1)
  {
    var i := |t.steps|;
    Theorems.OneHubAtATime(t.states, t.steps, i);
    if Quiet(t.net.Value()) { Theorems.QuietIsFree(t.states, t.steps, i); }
    if t.net.Value().loop.Retiring? { Theorems.RetiredAlone(t.states, t.steps, i); }
    Theorems.EverySessionEndsOnce(t.states, t.steps, i);
  }

  lemma ObjectStrandsNoPort(t: Thread)
    requires t.Valid() && Yielding(t.net.Value()) && t.net.endpoint.Some? && IdleNet(t.net.Value())
    ensures var s := t.net.Value();
            || Tick in s.queue
            || (s.loop.Ending? && (s.loop.todo.AfterLinks? || s.loop.todo.Settle? || s.loop.todo.TearHub?))
            || (s.loop.Stopping? && s.loop.todo.TearEndpoint?)
  {
    Theorems.NoStrandedPort(t.states, t.steps, |t.steps|);
  }

  // The object's plan is never older than at any moment of its past.
  lemma ObjectsPlanNeverOlder(t: Thread, i: nat)
    requires t.Valid() && i < |t.states| && t.states[i].plan.Some?
    ensures t.net.plan.Some? && t.net.plan.value.epoch >= t.states[i].plan.value.epoch
  {
    Theorems.PlanNeverOlder(t.states, t.steps, i, |t.steps|);
  }
}
