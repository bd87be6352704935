/** A run in which a hub's reports are out of order, step by step. */
module SharingNetRuns {
  import opened Prelude
  import opened SharingNet

  lemma Grow(states: seq<Net>, steps: seq<Step>, step: Step, next: Net)
    requires IsRun(states, steps) && Enabled(states[|steps|], step) && Apply(states[|steps|], step) == next
    ensures IsRun(states + [next], steps + [step])
  {
  }

  const YES := Answers(false, false, true, true, true, false, true, true, 0)

  // The loop is free and computer 0 has no link.
  ghost predicate Askable(s: Net, plan: Plan) {
    && s.loop == Receiving && s.queue == [] && s.flags.inFlight == 0 && Entry(s, 0).links == {}
    && (s.plan.Some? ==> s.plan.value.epoch == plan.epoch) && (s.plan.None? ==> s.hub.None?)
  }

  function Asked(s: Net, plan: Plan): Net {
    s.(plan := if s.plan.Some? then s.plan else Some(plan), flags := s.flags.(inFlight := 1),
       members := s.members[0 := Entry(s, 0).(enabled := true)], loop := Ready(Ensure(ForShare(plan, 0))))
  }

  lemma AskedTwo(s: Net, plan: Plan)
    requires Askable(s, plan)
    ensures var s1 := s.(queue := [Share(plan, 0)], flags := s.flags.(inFlight := 1));
            var s2 := s1.(queue := [], plan := if s.plan.Some? then s.plan else Some(plan),
                          loop := Ready(AfterPlan(ForShare(plan, 0))));
            && Enabled(s, Send(Share(plan, 0))) && Apply(s, Send(Share(plan, 0))) == s1
            && Enabled(s1, Receive(YES)) && Apply(s1, Receive(YES)) == s2
  {
  }

  lemma AskedMore(s2: Net, plan: Plan)
    requires s2.loop == Ready(AfterPlan(ForShare(plan, 0))) && Entry(s2, 0).links == {}
    ensures var s3 := Put(s2, 0, Entry(s2, 0)).(loop := Ready(AfterLinks(ForShare(plan, 0))));
            var s4 := Put(s2, 0, Entry(s2, 0).(enabled := true)).(loop := Ready(Ensure(ForShare(plan, 0))));
            && Apply(s2, Advance(YES)) == s3 && Apply(s3, Advance(YES)) == s4
  {
    assert Entry(s2, 0) == Entry(s2, 0).(links := {});
    var s3 := Put(s2, 0, Entry(s2, 0)).(loop := Ready(AfterLinks(ForShare(plan, 0))));
    assert s2.members[0 := Entry(s2, 0)][0 := Entry(s2, 0).(enabled := true)] == s2.members[0 := Entry(s2, 0).(enabled := true)];
  }

  // One Share command for computer 0, from its sending to its connect. The endpoint is bound on the
  // way or already was.
  lemma ShareGoes(states: seq<Net>, steps: seq<Step>, plan: Plan) returns (states': seq<Net>, steps': seq<Step>)
    requires IsRun(states, steps) && Askable(states[|steps|], plan)
    ensures IsRun(states', steps')
    ensures var s := states[|steps|]; var r := states'[|steps'|]; var e := if s.endpoint.Some? then s.endpoint.value else s.nextEndpoint;
            && r == s.(plan := if s.plan.Some? then s.plan else Some(plan),
                       endpoint := Some(e), nextEndpoint := r.nextEndpoint, flags := s.flags.(bound := r.flags.bound),
                       members := s.members[0 := Entry(s, 0).(enabled := true, connects := Entry(s, 0).connects + {s.nextTask})],
                       tasks := s.tasks[s.nextTask := Connect(0, plan, e, false, false, false)],
                       nextTask := s.nextTask + 1)
  {
    var s := states[|steps|];
    states', steps' := AskGoes(states, steps, plan);
    states', steps' := BindGoes(states', steps', plan);
    var s6 := states'[|steps'|];
    assert s6.members == s.members[0 := Entry(s, 0).(enabled := true, connects := Entry(s, 0).connects + {s.nextTask})];
    var s7 := s6.(flags := s6.flags.(inFlight := 0), loop := Receiving);
    Grow(states', steps', Advance(YES), s7);
    states', steps' := states' + [s7], steps' + [Advance(YES)];
  }

  lemma AskGoes(states: seq<Net>, steps: seq<Step>, plan: Plan) returns (states': seq<Net>, steps': seq<Step>)
    requires IsRun(states, steps) && Askable(states[|steps|], plan)
    ensures IsRun(states', steps') && states'[|steps'|] == Asked(states[|steps|], plan)
  {
    hide IsRun;
    hide Apply;
    hide Enabled;
    RunLength(states, steps);
    var s := states[|steps|];
    AskedTwo(s, plan);
    var s1 := s.(queue := [Share(plan, 0)], flags := s.flags.(inFlight := 1));
    Grow(states, steps, Send(Share(plan, 0)), s1);
    states', steps' := states + [s1], steps + [Send(Share(plan, 0))];
    var s2 := s1.(queue := [], plan := if s.plan.Some? then s.plan else Some(plan), loop := Ready(AfterPlan(ForShare(plan, 0))));
    Grow(states', steps', Receive(YES), s2);
    states', steps' := states' + [s2], steps' + [Receive(YES)];
    AskedMore(s2, plan);
    var s3 := Put(s2, 0, Entry(s2, 0)).(loop := Ready(AfterLinks(ForShare(plan, 0))));
    ReadyAdvances(s2);
    Grow(states', steps', Advance(YES), s3);
    states', steps' := states' + [s3], steps' + [Advance(YES)];
    var s4 := Put(s2, 0, Entry(s2, 0).(enabled := true)).(loop := Ready(Ensure(ForShare(plan, 0))));
    ReadyAdvances(s3);
    Grow(states', steps', Advance(YES), s4);
    states', steps' := states' + [s4], steps' + [Advance(YES)];
  }

  lemma RunLength(states: seq<Net>, steps: seq<Step>)
    requires IsRun(states, steps)
    ensures |states| == |steps| + 1
  {
  }

  lemma ReadyAdvances(s: Net)
    requires s.loop.Ready?
    ensures Enabled(s, Advance(YES))
  {
  }

  lemma BindGoes(states: seq<Net>, steps: seq<Step>, plan: Plan) returns (states': seq<Net>, steps': seq<Step>)
    requires IsRun(states, steps) && states[|steps|].loop == Ready(Ensure(ForShare(plan, 0)))
    ensures IsRun(states', steps')
    ensures var s := states[|steps|]; var r := states'[|steps'|]; var e := if s.endpoint.Some? then s.endpoint.value else s.nextEndpoint;
            && r == s.(endpoint := Some(e), nextEndpoint := r.nextEndpoint, flags := s.flags.(bound := r.flags.bound),
                       members := s.members[0 := Entry(s, 0).(connects := Entry(s, 0).connects + {s.nextTask})],
                       tasks := s.tasks[s.nextTask := Connect(0, plan, e, false, false, false)],
                       nextTask := s.nextTask + 1, loop := Ready(Then(Finish(true))))
  {
    var s := states[|steps|];
    var q := ForShare(plan, 0);
    if s.endpoint.Some? {
      var r := Spawn(s, q, s.endpoint.value);
      Grow(states, steps, Advance(YES), r);
      states', steps' := states + [r], steps + [Advance(YES)];
    } else {
      var s1 := s.(loop := Ready(Then(BindFor(q))));
      Grow(states, steps, Advance(YES), s1);
      states', steps' := states + [s1], steps + [Advance(YES)];
      var e := s.nextEndpoint;
      var r := Spawn(s1.(endpoint := Some(e), nextEndpoint := e + 1, flags := s1.flags.(bound := true)), q, e);
      Grow(states', steps', Advance(YES), r);
      states', steps' := states' + [r], steps' + [Advance(YES)];
    }
  }

  // The connect of task `t` for computer 0 joins hub 0, started for it when none runs.
  lemma AdmitGoes(states: seq<Net>, steps: seq<Step>, t: TaskId, plan: Plan) returns (states': seq<Net>, steps': seq<Step>)
    requires IsRun(states, steps)
    requires var s := states[|steps|];
             && s.loop.Receiving? && s.plan == Some(plan)
             && t in s.tasks && s.tasks[t] == Connect(0, plan, s.tasks[t].endpoint, false, false, false)
             && (if s.hub.None? then s.hubRuns == 0 && s.nextHub == 0
                 else s.hub.value == RunningHub(0, plan.agreement) && 0 in s.hubs && s.hubs[0].phase.Open?)
    ensures IsRun(states', steps')
    ensures var s := states[|steps|]; var r := states'[|steps'|];
            r == Over(Joined(if s.hub.None? then HubStarted(s, plan) else s, 0, 0, plan.agreement), t)
  {
    var s := states[|steps|];
    var r := Over(Joined(if s.hub.None? then HubStarted(s, plan) else s, 0, 0, plan.agreement), t);
    Grow(states, steps, Admit(t, YES), r);
    states', steps' := states + [r], steps + [Admit(t, YES)];
  }

  // A Tick the loop has nothing to do for.
  lemma TickGoes(states: seq<Net>, steps: seq<Step>) returns (states': seq<Net>, steps': seq<Step>)
    requires IsRun(states, steps)
    requires var s := states[|steps|];
             && s.loop.Receiving? && s.queue == [Tick] && 0 in s.members && s.members[0].enabled
             && s.hub.Some? && InSession(s, 0, s.hub.value.id)
    ensures IsRun(states', steps')
    ensures states'[|steps'|] == states[|steps|].(queue := [])
  {
    var s := states[|steps|];
    var s1 := s.(queue := [], loop := Ready(Settle(false)));
    Grow(states, steps, Receive(YES), s1);
    states', steps' := states + [s1], steps + [Receive(YES)];
    assert !Resting(s1, 0) && InSession(s1, 0, s.hub.value.id);
    assert !IdleNet(s1) && !UnusedHub(s1);
    var s2 := s1.(loop := Ready(Then(Finish(false))));
    Grow(states', steps', Advance(YES), s2);
    states', steps' := states' + [s2], steps' + [Advance(YES)];
    Grow(states', steps', Advance(YES), s.(queue := []));
    states', steps' := states' + [s.(queue := [])], steps' + [Advance(YES)];
  }

  // One session of computer 0 lives in hub 0.
  lemma OneSession(plan: Plan) returns (states: seq<Net>, steps: seq<Step>)
    ensures IsRun(states, steps)
    ensures var s := states[|steps|];
            && Askable(s, plan) && s.plan == Some(plan) && s.hub == Some(RunningHub(0, plan.agreement))
            && 0 in s.hubs && s.hubs[0].phase.Open? && s.hubs[0].pumping && Pending(s, 0, 0) == [0]
            && s.nextTask == 1 && s.nextSession == 1 && s.inOrder
            && Entry(s, 0).session == Some(Session(0, 0, plan.agreement)) && Entry(s, 0).owed == []
  {
    assert IsRun([START], []);
    states, steps := ShareGoes([START], [], plan);
    states, steps := AdmitGoes(states, steps, 0, plan);
    states, steps := TickGoes(states, steps);
  }

  // Session 1 replaced session 0 in the same hub.
  lemma TwoSessions(plan: Plan) returns (states: seq<Net>, steps: seq<Step>)
    ensures IsRun(states, steps)
    ensures var s := states[|steps|];
            && s.loop.Receiving? && s.inOrder && 0 in s.hubs && s.hubs[0].pumping && Pending(s, 0, 0) == [0, 1]
            && Entry(s, 0).session == Some(Session(0, 1, plan.agreement)) && Entry(s, 0).owed == [Owed(0, 0)]
  {
    states, steps := OneSession(plan);
    states, steps := ShareGoes(states, steps, plan);
    states, steps := AdmitGoes(states, steps, 1, plan);
  }

  // Session 1 replaced session 0 in hub 0 and is reported first: its report settles what was owed
  // for session 0, and session 0's late report then ends session 1.
  lemma LateReportEndsTheReplacement() returns (states: seq<Net>, steps: seq<Step>)
    ensures IsRun(states, steps) && |steps| >= 2
    ensures var n := |steps|; var before := states[n - 1]; var after := states[n];
            && steps[n - 2] == PeerEnded(0, 0, 1) && states[n - 2].inOrder
            && steps[n - 1] == PeerEnded(0, 0, 0) && Pending(before, 0, 0) == [0]
            && Entry(before, 0).session.Some? && Entry(before, 0).session.value.id == 1
            && Entry(after, 0).session.None?
  {
    states, steps := TwoSessions(Plan(1, 10));
    var s := states[|steps|];
    var s1 := Reported(s, 0, 0, 1);
    assert Entry(s1, 0).owed == [] && Pending(s1, 0, 0) == [0];
    Grow(states, steps, PeerEnded(0, 0, 1), s1);
    states, steps := states + [s1], steps + [PeerEnded(0, 0, 1)];
    var s2 := Reported(s1, 0, 0, 0);
    Grow(states, steps, PeerEnded(0, 0, 0), s2);
    states, steps := states + [s2], steps + [PeerEnded(0, 0, 0)];
  }
}
