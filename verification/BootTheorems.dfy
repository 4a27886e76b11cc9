/**
  What the boot passes mean in the inbox protocol: they decide who is ever started after a crash,
  and an agent nobody starts keeps its messages untouched.
*/
module BootTheorems {
  import opened Basics
  import opened InboxMemory
  import opened InboxProtocol
  import opened InboxInvariants
  import opened InboxTheorems
  import Boot = BootRecovery

  /** The rows of this agent's slice are those of the boot's snapshot. */
  ghost predicate Shows(messages: seq<Boot.Message>, agent: Boot.AgentId, rows: Rows) {
    && (forall i | 0 <= i < |messages| && messages[i].agent == agent ::
          messages[i].id in rows && rows[messages[i].id].status == messages[i].status)
    && (forall id | id in rows :: exists i :: 0 <= i < |messages| && messages[i].agent == agent && messages[i].id == id)
  }

  lemma OpenIsOpen(messages: seq<Boot.Message>, agent: Boot.AgentId, rows: Rows)
    requires Shows(messages, agent, rows)
    ensures AnyOpen(rows) <==> Boot.HasOpenMessage(messages, agent)
  {
    if AnyOpen(rows) {
      var id :| IsOpen(rows, id);
      var i :| 0 <= i < |messages| && messages[i].agent == agent && messages[i].id == id;
      assert messages[i].status == Queued || messages[i].status == Running;
    }
    if Boot.HasOpenMessage(messages, agent) {
      var i :| 0 <= i < |messages| && messages[i].agent == agent && (messages[i].status == Queued || messages[i].status == Running);
      assert IsOpen(rows, messages[i].id);
    }
  }

  /** A new process before anybody starts this agent. */
  ghost predicate Asleep(s: Sys) {
    !s.hist.started && !s.mem.held && forall t | t in s.threads :: s.threads[t].AtSwapHeld?
  }

  predicate IsBootStart(step: Step) {
    step.Start? && step.start.DoBootStart?
  }

  /** Neither a new message for the agent nor another crash: what happens is the boot's doing. */
  predicate BootOnly(steps: seq<Step>) {
    forall i | 0 <= i < |steps| :: steps[i] != Outside(DoCrash) && !(steps[i].Start? && steps[i].start.DoEnqueue?)
  }

  predicate Booted(steps: seq<Step>) {
    exists i | 0 <= i < |steps| :: IsBootStart(steps[i])
  }

  lemma AfterACrash(s: Sys)
    ensures Asleep(ApplyOutside(s, DoCrash)) && !ApplyOutside(s, DoCrash).mem.paused
  {
  }

  /** An agent nobody starts sleeps on, whatever the drain, callers and other agents do. */
  lemma SleepsOn(s: Sys, step: Step)
    requires Enabled(s, step) && Asleep(s) && BootOnly([step]) && !IsBootStart(step)
    ensures Asleep(Apply(s, step)) && Apply(s, step).mem.rows == s.mem.rows && Apply(s, step).hist.handled == s.hist.handled
  {
    assert [step][0] == step;
    match step
    case Start(t, a) => SleepsOnStart(s, t, a);
    case Drain(t, a) => NobodyDrains(s, t, a);
    case Outside(a) => SleepsOnOutside(s, a);
  }

  lemma NobodyDrains(s: Sys, t: Tid, a: DrainAction)
    requires Asleep(s)
    ensures !DrainEnabled(s, t, a)
  {
  }

  lemma SleepsOnOutside(s: Sys, a: OutsideAction)
    requires OutsideEnabled(s, a) && Asleep(s) && !a.DoCrash?
    ensures Asleep(ApplyOutside(s, a)) && ApplyOutside(s, a).mem.rows == s.mem.rows
    ensures ApplyOutside(s, a).hist.handled == s.hist.handled
  {
  }

  lemma SleepsOnStart(s: Sys, t: Tid, a: StartAction)
    requires StartEnabled(s, t, a) && Asleep(s) && !a.DoEnqueue? && !a.DoBootStart?
    ensures Asleep(ApplyStart(s, t, a)) && ApplyStart(s, t, a).mem.rows == s.mem.rows
    ensures ApplyStart(s, t, a).hist.handled == s.hist.handled
  {
  }

  lemma {:induction false} NeverStarted(s: Sys, steps: seq<Step>, s': Sys)
    requires Asleep(s) && Run(s, steps, s') && BootOnly(steps) && !Booted(steps)
    ensures Asleep(s') && s'.mem.rows == s.mem.rows && s'.hist.handled == s.hist.handled
    decreases |steps|
  {
    if steps != [] {
      assert !IsBootStart(steps[0]) && [steps[0]][0] == steps[0];
      SleepsOn(s, steps[0]);
      TailIsBoot(steps);
      NeverStarted(Apply(s, steps[0]), steps[1..], s');
    }
  }

  lemma TailIsBoot(steps: seq<Step>)
    requires steps != [] && BootOnly(steps)
    ensures BootOnly(steps[1..]) && (Booted(steps) <==> IsBootStart(steps[0]) || Booted(steps[1..]))
  {
    forall i | 0 <= i < |steps[1..]| ensures steps[1..][i] == steps[i + 1] {
    }
    if Booted(steps) {
      var i :| 0 <= i < |steps| && IsBootStart(steps[i]);
      assert i > 0 ==> IsBootStart(steps[1..][i - 1]);
    }
  }

  lemma {:induction false} StaysStarted(s: Sys, steps: seq<Step>, s': Sys)
    requires Run(s, steps, s') && BootOnly(steps) && (s.hist.started || Booted(steps))
    ensures s'.hist.started
    decreases |steps|
  {
    if steps != [] {
      TailIsBoot(steps);
      StartedOnce(s, steps[0]);
      StaysStarted(Apply(s, steps[0]), steps[1..], s');
    }
  }

  lemma StartedOnce(s: Sys, step: Step)
    requires Enabled(s, step) && step != Outside(DoCrash)
    ensures s.hist.started || IsBootStart(step) ==> Apply(s, step).hist.started
  {
    match step
    case Start(t, a) => StartStarts(s, t, a);
    case Drain(t, a) => assert NextHist(s.mem, s.hist, s.threads[t], a).started == s.hist.started;
    case Outside(a) =>
  }

  lemma StartStarts(s: Sys, t: Tid, a: StartAction)
    requires StartEnabled(s, t, a)
    ensures s.hist.started || a.DoBootStart? ==> ApplyStart(s, t, a).hist.started
  {
  }

  lemma {:induction false} StillReachable(s: Sys, steps: seq<Step>, s': Sys)
    requires Reachable(s) && Run(s, steps, s')
    ensures Reachable(s')
    decreases |steps|
  {
    if steps != [] {
      Reach(s, steps[0]);
      StillReachable(Apply(s, steps[0]), steps[1..], s');
    }
  }

  /**
    The boot decides. A process comes up after a crash, on the rows `messages` shows, starts the agent
    if the passes say so - once or more - and comes to rest without anybody else having addressed the
    agent: then the agent has an open message left exactly if it was not started and had one before -
    untouched, in that case - or if a start lapsed on the way.
  */
  lemma {:induction false} BootDecides(tasks: seq<Boot.Task>, messages: seq<Boot.Message>, enabled: bool, now: int, maxAge: int,
                                       agent: Boot.AgentId, s: Sys, steps: seq<Step>, s': Sys)
    requires Reachable(s) && Shows(messages, agent, s.mem.rows)
    requires Run(ApplyOutside(s, DoCrash), steps, s') && BootOnly(steps) && Quiescent(s')
    requires Booted(steps) <==> Boot.IsStarted(tasks, messages, enabled, now, maxAge, agent)
    ensures AnyOpen(s'.mem.rows) <==>
            if Boot.IsStarted(tasks, messages, enabled, now, maxAge, agent) then s'.hist.lapsed
            else Boot.HasOpenMessage(messages, agent)
    ensures !Boot.IsStarted(tasks, messages, enabled, now, maxAge, agent) ==>
            s'.mem.rows == s.mem.rows && s'.hist.handled == s.hist.handled && !s'.hist.lapsed
  {
    var s0 := Apply(s, Outside(DoCrash));
    AfterACrash(s);
    Reach(s, Outside(DoCrash));
    OpenIsOpen(messages, agent, s.mem.rows);
    StillReachable(s0, steps, s');
    if Booted(steps) {
      StaysStarted(s0, steps, s');
      StrandedExactlyWhenLapsed(s');
    } else {
      NeverStarted(s0, steps, s');
      InvReachable(s');
    }
  }

  /** What is left of an open message: none of the agent's cut runs went on or, if none was cut, none of
      its tasks was open any more - or the start lapsed. */
  lemma {:induction false} BootLeavesExactly(tasks: seq<Boot.Task>, messages: seq<Boot.Message>, enabled: bool, now: int, maxAge: int,
                                             agent: Boot.AgentId, s: Sys, steps: seq<Step>, s': Sys)
    requires Reachable(s) && Shows(messages, agent, s.mem.rows)
    requires Run(ApplyOutside(s, DoCrash), steps, s') && BootOnly(steps) && Quiescent(s')
    requires Booted(steps) <==> Boot.IsStarted(tasks, messages, enabled, now, maxAge, agent)
    requires agent != 0 && Boot.HasOpenMessage(messages, agent)
    ensures AnyOpen(s'.mem.rows) <==>
            s'.hist.lapsed ||
            if Boot.InStatus(messages, agent, Running) then Boot.NoRunGoesOn(tasks, messages, enabled, now, maxAge, agent)
            else !Boot.HasOpenTask(tasks, agent)
  {
    BootDecides(tasks, messages, enabled, now, maxAge, agent, s, steps, s');
    Boot.LeftWithoutAConsumer(tasks, messages, enabled, now, maxAge, agent);
  }

  /** Started again while its consumer is at work, an agent goes on as it was: the flag is taken. */
  lemma ASecondStartIsIdle(s: Sys, t: Tid, u: Tid) returns (s': Sys)
    requires t !in s.threads && u !in s.threads && t != u && s.mem.running && !s.mem.paused
    ensures Run(s, [Start(t, DoBootStart), Start(t, DoHoldStart), Start(t, DoTestAndSet(u))], s')
    ensures s' == s.(hist := s.hist.(started := true, lapsed := TestAndSetLapses(s)))
  {
    var s1 := Apply(s, Start(t, DoBootStart));
    var s2 := Apply(s1, Start(t, DoHoldStart));
    s' := Apply(s2, Start(t, DoTestAndSet(u)));
    assert s'.threads == s.threads;
    assert TestAndSetLapses(s2) == TestAndSetLapses(s);
    var a, b, c := Start(t, DoBootStart), Start(t, DoHoldStart), Start(t, DoTestAndSet(u));
    assert [a, b, c][1..] == [b, c] && [b, c][1..] == [c] && [c][1..] == [];
    assert Run(s2, [c], s') && Run(s1, [b, c], s');
  }

  // ---- one task, nothing cut ---------------------------------------------------------------------

  /** The run of the first instruction is in its handler when a drain begins and a second one arrives. */
  lemma SecondArrives() returns (s: Sys)
    ensures Reachable(s) && s.mem.paused && s.mem.held && s.mem.running && s.hist.owner == Some(1)
    ensures s.threads == map[1 := Handling(1, 0, false)] && s.mem.gen == 2
    ensures s.mem.rows == map[0 := Row(Instruction, Running), 1 := Row(Instruction, Queued)]
  {
    s := FirstRuns();
    Reach(s, Outside(DoBeginPause));
    s := Apply(s, Outside(DoBeginPause));
    Reach(s, Start(2, DoEnqueue(Instruction, false)));
    s := Apply(s, Start(2, DoEnqueue(Instruction, false)));
    Reach(s, Start(2, DoHoldStart));
    s := Apply(s, Start(2, DoHoldStart));
  }

  lemma FirstRuns() returns (s: Sys)
    ensures Reachable(s) && s.mem.running && s.hist.owner == Some(1) && s.mem.gen == 1 && s.mem.nextId == 1
    ensures s.threads == map[1 := Handling(1, 0, false)] && s.mem.rows == map[0 := Row(Instruction, Running)]
  {
    s := FirstClaim();
    Reach(s, Drain(1, DoHoldCheck));
    s := Apply(s, Drain(1, DoHoldCheck));
    Reach(s, Drain(1, DoTakeWaiter));
    s := Apply(s, Drain(1, DoTakeWaiter));
    Reach(s, Drain(1, DoHandle));
    s := Apply(s, Drain(1, DoHandle));
  }

  /** The first run ends, and the consumer claims the second instruction. */
  lemma SecondIsClaimed() returns (s: Sys)
    ensures Reachable(s) && s.mem.paused && s.threads == map[1 := AtHoldCheck(1, 1)]
    ensures s.mem.rows == map[0 := Row(Instruction, Done), 1 := Row(Instruction, Running)]
  {
    s := SecondArrives();
    Reach(s, Drain(1, DoFinish(false, false)));
    s := Apply(s, Drain(1, DoFinish(false, false)));
    assert IsNextClaim(s.mem.rows, Some(1));
    Reach(s, Drain(1, DoClaim(Some(1))));
    s := Apply(s, Drain(1, DoClaim(Some(1))));
  }

  /** It puts it back. */
  lemma SecondIsPutBack() returns (s: Sys)
    ensures Reachable(s) && s.mem.rows == map[0 := Row(Instruction, Done), 1 := Row(Instruction, Queued)]
  {
    s := SecondIsClaimed();
    Reach(s, Drain(1, DoHoldCheck));
    s := Apply(s, Drain(1, DoHoldCheck));
    Reach(s, Drain(1, DoPutBack));
    s := Apply(s, Drain(1, DoPutBack));
  }

  const ENDED_RUN: Boot.Message := Boot.Message(0, 1, "a", Done, 1, 1)
  const ACCEPTED_WHILE_DRAINING: Boot.Message := Boot.Message(1, 1, "a", Queued, 0, 2)

  /** One task on one agent and nothing cut. An instruction arrives during a drain while one of the same
      task runs; that run writes the task's end, whatever it is, and the process ends. The next one
      starts nobody, and comes to rest with the instruction queued. */
  lemma AnInstructionOfAnEndedTaskIsLeft(t: Boot.Task, enabled: bool, now: int, maxAge: int)
    requires t.agent == 1 && !Boot.IsOpenTask(t)
    ensures var messages := [ENDED_RUN, ACCEPTED_WHILE_DRAINING];
            && !Boot.IsStarted([t], messages, enabled, now, maxAge, 1)
            && exists s :: Reachable(s) && Shows(messages, 1, s.mem.rows) && IsQueued(s.mem.rows, 1) &&
                           Quiescent(ApplyOutside(s, DoCrash))
  {
    var s := SecondIsPutBack();
    var messages := [ENDED_RUN, ACCEPTED_WHILE_DRAINING];
    assert messages[0] == ENDED_RUN && messages[1] == ACCEPTED_WHILE_DRAINING;
    assert Shows(messages, 1, s.mem.rows);
    assert [t][0] == t;
  }
}
