/**
  What a process starts on boot: the agents of the tasks whose instructions the one before it held
  back, and of those whose run it died in the middle of. The second pass reads tasks and messages
  anew, beside the consumers the first has started.
*/
module BootRecovery {
  import opened Basics
  import opened InboxMemory
  import Decisions

  type AgentId = nat

  /** A task row; agent 0 is no agent. `byRuntime` says its stop was recorded as the runtime's own. */
  datatype Task = Task(id: string, agent: AgentId, status: Decisions.Status, byRuntime: bool)

  /** A message row; time 0 is no time. */
  datatype Message = Message(id: MsgId, agent: AgentId, task: string, status: Status, startedAt: int, createdAt: int)

  predicate InStatus(messages: seq<Message>, agent: AgentId, status: Status) {
    exists i | 0 <= i < |messages| :: messages[i].agent == agent && messages[i].status == status
  }

  /** A message that a process was running for this task, or for no task it names. */
  predicate IsCut(m: Message, t: Task) {
    m.agent == t.agent && m.status == Running && (t.id == "" || m.task == "" || m.task == t.id)
  }

  function CutAt(m: Message): int {
    if m.startedAt == 0 then m.createdAt else m.startedAt
  }

  predicate WasCut(messages: seq<Message>, t: Task) {
    exists i | 0 <= i < |messages| :: IsCut(messages[i], t)
  }

  /** The latest time this task's run was cut, when it was. */
  ghost predicate IsCutSince(messages: seq<Message>, t: Task, at: Option<int>) {
    match at
    case None => !WasCut(messages, t)
    case Some(time) =>
      && (exists i :: 0 <= i < |messages| && IsCut(messages[i], t) && CutAt(messages[i]) == time)
      && forall i | 0 <= i < |messages| && IsCut(messages[i], t) :: CutAt(messages[i]) <= time
  }

  /** No cut of this task's run is too old: `maxAge` of zero or less bounds nothing. */
  predicate Young(messages: seq<Message>, t: Task, now: int, maxAge: int) {
    maxAge <= 0 || exists i | 0 <= i < |messages| :: IsCut(messages[i], t) && now - CutAt(messages[i]) <= maxAge
  }

  predicate IsOpenTask(t: Task) {
    t.status == Decisions.Pending || t.status == Decisions.Running
  }

  /** A person's stop is a decision; the runtime's own is a cut. */
  predicate ResumableAfterCut(t: Task) {
    IsOpenTask(t) || (t.status == Decisions.Stopped && t.byRuntime)
  }

  /** The first pass picks the task up. */
  predicate PicksAccepted(messages: seq<Message>, t: Task) {
    t.agent != 0 && IsOpenTask(t) && InStatus(messages, t.agent, Queued) && !InStatus(messages, t.agent, Running)
  }

  /** The second pass picks the task up. */
  predicate PicksInterrupted(messages: seq<Message>, t: Task, now: int, maxAge: int) {
    t.agent != 0 && ResumableAfterCut(t) && WasCut(messages, t) && Young(messages, t, now, maxAge)
  }

  // ---- the passes ------------------------------------------------------------------------

  method InterruptedRunSince(messages: seq<Message>, t: Task) returns (at: Option<int>)
    ensures IsCutSince(messages, t, at)
  {
    at := None;
    for i := 0 to |messages|
      invariant IsCutSince(messages[..i], t, at)
    {
      CutSinceGrows(messages[..i], t, at, messages[i]);
      assert messages[..i + 1] == messages[..i] + [messages[i]];
      if IsCut(messages[i], t) && (at == None || CutAt(messages[i]) > at.value) {
        at := Some(CutAt(messages[i]));
      }
    }
    assert messages[..|messages|] == messages;
  }

  lemma CutSinceGrows(messages: seq<Message>, t: Task, at: Option<int>, m: Message)
    requires IsCutSince(messages, t, at)
    ensures IsCutSince(messages + [m], t,
                       if IsCut(m, t) && (at == None || CutAt(m) > at.value) then Some(CutAt(m)) else at)
  {
    var all := messages + [m];
    if at.Some? {
      var i :| 0 <= i < |messages| && IsCut(messages[i], t) && CutAt(messages[i]) == at.value;
      assert IsCut(all[i], t) && CutAt(all[i]) == at.value;
    }
    assert all[|messages|] == m;
    forall i | 0 <= i < |messages| && IsCut(all[i], t) ensures WasCut(messages, t) {
      assert IsCut(messages[i], t);
    }
  }

  lemma YoungIsLatest(messages: seq<Message>, t: Task, at: Option<int>, now: int, maxAge: int)
    requires IsCutSince(messages, t, at)
    ensures WasCut(messages, t) == at.Some?
    ensures at.Some? ==> (Young(messages, t, now, maxAge) <==> !(maxAge > 0 && now - at.value > maxAge))
  {
    if at.Some? {
      var i :| 0 <= i < |messages| && IsCut(messages[i], t) && CutAt(messages[i]) == at.value;
    }
  }

  method HasStatus(messages: seq<Message>, agent: AgentId, status: Status) returns (found: bool)
    ensures found == InStatus(messages, agent, status)
  {
    for i := 0 to |messages|
      invariant forall k | 0 <= k < i :: !(messages[k].agent == agent && messages[k].status == status)
    {
      if messages[i].agent == agent && messages[i].status == status {
        return true;
      }
    }
    found := false;
  }

  /** The tasks, by position, that `picks` holds of - in order. */
  ghost predicate ArePicked(picked: seq<nat>, tasks: seq<Task>, picks: Task -> bool) {
    && (forall i, k | 0 <= i < k < |picked| :: picked[i] < picked[k])
    && (forall i :: i in picked <==> 0 <= i < |tasks| && picks(tasks[i]))
  }

  lemma OneMorePicked(picked: seq<nat>, tasks: seq<Task>, picks: Task -> bool, t: Task)
    requires ArePicked(picked, tasks, picks)
    ensures ArePicked(if picks(t) then picked + [|tasks|] else picked, tasks + [t], picks)
  {
    assert forall i | 0 <= i < |tasks| :: (tasks + [t])[i] == tasks[i];
    assert forall i | 0 <= i < |picked| :: picked[i] in picked;
  }

  /** Starts what a drain of the process before held back: queued, never started. */
  method ResumeAcceptedInstructions(tasks: seq<Task>, messages: seq<Message>) returns (picked: seq<nat>)
    ensures ArePicked(picked, tasks, t => PicksAccepted(messages, t))
  {
    picked := [];
    ghost var picks := (t: Task) => PicksAccepted(messages, t);
    for i := 0 to |tasks|
      invariant ArePicked(picked, tasks[..i], picks)
    {
      var t := tasks[i];
      OneMorePicked(picked, tasks[..i], picks, t);
      assert tasks[..i + 1] == tasks[..i] + [t];
      if t.agent == 0 || !IsOpenTask(t) {
        continue;
      }
      var queued := HasStatus(messages, t.agent, Queued);
      if !queued {
        continue;
      }
      var interrupted := HasStatus(messages, t.agent, Running);
      if !interrupted {
        picked := picked + [i];
      }
    }
    assert tasks[..|tasks|] == tasks;
  }

  /** Starts the runs the process before died in the middle of, unless they are switched off or too old. */
  method ResumeInterruptedRuns(tasks: seq<Task>, messages: seq<Message>, enabled: bool, now: int, maxAge: int) returns (picked: seq<nat>)
    ensures ArePicked(picked, tasks, t => enabled && PicksInterrupted(messages, t, now, maxAge))
  {
    picked := [];
    if !enabled {
      return;
    }
    ghost var picks := (t: Task) => enabled && PicksInterrupted(messages, t, now, maxAge);
    for i := 0 to |tasks|
      invariant ArePicked(picked, tasks[..i], picks)
    {
      var t := tasks[i];
      OneMorePicked(picked, tasks[..i], picks, t);
      assert tasks[..i + 1] == tasks[..i] + [t];
      if t.agent == 0 || !ResumableAfterCut(t) {
        continue;
      }
      var at := InterruptedRunSince(messages, t);
      YoungIsLatest(messages, t, at, now, maxAge);
      if at == None || (maxAge > 0 && now - at.value > maxAge) {
        continue;
      }
      picked := picked + [i];
    }
    assert tasks[..|tasks|] == tasks;
  }

  /** The agents whose consumer the picks start. */
  function AgentsOf(tasks: seq<Task>, picked: seq<nat>): set<AgentId> {
    set i | i in picked && i < |tasks| :: tasks[i].agent
  }

  /** The first pass starts this agent. */
  predicate FirstPassStarts(tasks: seq<Task>, messages: seq<Message>, agent: AgentId) {
    agent != 0 && !InStatus(messages, agent, Running) && InStatus(messages, agent, Queued) && HasOpenTask(tasks, agent)
  }

  /** The two readings agree on this agent. */
  ghost predicate SameOf(tasks: seq<Task>, messages: seq<Message>, tasks': seq<Task>, messages': seq<Message>, agent: AgentId) {
    && (forall t: Task | t.agent == agent :: t in tasks <==> t in tasks')
    && (forall m: Message | m.agent == agent :: m in messages <==> m in messages')
  }

  /** Between the two passes the agents the first has started may do anything; what the others have
      stays as it was read. */
  ghost predicate OthersStay(tasks: seq<Task>, messages: seq<Message>, tasks': seq<Task>, messages': seq<Message>) {
    forall agent | !FirstPassStarts(tasks, messages, agent) :: SameOf(tasks, messages, tasks', messages', agent)
  }

  /**
    Both passes, one after the other: whose consumer they start. That is decided by the first reading
    alone; an agent whose live claim the second pass takes for a cut has its consumer already.
  */
  method Boot(tasks: seq<Task>, messages: seq<Message>, tasks': seq<Task>, messages': seq<Message>, enabled: bool, now: int, maxAge: int)
    returns (accepted: seq<nat>, interrupted: seq<nat>, started: set<AgentId>)
    requires OthersStay(tasks, messages, tasks', messages')
    ensures forall i | i in accepted ::
              i < |tasks| && (tasks[i].status == Decisions.Pending || tasks[i].status == Decisions.Running)
    ensures forall i | i in interrupted ::
              i < |tasks'| && (tasks'[i].status == Decisions.Pending || tasks'[i].status == Decisions.Running ||
                               (tasks'[i].status == Decisions.Stopped && tasks'[i].byRuntime))
    ensures messages' == messages && tasks' == tasks ==> forall i :: !(i in accepted && i in interrupted)
    ensures forall agent :: agent in started <==> IsStarted(tasks, messages, enabled, now, maxAge, agent)
  {
    accepted := ResumeAcceptedInstructions(tasks, messages);
    interrupted := ResumeInterruptedRuns(tasks', messages', enabled, now, maxAge);
    started := AgentsOf(tasks, accepted) + AgentsOf(tasks', interrupted);
    if messages' == messages && tasks' == tasks {
      forall i | i in accepted && i in interrupted ensures false {
        NeverBoth(messages, tasks[i], now, maxAge);
      }
    }
    forall agent ensures agent in started <==> IsStarted(tasks, messages, enabled, now, maxAge, agent) {
      PickedIsStarted(tasks, messages, tasks', messages', enabled, now, maxAge, accepted, interrupted, agent);
    }
  }

  // ---- whose consumer is started -----------------------------------------------------------

  predicate HasOpenTask(tasks: seq<Task>, agent: AgentId) {
    exists i | 0 <= i < |tasks| ::
      tasks[i].agent == agent && (tasks[i].status == Decisions.Pending || tasks[i].status == Decisions.Running)
  }

  /** Message `m` was being run for `t` - or for no task it names - and not too long ago, counted from when
      it began or, if that is not known, from when it was written; and `t` is open, or was stopped by the
      runtime itself. */
  predicate GoesOn(t: Task, m: Message, now: int, maxAge: int) {
    && (t.status == Decisions.Pending || t.status == Decisions.Running || (t.status == Decisions.Stopped && t.byRuntime))
    && m.agent == t.agent && m.status == Running && (t.id == "" || m.task == "" || m.task == t.id)
    && (maxAge <= 0 || now - (if m.startedAt == 0 then m.createdAt else m.startedAt) <= maxAge)
  }

  predicate SomeRunGoesOn(tasks: seq<Task>, messages: seq<Message>, now: int, maxAge: int, agent: AgentId) {
    exists i, k | 0 <= i < |tasks| && 0 <= k < |messages| :: tasks[i].agent == agent && GoesOn(tasks[i], messages[k], now, maxAge)
  }

  /** An agent nothing was running on is started for its queued messages if it has an open task; one
      that was cut is started only for a run that goes on, whichever of its tasks that is. */
  predicate IsStarted(tasks: seq<Task>, messages: seq<Message>, enabled: bool, now: int, maxAge: int, agent: AgentId) {
    agent != 0 &&
    if InStatus(messages, agent, Running) then enabled && SomeRunGoesOn(tasks, messages, now, maxAge, agent)
    else InStatus(messages, agent, Queued) && HasOpenTask(tasks, agent)
  }

  /** No task is started twice: what the first pass takes, the second leaves alone. */
  lemma NeverBoth(messages: seq<Message>, t: Task, now: int, maxAge: int)
    ensures !(PicksAccepted(messages, t) && PicksInterrupted(messages, t, now, maxAge))
  {
  }

  lemma AcceptedOfAnAgent(tasks: seq<Task>, messages: seq<Message>, accepted: seq<nat>, agent: AgentId)
    requires ArePicked(accepted, tasks, t => PicksAccepted(messages, t))
    ensures agent in AgentsOf(tasks, accepted) <==> FirstPassStarts(tasks, messages, agent)
  {
    if FirstPassStarts(tasks, messages, agent) {
      var i: nat :| i < |tasks| && tasks[i].agent == agent && IsOpenTask(tasks[i]);
      assert i in accepted;
    }
  }

  lemma InterruptedOfAnAgent(tasks: seq<Task>, messages: seq<Message>, enabled: bool, now: int, maxAge: int,
                                                interrupted: seq<nat>, agent: AgentId)
    requires ArePicked(interrupted, tasks, t => enabled && PicksInterrupted(messages, t, now, maxAge))
    ensures agent in AgentsOf(tasks, interrupted) <==> agent != 0 && enabled && SomeRunGoesOn(tasks, messages, now, maxAge, agent)
  {
    if agent in AgentsOf(tasks, interrupted) {
      var i: nat :| i in interrupted && i < |tasks| && tasks[i].agent == agent;
      PickedGoesOn(messages, tasks[i], now, maxAge);
    }
    if agent != 0 && enabled && SomeRunGoesOn(tasks, messages, now, maxAge, agent) {
      var i: nat, k: nat :| i < |tasks| && k < |messages| && tasks[i].agent == agent && GoesOn(tasks[i], messages[k], now, maxAge);
      PickedGoesOn(messages, tasks[i], now, maxAge);
      assert i in interrupted;
    }
  }

  lemma PickedGoesOn(messages: seq<Message>, t: Task, now: int, maxAge: int)
    ensures PicksInterrupted(messages, t, now, maxAge) <==>
            t.agent != 0 && exists k | 0 <= k < |messages| :: GoesOn(t, messages[k], now, maxAge)
  {
    if PicksInterrupted(messages, t, now, maxAge) {
      var k :| 0 <= k < |messages| && IsCut(messages[k], t);
      assert maxAge <= 0 ==> GoesOn(t, messages[k], now, maxAge);
    }
  }

  lemma RunningWasCut(tasks: seq<Task>, messages: seq<Message>, now: int, maxAge: int, agent: AgentId)
    requires SomeRunGoesOn(tasks, messages, now, maxAge, agent)
    ensures InStatus(messages, agent, Running)
  {
  }

  lemma SameGoesOn(tasks: seq<Task>, messages: seq<Message>, tasks': seq<Task>, messages': seq<Message>,
                                      now: int, maxAge: int, agent: AgentId)
    requires SameOf(tasks, messages, tasks', messages', agent) && SomeRunGoesOn(tasks, messages, now, maxAge, agent)
    ensures SomeRunGoesOn(tasks', messages', now, maxAge, agent)
  {
    var i, k :| 0 <= i < |tasks| && 0 <= k < |messages| && tasks[i].agent == agent && GoesOn(tasks[i], messages[k], now, maxAge);
    assert tasks[i] in tasks' && messages[k] in messages';
    var i', k' :| 0 <= i' < |tasks'| && 0 <= k' < |messages'| && tasks'[i'] == tasks[i] && messages'[k'] == messages[k];
  }

  lemma PickedIsStarted(tasks: seq<Task>, messages: seq<Message>, tasks': seq<Task>, messages': seq<Message>,
                                           enabled: bool, now: int, maxAge: int,
                                           accepted: seq<nat>, interrupted: seq<nat>, agent: AgentId)
    requires OthersStay(tasks, messages, tasks', messages')
    requires ArePicked(accepted, tasks, t => PicksAccepted(messages, t))
    requires ArePicked(interrupted, tasks', t => enabled && PicksInterrupted(messages', t, now, maxAge))
    ensures agent in AgentsOf(tasks, accepted) + AgentsOf(tasks', interrupted) <==>
            IsStarted(tasks, messages, enabled, now, maxAge, agent)
  {
    AcceptedOfAnAgent(tasks, messages, accepted, agent);
    InterruptedOfAnAgent(tasks', messages', enabled, now, maxAge, interrupted, agent);
    if !FirstPassStarts(tasks, messages, agent) {
      if SomeRunGoesOn(tasks, messages, now, maxAge, agent) {
        RunningWasCut(tasks, messages, now, maxAge, agent);
        SameGoesOn(tasks, messages, tasks', messages', now, maxAge, agent);
      }
      if SomeRunGoesOn(tasks', messages', now, maxAge, agent) {
        SameGoesOn(tasks', messages', tasks, messages, now, maxAge, agent);
        RunningWasCut(tasks, messages, now, maxAge, agent);
      }
    }
  }

  // ---- what is left without a consumer -------------------------------------------------------

  predicate HasOpenMessage(messages: seq<Message>, agent: AgentId) {
    InStatus(messages, agent, Queued) || InStatus(messages, agent, Running)
  }

  /** No run this agent was in the middle of goes on: healing is off, or each is too old, or belongs
      to a task that ended or that a person stopped, or to none of the tasks there are. */
  predicate NoRunGoesOn(tasks: seq<Task>, messages: seq<Message>, enabled: bool, now: int, maxAge: int, agent: AgentId) {
    !enabled ||
    forall i, k | 0 <= i < |tasks| && 0 <= k < |messages| && tasks[i].agent == agent && IsCut(messages[k], tasks[i]) ::
      !ResumableAfterCut(tasks[i]) || (maxAge > 0 && now - CutAt(messages[k]) > maxAge)
  }

  /** The promise is that nothing accepted is lost. For an agent with an open message it fails exactly
      when none of its cut runs goes on or, if none was cut, when none of its tasks is open any more. */
  lemma LeftWithoutAConsumer(tasks: seq<Task>, messages: seq<Message>, enabled: bool, now: int, maxAge: int, agent: AgentId)
    requires agent != 0 && HasOpenMessage(messages, agent)
    ensures !IsStarted(tasks, messages, enabled, now, maxAge, agent) <==>
            if InStatus(messages, agent, Running) then NoRunGoesOn(tasks, messages, enabled, now, maxAge, agent)
            else !HasOpenTask(tasks, agent)
  {
    if enabled && !SomeRunGoesOn(tasks, messages, now, maxAge, agent) {
      forall i, k | 0 <= i < |tasks| && 0 <= k < |messages| && tasks[i].agent == agent && IsCut(messages[k], tasks[i])
        ensures !ResumableAfterCut(tasks[i]) || (maxAge > 0 && now - CutAt(messages[k]) > maxAge)
      {
        assert !GoesOn(tasks[i], messages[k], now, maxAge);
      }
    }
  }

  /** With one task on the agent: a cut task goes on if healing is on, it may be resumed and the cut is
      young; one that was not cut has to be open still. */
  lemma OneTaskPerAgent(tasks: seq<Task>, messages: seq<Message>, i: nat, enabled: bool, now: int, maxAge: int)
    requires i < |tasks| && tasks[i].agent != 0 && HasOpenMessage(messages, tasks[i].agent)
    requires forall k | 0 <= k < |messages| && messages[k].agent == tasks[i].agent :: messages[k].task == "" || messages[k].task == tasks[i].id
    requires forall j | 0 <= j < |tasks| && tasks[j].agent == tasks[i].agent :: j == i
    ensures IsStarted(tasks, messages, enabled, now, maxAge, tasks[i].agent) <==>
            if WasCut(messages, tasks[i]) then enabled && ResumableAfterCut(tasks[i]) && Young(messages, tasks[i], now, maxAge)
            else IsOpenTask(tasks[i])
  {
    var t := tasks[i];
    PickedGoesOn(messages, t, now, maxAge);
    if InStatus(messages, t.agent, Running) {
      var k :| 0 <= k < |messages| && messages[k].agent == t.agent && messages[k].status == Running;
      assert IsCut(messages[k], t);
    }
    if exists k | 0 <= k < |messages| :: GoesOn(t, messages[k], now, maxAge) {
      var k :| 0 <= k < |messages| && GoesOn(t, messages[k], now, maxAge);
      assert SomeRunGoesOn(tasks, messages, now, maxAge, t.agent);
    }
  }

  const STOPPED_TASK: Task := Task("a", 1, Decisions.Stopped, false)
  const OPEN_TASK: Task := Task("b", 1, Decisions.Pending, false)
  const CUT_RUN: Message := Message(1, 1, "a", Running, 5, 5)
  const ACCEPTED: Message := Message(2, 1, "b", Queued, 0, 6)

  /** An agent with two tasks: the run that was cut is of one a person stopped, and the instruction
      accepted for the other stays queued with nobody started for it, however young the cut. */
  lemma AnAcceptedInstructionIsLeft(enabled: bool, now: int, maxAge: int)
    ensures HasOpenTask([STOPPED_TASK, OPEN_TASK], 1) && HasOpenMessage([CUT_RUN, ACCEPTED], 1)
    ensures !IsStarted([STOPPED_TASK, OPEN_TASK], [CUT_RUN, ACCEPTED], enabled, now, maxAge, 1)
  {
    var tasks, messages := [STOPPED_TASK, OPEN_TASK], [CUT_RUN, ACCEPTED];
    assert tasks[1] == OPEN_TASK && messages[0] == CUT_RUN && messages[1] == ACCEPTED;
    assert InStatus(messages, 1, Running) && InStatus(messages, 1, Queued);
  }
}
