/**
  The confirmation gate of an agent that must plan first, over the whole history of its
  messages. The agent's loop pauses on plans, releases confirmed ones and dispatches the rest;
  every dispatched plan runs on a worker of its own, which goes on even after a cancelled loop
  has left it. Steps of all of them interleave freely; `log` records what happened.

  The gate lives in memory: a restart ends every worker, forgets the pending plan and its
  confirmation, and with them that this agent has to plan first at all. What is confirmed is
  therefore a matter of the process, and `log` shows the restarts.
*/
module ApprovalGate {
  import opened Basics
  import opened Text
  import opened PlanLineage
  import opened Verification
  import opened Decisions

  /** A plan the agent paused on; `at` is where the log says so. */
  datatype PausedPlan = PausedPlan(at: nat, decision: Decision)

  datatype Gate = Gate(required: bool, pending: Option<PausedPlan>, approved: bool)

  /** `Paused` keeps what the plan was checked against before it was recorded. */
  datatype Event =
    | Paused(plan: PausedPlan, reg: Registry, first: bool)
    | Approved
    | Released(plan: PausedPlan)
    | StepRan(worker: nat, index: nat)
    | Restarted

  /** One plan being executed in process `process`, up to its action `next`; `from` is the confirmed plan
      it is, if it is one, and where the log says it was confirmed and released. */
  datatype Worker = Worker(decision: Decision, from: Option<Confirmed>, process: nat, next: nat)

  datatype Confirmed = Confirmed(plan: PausedPlan, approvedAt: nat, releasedAt: nat)

  /** `process` counts from 0, the process that initialised the agent; `asked` is whether it was asked to plan first. */
  datatype Sys = Sys(asked: bool, process: nat, gate: Gate, approvedAt: nat, workers: seq<Worker>, log: seq<Event>)

  function Init(asked: bool): Sys {
    Sys(asked, 0, Gate(asked, None, false), 0, [], [])
  }

  predicate NeedsApproval(g: Gate, d: Decision) {
    g.required && !g.approved && d.kind == PlanKind
  }

  /** What a decision must pass before its plan is written; `first` is the run's first cycle. */
  predicate Accepted(reg: Registry, d: Decision, first: bool) {
    RulesOk(d) && LineageOk(reg, d.actions) && (first ==> ContractOk(reg, d.actions, d.contract))
  }

  // ---- sections ------------------------------------------------------------------------

  /** An approval message is processed: it means something only while a plan is pending. */
  function Approve(g: Gate): Gate {
    g.(approved := g.approved || g.pending.Some?)
  }

  predicate CanRelease(g: Gate) {
    g.approved && g.pending.Some?
  }

  function Release(g: Gate): Gate {
    g.(pending := None, approved := false)
  }

  function Pause(g: Gate, p: PausedPlan): Gate {
    g.(pending := Some(p))
  }

  /** The gate of a handle rebuilt from the agent's row, which keeps nothing of it. */
  const RESTORED: Gate := Gate(false, None, false)

  // ---- steps -----------------------------------------------------------------------------

  datatype Step =
    | DoMessage(isApproval: bool)
    | DoRelease
    | DoDecide(reg: Registry, decision: Decision, first: bool)
    | DoWork(worker: nat)
    | DoRestart

  /** A decision is what a reasoner can answer: one of the four types. */
  predicate Enabled(s: Sys, step: Step) {
    match step
    case DoMessage(_) => true
    case DoRelease => CanRelease(s.gate)
    case DoDecide(_, d, _) => !CanRelease(s.gate) && IsTyped(d)
    case DoWork(w) =>
      w < |s.workers| && s.workers[w].process == s.process && s.workers[w].next < |s.workers[w].decision.actions|
    case DoRestart => true
  }

  function Apply(s: Sys, step: Step): Sys
    requires Enabled(s, step)
  {
    match step
    case DoMessage(isApproval) => if isApproval && s.gate.pending.Some? then ApplyApproval(s) else s
    case DoRelease => ApplyRelease(s)
    case DoDecide(reg, d, first) => if Accepted(reg, d, first) then ApplyDecision(s, reg, d, first) else s
    case DoWork(w) => ApplyWork(s, w)
    case DoRestart => ApplyRestart(s)
  }

  function ApplyApproval(s: Sys): Sys {
    s.(gate := Approve(s.gate), approvedAt := |s.log|, log := s.log + [Approved])
  }

  function ApplyRelease(s: Sys): Sys
    requires CanRelease(s.gate)
  {
    var plan := s.gate.pending.value;
    s.(gate := Release(s.gate),
       workers := s.workers + [Worker(plan.decision, Some(Confirmed(plan, s.approvedAt, |s.log|)), s.process, 0)],
       log := s.log + [Released(plan)])
  }

  function ApplyDecision(s: Sys, reg: Registry, d: Decision, first: bool): Sys {
    if NeedsApproval(s.gate, d) then
      var plan := PausedPlan(|s.log|, d);
      s.(gate := Pause(s.gate, plan), log := s.log + [Paused(plan, reg, first)])
    else s.(workers := s.workers + [Worker(d, None, s.process, 0)])
  }

  function ApplyWork(s: Sys, w: nat): Sys
    requires Enabled(s, DoWork(w))
  {
    var worker := s.workers[w];
    s.(workers := s.workers[w := worker.(next := worker.next + 1)],
       log := if worker.decision.actions[worker.next].Nil? then s.log else s.log + [StepRan(w, worker.next)])
  }

  function ApplyRestart(s: Sys): Sys {
    s.(process := s.process + 1, gate := RESTORED, log := s.log + [Restarted])
  }

  ghost predicate Run(s: Sys, steps: seq<Step>, s': Sys)
    decreases |steps|
  {
    if steps == [] then s' == s
    else Enabled(s, steps[0]) && Run(Apply(s, steps[0]), steps[1..], s')
  }

  ghost predicate Reachable(asked: bool, s: Sys) {
    exists steps :: Run(Init(asked), steps, s)
  }

  // ---- what the log says -------------------------------------------------------------------

  /** The plan that is pending after a log: the last one paused on, unless it was released or forgotten. */
  function PendingAfter(log: seq<Event>): Option<PausedPlan> {
    if log == [] then None
    else
      match log[|log| - 1]
      case Paused(p, _, _) => Some(p)
      case Released(_) => None
      case Restarted => None
      case _ => PendingAfter(log[..|log| - 1])
  }

  function Restarts(log: seq<Event>): nat {
    if log == [] then 0 else Restarts(log[..|log| - 1]) + if log[|log| - 1].Restarted? then 1 else 0
  }

  /** At `plan.at` the agent paused on this plan, which had passed its checks. */
  ghost predicate PausedOn(log: seq<Event>, plan: PausedPlan) {
    plan.at < |log| && log[plan.at].Paused? && log[plan.at].plan == plan &&
    Accepted(log[plan.at].reg, plan.decision, log[plan.at].first)
  }

  /** `c` is a plan that was checked and paused on, later confirmed while it was the one pending, and
      after that released - the pending one still. */
  ghost predicate WasConfirmed(log: seq<Event>, c: Confirmed) {
    && c.plan.at < c.approvedAt < c.releasedAt < |log|
    && PausedOn(log, c.plan)
    && log[c.approvedAt] == Approved && PendingAfter(log[..c.approvedAt]) == Some(c.plan)
    && log[c.releasedAt] == Released(c.plan) && PendingAfter(log[..c.releasedAt]) == Some(c.plan)
  }

  ghost predicate GateOk(s: Sys) {
    && s.process == Restarts(s.log)
    && s.gate.required == (s.asked && s.process == 0)
    && s.gate.pending == PendingAfter(s.log)
    && (s.gate.pending.Some? ==> PausedOn(s.log, s.gate.pending.value) && s.process == 0)
    && (s.gate.approved ==>
          && s.gate.pending.Some?
          && s.gate.pending.value.at < s.approvedAt < |s.log| && s.log[s.approvedAt] == Approved
          && PendingAfter(s.log[..s.approvedAt]) == s.gate.pending)
  }

  /** A worker runs a confirmed plan, or one that nothing held back: under the gate, an empty one. */
  ghost predicate WorkerOk(asked: bool, process: nat, log: seq<Event>, worker: Worker) {
    && worker.next <= |worker.decision.actions| && worker.process <= process
    && (match worker.from
        case Some(c) => WasConfirmed(log, c) && c.plan.decision == worker.decision && worker.process == 0
        case None => asked && worker.process == 0 ==> worker.decision.actions == [])
  }

  ghost predicate WorkersOk(s: Sys) {
    forall w | 0 <= w < |s.workers| :: WorkerOk(s.asked, s.process, s.log, s.workers[w])
  }

  /** A step that ran is one of its worker's, in that worker's process and after its release. */
  ghost predicate StepOk(workers: seq<Worker>, log: seq<Event>, k: nat)
    requires k < |log| && log[k].StepRan?
  {
    && log[k].worker < |workers|
    && var worker := workers[log[k].worker];
       && log[k].index < worker.next <= |worker.decision.actions| && !worker.decision.actions[log[k].index].Nil?
       && worker.process == Restarts(log[..k])
       && (worker.from.Some? ==> worker.from.value.releasedAt < k)
  }

  ghost predicate LogOk(s: Sys) {
    && (forall k: nat | k < |s.log| && s.log[k].StepRan? :: StepOk(s.workers, s.log, k))
    && (forall k, l | 0 <= k < l < |s.log| && s.log[k].StepRan? && s.log[l].StepRan? :: s.log[k] != s.log[l])
  }

  /** A released plan is no longer pending, and never was released before. */
  ghost predicate ReleasesOk(s: Sys) {
    && (forall k | 0 <= k < |s.log| && s.log[k].Released? ::
          s.log[k].plan.at < k && s.gate.pending != Some(s.log[k].plan))
    && (forall k, l | 0 <= k < l < |s.log| && s.log[k].Released? && s.log[l].Released? :: s.log[k].plan != s.log[l].plan)
  }

  ghost predicate Inv(s: Sys) {
    GateOk(s) && WorkersOk(s) && LogOk(s) && ReleasesOk(s)
  }

  lemma ConfirmedStays(log: seq<Event>, e: Event, c: Confirmed)
    requires WasConfirmed(log, c)
    ensures WasConfirmed(log + [e], c)
  {
    assert (log + [e])[..c.approvedAt] == log[..c.approvedAt];
    assert (log + [e])[..c.releasedAt] == log[..c.releasedAt];
  }

  lemma WorkerStays(asked: bool, process: nat, log: seq<Event>, worker: Worker, process': nat, e: Event)
    requires WorkerOk(asked, process, log, worker) && process <= process'
    ensures WorkerOk(asked, process', log + [e], worker)
  {
    if worker.from.Some? {
      ConfirmedStays(log, e, worker.from.value);
    }
  }

  lemma {:induction false} LogGrows(log: seq<Event>, e: Event)
    ensures PendingAfter(log + [e]) ==
            match e case Paused(p, _, _) => Some(p) case Released(_) => None case Restarted => None case _ => PendingAfter(log)
    ensures Restarts(log + [e]) == Restarts(log) + if e.Restarted? then 1 else 0
    ensures forall k: nat | k <= |log| :: (log + [e])[..k] == log[..k]
  {
    assert (log + [e])[..|log|] == log;
  }

  /** One event that is no step is logged, and at most one worker joins: the rest goes on being well. */
  lemma OthersStay(s: Sys, s': Sys, e: Event, more: seq<Worker>)
    requires WorkersOk(s) && LogOk(s) && !e.StepRan?
    requires s'.log == s.log + [e] && s'.asked == s.asked && s.process <= s'.process && s'.workers == s.workers + more
    requires forall w | 0 <= w < |more| :: WorkerOk(s'.asked, s'.process, s'.log, more[w])
    ensures WorkersOk(s') && LogOk(s')
  {
    LogGrows(s.log, e);
    forall w | 0 <= w < |s'.workers| ensures WorkerOk(s'.asked, s'.process, s'.log, s'.workers[w]) {
      if w < |s.workers| {
        WorkerStays(s.asked, s.process, s.log, s.workers[w], s'.process, e);
      }
    }
    forall k: nat | k < |s'.log| && s'.log[k].StepRan? ensures StepOk(s'.workers, s'.log, k) {
      assert StepOk(s.workers, s.log, k);
    }
  }

  lemma ApprovalKeeps(s: Sys)
    requires Inv(s) && s.gate.pending.Some?
    ensures Inv(ApplyApproval(s))
  {
    LogGrows(s.log, Approved);
    assert s.workers + [] == s.workers;
    OthersStay(s, ApplyApproval(s), Approved, []);
  }

  lemma ReleaseKeeps(s: Sys)
    requires Inv(s) && CanRelease(s.gate)
    ensures Inv(ApplyRelease(s))
  {
    var s', plan := ApplyRelease(s), s.gate.pending.value;
    LogGrows(s.log, Released(plan));
    var c := Confirmed(plan, s.approvedAt, |s.log|);
    assert WasConfirmed(s'.log, c);
    OthersStay(s, s', Released(plan), [Worker(plan.decision, Some(c), s.process, 0)]);
  }

  lemma IsPausedOn(log: seq<Event>, reg: Registry, d: Decision, first: bool)
    requires Accepted(reg, d, first)
    ensures PausedOn(log + [Paused(PausedPlan(|log|, d), reg, first)], PausedPlan(|log|, d))
  {
  }

  lemma PauseKeeps(s: Sys, reg: Registry, d: Decision, first: bool)
    requires Inv(s) && !CanRelease(s.gate) && Accepted(reg, d, first) && NeedsApproval(s.gate, d)
    ensures Inv(ApplyDecision(s, reg, d, first))
  {
    IsPausedOn(s.log, reg, d, first);
    PausedKeeps(s, reg, d, first);
  }

  lemma PausedKeeps(s: Sys, reg: Registry, d: Decision, first: bool)
    requires Inv(s) && !CanRelease(s.gate) && NeedsApproval(s.gate, d)
    requires PausedOn(s.log + [Paused(PausedPlan(|s.log|, d), reg, first)], PausedPlan(|s.log|, d))
    ensures Inv(ApplyDecision(s, reg, d, first))
  {
    var e := Paused(PausedPlan(|s.log|, d), reg, first);
    LogGrows(s.log, e);
    assert s.workers + [] == s.workers;
    OthersStay(s, ApplyDecision(s, reg, d, first), e, []);
  }

  lemma DispatchKeeps(s: Sys, reg: Registry, d: Decision, first: bool)
    requires Inv(s) && !CanRelease(s.gate) && Accepted(reg, d, first) && !NeedsApproval(s.gate, d) && IsTyped(d)
    ensures Inv(ApplyDecision(s, reg, d, first))
  {
    var s' := ApplyDecision(s, reg, d, first);
    if d.actions != [] {
      OnlyPlansExecute(d);
    }
    forall k: nat | k < |s'.log| && s'.log[k].StepRan? ensures StepOk(s'.workers, s'.log, k) {
      assert StepOk(s.workers, s.log, k);
    }
  }

  lemma WorkKeepsLog(s: Sys, w: nat)
    requires LogOk(s) && WorkersOk(s) && GateOk(s) && Enabled(s, DoWork(w))
    ensures LogOk(ApplyWork(s, w))
  {
    var s', event := ApplyWork(s, w), StepRan(w, s.workers[w].next);
    LogGrows(s.log, event);
    assert WorkerOk(s.asked, s.process, s.log, s.workers[w]);
    forall k: nat | k < |s'.log| && s'.log[k].StepRan? ensures StepOk(s'.workers, s'.log, k) {
      if k < |s.log| {
        assert StepOk(s.workers, s.log, k);
      }
    }
    forall k: nat | k < |s.log| && s.log[k].StepRan? ensures s.log[k] != event {
      assert StepOk(s.workers, s.log, k);
    }
  }

  lemma WorkKeepsGate(s: Sys, w: nat)
    requires GateOk(s) && ReleasesOk(s) && Enabled(s, DoWork(w))
    ensures GateOk(ApplyWork(s, w)) && ReleasesOk(ApplyWork(s, w))
  {
    LogGrows(s.log, StepRan(w, s.workers[w].next));
  }

  lemma WorkKeeps(s: Sys, w: nat)
    requires Inv(s) && Enabled(s, DoWork(w))
    ensures Inv(ApplyWork(s, w))
  {
    var s', event := ApplyWork(s, w), StepRan(w, s.workers[w].next);
    WorkKeepsLog(s, w);
    WorkKeepsGate(s, w);
    forall v | 0 <= v < |s'.workers| ensures WorkerOk(s'.asked, s'.process, s'.log, s'.workers[v]) {
      assert WorkerOk(s.asked, s.process, s.log, s.workers[v]);
      if s'.log != s.log {
        WorkerStays(s.asked, s.process, s.log, s.workers[v], s.process, event);
      }
    }
  }

  lemma RestartKeeps(s: Sys)
    requires Inv(s)
    ensures Inv(ApplyRestart(s))
  {
    LogGrows(s.log, Restarted);
    assert s.workers + [] == s.workers;
    OthersStay(s, ApplyRestart(s), Restarted, []);
  }

  lemma InvStep(s: Sys, step: Step)
    requires Inv(s) && Enabled(s, step)
    ensures Inv(Apply(s, step)) && Apply(s, step).asked == s.asked
  {
    match step
    case DoMessage(isApproval) => if isApproval && s.gate.pending.Some? { ApprovalKeeps(s); }
    case DoRelease => ReleaseKeeps(s);
    case DoDecide(reg, d, first) =>
      if Accepted(reg, d, first) {
        if NeedsApproval(s.gate, d) {
          PauseKeeps(s, reg, d, first);
        } else {
          DispatchKeeps(s, reg, d, first);
        }
      }
    case DoWork(w) => WorkKeeps(s, w);
    case DoRestart => RestartKeeps(s);
  }

  lemma {:induction false} InvRun(s: Sys, steps: seq<Step>, s': Sys)
    requires Inv(s) && Run(s, steps, s')
    ensures Inv(s') && s'.asked == s.asked
    decreases |steps|
  {
    if steps != [] {
      InvStep(s, steps[0]);
      InvRun(Apply(s, steps[0]), steps[1..], s');
    }
  }

  lemma InvReachable(asked: bool, s: Sys)
    requires Reachable(asked, s)
    ensures Inv(s) && s.asked == asked
  {
    var steps :| Run(Init(asked), steps, s);
    InvRun(Init(asked), steps, s);
  }

  // ---- theorems ----------------------------------------------------------------------------

  /** In the process that initialised an agent to plan first, no step runs but of a plan that passed its
      checks and was paused on, was confirmed while it was the one pending, and then released. */
  lemma NoStepUnconfirmed(s: Sys, k: nat)
    requires Reachable(true, s) && k < |s.log| && s.log[k].StepRan? && Restarts(s.log[..k]) == 0
    ensures s.log[k].worker < |s.workers|
    ensures var worker := s.workers[s.log[k].worker];
            && worker.from.Some? && worker.from.value.plan.decision == worker.decision
            && WasConfirmed(s.log, worker.from.value) && worker.from.value.releasedAt < k
  {
    InvReachable(true, s);
    assert StepOk(s.workers, s.log, k);
    assert WorkerOk(s.asked, s.process, s.log, s.workers[s.log[k].worker]);
  }

  /** A plan is released at most once, and each of its steps runs at most once, restarts or not. */
  lemma ReleasedOnce(asked: bool, s: Sys, k: nat, l: nat)
    requires Reachable(asked, s) && k < l < |s.log|
    ensures s.log[k].Released? && s.log[l].Released? ==> s.log[k].plan != s.log[l].plan
    ensures s.log[k].StepRan? && s.log[l].StepRan? ==> s.log[k] != s.log[l]
  {
    InvReachable(asked, s);
  }

  /** While a confirmation is outstanding there is a plan it was given for. */
  lemma ApprovedMeansPending(asked: bool, s: Sys)
    requires Reachable(asked, s) && s.gate.approved
    ensures s.gate.pending.Some? && s.gate.pending == PendingAfter(s.log)
    ensures s.approvedAt < |s.log| && PendingAfter(s.log[..s.approvedAt]) == s.gate.pending
  {
    InvReachable(asked, s);
  }

  lemma {:induction false} RunSnoc(s: Sys, steps: seq<Step>, s': Sys, step: Step)
    requires Run(s, steps, s') && Enabled(s', step)
    ensures Run(s, steps + [step], Apply(s', step))
    decreases |steps|
  {
    if steps == [] {
      assert [step][1..] == [];
    } else {
      assert (steps + [step])[0] == steps[0] && (steps + [step])[1..] == steps[1..] + [step];
      RunSnoc(Apply(s, steps[0]), steps[1..], s', step);
    }
  }

  lemma Reach(asked: bool, s: Sys, step: Step) returns (s': Sys)
    requires Reachable(asked, s) && Enabled(s, step)
    ensures Reachable(asked, s') && s' == Apply(s, step)
  {
    var steps :| Run(Init(asked), steps, s);
    RunSnoc(Init(asked), steps, s, step);
    assert Run(Init(asked), steps + [step], Apply(s, step));
    s' := Apply(s, step);
  }

  // ---- the gate and the process ----------------------------------------------------------------

  /** A plan is dispatched without a confirmation - nothing stands before its first step then - exactly
      if the process is not the one that initialised the agent; and then no approval changes anything. */
  lemma GateEndsWithItsProcess(s: Sys, reg: Registry, d: Decision, first: bool)
    requires Reachable(true, s) && !CanRelease(s.gate) && IsTyped(d) && d.actions != [] && Accepted(reg, d, first)
    ensures Apply(s, DoDecide(reg, d, first)).workers == s.workers + [Worker(d, None, s.process, 0)] <==> s.process > 0
    ensures s.process > 0 ==> Apply(s, DoMessage(true)) == s
  {
    InvReachable(true, s);
    OnlyPlansExecute(d);
    if s.process == 0 {
      assert NeedsApproval(s.gate, d);
      assert |s.workers + [Worker(d, None, s.process, 0)]| == |s.workers| + 1;
    }
  }

  /** A step that calls a capability runs in process `p`, of a plan nobody confirmed. */
  ghost predicate RanUnconfirmed(s: Sys, p: nat) {
    exists k: nat ::
      && k < |s.log| && s.log[k].StepRan? && s.log[k].worker < |s.workers|
      && var worker := s.workers[s.log[k].worker];
         && worker.from == None && worker.process == p && worker.decision.kind == PlanKind
         && s.log[k].index < |worker.decision.actions| && worker.decision.actions[s.log[k].index].Step?
  }

  /** A gated agent runs an unconfirmed capability step in exactly the processes after its first: the
      confirmation a person gives there, or nobody at all, releases whatever is planned anew. */
  lemma UnconfirmedExactlyAfterARestart(p: nat)
    ensures (exists s :: Reachable(true, s) && RanUnconfirmed(s, p)) <==> p > 0
  {
    if p > 0 {
      var s := StepRunsAfterRestarts(p);
    } else {
      forall s | Reachable(true, s) ensures !RanUnconfirmed(s, 0) {
        InvReachable(true, s);
        forall k: nat | k < |s.log| && s.log[k].StepRan? ensures s.log[k].worker < |s.workers| {
          assert StepOk(s.workers, s.log, k);
        }
        forall w | 0 <= w < |s.workers| ensures WorkerOk(s.asked, s.process, s.log, s.workers[w]) {
        }
      }
    }
  }

  const DEPLOY: Decision := Decision(PlanKind, [], [], [Step("deploy", "", map[], "deployed", [])], Need("", "", [], false))

  lemma DeployIsAccepted()
    ensures Accepted(NoSignatures(), DEPLOY, false) && IsTyped(DEPLOY)
  {
    var a := DEPLOY.actions[0];
    assert Trim("deployed") == "deployed" && Trim("") == "";
    assert SaysWhatFor(a) && RefsExist(DEPLOY.evidence, a);
    assert NamesOf(DEPLOY.actions) == [""];
    assert PlanLineage.StepOk(NoSignatures(), DEPLOY.actions, 0);
  }

  /** The gated agent has paused on its plan, and then `p` restarts came. */
  lemma {:induction false} PausedThenRestarted(p: nat) returns (s: Sys)
    ensures Reachable(true, s) && s.process == p && s.workers == []
    ensures s.gate == if p == 0 then Gate(true, Some(PausedPlan(0, DEPLOY)), false) else RESTORED
  {
    if p == 0 {
      DeployIsAccepted();
      assert Run(Init(true), [], Init(true));
      s := Reach(true, Init(true), DoDecide(NoSignatures(), DEPLOY, false));
    } else {
      s := PausedThenRestarted(p - 1);
      s := Reach(true, s, DoRestart);
    }
  }

  /** Its approval, an ordinary instruction by now, has the loop plan again; and that plan runs. */
  lemma StepRunsAfterRestarts(p: nat) returns (s: Sys)
    requires p > 0
    ensures Reachable(true, s) && RanUnconfirmed(s, p)
  {
    s := PausedThenRestarted(p);
    s := Reach(true, s, DoMessage(true));
    DeployIsAccepted();
    s := Reach(true, s, DoDecide(NoSignatures(), DEPLOY, true));
    s := Reach(true, s, DoWork(0));
    var k := |s.log| - 1;
    assert s.log[k] == StepRan(0, 0) && s.workers[0] == Worker(DEPLOY, None, p, 1);
  }
}
