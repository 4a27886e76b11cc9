/**
  One instruction's run: decide, execute, observe, until a decision concludes the task or the
  budget is spent. Planner, capabilities and authorities answer whatever they like.
*/
module DecisionLoop {
  import opened Basics
  import opened PlanLineage
  import opened PlanExecution
  import opened LineageTheorems
  import PlanRuns
  import opened Evidence
  import opened Verification
  import opened Decisions
  import opened ApprovalGate

  /** What executing one decision left. */
  datatype Result = Result(failed: bool, records: seq<Record>)

  datatype Cycle = Cycle(decision: Decision, result: Result)

  /**
    Everything the loop does not decide: what the planner answers to a cycle and the results
    before it, what capabilities and authorities do in that cycle, and whether the run's
    context is cancelled each time the loop looks.
  */
  datatype Oracles = Oracles(
    reg: Registry,
    decide: (nat, seq<Result>) -> Option<Decision>,
    env: nat -> Env,
    auth: nat -> Authority,
    cancelled: nat -> bool)

  /** How a run left its loop. */
  datatype Ending = Cancelled | CouldNotDecide | CouldNotRecord | Waits | Ended

  /** The budget of a run: what the environment says if it is positive, else the configuration, else the default. */
  function MaxSteps(fromEnv: Option<int>, configured: int): (n: nat)
    ensures n >= 1
    ensures fromEnv.Some? && fromEnv.value > 0 ==> n == fromEnv.value
    ensures (fromEnv == None || fromEnv.value <= 0) && configured > 0 ==> n == configured
    ensures (fromEnv == None || fromEnv.value <= 0) && configured <= 0 ==> n == 10
  {
    if fromEnv.Some? && fromEnv.value > 0 then fromEnv.value else if configured > 0 then configured else 10
  }

  function Results(history: seq<Cycle>): seq<Result> {
    seq(|history|, k requires 0 <= k < |history| => history[k].result)
  }

  function RowOf(r: Record): StepRow {
    StepRow(r.planStepId, r.stepName, !r.failed, r.capability, r.output)
  }

  /** The rows say of each record what it was: its plan row, its step, whether it went well, and what it reported. */
  predicate AreRowsOf(rows: seq<StepRow>, records: seq<Record>) {
    |rows| == |records| &&
    forall k | 0 <= k < |rows| ::
      && rows[k].planStep == records[k].planStepId && rows[k].name == records[k].stepName
      && (rows[k].ok <==> !records[k].failed)
      && rows[k].capability == records[k].capability && rows[k].output == records[k].output
  }

  function RowsOf(records: seq<Record>): seq<StepRow> {
    seq(|records|, k requires 0 <= k < |records| => RowOf(records[k]))
  }

  /** What a run that left its loop with this last decision writes on the task. */
  function FinalStatus(d: Decision, failed: bool): Status {
    if failed then if d.kind == DoneKind then Unverified else Failed
    else if Concludes(d) then TaskStatusFor(d)
    else Failed
  }

  /** The cycle answered the task - it is done, blocked or needs input - and nothing of it failed. */
  predicate HeldUp(c: Cycle) {
    (c.decision.kind == DoneKind || c.decision.kind == BlockedKind || c.decision.kind == NeedInputKind) && !c.result.failed
  }

  /** What the task is once its last cycle is over: an answer that held up is told as it was given, a done
      that did not is unverified, and whatever else failed or concluded nothing has failed. */
  predicate Tells(status: Status, last: Cycle) {
    var kind, failed := last.decision.kind, last.result.failed;
    && (status == Completed <==> kind == DoneKind && !failed)
    && (status == Unverified <==> kind == DoneKind && failed)
    && (status == Blocked <==> kind == BlockedKind && !failed)
    && (status == NeedInput <==> kind == NeedInputKind && !failed)
    && (status == Failed <==> (kind != DoneKind && failed) || ((kind == PlanKind || kind == OtherKind) && !failed))
  }

  /** A stop leaves a task alone that has its outcome already. */
  function MarkStopped(s: Status): Status {
    if s == Running || s == Pending then Stopped else s
  }

  /** `rows` are the plan rows of a decision: one for each of its actions that executes. */
  ghost predicate AreItsRows(d: Decision, rows: seq<PlannedStep>) {
    Saved(Plan(d.actions, rows, ""))
  }

  /** The steps ran as the executor runs them, each linked to its row. */
  ghost predicate RanLinked(o: Oracles, task: string, cycle: nat, c: Cycle, rows: seq<PlannedStep>) {
    && AreItsRows(c.decision, rows)
    && PlanExecution.Run(c.result.records, c.result.failed) ==
       RunTo(o.reg, o.env(cycle), Plan(c.decision.actions, rows, task), |c.decision.actions|)
  }

  /** What executing a decision in a cycle comes to. A confirmed plan was checked when it was recorded; any
      other decision that breaks its contract fails without running; steps run as the executor runs them. */
  ghost predicate RunsAs(o: Oracles, task: string, cycle: nat, isConfirmed: bool, c: Cycle) {
    if !isConfirmed && !Accepted(o.reg, c.decision, cycle == 1) then c.result == Result(true, [])
    else if c.decision.actions == [] then c.result.records == [] && (c.decision.kind != DoneKind ==> !c.result.failed)
    else exists rows :: RanLinked(o, task, cycle, c, rows)
  }

  /** "Planned but never executed" is answerable for every cycle that ran: a row of its plan has a record
      exactly when its action was reached, and then one, that action's. */
  lemma {:induction false} CycleIsLinked(o: Oracles, task: string, cycle: nat, c: Cycle, rows: seq<PlannedStep>, i: nat)
    requires RanLinked(o, task, cycle, c, rows) && i < |c.decision.actions| && !c.decision.actions[i].Nil?
    ensures var at := PlanRuns.Pos(c.decision.actions, i);
            && at < |rows|
            && (forall k | 0 <= k < |c.result.records| :: c.result.records[k].planStepId == rows[at].id <==> k == at)
            && (at < |c.result.records| <==> Reached(o.reg, o.env(cycle), Plan(c.decision.actions, rows, task), i))
  {
    PlannedOrExecuted(o.reg, o.env(cycle), Plan(c.decision.actions, rows, task), i);
  }

  /** Cycle `k` of a run: its decision is the confirmed plan, or what the planner answered to all results
      before it and the gate lets through; it ran as decisions run; and only the last one concludes. */
  ghost predicate CycleOk(o: Oracles, task: string, required: bool, confirmed: Option<Decision>, history: seq<Cycle>, k: nat)
    requires k < |history|
  {
    var isConfirmed := k == 0 && confirmed.Some?;
    && (if isConfirmed then history[k].decision == confirmed.value
        else
          && o.decide(k + 1, Results(history[..k])) == Some(history[k].decision)
          && (required ==> history[k].decision.kind != PlanKind))
    && RunsAs(o, task, k + 1, isConfirmed, history[k])
    && (k < |history| - 1 ==> !HeldUp(history[k]))
  }

  ghost predicate Trail(o: Oracles, task: string, required: bool, confirmed: Option<Decision>, history: seq<Cycle>) {
    forall k | 0 <= k < |history| :: CycleOk(o, task, required, confirmed, history, k)
  }

  lemma TrailGrows(o: Oracles, task: string, required: bool, confirmed: Option<Decision>, history: seq<Cycle>, c: Cycle)
    requires Trail(o, task, required, confirmed, history)
    requires history != [] ==> !HeldUp(history[|history| - 1])
    requires CycleOk(o, task, required, confirmed, history + [c], |history|)
    ensures Trail(o, task, required, confirmed, history + [c])
  {
    forall k | 0 <= k < |history| ensures CycleOk(o, task, required, confirmed, history + [c], k) {
      assert CycleOk(o, task, required, confirmed, history, k);
      assert (history + [c])[..k] == history[..k];
    }
  }

  /** Under the gate a cycle that ran any step ran the confirmed plan. */
  lemma OnlyConfirmedRuns(o: Oracles, task: string, confirmed: Option<Decision>, history: seq<Cycle>, k: nat)
    requires forall n, before | o.decide(n, before).Some? :: IsTyped(o.decide(n, before).value)
    requires k < |history| && Trail(o, task, true, confirmed, history) && history[k].result.records != []
    ensures k == 0 && confirmed == Some(history[k].decision)
  {
    assert CycleOk(o, task, true, confirmed, history, k);
    var answer := o.decide(k + 1, Results(history[..k]));
    assert answer.Some? ==> IsTyped(answer.value);
  }

  /** A cycle that ran any step without a confirmation ran a decision that had passed every check, so no
      binding of a step that came to its turn was unreadable or found nothing produced. */
  lemma CycleMissesNothing(o: Oracles, task: string, required: bool, confirmed: Option<Decision>, history: seq<Cycle>, k: nat,
                           rows: seq<PlannedStep>, i: nat, key: string)
    requires Trail(o, task, required, confirmed, history) && k < |history| && !(k == 0 && confirmed.Some?)
    requires history[k].result.records != [] && RanLinked(o, task, k + 1, history[k], rows)
    requires var plan := Plan(history[k].decision.actions, rows, task);
             i < |plan.actions| && plan.actions[i].Step? && key in plan.actions[i].inputs && Reached(o.reg, o.env(k + 1), plan, i)
    ensures Accepted(o.reg, history[k].decision, k + 1 == 1)
    ensures var plan := Plan(history[k].decision.actions, rows, task);
            var resolved := Resolve(o.env(k + 1), i, plan.actions[i].inputs[key], Prior(o.reg, o.env(k + 1), plan, i));
            resolved != Unreadable && resolved != ProducedNothing
  {
    assert CycleOk(o, task, required, confirmed, history, k);
    NothingIsMissing(o.reg, o.env(k + 1), Plan(history[k].decision.actions, rows, task), i, key);
  }

  ghost predicate PlansGrow(a: seq<seq<StepRow>>, b: seq<seq<StepRow>>) {
    |a| <= |b| && forall p | 0 <= p < |a| :: a[p] <= b[p]
  }

  /** Every pinned criterion is confirmed by its authority on what the task's steps last produced. */
  ghost predicate Verified(auth: Authority, task: string, contract: seq<Criterion>, plans: seq<seq<StepRow>>) {
    contract != [] && AllPass(auth, task, contract, Produced(Flat(plans)))
  }

  /** The cycle that follows `history` at this gate. */
  ghost predicate InFlightCycle(o: Oracles, task: string, gate: Gate, history: seq<Cycle>, c: Cycle) {
    && RunsAs(o, task, |history| + 1, CanRelease(gate), c)
    && (if CanRelease(gate) then c.decision == gate.pending.value.decision && !HeldUp(c)
        else
          && o.decide(|history| + 1, Results(history)) == Some(c.decision)
          && (gate.required ==> c.decision.kind != PlanKind))
  }

  /** A `done` holds up exactly if it is well-formed and the contract is verified. */
  ghost predicate DoneIsVerified(o: Oracles, cycle: nat, task: string, c: Cycle, kept: seq<Criterion>, plans: seq<seq<StepRow>>) {
    c.decision.kind == DoneKind ==>
      (!c.result.failed <==> Accepted(o.reg, c.decision, cycle == 1) && Verified(o.auth(cycle), task, kept, plans))
  }

  /** The last decision is a `done` that is well-formed - it has no steps and no need, and names evidence -
      and the contract, which is not empty, is verified criterion by criterion. */
  ghost predicate IsProvenDone(o: Oracles, history: seq<Cycle>, task: string, kept: seq<Criterion>, plans: seq<seq<StepRow>>) {
    && history != []
    && var d := history[|history| - 1].decision;
       && d.kind == DoneKind && DoneOk(d) && Accepted(o.reg, d, |history| == 1)
       && Verified(o.auth(|history|), task, kept, plans)
  }

  /** What the first turn of a run makes of the pinned contract; no later turn changes it. */
  function FirstPin(o: Oracles, gate: Gate, kept: seq<Criterion>): seq<Criterion> {
    if CanRelease(gate) then kept
    else
      match o.decide(1, [])
      case None => kept
      case Some(d) => PinnedIn(o, 1, d, kept)
  }

  /** An accepted decision of the first cycle pins its contract. */
  function PinnedIn(o: Oracles, cycle: nat, d: Decision, kept: seq<Criterion>): seq<Criterion> {
    if cycle == 1 && Accepted(o.reg, d, true) then Pinned(kept, d.contract) else kept
  }

  /** How a run that ends without a last cycle leaves the task and the gate. */
  ghost predicate Left(o: Oracles, gate: Gate, history: seq<Cycle>, ending: Ending, status: Status, gate': Gate, plans: seq<seq<StepRow>>) {
    match ending
    case Cancelled => status == Stopped && gate' == gate && exists p: nat :: o.cancelled(p)
    case CouldNotDecide => status == Failed && gate' == gate && o.decide(|history| + 1, Results(history)) == None
    case CouldNotRecord =>
      && status == Failed && gate' == gate
      && var answer := o.decide(|history| + 1, Results(history));
         answer.Some? && NeedsApproval(gate, answer.value) && !Accepted(o.reg, answer.value, |history| == 0)
    case Waits =>
      && status == AwaitingApproval && plans != [] && gate'.pending.Some?
      && Accepted(o.reg, gate'.pending.value.decision, |history| == 0)
      && NeedsApproval(gate, gate'.pending.value.decision)
      && gate' == Pause(gate, PausedPlan(|plans| - 1, gate'.pending.value.decision)) && plans[|plans| - 1] == []
      && o.decide(|history| + 1, Results(history)) == Some(gate'.pending.value.decision)
    case Ended => false
  }

  /** The plan a run released, if it did, is the one that was pending and confirmed when it began. */
  predicate IsConfirmed(gate: Gate, confirmed: Option<Decision>) {
    confirmed.Some? ==> CanRelease(gate) && confirmed.value == gate.pending.value.decision
  }

  function After(gate: Gate, confirmed: Option<Decision>): Gate {
    if confirmed.Some? then Release(gate) else gate
  }

  /** What a run that began at `gate` comes to: its cycles, and what it leaves of the gate. */
  ghost predicate Outcome(o: Oracles, task: string, maxSteps: nat, gate: Gate, history: seq<Cycle>, confirmed: Option<Decision>,
                          ending: Ending, status: Status, gate': Gate, plans: seq<seq<StepRow>>) {
    && |history| <= maxSteps && Trail(o, task, gate.required, confirmed, history) && IsConfirmed(gate, confirmed)
    && (ending != Cancelled || history != [] ==> !CanRelease(After(gate, confirmed)))
    && (if ending == Ended then
          && gate' == After(gate, confirmed)
          && history != [] && (HeldUp(history[|history| - 1]) || |history| == maxSteps)
          && Tells(status, history[|history| - 1])
        else Left(o, After(gate, confirmed), history, ending, status, gate', plans))
  }

  lemma TurnIsCycle(o: Oracles, task: string, required: bool, gate: Gate, confirmed: Option<Decision>, history: seq<Cycle>, c: Cycle, now: Gate)
    requires now == After(gate, confirmed) && now.required == required
    requires history != [] || confirmed.Some? ==> !CanRelease(now) && history != []
    requires InFlightCycle(o, task, now, history, c)
    ensures CycleOk(o, task, required, if CanRelease(now) then Some(now.pending.value.decision) else confirmed, history + [c], |history|)
  {
    assert (history + [c])[..|history|] == history;
  }

  class TaskRun {
    const task: string
    const required: bool
    const maxSteps: nat
    const contract: ContractStore
    var status: Status
    var plans: seq<seq<StepRow>>
    var planned: seq<seq<PlannedStep>>
    var nextRow: nat
    var pending: Option<PausedPlan>
    var approved: bool

    ghost predicate Valid()
      reads this, contract
    {
      && maxSteps >= 1 && contract.Valid() && RowsOk()
      && (approved ==> pending.Some?)
      && (pending.Some? ==>
            && pending.value.decision.kind == PlanKind && pending.value.at < |plans|
            && AreItsRows(pending.value.decision, planned[pending.value.at]))
    }

    /** Every plan has its rows, and no row id is used twice. */
    ghost predicate RowsOk()
      reads this
    {
      && |planned| == |plans|
      && (forall p, k | 0 <= p < |planned| && 0 <= k < |planned[p]| :: planned[p][k].id < nextRow)
      && (forall p, q, k, l | 0 <= p < q < |planned| && 0 <= k < |planned[p]| && 0 <= l < |planned[q]| ::
            planned[p][k].id != planned[q][l].id)
    }

    function GateOf(): Gate
      reads this
    {
      Gate(required, pending, approved)
    }

    constructor (task: string, required: bool, fromEnv: Option<int>, configured: int)
      ensures Valid() && fresh(contract) && contract.Kept() == [] && plans == [] && pending == None && !approved
      ensures this.task == task && this.required == required && maxSteps == MaxSteps(fromEnv, configured)
    {
      this.task, this.required, maxSteps := task, required, MaxSteps(fromEnv, configured);
      contract := new ContractStore();
      status, plans, planned, nextRow, pending, approved := Pending, [], [], 1, None, false;
    }

    /** The checks a decision must pass, and its plan with its rows; the first cycle's contract is pinned with it. */
    method RecordPlan(o: Oracles, d: Decision, first: bool) returns (id: Option<nat>)
      requires contract.Valid() && RowsOk()
      modifies this`plans, this`planned, this`nextRow, contract
      ensures contract.Valid() && RowsOk()
      ensures id.Some? <==> Accepted(o.reg, d, first)
      ensures id.Some? ==>
                && id.value == |old(plans)| && plans == old(plans) + [[]]
                && |planned| == |plans| && planned[..id.value] == old(planned) && AreItsRows(d, planned[id.value])
      ensures id.Some? ==> contract.Kept() == if first then Pinned(old(contract.Kept()), d.contract) else old(contract.Kept())
      ensures id == None ==> plans == old(plans) && planned == old(planned) && contract.Kept() == old(contract.Kept())
    {
      var rulesOk := ValidateDecision(d);
      if !rulesOk {
        return None;
      }
      var lineageOk := ValidatePlanLineage(o.reg, d.actions);
      if !lineageOk {
        return None;
      }
      if first {
        var contractOk := ValidateCompletionContract(o.reg, d.actions, d.contract);
        if !contractOk {
          return None;
        }
        contract.Pin(d.contract);
      }
      id := Some(|plans|);
      AddPlan(d);
    }

    /** One more plan, with a fresh row for each of its steps and nothing executed. */
    method AddPlan(d: Decision)
      requires RowsOk()
      modifies this`plans, this`planned, this`nextRow
      ensures RowsOk() && plans == old(plans) + [[]]
      ensures |planned| == |plans| && planned[..|old(planned)|] == old(planned) && AreItsRows(d, planned[|old(planned)|])
    {
      var rows := PlannedSteps(d.actions, nextRow);
      plans, planned, nextRow := plans + [[]], planned + [rows], nextRow + |rows|;
    }

    /** Runs a recorded decision: its steps, or - a `done` - its verification. */
    method RunRecorded(o: Oracles, cycle: nat, d: Decision, id: nat) returns (result: Result)
      requires contract.Valid() && RowsOk() && id < |plans| && AreItsRows(d, planned[id])
      modifies this`plans
      ensures RowsOk() && PlansGrow(old(plans), plans) && |plans| == |old(plans)|
      ensures d.actions == [] ==>
                plans == old(plans) &&
                result == Result(d.kind == DoneKind && !Verified(o.auth(cycle), task, contract.Kept(), plans), [])
      ensures d.actions != [] ==>
                RanLinked(o, task, cycle, Cycle(d, result), planned[id]) &&
                plans == old(plans)[id := old(plans)[id] + RowsOf(result.records)] &&
                AreRowsOf(plans[id][|old(plans)[id]|..], result.records)
    {
      if d.actions == [] {
        result := Result(false, []);
        if d.kind == DoneKind {
          var criteria := contract.List();
          var ok, verdicts := VerifyDone(o.auth(cycle), task, criteria, plans);
          result := Result(!ok, []);
        }
        return;
      }
      var records, failed := ExecuteSteps(o.reg, o.env(cycle), Plan(d.actions, planned[id], task));
      plans := plans[id := plans[id] + RowsOf(records)];
      result := Result(failed, records);
    }

    /** `Execute`: a decision that breaks its contract does not run at all. */
    method Execute(o: Oracles, cycle: nat, d: Decision) returns (result: Result)
      requires contract.Valid() && RowsOk()
      modifies this`plans, this`planned, this`nextRow, contract
      ensures contract.Valid() && RowsOk() && |old(planned)| <= |planned| && planned[..|old(planned)|] == old(planned)
      ensures !Accepted(o.reg, d, cycle == 1) ==>
                result == Result(true, []) && plans == old(plans) && contract.Kept() == old(contract.Kept())
      ensures Accepted(o.reg, d, cycle == 1) ==>
                && contract.Kept() == (if cycle == 1 then Pinned(old(contract.Kept()), d.contract) else old(contract.Kept()))
                && plans == old(plans) + [RowsOf(result.records)]
                && AreRowsOf(plans[|old(plans)|], result.records)
                && (d.actions == [] ==>
                      result == Result(d.kind == DoneKind && !Verified(o.auth(cycle), task, contract.Kept(), plans), []))
                && (d.actions != [] ==>
                      RanLinked(o, task, cycle, Cycle(d, result), planned[|old(plans)|]))
    {
      var id := RecordPlan(o, d, cycle == 1);
      if id == None {
        return Result(true, []);
      }
      result := RunRecorded(o, cycle, d, id.value);
      assert RowsOf([]) == [] && [] + RowsOf(result.records) == RowsOf(result.records);
    }

    /** The confirmed plan leaves the gate and runs as it was recorded. */
    method ExecuteApproved(o: Oracles, cycle: nat) returns (c: Cycle)
      requires Valid() && CanRelease(GateOf())
      modifies this`plans, this`pending, this`approved
      ensures Valid() && GateOf() == Release(old(GateOf()))
      ensures c.decision == old(pending).value.decision && PlansGrow(old(plans), plans)
      ensures !HeldUp(c) && RunsAs(o, task, cycle, true, c)
    {
      var d, id := pending.value.decision, pending.value.at;
      pending, approved := None, false;
      var result := RunRecorded(o, cycle, d, id);
      c := Cycle(d, result);
    }

    /** The run pauses on a plan: it is on record, and none of it has run. */
    method PauseOn(o: Oracles, cycle: nat, d: Decision) returns (ending: Ending)
      requires Valid() && NeedsApproval(GateOf(), d)
      modifies this`plans, this`planned, this`nextRow, this`pending, this`status, contract
      ensures Valid()
      ensures ending == if Accepted(o.reg, d, cycle == 1) then Waits else CouldNotRecord
      ensures ending == Waits ==>
                && status == AwaitingApproval && plans == old(plans) + [[]]
                && GateOf() == Pause(old(GateOf()), PausedPlan(|old(plans)|, d))
                && contract.Kept() == if cycle == 1 then Pinned(old(contract.Kept()), d.contract) else old(contract.Kept())
      ensures ending == CouldNotRecord ==>
                status == Failed && plans == old(plans) && GateOf() == old(GateOf()) && contract.Kept() == old(contract.Kept())
    {
      var id := RecordPlan(o, d, cycle == 1);
      if id == None {
        status := Failed;
        return CouldNotRecord;
      }
      pending := Some(PausedPlan(id.value, d));
      status := AwaitingApproval;
      ending := Waits;
    }

    /** What a turn at this gate comes to: a cycle in flight, or the run left. */
    ghost predicate Took(o: Oracles, gate: Gate, history: seq<Cycle>, flight: Option<Cycle>, ending: Ending)
      reads this, contract
    {
      && Valid()
      && (flight.Some? ==>
            && status == Running && ending == Ended
            && GateOf() == (if CanRelease(gate) then Release(gate) else gate)
            && InFlightCycle(o, task, gate, history, flight.value)
            && DoneIsVerified(o, |history| + 1, task, flight.value, contract.Kept(), plans))
      && (flight == None ==> !CanRelease(gate) && Left(o, gate, history, ending, status, GateOf(), plans))
    }

    /** The confirmed plan leaves the gate and runs. */
    method GoOn(o: Oracles, history: seq<Cycle>) returns (c: Cycle)
      requires Valid() && status == Running && CanRelease(GateOf())
      modifies this`plans, this`pending, this`approved
      ensures PlansGrow(old(plans), plans) && Took(o, old(GateOf()), history, Some(c), Ended)
    {
      c := ExecuteApproved(o, |history| + 1);
    }

    /** A decision the gate lets through is executed. */
    method Dispatch(o: Oracles, history: seq<Cycle>, d: Decision) returns (c: Cycle)
      requires Valid() && status == Running && !CanRelease(GateOf()) && !NeedsApproval(GateOf(), d)
      requires o.decide(|history| + 1, Results(history)) == Some(d)
      modifies this`plans, this`planned, this`nextRow, contract
      ensures PlansGrow(old(plans), plans) && Took(o, old(GateOf()), history, Some(c), Ended)
      ensures contract.Kept() == PinnedIn(o, |history| + 1, d, old(contract.Kept()))
    {
      var result := Execute(o, |history| + 1, d);
      c := Cycle(d, result);
    }

    /** A plan the gate holds back is recorded and waited on. */
    method Hold(o: Oracles, history: seq<Cycle>, d: Decision) returns (ending: Ending)
      requires Valid() && !CanRelease(GateOf()) && NeedsApproval(GateOf(), d)
      requires o.decide(|history| + 1, Results(history)) == Some(d)
      modifies this`plans, this`planned, this`nextRow, this`pending, this`status, contract
      ensures PlansGrow(old(plans), plans) && Took(o, old(GateOf()), history, None, ending)
      ensures contract.Kept() == PinnedIn(o, |history| + 1, d, old(contract.Kept()))
    {
      ending := PauseOn(o, |history| + 1, d);
    }

    /** The planner could not decide, or was cancelled over it. */
    method Undecided(o: Oracles, history: seq<Cycle>, poll: nat) returns (ending: Ending)
      requires Valid() && status == Running && !CanRelease(GateOf())
      requires o.decide(|history| + 1, Results(history)) == None
      modifies this`status
      ensures Took(o, old(GateOf()), history, None, ending)
    {
      if o.cancelled(poll) {
        status := MarkStopped(status);
        return Cancelled;
      }
      status := Failed;
      ending := CouldNotDecide;
    }

    /** One turn of the planner: the confirmed plan if there is one, else a new decision, which is
        executed, or recorded and waited on. Without a cycle in flight the run is over. */
    method Turn(o: Oracles, history: seq<Cycle>, poll: nat) returns (flight: Option<Cycle>, ending: Ending)
      requires Valid() && status == Running && |history| < maxSteps
      modifies this`status, this`plans, this`planned, this`nextRow, this`pending, this`approved, contract
      ensures Took(o, old(GateOf()), history, flight, ending) && PlansGrow(old(plans), plans)
      ensures contract.Kept() == if history == [] then FirstPin(o, old(GateOf()), old(contract.Kept())) else old(contract.Kept())
    {
      flight, ending := None, Ended;
      assert history == [] ==> Results(history) == [];
      if CanRelease(GateOf()) {
        var c := GoOn(o, history);
        return Some(c), Ended;
      }
      var answer := o.decide(|history| + 1, Results(history));
      if answer == None {
        ending := Undecided(o, history, poll);
      } else if NeedsApproval(GateOf(), answer.value) {
        ending := Hold(o, history, answer.value);
      } else {
        var c := Dispatch(o, history, answer.value);
        flight := Some(c);
      }
    }

    /** Nothing recorded is taken back, and the contract is what the first turn, if there was one, made of it. */
    ghost predicate Since(o: Oracles, gate: Gate, kept: seq<Criterion>, was: seq<seq<StepRow>>, started: bool)
      reads this, contract
    {
      && Valid() && PlansGrow(was, plans)
      && contract.Kept() == if started then FirstPin(o, gate, kept) else kept
    }

    /** The same of a whole run: only one that was cancelled before its first cycle may have had no turn. */
    ghost predicate SinceRun(o: Oracles, gate: Gate, kept: seq<Criterion>, was: seq<seq<StepRow>>, ending: Ending, history: seq<Cycle>)
      reads this, contract
    {
      Since(o, gate, kept, was, true) || (ending == Cancelled && history == [] && Since(o, gate, kept, was, false))
    }

    /** What the loop keeps between two turns. */
    ghost predicate Going(o: Oracles, gate: Gate, confirmed: Option<Decision>, history: seq<Cycle>, flight: Option<Cycle>)
      reads this, contract
    {
      && Valid() && status == Running
      && IsConfirmed(gate, confirmed) && GateOf() == After(gate, confirmed)
      && (history != [] || flight.Some? ==> !CanRelease(GateOf()))
      && (confirmed.Some? ==> history != [] || flight.Some?)
      && Trail(o, task, required, confirmed, history)
      && (history != [] ==> !HeldUp(history[|history| - 1]))
      && (flight == None && history != [] ==> DoneIsVerified(o, |history|, task, history[|history| - 1], contract.Kept(), plans))
      && (flight.Some? ==>
            && CycleOk(o, task, required, confirmed, history + [flight.value], |history|)
            && DoneIsVerified(o, |history| + 1, task, flight.value, contract.Kept(), plans))
    }

    /** The loop was left after a last cycle. */
    ghost predicate Over(o: Oracles, gate: Gate, confirmed: Option<Decision>, history: seq<Cycle>)
      reads this, contract
    {
      && Valid() && status == Running
      && IsConfirmed(gate, confirmed) && GateOf() == After(gate, confirmed) && !CanRelease(GateOf())
      && Trail(o, task, required, confirmed, history)
      && 0 < |history| <= maxSteps && (HeldUp(history[|history| - 1]) || |history| == maxSteps)
      && DoneIsVerified(o, |history|, task, history[|history| - 1], contract.Kept(), plans)
    }

    /** The loop was left some other way. */
    ghost predicate LeftEarly(o: Oracles, gate: Gate, confirmed: Option<Decision>, history: seq<Cycle>, ending: Ending)
      reads this, contract
    {
      && Valid() && ending != Ended && (ending != Cancelled || history != [] ==> !CanRelease(After(gate, confirmed)))
      && IsConfirmed(gate, confirmed) && Left(o, After(gate, confirmed), history, ending, status, GateOf(), plans)
      && |history| <= maxSteps && Trail(o, task, required, confirmed, history)
    }

    /** The loop's turn: a cycle in flight, or the run left. */
    method NextCycle(o: Oracles, history: seq<Cycle>, poll: nat, ghost gate: Gate, ghost confirmed: Option<Decision>,
                     ghost kept: seq<Criterion>, ghost was: seq<seq<StepRow>>)
      returns (flight: Option<Cycle>, ending: Ending, ghost confirmed': Option<Decision>)
      requires Going(o, gate, confirmed, history, None) && |history| < maxSteps && Since(o, gate, kept, was, history != [])
      modifies this`status, this`plans, this`planned, this`nextRow, this`pending, this`approved, contract
      ensures Since(o, gate, kept, was, true)
      ensures flight.Some? ==> ending == Ended && Going(o, gate, confirmed', history, flight)
      ensures flight == None ==> LeftEarly(o, gate, confirmed', history, ending)
    {
      ghost var now := GateOf();
      flight, ending := Turn(o, history, poll);
      confirmed' := confirmed;
      if flight.Some? {
        TurnIsCycle(o, task, required, gate, confirmed, history, flight.value, now);
        confirmed' := if CanRelease(now) then Some(now.pending.value.decision) else confirmed;
      }
    }

    method Stop(o: Oracles, poll: nat, history: seq<Cycle>, flight: Option<Cycle>, ghost gate: Gate, ghost confirmed: Option<Decision>,
                ghost kept: seq<Criterion>, ghost was: seq<seq<StepRow>>)
      returns (ending: Ending)
      requires o.cancelled(poll) && Going(o, gate, confirmed, history, flight) && |history| <= maxSteps
      requires Since(o, gate, kept, was, history != [] || flight.Some?)
      modifies this`status
      ensures LeftEarly(o, gate, confirmed, history, ending) && ending == Cancelled
      ensures Since(o, gate, kept, was, history != [] || flight.Some?)
    {
      status, ending := MarkStopped(status), Cancelled;
    }

    lemma Lands(o: Oracles, gate: Gate, confirmed: Option<Decision>, history: seq<Cycle>, c: Cycle)
      requires Going(o, gate, confirmed, history, Some(c)) && |history| < maxSteps
      ensures if HeldUp(c) then Over(o, gate, confirmed, history + [c]) else Going(o, gate, confirmed, history + [c], None)
    {
      var more := history + [c];
      assert |more| - 1 == |history| && more[|more| - 1] == c;
      TrailGrows(o, task, required, confirmed, history, c);
      assert DoneIsVerified(o, |more|, task, more[|more| - 1], contract.Kept(), plans);
    }

    lemma BudgetSpent(o: Oracles, gate: Gate, confirmed: Option<Decision>, history: seq<Cycle>)
      requires Going(o, gate, confirmed, history, None) && |history| == maxSteps
      ensures Over(o, gate, confirmed, history)
    {
    }

    /** Turn after turn, until a cycle concludes, the budget is spent, or the run is left some other way. */
    method RunCycles(o: Oracles) returns (ending: Ending, history: seq<Cycle>, ghost confirmed: Option<Decision>)
      requires Valid() && status == Running
      modifies this`status, this`plans, this`planned, this`nextRow, this`pending, this`approved, contract
      ensures SinceRun(o, old(GateOf()), old(contract.Kept()), old(plans), ending, history)
      ensures if ending == Ended then Over(o, old(GateOf()), confirmed, history)
              else LeftEarly(o, old(GateOf()), confirmed, history, ending)
    {
      ghost var gate, kept, was := GateOf(), contract.Kept(), plans;
      var cycles, poll, flight := 0, 0, None;
      history, confirmed, ending := [], None, Ended;
      while true
        invariant cycles == |history| + (if flight.Some? then 1 else 0) <= maxSteps
        invariant Going(o, gate, confirmed, history, flight)
        invariant Since(o, gate, kept, was, history != [] || flight.Some?)
        decreases maxSteps - |history|, if flight.Some? then 0 else 1
      {
        poll := poll + 2;
        if o.cancelled(poll) {
          ending := Stop(o, poll, history, flight, gate, confirmed, kept, was);
          return;
        }
        if flight == None {
          cycles := cycles + 1;
          if cycles > maxSteps {
            BudgetSpent(o, gate, confirmed, history);
            return Ended, history, confirmed;
          }
          flight, ending, confirmed := NextCycle(o, history, poll + 1, gate, confirmed, kept, was);
          if flight == None {
            return;
          }
        } else {
          if o.cancelled(poll + 1) {
            ending := Stop(o, poll + 1, history, flight, gate, confirmed, kept, was);
            return;
          }
          var c := flight.value;
          Lands(o, gate, confirmed, history, c);
          history, flight := history + [c], None;
          if Concludes(c.decision) && !c.result.failed {
            return Ended, history, confirmed;
          }
        }
      }
    }

    lemma LastDone(o: Oracles, gate: Gate, confirmed: Option<Decision>, history: seq<Cycle>)
      requires Over(o, gate, confirmed, history)
      ensures var last := history[|history| - 1];
              FinalStatus(last.decision, last.result.failed) == Completed <==> IsProvenDone(o, history, task, contract.Kept(), plans)
    {
    }

    /**
      The whole loop. It ends within its budget; every cycle's decision answers the results of
      all cycles before it; and what the task ends as follows from how the loop was left.
    */
    method RunLoop(o: Oracles) returns (ending: Ending, history: seq<Cycle>, ghost confirmed: Option<Decision>)
      requires Valid() && status == Running
      modifies this`status, this`plans, this`planned, this`nextRow, this`pending, this`approved, contract
      ensures SinceRun(o, old(GateOf()), old(contract.Kept()), old(plans), ending, history)
      ensures Outcome(o, task, maxSteps, old(GateOf()), history, confirmed, ending, status, GateOf(), plans)
      ensures status == Completed <==>
                ending == Ended && IsProvenDone(o, history, task, contract.Kept(), plans)
    {
      ending, history, confirmed := RunCycles(o);
      if ending == Ended {
        ending := Conclude(o, history, old(GateOf()), confirmed, old(contract.Kept()), old(plans));
      }
    }

    /** The status a loop that is over writes, unless the run was cancelled at the last. */
    method Conclude(o: Oracles, history: seq<Cycle>, ghost gate: Gate, ghost confirmed: Option<Decision>,
                    ghost kept: seq<Criterion>, ghost was: seq<seq<StepRow>>)
      returns (ending: Ending)
      requires Over(o, gate, confirmed, history) && Since(o, gate, kept, was, true)
      modifies this`status
      ensures Since(o, gate, kept, was, true) && GateOf() == After(gate, confirmed)
      ensures ending == Cancelled || ending == Ended
      ensures ending == Cancelled ==> Left(o, After(gate, confirmed), history, ending, status, GateOf(), plans)
      ensures ending == Ended ==> Tells(status, history[|history| - 1])
      ensures status == Completed <==> ending == Ended && IsProvenDone(o, history, task, contract.Kept(), plans)
    {
      if o.cancelled(0) {
        status := MarkStopped(status);
        return Cancelled;
      }
      LastDone(o, gate, confirmed, history);
      var last := history[|history| - 1];
      status, ending := FinalStatus(last.decision, last.result.failed), Ended;
    }

    /** One message of the task: an approval confirms the plan that is pending, and the loop runs. */
    method ProcessInstruction(o: Oracles, isApproval: bool) returns (ending: Ending, history: seq<Cycle>, ghost confirmed: Option<Decision>)
      requires Valid()
      modifies this`status, this`plans, this`planned, this`nextRow, this`pending, this`approved, contract
      ensures var gate := if isApproval then Approve(old(GateOf())) else old(GateOf());
              && SinceRun(o, gate, old(contract.Kept()), old(plans), ending, history)
              && Outcome(o, task, maxSteps, gate, history, confirmed, ending, status, GateOf(), plans)
      ensures status == Completed <==>
                ending == Ended && IsProvenDone(o, history, task, contract.Kept(), plans)
    {
      status := Running;
      if isApproval && pending.Some? {
        approved := true;
      }
      ending, history, confirmed := RunLoop(o);
    }
  }
}
