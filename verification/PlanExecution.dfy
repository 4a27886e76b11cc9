/** The executor: a plan's steps run in order, each with the records of those before it. */
module PlanExecution {
  import opened Basics
  import opened Text
  import opened PlanInput
  import opened PlanLineage

  type Values = map<string, string>

  datatype Answer = Answer(output: Values, failed: bool)

  datatype Asset = Asset(state: string, kind: string)

  /** Everything outside the runtime, free to answer anything: what a capability does with its input
      at each step, and what the world holds when a step reads it. */
  datatype Env = Env(run: (nat, string, Values) -> Answer, asset: (nat, string) -> Option<Asset>)

  /** What one executed action leaves. */
  datatype Record = Record(
    planStepId: nat,
    capability: string,
    stepName: string,
    input: Values,
    output: Values,
    failed: bool)

  datatype Resolved = Value(v: string) | Unreadable | ProducedNothing | NotReported | Blank | NoSuchAsset

  // ---- resolving -------------------------------------------------------------------

  /** The first record of the step called `name`. */
  function Find(prior: seq<Record>, name: string): (r: Option<nat>)
    ensures r.Some? ==> r.value < |prior| && prior[r.value].stepName == name &&
                        forall k | 0 <= k < r.value :: prior[k].stepName != name
    ensures r == None ==> forall k | 0 <= k < |prior| :: prior[k].stepName != name
    decreases |prior|
  {
    if prior == [] then None
    else
      var n := |prior| - 1;
      var before := Find(prior[..n], name);
      if before.Some? then before else if prior[n].stepName == name then Some(n) else None
  }

  function ReadOutput(output: Values, key: string): Resolved {
    if key !in output then NotReported
    else if Trim(output[key]) == "" then Blank
    else Value(output[key])
  }

  /** The field a world path names. */
  function FieldOf(asset: Asset, path: seq<string>): string
    requires path != []
  {
    if WorldField(path) == "state" then asset.state else asset.kind
  }

  function ResolveSource(env: Env, i: nat, raw: string, prior: seq<Record>): Resolved {
    match ParseInputSource(raw)
    case Err => Unreadable
    case Ok(FromWorld(path)) =>
      if |path| < 2 then Unreadable
      else
        var asset := env.asset(i, AssetId(path));
        if asset == None then NoSuchAsset
        else Value(FieldOf(asset.value, path))
    case Ok(FromStep(step, key)) =>
      var at := Find(prior, step);
      if at == None then ProducedNothing else ReadOutput(prior[at.value].output, key)
  }

  function Resolve(env: Env, i: nat, input: StepInput, prior: seq<Record>): Resolved {
    if IsBinding(input) then ResolveSource(env, i, input.source, prior) else Value(input.literal)
  }

  predicate AllResolve(env: Env, i: nat, inputs: map<string, StepInput>, prior: seq<Record>) {
    forall key | key in inputs :: Resolve(env, i, inputs[key], prior).Value?
  }

  function ResolvedInputs(env: Env, i: nat, inputs: map<string, StepInput>, prior: seq<Record>): Values
    requires AllResolve(env, i, inputs, prior)
  {
    map key | key in inputs :: Resolve(env, i, inputs[key], prior).v
  }

  /** The task id, given to a capability that declares it and was not told one. */
  function FillTaskId(entry: Entry, task: string, input: Values): Values {
    if Trim(task) == "" || ("task_id" in input && input["task_id"] != "") then input
    else if TakesTaskId(entry) then input["task_id" := task]
    else input
  }

  predicate TakesTaskId(entry: Entry) {
    entry.Declared? && FieldAccepts(entry.inputs, "task_id")
  }

  // ---- executing ---------------------------------------------------------------------

  predicate CanCall(reg: Registry, env: Env, a: Action, i: nat, prior: seq<Record>) {
    a.Step? && EntryOf(reg, a) != Missing && AllResolve(env, i, a.inputs, prior)
  }

  function CallInput(reg: Registry, env: Env, task: string, a: Action, i: nat, prior: seq<Record>): Values
    requires CanCall(reg, env, a, i, prior)
  {
    FillTaskId(EntryOf(reg, a), task, ResolvedInputs(env, i, a.inputs, prior))
  }

  /** What executing one action leaves; `id` is the plan row it carries out. */
  function Executed(reg: Registry, env: Env, task: string, a: Action, i: nat, id: nat, prior: seq<Record>): Record
    requires !a.Nil?
  {
    match a
    case Nothing(reason) =>
      Record(id, "nothing", "", map[], if Trim(reason) == "" then map[] else map["reason" := Trim(reason)], false)
    case Step(capability, _, _, _, _) =>
      if CanCall(reg, env, a, i, prior) then
        var input := CallInput(reg, env, task, a, i, prior);
        var answer := env.run(i, Canonical(capability), input);
        Record(id, Canonical(capability), NameOf(a), input, answer.output, answer.failed)
      else Record(id, Canonical(capability), NameOf(a), map[], map[], true)
  }

  /** What a record says of its action: a capability that could be called was, with its inputs, and the
      record has what it answered, the failure included; one that could not has failed and reported
      nothing; and an action that calls none goes well. */
  predicate IsRecordOf(reg: Registry, env: Env, task: string, a: Action, i: nat, prior: seq<Record>, record: Record) {
    match a
    case Nil => false
    case Nothing(reason) =>
      && record.capability == "nothing" && record.stepName == "" && record.input == map[] && !record.failed
      && record.output.Keys == (if Trim(reason) == "" then {} else {"reason"})
      && ("reason" in record.output ==> record.output["reason"] == Trim(reason))
    case Step(capability, stepName, inputs, _, _) =>
      && record.capability == Canonical(capability) && record.stepName == Trim(stepName)
      && if reg(Canonical(capability)) != Missing && AllResolve(env, i, inputs, prior) then
           var answer := env.run(i, Canonical(capability), CallInput(reg, env, task, a, i, prior));
           && record.input == CallInput(reg, env, task, a, i, prior)
           && record.output == answer.output && (record.failed <==> answer.failed)
         else record.failed && record.input == map[] && record.output == map[]
  }

  /** Action `j`, coming to its turn, does not fail: its capability can be called and answers so. */
  predicate GoesWell(reg: Registry, env: Env, plan: Plan, j: nat, prior: seq<Record>)
    requires j < |plan.actions|
  {
    plan.actions[j].Step? ==>
      && reg(Canonical(plan.actions[j].capability)) != Missing && AllResolve(env, j, plan.actions[j].inputs, prior)
      && !env.run(j, Canonical(plan.actions[j].capability), CallInput(reg, env, plan.task, plan.actions[j], j, prior)).failed
  }

  /** A plan row as the store saved it: `idx` counts the plan's actions from 1. */
  datatype PlannedStep = PlannedStep(idx: nat, id: nat)

  function PlanStepId(planned: seq<PlannedStep>, i: nat): nat {
    if planned == [] then 0
    else if planned[0].idx == i + 1 then planned[0].id
    else PlanStepId(planned[1..], i)
  }

  datatype Plan = Plan(actions: seq<Action>, planned: seq<PlannedStep>, task: string)

  datatype Run = Run(records: seq<Record>, failed: bool)

  /** How action `i` executes after `prior`. */
  type Exec = (nat, seq<Record>) -> Record

  /** The first `n` actions, up to and including the first that fails. */
  function RunWith(actions: seq<Action>, exec: Exec, n: nat): Run
    requires n <= |actions|
  {
    if n == 0 then Run([], false)
    else
      var before := RunWith(actions, exec, n - 1);
      if before.failed || actions[n - 1].Nil? then before
      else
        var record := exec(n - 1, before.records);
        Run(before.records + [record], record.failed)
  }

  function ExecOf(reg: Registry, env: Env, plan: Plan): Exec {
    (i: nat, prior: seq<Record>) =>
      if i < |plan.actions| && !plan.actions[i].Nil? then
        Executed(reg, env, plan.task, plan.actions[i], i, PlanStepId(plan.planned, i), prior)
      else Record(0, "", "", map[], map[], true)
  }

  function RunTo(reg: Registry, env: Env, plan: Plan, n: nat): Run
    requires n <= |plan.actions|
  {
    RunWith(plan.actions, ExecOf(reg, env, plan), n)
  }

  // ---- the methods -------------------------------------------------------------------

  method ResolveStepInputs(env: Env, i: nat, inputs: map<string, StepInput>, prior: seq<Record>) returns (out: Option<Values>)
    ensures out.Some? == AllResolve(env, i, inputs, prior)
    ensures out.Some? ==> out.value == ResolvedInputs(env, i, inputs, prior)
  {
    var values: Values := map[];
    var keys := inputs.Keys;
    while keys != {}
      invariant keys <= inputs.Keys && values.Keys == inputs.Keys - keys
      invariant forall key | key in values :: Resolve(env, i, inputs[key], prior) == Value(values[key])
      decreases keys
    {
      var key :| key in keys;
      var resolved := Resolve(env, i, inputs[key], prior);
      if !resolved.Value? {
        assert !AllResolve(env, i, inputs, prior);
        return None;
      }
      values := values[key := resolved.v];
      keys := keys - {key};
    }
    AreResolved(env, i, inputs, prior, values);
    out := Some(values);
  }

  lemma AreResolved(env: Env, i: nat, inputs: map<string, StepInput>, prior: seq<Record>, values: Values)
    requires values.Keys == inputs.Keys
    requires forall key | key in values :: Resolve(env, i, inputs[key], prior) == Value(values[key])
    ensures AllResolve(env, i, inputs, prior) && values == ResolvedInputs(env, i, inputs, prior)
  {
    forall key | key in inputs ensures Resolve(env, i, inputs[key], prior).Value? {
      assert key in values;
    }
  }

  method ExecuteAction(reg: Registry, env: Env, task: string, a: Action, i: nat, id: nat, prior: seq<Record>) returns (record: Record)
    requires !a.Nil?
    ensures record == Executed(reg, env, task, a, i, id, prior)
    ensures IsRecordOf(reg, env, task, a, i, prior, record) && record.planStepId == id
  {
    match a {
      case Nothing(reason) =>
        record := Record(id, "nothing", "", map[], map[], false);
        if Trim(reason) != "" {
          record := record.(output := map["reason" := Trim(reason)]);
        }
      case Step(capability, _, inputs, _, _) =>
        record := Record(id, Canonical(capability), NameOf(a), map[], map[], true);
        if EntryOf(reg, a) == Missing {
          return;
        }
        var input := ResolveStepInputs(env, i, inputs, prior);
        if input == None {
          return;
        }
        var called := FillTaskId(EntryOf(reg, a), task, input.value);
        var answer := env.run(i, Canonical(capability), called);
        record := record.(input := called, output := answer.output, failed := answer.failed);
    }
  }

  /** Runs a recorded plan; the first failing step ends it. */
  method ExecuteSteps(reg: Registry, env: Env, plan: Plan) returns (records: seq<Record>, failed: bool)
    ensures Run(records, failed) == RunTo(reg, env, plan, |plan.actions|)
    ensures failed <==> exists j: nat :: j < |plan.actions| && FailsAt(reg, env, plan, j)
  {
    FailsExactly(reg, env, plan, |plan.actions|);
    records, failed := RunSteps(reg, env, plan);
  }

  method RunSteps(reg: Registry, env: Env, plan: Plan) returns (records: seq<Record>, failed: bool)
    ensures Run(records, failed) == RunTo(reg, env, plan, |plan.actions|)
  {
    records, failed := [], false;
    var i := 0;
    while i < |plan.actions| && !failed
      invariant i <= |plan.actions| && Run(records, failed) == RunTo(reg, env, plan, i)
    {
      records, failed := ExecuteNext(reg, env, plan, i, records);
      i := i + 1;
    }
    FailedStays(plan.actions, ExecOf(reg, env, plan), i, |plan.actions|);
  }

  /** Runs action `i`, unless there is none. */
  method ExecuteNext(reg: Registry, env: Env, plan: Plan, i: nat, prior: seq<Record>) returns (records: seq<Record>, failed: bool)
    requires i < |plan.actions| && Run(prior, false) == RunTo(reg, env, plan, i)
    ensures Run(records, failed) == RunTo(reg, env, plan, i + 1)
  {
    ghost var exec := ExecOf(reg, env, plan);
    OneAction(plan.actions, exec, i);
    if plan.actions[i].Nil? {
      return prior, false;
    }
    var record := ExecuteAction(reg, env, plan.task, plan.actions[i], i, PlanStepId(plan.planned, i), prior);
    assert record == exec(i, prior);
    records, failed := prior + [record], record.failed;
  }

  /** After the actions before it, this one does not go well. */
  predicate FailsAt(reg: Registry, env: Env, plan: Plan, j: nat)
    requires j < |plan.actions|
  {
    !GoesWell(reg, env, plan, j, RunTo(reg, env, plan, j).records)
  }

  predicate Fails(actions: seq<Action>, exec: Exec, j: nat)
    requires j < |actions|
  {
    !actions[j].Nil? && exec(j, RunWith(actions, exec, j).records).failed
  }

  lemma {:induction false} SomeFails(actions: seq<Action>, exec: Exec, n: nat)
    requires n <= |actions|
    ensures RunWith(actions, exec, n).failed <==> exists j: nat :: j < n && Fails(actions, exec, j)
  {
    if n > 0 {
      SomeFails(actions, exec, n - 1);
      if RunWith(actions, exec, n - 1).failed {
        var j: nat :| j < n - 1 && Fails(actions, exec, j);
      } else {
        assert RunWith(actions, exec, n).failed <==> Fails(actions, exec, n - 1);
      }
    }
  }

  lemma SameFails(reg: Registry, env: Env, plan: Plan, j: nat)
    requires j < |plan.actions|
    ensures Fails(plan.actions, ExecOf(reg, env, plan), j) <==> FailsAt(reg, env, plan, j)
  {
  }

  /** A plan fails exactly if one of its steps could not be called, or answered that it failed. */
  lemma FailsExactly(reg: Registry, env: Env, plan: Plan, n: nat)
    requires n <= |plan.actions|
    ensures RunTo(reg, env, plan, n).failed <==> exists j: nat :: j < n && FailsAt(reg, env, plan, j)
  {
    SomeFails(plan.actions, ExecOf(reg, env, plan), n);
    forall j: nat | j < n ensures Fails(plan.actions, ExecOf(reg, env, plan), j) <==> FailsAt(reg, env, plan, j) {
      SameFails(reg, env, plan, j);
    }
  }

  lemma OneAction(actions: seq<Action>, exec: Exec, i: nat)
    requires i < |actions| && !RunWith(actions, exec, i).failed
    ensures var before := RunWith(actions, exec, i).records;
            RunWith(actions, exec, i + 1) ==
            if actions[i].Nil? then Run(before, false) else Run(before + [exec(i, before)], exec(i, before).failed)
  {
  }

  lemma {:induction false} FailedStays(actions: seq<Action>, exec: Exec, i: nat, n: nat)
    requires i <= n <= |actions|
    ensures RunWith(actions, exec, i).failed ==> RunWith(actions, exec, n) == RunWith(actions, exec, i)
  {
    if i < n {
      FailedStays(actions, exec, i, n - 1);
    }
  }
}
