/**
  What running a plan amounts to, told by what its capabilities answered: which steps ran, what each
  was called with, and what its record says.
*/
module ExecutionTheorems {
  import opened Basics
  import opened Text
  import opened PlanInput
  import opened PlanLineage
  import opened PlanExecution
  import opened LineageTheorems
  import PlanRuns

  lemma ExecutedIsRecord(reg: Registry, env: Env, plan: Plan, i: nat, prior: seq<Record>)
    requires i < |plan.actions| && !plan.actions[i].Nil?
    ensures IsRecordOf(reg, env, plan.task, plan.actions[i], i, prior, ExecOf(reg, env, plan)(i, prior))
  {
  }

  /** Every action that comes to its turn leaves its record, and that says what happened: the input the
      capability was called with and what it answered - output and failure as they were. */
  lemma {:induction false} RecordSaysWhatHappened(reg: Registry, env: Env, plan: Plan, i: nat, n: nat)
    requires i < n <= |plan.actions| && !plan.actions[i].Nil? && Reached(reg, env, plan, i)
    ensures PlanRuns.Pos(plan.actions, i) < |Prior(reg, env, plan, n)|
    ensures IsRecordOf(reg, env, plan.task, plan.actions[i], i, Prior(reg, env, plan, i),
                       Prior(reg, env, plan, n)[PlanRuns.Pos(plan.actions, i)])
  {
    PlanRuns.OwnRecord(plan.actions, ExecOf(reg, env, plan), i, n);
    ExecutedIsRecord(reg, env, plan, i, Prior(reg, env, plan, i));
  }

  /** An action comes to its turn if and only if every step before it could be called and its capability
      did not answer that it failed. */
  lemma ReachedExactly(reg: Registry, env: Env, plan: Plan, i: nat)
    requires i <= |plan.actions|
    ensures Reached(reg, env, plan, i) <==>
            forall j: nat | j < i :: GoesWell(reg, env, plan, j, Prior(reg, env, plan, j))
  {
    FailsExactly(reg, env, plan, i);
    forall j: nat | j < i ensures FailsAt(reg, env, plan, j) <==> !GoesWell(reg, env, plan, j, Prior(reg, env, plan, j)) {
    }
  }

  // ---- what an input comes to ------------------------------------------------------------------

  /** Record `k` is the first of the step called `step`, and reported this value under `key`. */
  predicate Reported(prior: seq<Record>, k: nat, step: string, key: string, v: string) {
    && k < |prior| && prior[k].stepName == step && (forall l | 0 <= l < k :: prior[l].stepName != step)
    && key in prior[k].output && prior[k].output[key] == v && Trim(v) != ""
  }

  /** The World Model has the asset, and this is its field. */
  predicate Holds(env: Env, i: nat, path: seq<string>, v: string) {
    && |path| >= 2 && env.asset(i, AssetId(path)).Some?
    && var asset := env.asset(i, AssetId(path)).value;
       && (path[|path| - 1] == "state" ==> v == asset.state)
       && (path[|path| - 1] == "kind" ==> v == asset.kind)
  }

  /** What gives this input its value: its literal, an earlier step, or the World Model. */
  ghost predicate Gives(env: Env, i: nat, input: StepInput, prior: seq<Record>, v: string) {
    if Trim(input.source) == "" then v == input.literal
    else
      match ParseInputSource(input.source)
      case Err => false
      case Ok(FromStep(step, key)) => exists k: nat :: Reported(prior, k, step, key, v)
      case Ok(FromWorld(path)) => Holds(env, i, path, v)
  }

  lemma AcceptedFieldIsKnown(raw: string)
    requires ParseInputSource(raw).Ok? && ParseInputSource(raw).value.FromWorld?
    ensures var path := ParseInputSource(raw).value.path;
            |path| >= 3 && path[0] == "asset" && AssetId(path) != "" && path[|path| - 1] in {"state", "kind"}
  {
  }

  lemma {:induction false} OutputResolvesExactly(prior: seq<Record>, step: string, key: string, v: string)
    ensures var at := Find(prior, step);
            (at.Some? && ReadOutput(prior[at.value].output, key) == Value(v)) <==> exists k: nat :: Reported(prior, k, step, key, v)
  {
    var at := Find(prior, step);
    if at.Some? && ReadOutput(prior[at.value].output, key) == Value(v) {
      assert Reported(prior, at.value, step, key, v);
    }
    if exists k: nat :: Reported(prior, k, step, key, v) {
      var k: nat :| Reported(prior, k, step, key, v);
      assert at == Some(k);
    }
  }

  /** An input resolves to a value if and only if the plan, the earlier steps or the world give it that. */
  lemma ResolvesExactly(env: Env, i: nat, input: StepInput, prior: seq<Record>, v: string)
    ensures Resolve(env, i, input, prior) == Value(v) <==> Gives(env, i, input, prior, v)
  {
    if Trim(input.source) != "" {
      match ParseInputSource(input.source)
      case Err =>
      case Ok(FromStep(step, key)) => OutputResolvesExactly(prior, step, key, v);
      case Ok(FromWorld(path)) => AcceptedFieldIsKnown(input.source);
    }
  }

  // ---- what a capability is called with --------------------------------------------------------

  /** The capability declares an input called `task_id`, or one of that alias. */
  predicate AsksForTaskId(entry: Entry) {
    entry.Declared? && exists f | 0 <= f < |entry.inputs| :: entry.inputs[f].name == "task_id" || "task_id" in entry.inputs[f].aliases
  }

  /** The call gets the task id: it is asked for, there is one, and the plan gave none of its own. */
  predicate GetsTaskId(entry: Entry, task: string, input: Values) {
    AsksForTaskId(entry) && Trim(task) != "" && ("task_id" !in input || input["task_id"] == "")
  }

  lemma AsksByName(entry: Entry)
    ensures TakesTaskId(entry) <==> AsksForTaskId(entry)
  {
    assert Trim("task_id") == "task_id";
    if AsksForTaskId(entry) {
      var f :| 0 <= f < |entry.inputs| && (entry.inputs[f].name == "task_id" || "task_id" in entry.inputs[f].aliases);
    }
  }

  /** Filling in the task id: the key appears exactly when the call gets it, with the task's own id;
      everything else is passed on as it was. */
  lemma TaskIdIsFilledIn(entry: Entry, task: string, input: Values)
    ensures var out := FillTaskId(entry, task, input);
            && out.Keys == input.Keys + (if GetsTaskId(entry, task, input) then {"task_id"} else {})
            && (GetsTaskId(entry, task, input) ==> out["task_id"] == task)
            && (forall key | key in input && !(key == "task_id" && GetsTaskId(entry, task, input)) :: out[key] == input[key])
  {
    AsksByName(entry);
  }

  /** Each input of a call is what the plan, the earlier steps or the world give for it; what the plan does
      not name is the task id or is not there. */
  lemma CalledWithWhatIsGiven(reg: Registry, env: Env, task: string, a: Action, i: nat, prior: seq<Record>, key: string)
    requires CanCall(reg, env, a, i, prior)
    ensures var input, resolved := CallInput(reg, env, task, a, i, prior), ResolvedInputs(env, i, a.inputs, prior);
            var filled := key == "task_id" && GetsTaskId(EntryOf(reg, a), task, resolved);
            && (key in input <==> key in a.inputs || filled)
            && (key in input ==> if filled then input[key] == task else Gives(env, i, a.inputs[key], prior, input[key]))
  {
    var resolved := ResolvedInputs(env, i, a.inputs, prior);
    TaskIdIsFilledIn(EntryOf(reg, a), task, resolved);
    if key in a.inputs {
      ResolvesExactly(env, i, a.inputs[key], prior, resolved[key]);
    }
  }
}
