/**
  Which inputs of an accepted plan reach their capability blank. An output of a step never does;
  a literal and a field of the World Model are handed over as they are.
*/
module BlankInputs {
  import opened Basics
  import opened Text
  import opened PlanInput
  import opened PlanLineage
  import opened PlanExecution
  import opened LineageTheorems

  /** What the plan or the world gives for this input is blank. */
  predicate GivenBlank(env: Env, i: nat, input: StepInput) {
    if !IsBinding(input) then Trim(input.literal) == ""
    else
      match ParseInputSource(input.source)
      case Ok(FromWorld(path)) =>
        |path| >= 2 && env.asset(i, AssetId(path)).Some? && Trim(FieldOf(env.asset(i, AssetId(path)).value, path)) == ""
      case _ => false
  }

  /** The runtime puts the task id in the place of this value. */
  predicate FilledIn(entry: Entry, task: string, key: string, value: string) {
    key == "task_id" && value == "" && Trim(task) != "" && TakesTaskId(entry)
  }

  lemma FillsOne(entry: Entry, task: string, input: Values, key: string)
    requires key in input
    ensures FillTaskId(entry, task, input)[key] == if FilledIn(entry, task, key, input[key]) then task else input[key]
  {
    assert Trim("") == "";
  }

  lemma ResolvedBlank(reg: Registry, env: Env, plan: Plan, i: nat, key: string)
    requires LineageOk(reg, plan.actions) && i < |plan.actions| && Reached(reg, env, plan, i)
    requires plan.actions[i].Step? && key in plan.actions[i].inputs
    requires Resolve(env, i, plan.actions[i].inputs[key], Prior(reg, env, plan, i)).Value?
    ensures Trim(Resolve(env, i, plan.actions[i].inputs[key], Prior(reg, env, plan, i)).v) == "" <==>
            GivenBlank(env, i, plan.actions[i].inputs[key])
  {
    var input := plan.actions[i].inputs[key];
    if IsBinding(input) {
      BindingIsReadable(reg, plan.actions, i, key);
      match ParseInputSource(input.source)
      case Ok(FromStep(step, from)) =>
        var j := BindingFindsItsProducer(reg, env, plan, i, key, step, from);
      case Ok(FromWorld(path)) =>
    }
  }

  /** A called capability of an accepted plan gets an input blank exactly when its literal or the World
      Model's field is blank, and the task id does not take its place. */
  lemma BlankExactly(reg: Registry, env: Env, plan: Plan, i: nat, key: string)
    requires LineageOk(reg, plan.actions) && i < |plan.actions| && Reached(reg, env, plan, i)
    requires CanCall(reg, env, plan.actions[i], i, Prior(reg, env, plan, i)) && key in plan.actions[i].inputs
    ensures var a, prior := plan.actions[i], Prior(reg, env, plan, i);
            var input, value := CallInput(reg, env, plan.task, a, i, prior), Resolve(env, i, a.inputs[key], prior);
            && key in input && value.Value?
            && (Trim(input[key]) == "" <==>
                  GivenBlank(env, i, a.inputs[key]) && !FilledIn(EntryOf(reg, a), plan.task, key, value.v))
  {
    var a, prior := plan.actions[i], Prior(reg, env, plan, i);
    assert Resolve(env, i, a.inputs[key], prior).Value?;
    ResolvedBlank(reg, env, plan, i, key);
    FillsOne(EntryOf(reg, a), plan.task, ResolvedInputs(env, i, a.inputs, prior), key);
  }

  // ---- an empty field of the World Model ---------------------------------------------------

  const STATE_OF_X: string := PrintWorld("x", "state")
  const READ_X: Action := Step("read", "b", map["pr" := StepInput("", STATE_OF_X)], "read", [])
  const READ_PLAN: Plan := Plan([READ_X], [], "")

  /** A world whose assets all have an empty state. */
  function EmptyWorld(): Env {
    Env((i, name, input) => Answer(map[], false), (i, id) => Some(Asset("", "file")))
  }

  lemma StateOfXReads()
    ensures Trim(STATE_OF_X) != "" && ParseInputSource(STATE_OF_X).Ok?
    ensures NamesAsset(ParseInputSource(STATE_OF_X).value, "x", "state")
  {
    WorldRoundTrip("x", "state");
    NothingReadsAsNothing();
  }

  lemma ReadPlanIsAccepted()
    ensures LineageOk(NoSignatures(), READ_PLAN.actions)
  {
    var actions := READ_PLAN.actions;
    PlainName("b");
    StateOfXReads();
    assert actions[0] == READ_X && NamesOf(actions) == ["b"];
    assert NameOk(NamesOf(actions), 0);
    assert EntryOf(NoSignatures(), READ_X) == Undeclared;
    assert BindingOk(NoSignatures(), actions, 0, StepInput("", STATE_OF_X));
    assert StepOk(NoSignatures(), actions, 0);
  }

  /** An accepted plan whose only step is called with an empty field of the World Model. */
  lemma AnEmptyFieldIsHandedOver()
    ensures LineageOk(NoSignatures(), READ_PLAN.actions) && Reached(NoSignatures(), EmptyWorld(), READ_PLAN, 0)
    ensures CanCall(NoSignatures(), EmptyWorld(), READ_X, 0, [])
    ensures CallInput(NoSignatures(), EmptyWorld(), "", READ_X, 0, []) == map["pr" := ""]
  {
    ReadPlanIsAccepted();
    StateOfXIsEmpty();
    assert EntryOf(NoSignatures(), READ_X) == Undeclared;
  }

  lemma StateOfXIsEmpty()
    ensures Resolve(EmptyWorld(), 0, READ_X.inputs["pr"], []) == Value("")
  {
    StateOfXReads();
  }
}
