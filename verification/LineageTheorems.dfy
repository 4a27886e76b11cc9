/** What a plan accepted by the lineage check cannot run into, whatever its capabilities do. */
module LineageTheorems {
  import opened Basics
  import opened Text
  import opened PlanInput
  import opened PlanLineage
  import opened PlanExecution
  import PlanRuns

  /** Action `i` was executed, or would be next. */
  ghost predicate Reached(reg: Registry, env: Env, plan: Plan, i: nat)
    requires i <= |plan.actions|
  {
    PlanRuns.Reached(plan.actions, ExecOf(reg, env, plan), i)
  }

  ghost function Prior(reg: Registry, env: Env, plan: Plan, i: nat): seq<Record>
    requires i <= |plan.actions|
  {
    PlanRuns.Prior(plan.actions, ExecOf(reg, env, plan), i)
  }

  /** Action `j` ran, did not fail, and left its record in its place. */
  ghost predicate Ran(reg: Registry, env: Env, plan: Plan, j: nat, prior: seq<Record>) {
    PlanRuns.Ran(plan.actions, ExecOf(reg, env, plan), j, prior)
  }

  lemma {:induction false} OneRecordEach(reg: Registry, env: Env, plan: Plan, n: nat)
    requires n <= |plan.actions| && Reached(reg, env, plan, n)
    ensures |Prior(reg, env, plan, n)| == PlanRuns.Pos(plan.actions, n)
    ensures forall j: nat | j < n && !plan.actions[j].Nil? :: Ran(reg, env, plan, j, Prior(reg, env, plan, n))
  {
    PlanRuns.OneRecordEach(plan.actions, ExecOf(reg, env, plan), n);
  }

  lemma {:induction false} RecordName(reg: Registry, env: Env, plan: Plan, j: nat, prior: seq<Record>)
    requires j < |plan.actions| && !plan.actions[j].Nil?
    ensures ExecOf(reg, env, plan)(j, prior).stepName == NameOf(plan.actions[j])
    ensures ExecOf(reg, env, plan)(j, prior).planStepId == PlanStepId(plan.planned, j)
  {
  }

  /** When a step is evaluated, its binding finds no producer exactly when no earlier step has that name. */
  lemma {:induction false} ProducerIsThere(reg: Registry, env: Env, plan: Plan, i: nat, step: string)
    requires i <= |plan.actions| && Reached(reg, env, plan, i) && step != ""
    ensures Find(Prior(reg, env, plan, i), step) == None <==> forall j | 0 <= j < i :: NameOf(plan.actions[j]) != step
  {
    OneRecordEach(reg, env, plan, i);
    var prior := Prior(reg, env, plan, i);
    if exists j | 0 <= j < i :: NameOf(plan.actions[j]) == step {
      var j: nat :| j < i && NameOf(plan.actions[j]) == step;
      assert Ran(reg, env, plan, j, prior);
      RecordName(reg, env, plan, j, Prior(reg, env, plan, j));
      assert prior[PlanRuns.Pos(plan.actions, j)].stepName == step;
    }
    if Find(prior, step).Some? {
      var j := PlanRuns.WhoseRecord(plan.actions, i, Find(prior, step).value);
      assert Ran(reg, env, plan, j, prior);
      RecordName(reg, env, plan, j, Prior(reg, env, plan, j));
      assert NameOf(plan.actions[j]) == step;
    }
  }

  /** Input `key` of step `i` is bound to output `from` of the step called `step`. */
  predicate BoundTo(plan: Plan, i: nat, key: string, step: string, from: string) {
    && i < |plan.actions| && plan.actions[i].Step? && key in plan.actions[i].inputs
    && IsBinding(plan.actions[i].inputs[key])
    && ParseInputSource(plan.actions[i].inputs[key].source) == Ok(FromStep(step, from))
  }

  lemma UniqueProducer(reg: Registry, actions: seq<Action>, i: nat, key: string, step: string, from: string) returns (j: nat)
    requires LineageOk(reg, actions) && BoundTo(Plan(actions, [], ""), i, key, step, from)
    ensures step != "" && j < i && Produces(reg, actions[j], step, from)
    ensures forall k | 0 <= k < |actions| :: NameOf(actions[k]) == step <==> k == j
  {
    assert StepOk(reg, actions, i) && InputOk(reg, actions, i, key);
    ParsedIsValid(actions[i].inputs[key].source);
    j :| 0 <= j < i && Produces(reg, actions[j], step, from);
    forall k | 0 <= k < |actions| && NameOf(actions[k]) == step ensures k == j {
      assert NameOk(NamesOf(actions), k) && NameOk(NamesOf(actions), j);
    }
  }

  /**
    The soundness of the check: when a step of an accepted plan is evaluated, every step binding
    of it finds exactly one record - that of the one earlier step of the plan that has the name,
    which ran and did not fail - and reads its output.
  */
  lemma BindingFindsItsProducer(reg: Registry, env: Env, plan: Plan, i: nat, key: string, step: string, from: string)
    returns (j: nat)
    requires LineageOk(reg, plan.actions) && BoundTo(plan, i, key, step, from) && Reached(reg, env, plan, i)
    ensures j < i && Produces(reg, plan.actions[j], step, from)
    ensures forall k | 0 <= k < |plan.actions| :: NameOf(plan.actions[k]) == step <==> k == j
    ensures Ran(reg, env, plan, j, Prior(reg, env, plan, i))
    ensures forall k | 0 <= k < |Prior(reg, env, plan, i)| ::
              Prior(reg, env, plan, i)[k].stepName == step <==> k == PlanRuns.Pos(plan.actions, j)
    ensures Resolve(env, i, plan.actions[i].inputs[key], Prior(reg, env, plan, i)) ==
            ReadOutput(Prior(reg, env, plan, i)[PlanRuns.Pos(plan.actions, j)].output, from)
  {
    j := UniqueProducer(reg, plan.actions, i, key, step, from);
    OneRecordEach(reg, env, plan, i);
    var prior := Prior(reg, env, plan, i);
    assert Ran(reg, env, plan, j, prior);
    RecordName(reg, env, plan, j, Prior(reg, env, plan, j));
    forall k: nat | k < |prior| ensures prior[k].stepName == step <==> k == PlanRuns.Pos(plan.actions, j) {
      var own := PlanRuns.WhoseRecord(plan.actions, i, k);
      assert Ran(reg, env, plan, own, prior);
      RecordName(reg, env, plan, own, Prior(reg, env, plan, own));
    }
  }

  /** No binding of an accepted plan is unreadable or finds nothing produced, in any run. */
  lemma NothingIsMissing(reg: Registry, env: Env, plan: Plan, i: nat, key: string)
    requires LineageOk(reg, plan.actions) && i < |plan.actions| && Reached(reg, env, plan, i)
    requires plan.actions[i].Step? && key in plan.actions[i].inputs
    ensures var resolved := Resolve(env, i, plan.actions[i].inputs[key], Prior(reg, env, plan, i));
            resolved != Unreadable && resolved != ProducedNothing
  {
    var input := plan.actions[i].inputs[key];
    if IsBinding(input) {
      BindingIsReadable(reg, plan.actions, i, key);
      match ParseInputSource(input.source)
      case Ok(FromStep(step, from)) =>
        var j := BindingFindsItsProducer(reg, env, plan, i, key, step, from);
      case Ok(FromWorld(path)) => WorldPathIsLong(input.source);
    }
  }

  lemma BindingIsReadable(reg: Registry, actions: seq<Action>, i: nat, key: string)
    requires LineageOk(reg, actions) && i < |actions| && actions[i].Step? && key in actions[i].inputs
    requires IsBinding(actions[i].inputs[key])
    ensures ParseInputSource(actions[i].inputs[key].source).Ok?
  {
    assert StepOk(reg, actions, i) && InputOk(reg, actions, i, key);
  }

  lemma WorldPathIsLong(raw: string)
    requires ParseInputSource(raw).Ok? && ParseInputSource(raw).value.FromWorld?
    ensures |ParseInputSource(raw).value.path| >= 3
  {
  }

  // ---- what a capability is called with ----------------------------------------------

  /** The runtime adds nothing but the task id, only where it is declared, and never over a value. */
  lemma TaskIdIsOnlyAdded(entry: Entry, task: string, input: Values)
    ensures var out := FillTaskId(entry, task, input);
            && (forall key | key in input :: key in out && (out[key] == input[key] || (key == "task_id" && input[key] == "")))
            && (forall key | key in out && key !in input :: key == "task_id")
            && (out != input ==> out == input["task_id" := task] && TakesTaskId(entry))
  {
  }

  /** A capability of an accepted plan is called with every input it requires, under its name or an
      alias, and with nothing else than what the step wrote and the task id. */
  lemma CallsAreComplete(reg: Registry, env: Env, plan: Plan, i: nat, k: nat)
    requires LineageOk(reg, plan.actions) && i < |plan.actions| && Reached(reg, env, plan, i)
    requires CanCall(reg, env, plan.actions[i], i, Prior(reg, env, plan, i))
    requires EntryOf(reg, plan.actions[i]).Declared? && k < |EntryOf(reg, plan.actions[i]).inputs|
    requires EntryOf(reg, plan.actions[i]).inputs[k].required
    ensures var field := EntryOf(reg, plan.actions[i]).inputs[k];
            var input := CallInput(reg, env, plan.task, plan.actions[i], i, Prior(reg, env, plan, i));
            exists key | key in input :: key == field.name || key in field.aliases
    ensures CallInput(reg, env, plan.task, plan.actions[i], i, Prior(reg, env, plan, i)).Keys <=
            plan.actions[i].inputs.Keys + {"task_id"}
  {
    var a, prior := plan.actions[i], Prior(reg, env, plan, i);
    var field := EntryOf(reg, a).inputs[k];
    assert StepOk(reg, plan.actions, i);
    assert SuppliedInput(a.inputs, field);
    var key :| key in a.inputs && (key == field.name || key in field.aliases);
    var resolved := ResolvedInputs(env, i, a.inputs, prior);
    TaskIdIsOnlyAdded(EntryOf(reg, a), plan.task, resolved);
    assert key in CallInput(reg, env, plan.task, a, i, prior);
  }

  /** A value bound to a step is handed over as its producer reported it, and is never blank. */
  lemma BoundValueIsHandedOver(reg: Registry, env: Env, plan: Plan, i: nat, key: string, step: string, from: string)
    returns (j: nat, output: Values)
    requires LineageOk(reg, plan.actions) && BoundTo(plan, i, key, step, from) && Reached(reg, env, plan, i)
    requires CanCall(reg, env, plan.actions[i], i, Prior(reg, env, plan, i))
    ensures j < i && NameOf(plan.actions[j]) == step && Ran(reg, env, plan, j, Prior(reg, env, plan, i))
    ensures output == Prior(reg, env, plan, i)[PlanRuns.Pos(plan.actions, j)].output
    ensures from in output && Trim(output[from]) != ""
    ensures var input := CallInput(reg, env, plan.task, plan.actions[i], i, Prior(reg, env, plan, i));
            key in input && input[key] == output[from]
  {
    var a, prior := plan.actions[i], Prior(reg, env, plan, i);
    j := BindingFindsItsProducer(reg, env, plan, i, key, step, from);
    output := prior[PlanRuns.Pos(plan.actions, j)].output;
    var resolved := ResolvedInputs(env, i, a.inputs, prior);
    assert Resolve(env, i, a.inputs[key], prior).Value?;
    assert resolved[key] == output[from];
    assert Trim("") == "";
    TaskIdIsOnlyAdded(EntryOf(reg, a), plan.task, resolved);
  }

  // ---- aliases -------------------------------------------------------------------------

  /** A capability that reports each output it declares, under the declared name, with a value. */
  predicate ReportsAsDeclared(output: Values, fields: seq<Field>) {
    && (forall key | key in output :: (exists f | 0 <= f < |fields| :: fields[f].name == key) && Trim(output[key]) != "")
    && (forall f | 0 <= f < |fields| :: fields[f].name in output)
  }

  /** The check accepts an output by its alias, the resolver reads the key as written: with a producer
      that reports as it declares, a binding has a value exactly when its key is a declared name. */
  lemma {:induction false} AliasIsNotRead(reg: Registry, env: Env, plan: Plan, i: nat, key: string, step: string, from: string, j: nat)
    requires LineageOk(reg, plan.actions) && BoundTo(plan, i, key, step, from) && Reached(reg, env, plan, i)
    requires j < i && NameOf(plan.actions[j]) == step && Ran(reg, env, plan, j, Prior(reg, env, plan, i))
    requires plan.actions[j].Step? && EntryOf(reg, plan.actions[j]).Declared?
    requires ReportsAsDeclared(Prior(reg, env, plan, i)[PlanRuns.Pos(plan.actions, j)].output, EntryOf(reg, plan.actions[j]).outputs)
    ensures var fields := EntryOf(reg, plan.actions[j]).outputs;
            Resolve(env, i, plan.actions[i].inputs[key], Prior(reg, env, plan, i)).Value? <==>
            exists f | 0 <= f < |fields| :: fields[f].name == from
  {
    var own := BindingFindsItsProducer(reg, env, plan, i, key, step, from);
    assert own == j;
  }

  const OPENED: Field := Field("pr_url", ["url"], false, "")
  const ALIAS_SOURCE: string := Print(FromStep("a", "url"))
  const OPENER: Action := Step("open", "a", map[], "opened", [])
  const READER: Action := Step("read", "b", map["pr" := StepInput("", ALIAS_SOURCE)], "read", [])
  const ALIAS_PLAN: Plan := Plan([OPENER, READER], [], "")

  function AliasRegistry(): Registry {
    name => if name == "open" then Declared([], [OPENED]) else Undeclared
  }

  /** A world where every capability succeeds and reports exactly what it declares. */
  function HonestEnv(): Env {
    Env((i, name, input) => Answer(map["pr_url" := "42"], false), (i, id) => None)
  }

  lemma PlainName(name: string)
    requires |name| > 0 && forall i | 0 <= i < |name| :: 'a' <= name[i] <= 'z'
    ensures Trim(name) == name && Canonical(name) == name && ValidName(name) && ValidKey(name) && !IsSpace(name[|name| - 1])
  {
    assert Lower(name) == name;
  }

  lemma AliasSourceReads()
    ensures ParseInputSource(ALIAS_SOURCE) == Ok(FromStep("a", "url")) && Trim(ALIAS_SOURCE) != ""
  {
    PlainName("a");
    PlainName("url");
    StepRoundTrip("a", "url");
    assert Trim("") == "";
    NothingReadsAsNothing();
  }

  lemma NothingReadsAsNothing()
    ensures forall raw :: Trim(raw) == "" ==> ParseInputSource(raw).Err?
  {
  }

  lemma OpenerProduces()
    ensures NameOf(OPENER) == "a" && Produces(AliasRegistry(), OPENER, "a", "url")
  {
    PlainName("open");
    PlainName("a");
    PlainName("url");
    assert OPENED.aliases[0] == "url" && [OPENED][0] == OPENED;
    assert FieldAccepts([OPENED], "url");
  }

  lemma ReaderBindsToOpener(actions: seq<Action>)
    requires actions == ALIAS_PLAN.actions
    ensures StepOk(AliasRegistry(), actions, 1)
  {
    PlainName("read");
    AliasSourceReads();
    OpenerProduces();
    assert actions[0] == OPENER && actions[1] == READER;
    assert EntryOf(AliasRegistry(), READER) == Undeclared;
    assert BindingOk(AliasRegistry(), actions, 1, StepInput("", ALIAS_SOURCE));
  }

  lemma AliasPlanIsNamed()
    ensures NamesOk(NamesOf(ALIAS_PLAN.actions))
  {
    PlainName("a");
    PlainName("b");
    var names := NamesOf(ALIAS_PLAN.actions);
    assert names == ["a", "b"];
    assert NameOk(names, 0) && NameOk(names, 1);
  }

  lemma OpenerIsOk(actions: seq<Action>)
    requires actions == ALIAS_PLAN.actions
    ensures StepOk(AliasRegistry(), actions, 0)
  {
    PlainName("open");
    assert actions[0] == OPENER;
  }

  lemma AliasPlanIsAccepted()
    ensures LineageOk(AliasRegistry(), ALIAS_PLAN.actions)
  {
    AliasPlanIsNamed();
    OpenerIsOk(ALIAS_PLAN.actions);
    ReaderBindsToOpener(ALIAS_PLAN.actions);
  }

  /** An accepted plan that fails although every capability does what it declares: the binding
      names the output by its alias. */
  lemma AnAliasCanFail()
    ensures LineageOk(AliasRegistry(), ALIAS_PLAN.actions)
    ensures Reached(AliasRegistry(), HonestEnv(), ALIAS_PLAN, 1)
    ensures ReportsAsDeclared(Prior(AliasRegistry(), HonestEnv(), ALIAS_PLAN, 1)[0].output, [OPENED])
    ensures !Reached(AliasRegistry(), HonestEnv(), ALIAS_PLAN, 2)
  {
    var reg, env := AliasRegistry(), HonestEnv();
    AliasPlanIsAccepted();
    OpenerRuns();
    AliasIsUnresolved();
    UnresolvedFails(reg, env, ALIAS_PLAN, 1, "pr", Prior(reg, env, ALIAS_PLAN, 1));
    FailureEnds(reg, env, ALIAS_PLAN, 1);
  }

  lemma AliasIsUnresolved()
    requires LineageOk(AliasRegistry(), ALIAS_PLAN.actions)
    requires Reached(AliasRegistry(), HonestEnv(), ALIAS_PLAN, 1)
    requires |Prior(AliasRegistry(), HonestEnv(), ALIAS_PLAN, 1)| == 1
    requires Prior(AliasRegistry(), HonestEnv(), ALIAS_PLAN, 1)[0].output == map["pr_url" := "42"]
    ensures Resolve(HonestEnv(), 1, READER.inputs["pr"], Prior(AliasRegistry(), HonestEnv(), ALIAS_PLAN, 1)) == NotReported
  {
    AliasSourceReads();
    var own := BindingFindsItsProducer(AliasRegistry(), HonestEnv(), ALIAS_PLAN, 1, "pr", "a", "url");
    assert own == 0;
  }

  /** A binding that has no value fails its step, and a step that fails ends the plan. */
  lemma UnresolvedFails(reg: Registry, env: Env, plan: Plan, i: nat, key: string, prior: seq<Record>)
    requires i < |plan.actions| && plan.actions[i].Step? && key in plan.actions[i].inputs
    requires !Resolve(env, i, plan.actions[i].inputs[key], prior).Value?
    ensures ExecOf(reg, env, plan)(i, prior).failed
  {
    assert !AllResolve(env, i, plan.actions[i].inputs, prior);
  }

  lemma FailureEnds(reg: Registry, env: Env, plan: Plan, i: nat)
    requires i < |plan.actions| && !plan.actions[i].Nil? && Reached(reg, env, plan, i)
    requires ExecOf(reg, env, plan)(i, Prior(reg, env, plan, i)).failed
    ensures !Reached(reg, env, plan, i + 1)
  {
  }

  lemma OpenerRuns()
    ensures Reached(AliasRegistry(), HonestEnv(), ALIAS_PLAN, 1)
    ensures |Prior(AliasRegistry(), HonestEnv(), ALIAS_PLAN, 1)| == 1
    ensures Prior(AliasRegistry(), HonestEnv(), ALIAS_PLAN, 1)[0].output == map["pr_url" := "42"]
    ensures ReportsAsDeclared(map["pr_url" := "42"], [OPENED])
  {
    var reg, env := AliasRegistry(), HonestEnv();
    PlainName("open");
    assert Prior(reg, env, ALIAS_PLAN, 0) == [] && ALIAS_PLAN.actions[0] == OPENER;
    assert CanCall(reg, env, OPENER, 0, []);
    PlanRuns.NextPrior(ALIAS_PLAN.actions, ExecOf(reg, env, ALIAS_PLAN), 0);
    assert OPENED.name == "pr_url" && [OPENED][0] == OPENED;
    assert Trim("42") == "42";
  }

  // ---- the records -----------------------------------------------------------------------

  /** The store's rows of a plan: one for each action that executes, counted from 1, each with its own id. */
  predicate Saved(plan: Plan) {
    && |plan.planned| == PlanRuns.Pos(plan.actions, |plan.actions|)
    && (forall i: nat | i < |plan.actions| && !plan.actions[i].Nil? ::
          HasRow(plan.actions, plan.planned, i))
    && (forall k, l | 0 <= k < l < |plan.planned| :: plan.planned[k].id != plan.planned[l].id)
  }

  lemma {:induction false} RowOf(planned: seq<PlannedStep>, i: nat, at: nat)
    requires at < |planned| && planned[at].idx == i + 1
    requires forall k | 0 <= k < at :: planned[k].idx != i + 1
    ensures PlanStepId(planned, i) == planned[at].id
  {
    if at > 0 {
      RowOf(planned[1..], i, at - 1);
    }
  }

  lemma {:induction false} OwnRow(plan: Plan, i: nat)
    requires Saved(plan) && i < |plan.actions| && !plan.actions[i].Nil?
    ensures PlanRuns.Pos(plan.actions, i) < |plan.planned| && PlanStepId(plan.planned, i) == plan.planned[PlanRuns.Pos(plan.actions, i)].id
  {
    forall k: nat | k < PlanRuns.Pos(plan.actions, i) ensures plan.planned[k].idx != i + 1 {
      PlanRuns.PosGrows(plan.actions, i, |plan.actions|);
      var j := PlanRuns.WhoseRecord(plan.actions, i, k);
    }
    RowOf(plan.planned, i, PlanRuns.Pos(plan.actions, i));
  }

  /** "Planned but never executed" is answerable: a plan row has a record exactly when its action was
      reached, and then one record, that action's. */
  lemma {:induction false} PlannedOrExecuted(reg: Registry, env: Env, plan: Plan, i: nat)
    requires Saved(plan) && i < |plan.actions| && !plan.actions[i].Nil?
    ensures PlanRuns.Pos(plan.actions, i) < |plan.planned|
    ensures var row, records := plan.planned[PlanRuns.Pos(plan.actions, i)], Prior(reg, env, plan, |plan.actions|);
            forall k | 0 <= k < |records| :: records[k].planStepId == row.id <==> k == PlanRuns.Pos(plan.actions, i)
    ensures PlanRuns.Pos(plan.actions, i) < |Prior(reg, env, plan, |plan.actions|)| <==> Reached(reg, env, plan, i)
  {
    var n, exec := |plan.actions|, ExecOf(reg, env, plan);
    OwnRow(plan, i);
    var records := Prior(reg, env, plan, n);
    forall k: nat | k < |records|
      ensures records[k].planStepId == plan.planned[PlanRuns.Pos(plan.actions, i)].id <==> k == PlanRuns.Pos(plan.actions, i)
    {
      var j := PlanRuns.RecordIsFrom(plan.actions, exec, n, k);
      RecordName(reg, env, plan, j, PlanRuns.Prior(plan.actions, exec, j));
      OwnRow(plan, j);
    }
    PlanRuns.HasRecord(plan.actions, exec, i, n);
  }

  /** The rows of the first `n` actions. */
  ghost predicate SavedTo(actions: seq<Action>, n: nat, planned: seq<PlannedStep>, firstId: nat) {
    && n <= |actions| && |planned| == PlanRuns.Pos(actions, n)
    && (forall j: nat | j < n && !actions[j].Nil? :: HasRow(actions, planned, j))
    && (forall k | 0 <= k < |planned| :: planned[k].id == firstId + k)
  }

  predicate HasRow(actions: seq<Action>, planned: seq<PlannedStep>, j: nat)
    requires j < |actions|
  {
    PlanRuns.Pos(actions, j) < |planned| && planned[PlanRuns.Pos(actions, j)].idx == j + 1
  }

  lemma RowStays(actions: seq<Action>, planned: seq<PlannedStep>, row: PlannedStep, j: nat)
    requires j < |actions| && HasRow(actions, planned, j)
    ensures HasRow(actions, planned + [row], j)
  {
  }

  lemma SavedOneMore(actions: seq<Action>, i: nat, planned: seq<PlannedStep>, firstId: nat)
    requires i < |actions| && !actions[i].Nil? && SavedTo(actions, i, planned, firstId)
    ensures SavedTo(actions, i + 1, planned + [PlannedStep(i + 1, firstId + |planned|)], firstId)
  {
    var row := PlannedStep(i + 1, firstId + |planned|);
    forall j: nat | j < i + 1 && !actions[j].Nil? ensures HasRow(actions, planned + [row], j) {
      if j < i {
        RowStays(actions, planned, row, j);
      }
    }
  }

  lemma SavedNoMore(actions: seq<Action>, i: nat, planned: seq<PlannedStep>, firstId: nat)
    requires i < |actions| && actions[i].Nil? && SavedTo(actions, i, planned, firstId)
    ensures SavedTo(actions, i + 1, planned, firstId)
  {
  }

  /** The rows a plan is recorded with: one for each of its actions that executes. */
  method PlannedSteps(actions: seq<Action>, firstId: nat) returns (planned: seq<PlannedStep>)
    ensures Saved(Plan(actions, planned, ""))
    ensures forall k | 0 <= k < |planned| :: planned[k].id == firstId + k
  {
    planned := [];
    for i := 0 to |actions|
      invariant SavedTo(actions, i, planned, firstId)
    {
      if actions[i].Nil? {
        SavedNoMore(actions, i, planned, firstId);
      } else {
        SavedOneMore(actions, i, planned, firstId);
        planned := planned + [PlannedStep(i + 1, firstId + |planned|)];
      }
    }
    AllAreSaved(actions, planned, firstId);
  }

  lemma AllAreSaved(actions: seq<Action>, planned: seq<PlannedStep>, firstId: nat)
    requires SavedTo(actions, |actions|, planned, firstId)
    ensures Saved(Plan(actions, planned, ""))
  {
  }
}
