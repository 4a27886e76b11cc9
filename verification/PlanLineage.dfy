/**
  Plan data lineage: the static check of a plan's bindings, the executor that resolves them
  while the plan runs, and what a plan the check accepts cannot run into.
*/
module PlanLineage {
  import opened Basics
  import opened Text
  import opened PlanInput

  datatype Field = Field(name: string, aliases: seq<string>, required: bool, kind: string)

  /** What the registry has under a capability's name. */
  datatype Entry = Missing | Undeclared | Declared(inputs: seq<Field>, outputs: seq<Field>)

  /** What the registry answers to a capability's canonical name. */
  type Registry = string -> Entry

  /** A registry in which nothing declares a signature. */
  function NoSignatures(): Registry {
    name => Undeclared
  }

  function Canonical(name: string): string {
    Lower(Trim(name))
  }

  /** The entry of the capability an action calls. */
  function EntryOf(reg: Registry, a: Action): Entry
    requires a.Step?
  {
    reg(Canonical(a.capability))
  }

  /** One action of a plan; `Nothing` is a step that executes nothing. */
  datatype Action =
    | Nil
    | Nothing(reason: string)
    | Step(capability: string, stepName: string, inputs: map<string, StepInput>, effect: string, evidenceRefs: seq<string>)

  predicate FieldAccepts(fields: seq<Field>, name: string) {
    exists i | 0 <= i < |fields| :: Trim(name) == fields[i].name || Trim(name) in fields[i].aliases
  }

  predicate SuppliedInput(inputs: map<string, StepInput>, field: Field) {
    exists key | key in inputs :: key == field.name || key in field.aliases
  }

  /** What a step is called, or nothing. */
  function NameOf(a: Action): string {
    if a.Step? then Trim(a.stepName) else ""
  }

  // ---- the check -------------------------------------------------------------------

  /** The names of a plan's steps, by position. */
  function NamesOf(actions: seq<Action>): seq<string> {
    seq(|actions|, i requires 0 <= i < |actions| => NameOf(actions[i]))
  }

  predicate NameOk(names: seq<string>, i: nat)
    requires i < |names|
  {
    names[i] == "" || (ValidName(names[i]) && forall j | 0 <= j < i :: names[j] != names[i])
  }

  predicate NamesOk(names: seq<string>) {
    forall i | 0 <= i < |names| :: NameOk(names, i)
  }

  /** Some step before `i` is called `name`, and its capability declares the output `key`. */
  predicate Produces(reg: Registry, a: Action, name: string, key: string) {
    a.Step? && NameOf(a) == name && EntryOf(reg, a).Declared? && FieldAccepts(EntryOf(reg, a).outputs, key)
  }

  predicate BindingOk(reg: Registry, actions: seq<Action>, i: nat, input: StepInput)
    requires i < |actions|
  {
    match ParseInputSource(input.source)
    case Err => false
    case Ok(FromWorld(_)) => true
    case Ok(FromStep(step, key)) => exists j | 0 <= j < i :: Produces(reg, actions[j], step, key)
  }

  predicate InputOk(reg: Registry, actions: seq<Action>, i: nat, key: string)
    requires i < |actions| && actions[i].Step? && key in actions[i].inputs
  {
    var entry := EntryOf(reg, actions[i]);
    && (entry.Declared? ==> FieldAccepts(entry.inputs, key))
    && (IsBinding(actions[i].inputs[key]) ==> BindingOk(reg, actions, i, actions[i].inputs[key]))
  }

  predicate RequiredOk(reg: Registry, a: Action) {
    a.Step? && EntryOf(reg, a).Declared? ==>
      forall k | 0 <= k < |EntryOf(reg, a).inputs| ::
        EntryOf(reg, a).inputs[k].required ==> SuppliedInput(a.inputs, EntryOf(reg, a).inputs[k])
  }

  predicate StepOk(reg: Registry, actions: seq<Action>, i: nat)
    requires i < |actions|
  {
    RequiredOk(reg, actions[i]) && (actions[i].Step? ==> forall key | key in actions[i].inputs :: InputOk(reg, actions, i, key))
  }

  /** Names are usable and unique, every binding reads a declared output of an earlier step or the
      world, every input is declared and every required one is there. */
  predicate LineageOk(reg: Registry, actions: seq<Action>) {
    NamesOk(NamesOf(actions)) && StepsOk(reg, actions, |actions|)
  }

  predicate StepsOk(reg: Registry, actions: seq<Action>, n: nat)
    requires n <= |actions|
  {
    forall i | 0 <= i < n :: StepOk(reg, actions, i)
  }

  /** Which position a name has: `named` is what the check knows about the first `n` steps. */
  ghost predicate Named(names: seq<string>, n: nat, named: map<string, nat>)
    requires n <= |names|
  {
    && (forall i | 0 <= i < n && names[i] != "" :: names[i] in named)
    && (forall name | name in named :: named[name] < n && names[named[name]] == name && name != "")
  }

  method CheckNames(names: seq<string>) returns (ok: bool, named: map<string, nat>)
    ensures ok == NamesOk(names)
    ensures ok ==> Named(names, |names|, named)
  {
    named := map[];
    for i := 0 to |names|
      invariant forall k | 0 <= k < i :: NameOk(names, k)
      invariant Named(names, i, named)
    {
      if names[i] != "" {
        if !ValidName(names[i]) || names[i] in named {
          assert !NameOk(names, i);
          return false, named;
        }
        named := named[names[i] := i];
      }
    }
    ok := true;
  }

  method CheckBinding(reg: Registry, actions: seq<Action>, named: map<string, nat>, i: nat, input: StepInput) returns (ok: bool)
    requires i < |actions| && Named(NamesOf(actions), |actions|, named) && NamesOk(NamesOf(actions))
    ensures ok == BindingOk(reg, actions, i, input)
  {
    var parsed := ParseInputSource(input.source);
    match parsed {
      case Err => return false;
      case Ok(FromWorld(_)) => return true;
      case Ok(FromStep(step, key)) =>
        ParsedIsValid(input.source);
        if step !in named || named[step] >= i {
          NoEarlierStep(reg, actions, named, i, step, key);
          return false;
        }
        var at := named[step];
        OnlyThatStep(reg, actions, at, i, step, key);
        return EntryOf(reg, actions[at]).Declared? && FieldAccepts(EntryOf(reg, actions[at]).outputs, key);
    }
  }

  lemma NoEarlierStep(reg: Registry, actions: seq<Action>, named: map<string, nat>, i: nat, step: string, key: string)
    requires i < |actions| && Named(NamesOf(actions), |actions|, named) && NamesOk(NamesOf(actions))
    requires step != "" && (step !in named || named[step] >= i)
    ensures !exists j | 0 <= j < i :: Produces(reg, actions[j], step, key)
  {
    forall j | 0 <= j < i ensures !Produces(reg, actions[j], step, key) {
      assert NameOk(NamesOf(actions), j);
      assert step in named ==> NameOk(NamesOf(actions), named[step]);
    }
  }

  lemma OnlyThatStep(reg: Registry, actions: seq<Action>, at: nat, i: nat, step: string, key: string)
    requires at < i < |actions| && NameOf(actions[at]) == step != "" && NamesOk(NamesOf(actions))
    ensures (exists j | 0 <= j < i :: Produces(reg, actions[j], step, key)) <==> Produces(reg, actions[at], step, key)
  {
    forall j | 0 <= j < i && Produces(reg, actions[j], step, key) ensures j == at {
      assert NameOk(NamesOf(actions), j) && NameOk(NamesOf(actions), at);
    }
  }

  method CheckInputs(reg: Registry, actions: seq<Action>, named: map<string, nat>, i: nat) returns (ok: bool)
    requires i < |actions| && actions[i].Step?
    requires Named(NamesOf(actions), |actions|, named) && NamesOk(NamesOf(actions))
    ensures ok <==> forall key | key in actions[i].inputs :: InputOk(reg, actions, i, key)
  {
    var keys := actions[i].inputs.Keys;
    var entry := EntryOf(reg, actions[i]);
    while keys != {}
      invariant keys <= actions[i].inputs.Keys
      invariant forall key | key in actions[i].inputs && key !in keys :: InputOk(reg, actions, i, key)
      decreases keys
    {
      var key :| key in keys;
      if entry.Declared? && !FieldAccepts(entry.inputs, key) {
        assert !InputOk(reg, actions, i, key);
        return false;
      }
      if IsBinding(actions[i].inputs[key]) {
        var readable := CheckBinding(reg, actions, named, i, actions[i].inputs[key]);
        if !readable {
          assert !InputOk(reg, actions, i, key);
          return false;
        }
      }
      keys := keys - {key};
    }
    ok := true;
  }

  method CheckRequired(reg: Registry, a: Action) returns (ok: bool)
    requires a.Step?
    ensures ok == RequiredOk(reg, a)
  {
    var entry := EntryOf(reg, a);
    if entry.Declared? {
      for k := 0 to |entry.inputs|
        invariant forall l | 0 <= l < k :: entry.inputs[l].required ==> SuppliedInput(a.inputs, entry.inputs[l])
      {
        if entry.inputs[k].required && !SuppliedInput(a.inputs, entry.inputs[k]) {
          return false;
        }
      }
    }
    ok := true;
  }

  method CheckStep(reg: Registry, actions: seq<Action>, named: map<string, nat>, i: nat) returns (ok: bool)
    requires i < |actions| && Named(NamesOf(actions), |actions|, named) && NamesOk(NamesOf(actions))
    ensures ok == StepOk(reg, actions, i)
  {
    ok := true;
    if actions[i].Step? {
      ok := CheckInputs(reg, actions, named, i);
      if ok {
        ok := CheckRequired(reg, actions[i]);
      }
    }
  }

  /** The check of a whole plan, before anything of it is written or run. */
  method ValidatePlanLineage(reg: Registry, actions: seq<Action>) returns (ok: bool)
    ensures ok == LineageOk(reg, actions)
  {
    var namesOk, named := CheckNames(NamesOf(actions));
    if !namesOk {
      return false;
    }
    ok := CheckSteps(reg, actions, named);
  }

  lemma OneMoreStepOk(reg: Registry, actions: seq<Action>, i: nat)
    requires i < |actions| && StepsOk(reg, actions, i)
    ensures StepsOk(reg, actions, i + 1) <==> StepOk(reg, actions, i)
  {
  }

  lemma OneBadStep(reg: Registry, actions: seq<Action>, i: nat)
    requires i <= |actions| && !StepsOk(reg, actions, i)
    ensures !StepsOk(reg, actions, |actions|)
  {
  }

  method CheckSteps(reg: Registry, actions: seq<Action>, named: map<string, nat>) returns (ok: bool)
    requires Named(NamesOf(actions), |actions|, named) && NamesOk(NamesOf(actions))
    ensures ok == StepsOk(reg, actions, |actions|)
  {
    for i := 0 to |actions|
      invariant StepsOk(reg, actions, i)
    {
      OneMoreStepOk(reg, actions, i);
      var stepOk := CheckStep(reg, actions, named, i);
      if !stepOk {
        OneBadStep(reg, actions, i + 1);
        return false;
      }
    }
    ok := true;
  }
}
