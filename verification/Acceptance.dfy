/**
  What the checks a decision must pass accept, told without the checks' own predicates: the rules of
  its type, the data lineage of its steps, and its completion contract.
*/
module Acceptance {
  import opened Basics
  import opened Text
  import opened PlanInput
  import opened PlanLineage
  import opened Verification
  import opened Decisions
  import G = ApprovalGate

  // ---- the lineage of a plan ---------------------------------------------------------------------

  /** One of the fields is called `name`, or has it for an alias. */
  predicate HasField(fields: seq<Field>, name: string) {
    exists f | 0 <= f < |fields| :: fields[f].name == name || name in fields[f].aliases
  }

  predicate IsNameChar(c: char) {
    'a' <= c <= 'z' || 'A' <= c <= 'Z' || '0' <= c <= '9'
  }

  /** What a binding can name a step by. */
  predicate IsStepName(name: string) {
    name != "" && IsNameChar(name[0]) && forall c | c in name :: IsNameChar(c) || c == '_' || c == '-'
  }

  /** A step that has a name has a usable one, and no other step has it. */
  predicate NamesAreUsable(actions: seq<Action>) {
    forall i | 0 <= i < |actions| && actions[i].Step? && Trim(actions[i].stepName) != "" ::
      && IsStepName(Trim(actions[i].stepName))
      && forall j | 0 <= j < |actions| && j != i && actions[j].Step? :: Trim(actions[j].stepName) != Trim(actions[i].stepName)
  }

  /** The capability of a step declares no signature, or every input the step passes; and what it
      requires is there. */
  predicate PassesWhatIsDeclared(reg: Registry, a: Action)
    requires a.Step?
  {
    var entry := EntryOf(reg, a);
    entry.Declared? ==>
      && (forall key | key in a.inputs :: HasField(entry.inputs, Trim(key)))
      && (forall f | 0 <= f < |entry.inputs| && entry.inputs[f].required ::
            exists key | key in a.inputs :: key == entry.inputs[f].name || key in entry.inputs[f].aliases)
  }

  /** The step called `name` comes before position `i`, and its capability declares the output. */
  predicate IsProducedBefore(reg: Registry, actions: seq<Action>, i: nat, name: string, key: string)
    requires i <= |actions|
  {
    exists j | 0 <= j < i ::
      && actions[j].Step? && Trim(actions[j].stepName) == name
      && EntryOf(reg, actions[j]).Declared? && HasField(EntryOf(reg, actions[j]).outputs, Trim(key))
  }

  predicate Readable(reg: Registry, actions: seq<Action>, i: nat, source: string)
    requires i < |actions|
  {
    match ParseInputSource(source)
    case Err => false
    case Ok(FromWorld(_)) => true
    case Ok(FromStep(step, output)) => IsProducedBefore(reg, actions, i, step, output)
  }

  /** Every input with a source reads the World Model or a declared output of an earlier step. */
  predicate BindingsAreReadable(reg: Registry, actions: seq<Action>, i: nat)
    requires i < |actions| && actions[i].Step?
  {
    forall key | key in actions[i].inputs && Trim(actions[i].inputs[key].source) != "" ::
      Readable(reg, actions, i, actions[i].inputs[key].source)
  }

  predicate IsSound(reg: Registry, actions: seq<Action>) {
    && NamesAreUsable(actions)
    && forall i | 0 <= i < |actions| && actions[i].Step? ::
         PassesWhatIsDeclared(reg, actions[i]) && BindingsAreReadable(reg, actions, i)
  }

  lemma FieldByName(fields: seq<Field>, name: string)
    ensures FieldAccepts(fields, name) <==> HasField(fields, Trim(name))
  {
  }

  lemma UsableName(name: string)
    ensures ValidName(name) <==> IsStepName(name)
  {
    if ValidName(name) {
      forall c | c in name ensures IsNameChar(c) || c == '_' || c == '-' {
        var i :| 0 <= i < |name| && name[i] == c;
      }
    }
    if IsStepName(name) {
      forall i | 0 < i < |name| ensures IsAlnum(name[i]) || name[i] == '_' || name[i] == '-' {
        assert name[i] in name;
      }
    }
  }

  lemma NameMeans(actions: seq<Action>, i: nat)
    requires NamesAreUsable(actions) && i < |actions|
    ensures NameOk(NamesOf(actions), i)
  {
    var names := NamesOf(actions);
    if names[i] != "" {
      UsableName(names[i]);
      forall j | 0 <= j < i ensures names[j] != names[i] {
        assert actions[j].Step? ==> Trim(actions[j].stepName) != Trim(actions[i].stepName);
      }
    }
  }

  lemma NamesMean(actions: seq<Action>)
    ensures NamesOk(NamesOf(actions)) <==> NamesAreUsable(actions)
  {
    var names := NamesOf(actions);
    forall i | 0 <= i < |actions| ensures ValidName(names[i]) <==> IsStepName(names[i]) {
      UsableName(names[i]);
    }
    if NamesOk(names) {
      forall i | 0 <= i < |actions| && actions[i].Step? && Trim(actions[i].stepName) != ""
        ensures IsStepName(Trim(actions[i].stepName))
        ensures forall j | 0 <= j < |actions| && j != i && actions[j].Step? :: Trim(actions[j].stepName) != Trim(actions[i].stepName)
      {
        assert NameOk(names, i);
        forall j | 0 <= j < |actions| && j != i && actions[j].Step? ensures Trim(actions[j].stepName) != Trim(actions[i].stepName) {
          assert NameOk(names, j) && names[j] == Trim(actions[j].stepName);
        }
      }
    }
    if NamesAreUsable(actions) {
      forall i | 0 <= i < |names| ensures NameOk(names, i) {
        NameMeans(actions, i);
      }
    }
  }

  lemma InputsMean(reg: Registry, actions: seq<Action>, i: nat)
    requires i < |actions| && actions[i].Step?
    ensures StepOk(reg, actions, i) <==> PassesWhatIsDeclared(reg, actions[i]) && BindingsAreReadable(reg, actions, i)
  {
    var a, entry := actions[i], EntryOf(reg, actions[i]);
    forall key | key in a.inputs ensures entry.Declared? ==> (FieldAccepts(entry.inputs, key) <==> HasField(entry.inputs, Trim(key))) {
      if entry.Declared? {
        FieldByName(entry.inputs, key);
      }
    }
    forall key | key in a.inputs && Trim(a.inputs[key].source) != "" ensures BindingOk(reg, actions, i, a.inputs[key]) <==> Readable(reg, actions, i, a.inputs[key].source) {
      BindingMeans(reg, actions, i, a.inputs[key]);
    }
  }

  lemma BindingMeans(reg: Registry, actions: seq<Action>, i: nat, input: StepInput)
    requires i < |actions|
    ensures BindingOk(reg, actions, i, input) <==> Readable(reg, actions, i, input.source)
  {
    match ParseInputSource(input.source)
    case Ok(FromStep(step, output)) =>
      forall j | 0 <= j < i && actions[j].Step? && EntryOf(reg, actions[j]).Declared?
        ensures FieldAccepts(EntryOf(reg, actions[j]).outputs, output) <==> HasField(EntryOf(reg, actions[j]).outputs, Trim(output))
      {
        FieldByName(EntryOf(reg, actions[j]).outputs, output);
      }
      ProducedMeans(reg, actions, i, step, output);
    case _ =>
  }

  lemma ProducedMeans(reg: Registry, actions: seq<Action>, i: nat, step: string, output: string)
    requires i < |actions| && ValidName(step)
    ensures (exists j | 0 <= j < i :: Produces(reg, actions[j], step, output)) <==> IsProducedBefore(reg, actions, i, step, output)
  {
    forall j | 0 <= j < i && actions[j].Step? && EntryOf(reg, actions[j]).Declared?
      ensures FieldAccepts(EntryOf(reg, actions[j]).outputs, output) <==> HasField(EntryOf(reg, actions[j]).outputs, Trim(output))
    {
      FieldByName(EntryOf(reg, actions[j]).outputs, output);
    }
  }

  /** The lineage check accepts exactly the sound plans. */
  lemma LineageIsSound(reg: Registry, actions: seq<Action>)
    ensures LineageOk(reg, actions) <==> IsSound(reg, actions)
  {
    NamesMean(actions);
    forall i | 0 <= i < |actions| ensures StepOk(reg, actions, i) <==>
      (actions[i].Step? ==> PassesWhatIsDeclared(reg, actions[i]) && BindingsAreReadable(reg, actions, i)) {
      if actions[i].Step? {
        InputsMean(reg, actions, i);
      }
    }
  }

  /** So whatever a step of an accepted plan is called, a later step can bind to its outputs. */
  lemma EveryStepCanBeBound(reg: Registry, actions: seq<Action>, i: nat, key: string)
    requires LineageOk(reg, actions) && i < |actions| && actions[i].Step? && Trim(actions[i].stepName) != ""
    requires ValidKey(key) && !IsSpace(key[|key| - 1])
    ensures ParseInputSource(Print(FromStep(Trim(actions[i].stepName), key))) == Ok(FromStep(Trim(actions[i].stepName), key))
  {
    LineageIsSound(reg, actions);
    UsableName(Trim(actions[i].stepName));
    StepRoundTrip(Trim(actions[i].stepName), key);
  }

  // ---- the rules of a type -------------------------------------------------------------------------

  /** Every step says what it is for, and every fact it refers to is one the decision carries. */
  predicate IsWellFoundedPlan(d: Decision) {
    && d.actions != []
    && (forall i | 0 <= i < |d.actions| && d.actions[i].Step? :: Trim(d.actions[i].effect) != "")
    && (forall i, r | 0 <= i < |d.actions| && d.actions[i].Step? && 0 <= r < |d.actions[i].evidenceRefs| ::
          Trim(d.actions[i].evidenceRefs[r]) != "" ==>
          exists e | 0 <= e < |d.evidence| :: Trim(d.evidence[e]) == Trim(d.actions[i].evidenceRefs[r]))
  }

  /** Nothing to choose from, or two to nine answers that are not blank and differ. */
  predicate IsAChoice(options: seq<string>) {
    options == [] ||
    (2 <= |options| <= 9 &&
     (forall i | 0 <= i < |options| :: Trim(options[i]) != "") &&
     (forall i, j | 0 <= i < j < |options| :: Trim(options[i]) != Trim(options[j])))
  }

  predicate MeetsItsRules(d: Decision) {
    match d.kind
    case PlanKind => IsWellFoundedPlan(d)
    case DoneKind =>
      d.actions == [] && Trim(d.need.kind) == "" && Trim(d.need.description) == "" && d.need.options == [] && d.evidence != []
    case BlockedKind => d.actions == [] && Trim(d.need.description) != "" && !d.need.asksRuntime && IsAChoice(d.need.options)
    case NeedInputKind => d.actions == [] && Trim(d.need.description) != "" && !d.need.asksRuntime && IsAChoice(d.need.options)
    case OtherKind => true
  }

  lemma CarriedMeans(evidence: seq<string>, ref: string)
    ensures Carried(evidence, ref) <==> (Trim(ref) != "" ==> exists e | 0 <= e < |evidence| :: Trim(evidence[e]) == Trim(ref))
  {
    if e :| 0 <= e < |evidence| && Trim(evidence[e]) == Trim(ref) {
      assert Trimmed(evidence)[e] == Trim(ref);
    }
  }

  lemma PlanMeans(d: Decision)
    ensures PlanOk(d) <==> IsWellFoundedPlan(d)
  {
    forall i, r | 0 <= i < |d.actions| && d.actions[i].Step? && 0 <= r < |d.actions[i].evidenceRefs|
      ensures Carried(d.evidence, d.actions[i].evidenceRefs[r]) <==>
              (Trim(d.actions[i].evidenceRefs[r]) != "" ==>
               exists e | 0 <= e < |d.evidence| :: Trim(d.evidence[e]) == Trim(d.actions[i].evidenceRefs[r]))
    {
      CarriedMeans(d.evidence, d.actions[i].evidenceRefs[r]);
    }
    if PlanOk(d) {
      forall i | 0 <= i < |d.actions| && d.actions[i].Step? ensures Trim(d.actions[i].effect) != "" && RefsExist(d.evidence, d.actions[i]) {
        assert SaysWhatFor(d.actions[i]);
      }
    }
  }

  lemma ChoiceMeans(options: seq<string>)
    ensures AreChoices(options) <==> IsAChoice(options)
  {
    assert forall i | 0 <= i < |options| :: Trimmed(options)[i] == Trim(options[i]);
  }

  /** A decision is accepted by its type's rules exactly if it meets them. */
  lemma RulesMean(d: Decision)
    ensures RulesOk(d) <==> MeetsItsRules(d)
  {
    PlanMeans(d);
    ChoiceMeans(d.need.options);
  }

  // ---- the contract ----------------------------------------------------------------------------------

  predicate IsTheFirst(actions: seq<Action>, i: nat, step: string) {
    && i < |actions| && actions[i].Step? && Trim(actions[i].stepName) == step
    && forall j | 0 <= j < i && actions[j].Step? :: Trim(actions[j].stepName) != step
  }

  /** The criterion's slot can be read; if it names a step of this plan, that step's capability declares
      the output; and the criterion names no check of its own. One without a slot is not looked at. */
  ghost predicate CanBeJudged(reg: Registry, actions: seq<Action>, c: Criterion) {
    Trim(c.source) != "" ==>
      && !c.hasCheck
      && match ParseInputSource(c.source)
         case Err => false
         case Ok(FromWorld(_)) => true
         case Ok(FromStep(step, key)) =>
           forall i: nat | IsTheFirst(actions, i, step) ::
             EntryOf(reg, actions[i]).Declared? && HasField(EntryOf(reg, actions[i]).outputs, Trim(key))
  }

  lemma SlotMeans(reg: Registry, actions: seq<Action>, step: string, key: string)
    ensures SlotFitsPlan(reg, actions, step, key) <==>
            forall i: nat | IsTheFirst(actions, i, step) ::
              EntryOf(reg, actions[i]).Declared? && HasField(EntryOf(reg, actions[i]).outputs, Trim(key))
  {
    forall i: nat | IsTheFirst(actions, i, step)
      ensures SlotFitsPlan(reg, actions, step, key) <==>
              EntryOf(reg, actions[i]).Declared? && HasField(EntryOf(reg, actions[i]).outputs, Trim(key))
    {
      TheFirstDecides(reg, actions, step, key, i);
      if EntryOf(reg, actions[i]).Declared? {
        FieldByName(EntryOf(reg, actions[i]).outputs, key);
      }
    }
    if !SlotFitsPlan(reg, actions, step, key) {
      var i: nat :| i < |actions| && IsCalled(actions[i], step) && forall j | 0 <= j < i :: !IsCalled(actions[j], step);
      assert IsTheFirst(actions, i, step);
    }
  }

  /** A contract is accepted exactly if each of its criteria can be judged. */
  lemma {:induction false} ContractMeans(reg: Registry, actions: seq<Action>, contract: seq<Criterion>)
    ensures ContractOk(reg, actions, contract) <==> forall i | 0 <= i < |contract| :: CanBeJudged(reg, actions, contract[i])
  {
    if contract != [] {
      ContractMeans(reg, actions, contract[1..]);
      CriterionMeans(reg, actions, contract[0]);
      assert forall i | 0 < i < |contract| :: contract[i] == contract[1..][i - 1];
      assert forall i | 0 <= i < |contract[1..]| :: contract[1..][i] == contract[i + 1];
    }
  }

  lemma CriterionMeans(reg: Registry, actions: seq<Action>, c: Criterion)
    ensures CriterionOk(reg, actions, c) <==> CanBeJudged(reg, actions, c)
  {
    match ParseInputSource(c.source)
    case Ok(FromStep(step, key)) => SlotMeans(reg, actions, step, key);
    case _ =>
  }

  /** So a decision that is recorded - the first of a run with its contract - is exactly one that meets its
      rules, whose plan is sound, and each criterion of whose contract can be judged. */
  lemma AcceptedMeans(reg: Registry, d: Decision, first: bool)
    ensures G.Accepted(reg, d, first) <==>
            && MeetsItsRules(d) && IsSound(reg, d.actions)
            && (first ==> forall i | 0 <= i < |d.contract| :: CanBeJudged(reg, d.actions, d.contract[i]))
  {
    RulesMean(d);
    LineageIsSound(reg, d.actions);
    ContractMeans(reg, d.actions, d.contract);
  }
}
