/** The planner's answers, and what the runtime requires of each type before anything of it runs. */
module Decisions {
  import opened Text
  import opened PlanLineage
  import opened Verification

  /** A decision's type, white space and letter case aside; the reply parser refuses the last. */
  datatype Kind = PlanKind | DoneKind | BlockedKind | NeedInputKind | OtherKind

  /** What is missing; `asksRuntime` is the answer of the keyword match on its text. */
  datatype Need = Need(kind: string, description: string, options: seq<string>, asksRuntime: bool)

  /** One answer; `evidence` are the ids of the facts it carries. */
  datatype Decision = Decision(kind: Kind, evidence: seq<string>, contract: seq<Criterion>, actions: seq<Action>, need: Need)

  datatype Status = Pending | Running | Completed | Unverified | Blocked | NeedInput | Failed | Stopped | AwaitingApproval

  predicate Concludes(d: Decision) {
    d.kind == DoneKind || d.kind == BlockedKind || d.kind == NeedInputKind
  }

  /** What a decision that concluded the run writes on the task. */
  function TaskStatusFor(d: Decision): Status {
    match d.kind
    case BlockedKind => Blocked
    case NeedInputKind => NeedInput
    case _ => Completed
  }

  const MAX_OPTIONS := 9

  predicate NoNeed(n: Need) {
    Trim(n.kind) == "" && Trim(n.description) == "" && n.options == []
  }

  function Trimmed(texts: seq<string>): seq<string> {
    seq(|texts|, i requires 0 <= i < |texts| => Trim(texts[i]))
  }

  predicate AllDiffer(texts: seq<string>) {
    (forall i | 0 <= i < |texts| :: texts[i] != "") && (forall i, j | 0 <= i < j < |texts| :: texts[i] != texts[j])
  }

  /** No list, or a choice: two to nine answers, none blank, no two alike. */
  predicate AreChoices(options: seq<string>) {
    options == [] || (2 <= |options| <= MAX_OPTIONS && AllDiffer(Trimmed(options)))
  }

  predicate SaysWhatFor(a: Action) {
    a.Step? ==> Trim(a.effect) != ""
  }

  predicate Carried(evidence: seq<string>, ref: string) {
    Trim(ref) == "" || Trim(ref) in Trimmed(evidence)
  }

  predicate RefsExist(evidence: seq<string>, a: Action) {
    a.Step? ==> forall i | 0 <= i < |a.evidenceRefs| :: Carried(evidence, a.evidenceRefs[i])
  }

  predicate PlanOk(d: Decision) {
    && d.actions != []
    && (forall i | 0 <= i < |d.actions| :: SaysWhatFor(d.actions[i]))
    && (forall i | 0 <= i < |d.actions| :: RefsExist(d.evidence, d.actions[i]))
  }

  predicate DoneOk(d: Decision) {
    d.actions == [] && NoNeed(d.need) && d.evidence != []
  }

  predicate AskOk(d: Decision) {
    d.actions == [] && Trim(d.need.description) != "" && !d.need.asksRuntime && AreChoices(d.need.options)
  }

  /** The requirements of the decision's type; an unknown type has none. */
  predicate RulesOk(d: Decision) {
    match d.kind
    case PlanKind => PlanOk(d)
    case DoneKind => DoneOk(d)
    case BlockedKind => AskOk(d)
    case NeedInputKind => AskOk(d)
    case OtherKind => true
  }

  // ---- the checks ------------------------------------------------------------------------

  method NeedOptionsAreChoices(options: seq<string>) returns (ok: bool)
    ensures ok == AreChoices(options)
  {
    if options == [] {
      return true;
    }
    if |options| < 2 || |options| > MAX_OPTIONS {
      return false;
    }
    ok := AllDistinct(Trimmed(options));
  }

  method AllDistinct(texts: seq<string>) returns (ok: bool)
    ensures ok == AllDiffer(texts)
  {
    var seen: set<string> := {};
    for i := 0 to |texts|
      invariant seen == set k | 0 <= k < i :: texts[k]
      invariant forall k | 0 <= k < i :: texts[k] != ""
      invariant forall k, l | 0 <= k < l < i :: texts[k] != texts[l]
    {
      if texts[i] == "" || texts[i] in seen {
        return false;
      }
      seen := seen + {texts[i]};
    }
    ok := true;
  }

  /** The ids among `texts`: those that are not blank. */
  method NonEmpty(texts: seq<string>) returns (known: set<string>)
    ensures forall t | t != "" :: t in known <==> t in texts
  {
    known := {};
    for i := 0 to |texts|
      invariant known == set k | 0 <= k < i && texts[k] != "" :: texts[k]
    {
      if texts[i] != "" {
        known := known + {texts[i]};
      }
    }
  }

  method AllKnown(known: set<string>, texts: seq<string>) returns (ok: bool)
    ensures ok <==> forall i | 0 <= i < |texts| :: texts[i] == "" || texts[i] in known
  {
    for i := 0 to |texts|
      invariant forall k | 0 <= k < i :: texts[k] == "" || texts[k] in known
    {
      if texts[i] != "" && texts[i] !in known {
        return false;
      }
    }
    ok := true;
  }

  lemma KnownIsCarried(evidence: seq<string>, known: set<string>, refs: seq<string>)
    requires forall t | t != "" :: t in known <==> t in Trimmed(evidence)
    ensures (forall i | 0 <= i < |refs| :: Carried(evidence, refs[i])) <==>
            (forall i | 0 <= i < |refs| :: Trimmed(refs)[i] == "" || Trimmed(refs)[i] in known)
  {
    forall i | 0 <= i < |refs| ensures Carried(evidence, refs[i]) <==> Trimmed(refs)[i] == "" || Trimmed(refs)[i] in known {
    }
  }

  method PlanEvidenceRefsExist(evidence: seq<string>, actions: seq<Action>) returns (ok: bool)
    ensures ok <==> forall i | 0 <= i < |actions| :: RefsExist(evidence, actions[i])
  {
    var known := NonEmpty(Trimmed(evidence));
    for i := 0 to |actions|
      invariant forall k | 0 <= k < i :: RefsExist(evidence, actions[k])
    {
      if actions[i].Step? {
        KnownIsCarried(evidence, known, actions[i].evidenceRefs);
        var carried := AllKnown(known, Trimmed(actions[i].evidenceRefs));
        if !carried {
          return false;
        }
      }
    }
    ok := true;
  }

  method PlanStepsSayWhatTheyAreFor(actions: seq<Action>) returns (ok: bool)
    ensures ok <==> forall i | 0 <= i < |actions| :: SaysWhatFor(actions[i])
  {
    for i := 0 to |actions|
      invariant forall k | 0 <= k < i :: SaysWhatFor(actions[k])
    {
      if !SaysWhatFor(actions[i]) {
        return false;
      }
    }
    ok := true;
  }

  method ValidateDecision(d: Decision) returns (ok: bool)
    ensures ok == RulesOk(d)
  {
    match d.kind {
      case PlanKind =>
        if d.actions == [] {
          return false;
        }
        ok := PlanStepsSayWhatTheyAreFor(d.actions);
        if ok {
          ok := PlanEvidenceRefsExist(d.evidence, d.actions);
        }
      case DoneKind => ok := d.actions == [] && NoNeed(d.need) && d.evidence != [];
      case OtherKind => ok := true;
      case _ =>
        if d.actions != [] || Trim(d.need.description) == "" || d.need.asksRuntime {
          return false;
        }
        ok := NeedOptionsAreChoices(d.need.options);
    }
  }

  /** What a reasoner can answer: the reply parser refuses any other type, and reads steps of a plan only. */
  predicate IsTyped(d: Decision) {
    d.kind != OtherKind && (d.kind != PlanKind ==> d.actions == [])
  }

  /** A decision that concludes executes nothing, and one that executes is a plan or of no known type. */
  lemma OnlyPlansExecute(d: Decision)
    requires RulesOk(d) && d.actions != []
    ensures !Concludes(d) && (d.kind == PlanKind || d.kind == OtherKind)
  {
  }
}
