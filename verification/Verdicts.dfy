/**
  Who is asked about a criterion, with what, and what the three verdicts mean - told by the tools,
  signatures and answers themselves.
*/
module Verdicts {
  import opened Basics
  import opened Text
  import opened PlanInput
  import opened PlanLineage
  import opened PlanExecution
  import opened Verification
  import opened ExecutionTheorems
  import opened Acceptance

  // ---- equal texts -----------------------------------------------------------------------------

  predicate SameLetter(c: char, d: char) {
    c == d || ('A' <= c <= 'Z' && d == c - 'A' + 'a') || ('A' <= d <= 'Z' && c == d - 'A' + 'a')
  }

  /** The same but for white space at the ends and the case of letters. */
  predicate SameText(a: string, b: string) {
    |Trim(a)| == |Trim(b)| && forall i | 0 <= i < |Trim(a)| :: SameLetter(Trim(a)[i], Trim(b)[i])
  }

  lemma MatchesMeans(a: string, b: string)
    ensures Matches(a, b) <==> SameText(a, b)
  {
    var s, t := Trim(a), Trim(b);
    if Matches(a, b) {
      forall i | 0 <= i < |s| ensures SameLetter(s[i], t[i]) {
        assert Lower(s)[i] == Lower(t)[i];
      }
    }
    if SameText(a, b) {
      assert Lower(s) == Lower(t);
    }
  }

  // ---- which input a tool takes the evidence in --------------------------------------------------

  predicate IsOfKind(fields: seq<Field>, f: nat, kind: string) {
    f < |fields| && Canonical(fields[f].kind) == kind
  }

  /** Field `f` is the first of its kind that is called `key`, or has it for an alias. */
  predicate IsOwnInput(fields: seq<Field>, f: nat, kind: string, key: string) {
    IsOfKind(fields, f, kind) && HasField([fields[f]], key) &&
    forall g: nat | g < f :: !(IsOfKind(fields, g, kind) && HasField([fields[g]], key))
  }

  /** Field `f` is the first of its kind that has a name. */
  predicate IsFirstOfKind(fields: seq<Field>, f: nat, kind: string) {
    IsOfKind(fields, f, kind) && fields[f].name != "" &&
    forall g: nat | g < f :: !(IsOfKind(fields, g, kind) && fields[g].name != "")
  }

  /** The evidence `key` goes into the input of its kind that bears that name, or else into the first of its kind. */
  ghost predicate GoesInto(fields: seq<Field>, kind: string, key: string, input: string) {
    if exists f: nat :: IsOwnInput(fields, f, kind, Canonical(key)) then
      exists f: nat :: IsOwnInput(fields, f, kind, Canonical(key)) && input == fields[f].name
    else if exists f: nat :: IsFirstOfKind(fields, f, kind) then
      exists f: nat :: IsFirstOfKind(fields, f, kind) && input == fields[f].name
    else input == ""
  }

  lemma OwnInputLater(fields: seq<Field>, f: nat, kind: string, key: string)
    requires fields != [] && !(IsOfKind(fields, 0, kind) && HasField([fields[0]], key))
    ensures IsOwnInput(fields[1..], f, kind, key) <==> IsOwnInput(fields, f + 1, kind, key)
  {
    assert f < |fields[1..]| ==> fields[1..][f] == fields[f + 1];
    forall g: nat | g < f && f < |fields[1..]| ensures fields[1..][g] == fields[g + 1] {
    }
    if IsOwnInput(fields[1..], f, kind, key) {
      forall g: nat | g < f + 1 ensures !(IsOfKind(fields, g, kind) && HasField([fields[g]], key)) {
        if g > 0 {
          assert !(IsOfKind(fields[1..], g - 1, kind) && HasField([fields[1..][g - 1]], key));
        }
      }
    }
    if IsOwnInput(fields, f + 1, kind, key) {
      forall g: nat | g < f ensures !(IsOfKind(fields[1..], g, kind) && HasField([fields[1..][g]], key)) {
        assert !(IsOfKind(fields, g + 1, kind) && HasField([fields[g + 1]], key));
      }
    }
  }

  /** `fields` is searched for the key's own input from the front; `first` is what stands in for none. */
  lemma {:induction false} OwnInputIsFound(fields: seq<Field>, kind: string, key: string, first: string)
    ensures forall f: nat | IsOwnInput(fields, f, kind, Canonical(key)) :: InputForKind(fields, kind, key, first) == fields[f].name
    ensures (forall f: nat :: !IsOwnInput(fields, f, kind, Canonical(key))) ==>
              InputForKind(fields, kind, key, first) == if first != "" then first else FirstName(fields, kind)
  {
    if fields != [] {
      FieldIsOwn(fields[0], key);
      var rest := fields[1..];
      if Canonical(fields[0].kind) == kind && FieldAccepts([fields[0]], Canonical(key)) {
        assert IsOwnInput(fields, 0, kind, Canonical(key));
      } else {
        var first' := if Canonical(fields[0].kind) == kind && first == "" then fields[0].name else first;
        OwnInputIsFound(rest, kind, key, first');
        forall f: nat ensures IsOwnInput(rest, f, kind, Canonical(key)) <==> IsOwnInput(fields, f + 1, kind, Canonical(key)) {
          OwnInputLater(fields, f, kind, Canonical(key));
        }
        forall f: nat | IsOwnInput(fields, f, kind, Canonical(key))
          ensures InputForKind(fields, kind, key, first) == fields[f].name
        {
          assert f > 0 && IsOwnInput(rest, f - 1, kind, Canonical(key));
        }
      }
    }
  }

  lemma FieldIsOwn(field: Field, key: string)
    ensures FieldAccepts([field], Canonical(key)) <==> HasField([field], Canonical(key))
  {
    CanonicalIsTrimmed(key);
    FieldByName([field], Canonical(key));
  }

  lemma CanonicalIsTrimmed(key: string)
    ensures Trim(Canonical(key)) == Canonical(key)
  {
    var s := Trim(key);
    assert s != [] ==> (IsSpace(Lower(s)[0]) <==> IsSpace(s[0])) && (IsSpace(Lower(s)[|s| - 1]) <==> IsSpace(s[|s| - 1]));
  }

  function FirstName(fields: seq<Field>, kind: string): string {
    if fields == [] then ""
    else if Canonical(fields[0].kind) == kind && fields[0].name != "" then fields[0].name
    else FirstName(fields[1..], kind)
  }

  lemma {:induction false} FirstNameIsFirst(fields: seq<Field>, kind: string)
    ensures if exists f: nat :: IsFirstOfKind(fields, f, kind) then
              exists f: nat :: IsFirstOfKind(fields, f, kind) && FirstName(fields, kind) == fields[f].name
            else FirstName(fields, kind) == ""
  {
    if fields != [] {
      var rest := fields[1..];
      if IsOfKind(fields, 0, kind) && fields[0].name != "" {
        assert IsFirstOfKind(fields, 0, kind);
      } else {
        FirstNameIsFirst(rest, kind);
        forall f: nat ensures IsFirstOfKind(rest, f, kind) <==> IsFirstOfKind(fields, f + 1, kind) {
          FirstOfKindLater(fields, f, kind);
        }
        if exists f: nat :: IsFirstOfKind(fields, f, kind) {
          var f: nat :| IsFirstOfKind(fields, f, kind);
          assert f > 0 && IsFirstOfKind(rest, f - 1, kind);
        }
        if exists f: nat :: IsFirstOfKind(rest, f, kind) {
          var f: nat :| IsFirstOfKind(rest, f, kind) && FirstName(rest, kind) == rest[f].name;
          assert IsFirstOfKind(fields, f + 1, kind) && rest[f] == fields[f + 1];
        }
      }
    }
  }

  lemma FirstOfKindLater(fields: seq<Field>, f: nat, kind: string)
    requires fields != [] && !(IsOfKind(fields, 0, kind) && fields[0].name != "")
    ensures IsFirstOfKind(fields[1..], f, kind) <==> IsFirstOfKind(fields, f + 1, kind)
  {
    assert forall g: nat | g < |fields[1..]| :: fields[1..][g] == fields[g + 1];
    if IsFirstOfKind(fields[1..], f, kind) {
      forall g: nat | g < f + 1 ensures !(IsOfKind(fields, g, kind) && fields[g].name != "") {
        if g > 0 {
          assert !(IsOfKind(fields[1..], g - 1, kind) && fields[1..][g - 1].name != "");
        }
      }
    }
    if IsFirstOfKind(fields, f + 1, kind) {
      forall g: nat | g < f ensures !(IsOfKind(fields[1..], g, kind) && fields[1..][g].name != "") {
        assert !(IsOfKind(fields, g + 1, kind) && fields[g + 1].name != "");
      }
    }
  }

  lemma {:induction false} InputIsChosen(fields: seq<Field>, kind: string, key: string)
    ensures GoesInto(fields, kind, key, InputForKind(fields, kind, key, ""))
  {
    OwnInputIsFound(fields, kind, key, "");
    FirstNameIsFirst(fields, kind);
  }

  lemma OneWayIn(fields: seq<Field>, kind: string, key: string, a: string, b: string)
    requires GoesInto(fields, kind, key, a) && GoesInto(fields, kind, key, b)
    ensures a == b
  {
  }

  // ---- who is asked ------------------------------------------------------------------------------

  /** A declared tool of this kind that has an input for the evidence. */
  ghost predicate IsChecker(tool: Tool, kind: string, key: string, input: string) {
    tool.declared && Canonical(tool.kind) == kind && GoesInto(tool.inputs, kind, key, input) && input != ""
  }

  /** Tool `i` checks the kind, takes the evidence in `input`, and no other tool checks it. */
  ghost predicate TheChecker(tools: seq<Tool>, i: nat, kind: string, key: string, input: string) {
    && i < |tools| && kind != "" && IsChecker(tools[i], kind, key, input)
    && forall j: nat, other | j < |tools| && IsChecker(tools[j], kind, key, other) :: j == i
  }

  lemma {:induction false} ChecksMeans(tool: Tool, kind: string, key: string)
    ensures Checks(tool, kind, key) <==> exists input :: IsChecker(tool, kind, key, input)
    ensures forall input | IsChecker(tool, kind, key, input) :: input == InputForKind(tool.inputs, kind, key, "")
  {
    var own := InputForKind(tool.inputs, kind, key, "");
    InputIsChosen(tool.inputs, kind, key);
    forall input | IsChecker(tool, kind, key, input) ensures input == own {
      OneWayIn(tool.inputs, kind, key, input, own);
    }
    if Checks(tool, kind, key) {
      assert IsChecker(tool, kind, key, own);
    }
  }

  /** Of `s` only the element at `i` is kept. */
  ghost predicate OnlyAt<X(!new)>(s: seq<X>, keep: X -> bool, i: nat) {
    i < |s| && keep(s[i]) && forall j | 0 <= j < |s| && j != i :: !keep(s[j])
  }

  lemma {:induction false} FilterNone<X(!new)>(s: seq<X>, keep: X -> bool)
    ensures Filter(s, keep) == [] <==> forall i | 0 <= i < |s| :: !keep(s[i])
  {
    if s != [] {
      var n := |s| - 1;
      FilterNone(s[..n], keep);
      assert forall i | 0 <= i < n :: s[..n][i] == s[i];
    }
  }

  lemma {:induction false} FilterOnly<X(!new)>(s: seq<X>, keep: X -> bool, i: nat)
    requires OnlyAt(s, keep, i)
    ensures Filter(s, keep) == [s[i]]
  {
    var n := |s| - 1;
    if i == n {
      FilterNone(s[..n], keep);
    } else {
      assert OnlyAt(s[..n], keep, i);
      FilterOnly(s[..n], keep, i);
    }
  }

  lemma {:induction false} OneIsOnly<X(!new)>(s: seq<X>, keep: X -> bool) returns (i: nat)
    requires |Filter(s, keep)| == 1
    ensures OnlyAt(s, keep, i)
  {
    var n := |s| - 1;
    if keep(s[n]) {
      FilterNone(s[..n], keep);
      assert forall j | 0 <= j < n :: s[..n][j] == s[j];
      i := n;
    } else {
      i := OneIsOnly(s[..n], keep);
      assert forall j | 0 <= j < n :: s[..n][j] == s[j];
    }
  }

  lemma {:induction false} CheckerIsOnly(tools: seq<Tool>, i: nat, kind: string, key: string, input: string)
    requires kind != ""
    ensures TheChecker(tools, i, kind, key, input) <==>
            OnlyAt(tools, (tool: Tool) => Checks(tool, kind, key), i) && input == InputForKind(tools[i].inputs, kind, key, "")
  {
    forall j: nat | j < |tools| ensures Checks(tools[j], kind, key) <==> exists other :: IsChecker(tools[j], kind, key, other)
                                ensures forall other | IsChecker(tools[j], kind, key, other) :: other == InputForKind(tools[j].inputs, kind, key, "")
    {
      ChecksMeans(tools[j], kind, key);
    }
  }

  /** The tool that answers for a kind is the one that checks it. */
  lemma TheCheckerAnswers(tools: seq<Tool>, kind: string, key: string, reader: Reader)
    ensures ToolForKind(tools, kind, key) == Some(reader) <==>
            exists i: nat :: TheChecker(tools, i, kind, key, reader.input) && reader.capability == tools[i].name
  {
    if ToolForKind(tools, kind, key) == Some(reader) {
      var i := OneIsOnly(tools, (tool: Tool) => Checks(tool, kind, key));
      FilterOnly(tools, (tool: Tool) => Checks(tool, kind, key), i);
      CheckerIsOnly(tools, i, kind, key, reader.input);
    }
    if i: nat :| TheChecker(tools, i, kind, key, reader.input) && reader.capability == tools[i].name {
      CheckerIsOnly(tools, i, kind, key, reader.input);
      FilterOnly(tools, (tool: Tool) => Checks(tool, kind, key), i);
    }
  }

  /** The kind a capability declares for its output `key`: that of the first field of the name. */
  ghost predicate IsKindOf(fields: seq<Field>, key: string, kind: string) {
    if exists f: nat :: f < |fields| && HasField([fields[f]], Trim(key)) then
      exists f: nat :: f < |fields| && HasField([fields[f]], Trim(key)) && kind == Canonical(fields[f].kind) &&
                       forall g: nat | g < f :: !HasField([fields[g]], Trim(key))
    else kind == ""
  }

  lemma {:induction false} KindIsTheFirst(fields: seq<Field>, key: string)
    ensures IsKindOf(fields, key, KindOf(fields, key))
  {
    if fields != [] {
      var rest := fields[1..];
      FieldByName([fields[0]], key);
      if !HasField([fields[0]], Trim(key)) {
        KindIsTheFirst(rest, key);
        assert forall g: nat | g < |rest| :: rest[g] == fields[g + 1];
        if f: nat :| f < |fields| && HasField([fields[f]], Trim(key)) {
          assert HasField([rest[f - 1]], Trim(key));
          var l: nat :| l < |rest| && HasField([rest[l]], Trim(key)) && KindOf(rest, key) == Canonical(rest[l].kind) &&
                        forall g: nat | g < l :: !HasField([rest[g]], Trim(key));
          KindLater(fields, key, l);
        }
      }
    }
  }

  lemma OutputKindMeans(reg: Registry, producer: string, key: string)
    ensures var entry := reg(Canonical(producer));
            if entry.Declared? then IsKindOf(entry.outputs, key, OutputKind(reg, producer, key)) else OutputKind(reg, producer, key) == ""
  {
    if reg(Canonical(producer)).Declared? {
      KindIsTheFirst(reg(Canonical(producer)).outputs, key);
    }
  }

  lemma KindLater(fields: seq<Field>, key: string, l: nat)
    requires l + 1 < |fields| && !HasField([fields[0]], Trim(key)) && HasField([fields[l + 1]], Trim(key))
    requires forall g: nat | g < l :: !HasField([fields[1..][g]], Trim(key))
    ensures forall g: nat | g < l + 1 :: !HasField([fields[g]], Trim(key))
  {
    forall g: nat | g < l + 1 ensures !HasField([fields[g]], Trim(key)) {
      assert g > 0 ==> fields[1..][g - 1] == fields[g];
    }
  }

  /** A reader may be called: it is one of the tools, this runtime runs it, and if it declares a signature
      the one input is all that it requires. */
  predicate MayBeCalled(auth: Authority, reader: Reader) {
    var name := Canonical(reader.capability);
    var entry := auth.reg(name);
    && (exists i | 0 <= i < |auth.tools| :: auth.tools[i].name == name)
    && auth.runs(name)
    && (entry.Declared? ==>
          && HasField(entry.inputs, Trim(reader.input))
          && forall f | 0 <= f < |entry.inputs| && entry.inputs[f].required ::
               entry.inputs[f].name == reader.input || reader.input in entry.inputs[f].aliases)
  }

  lemma CanAskMeans(auth: Authority, reader: Reader)
    ensures CanAsk(auth, reader) <==> MayBeCalled(auth, reader)
  {
    var entry := auth.reg(Canonical(reader.capability));
    if entry.Declared? {
      FieldByName(entry.inputs, reader.input);
    }
  }

  /**
    The authority was asked and answered: the step's first entry reported `evidence`, its capability
    declares a kind for it, the one tool of that kind may be called, and this is what it said to the
    evidence and at most the task id.
  */
  ghost predicate AskedAt(auth: Authority, task: string, step: string, key: string, prior: seq<Record>,
                          k: nat, i: nat, evidence: string, reader: Reader, answer: Values) {
    && Reported(prior, k, step, key, evidence)
    && TheChecker(auth.tools, i, OutputKind(auth.reg, prior[k].capability, key), key, reader.input)
    && reader.capability == auth.tools[i].name
    && MayBeCalled(auth, reader)
    && auth.answer(Canonical(reader.capability), ReaderInput(auth, task, reader, evidence)) == Some(answer)
  }

  ghost predicate Asked(auth: Authority, task: string, step: string, key: string, prior: seq<Record>, reader: Reader, answer: Values) {
    exists k: nat, i: nat, evidence :: AskedAt(auth, task, step, key, prior, k, i, evidence, reader, answer)
  }

  lemma AnsweredIsAsked(auth: Authority, task: string, c: Criterion, step: string, key: string, prior: seq<Record>,
                        evidence: string, reader: Reader, answer: Values)
    requires IsAnswered(auth, task, c, step, key, prior, evidence, reader, answer)
    ensures Asked(auth, task, step, key, prior, reader, answer)
  {
    CanAskMeans(auth, reader);
    var k := Find(prior, step).value;
    var kind := OutputKind(auth.reg, prior[k].capability, key);
    TheCheckerAnswers(auth.tools, kind, key, reader);
    var i: nat :| TheChecker(auth.tools, i, kind, key, reader.input) && reader.capability == auth.tools[i].name;
    assert AskedAt(auth, task, step, key, prior, k, i, evidence, reader, answer);
  }

  lemma AskedIsAnswered(auth: Authority, task: string, c: Criterion, step: string, key: string, prior: seq<Record>,
                        k: nat, i: nat, evidence: string, reader: Reader, answer: Values)
    requires ParseInputSource(c.source) == Ok(FromStep(step, key))
    requires AskedAt(auth, task, step, key, prior, k, i, evidence, reader, answer)
    ensures IsAnswered(auth, task, c, step, key, prior, evidence, reader, answer)
  {
    CanAskMeans(auth, reader);
    assert Find(prior, step) == Some(k);
    TheCheckerAnswers(auth.tools, OutputKind(auth.reg, prior[k].capability, key), key, reader);
  }

  // ---- the three verdicts ------------------------------------------------------------------------

  /** The answer says the opposite of what the criterion expects. */
  predicate Contradicts(c: Criterion, answer: Values) {
    if c.exist then "exists" in answer && !SameText(answer["exists"], "true")
    else c.field != "" && c.field in answer && Trim(answer[c.field]) != "" && !SameText(answer[c.field], c.equals)
  }

  /** The answer says what the criterion expects. */
  predicate States(c: Criterion, answer: Values) {
    if c.exist then "exists" in answer ==> SameText(answer["exists"], "true")
    else c.field != "" && c.field in answer && Trim(answer[c.field]) != "" && SameText(answer[c.field], c.equals)
  }

  lemma JudgeMeans(c: Criterion, answer: Values)
    ensures Judge(c, answer) == Fail && (c.exist || c.field != "") <==> Contradicts(c, answer)
    ensures StatesTheFact(c, answer) <==> States(c, answer)
  {
    if "exists" in answer {
      MatchesMeans(answer["exists"], "true");
    }
    if c.field in answer {
      MatchesMeans(answer[c.field], c.equals);
    }
  }

  /** A criterion over a step's output passes exactly if the authority that was asked states the fact. */
  lemma StepPassMeans(auth: Authority, task: string, c: Criterion, step: string, key: string, prior: seq<Record>)
    requires ParseInputSource(c.source) == Ok(FromStep(step, key))
    ensures VerifyCriterion(auth, task, c, prior) == Pass <==>
            exists reader, answer :: Asked(auth, task, step, key, prior, reader, answer) && States(c, answer)
  {
    PassIsConfirmed(auth, task, c, prior);
    if AuthorityConfirms(auth, task, c, step, key, prior) {
      var evidence, reader, answer :| IsAnswered(auth, task, c, step, key, prior, evidence, reader, answer) && StatesTheFact(c, answer);
      AnsweredIsAsked(auth, task, c, step, key, prior, evidence, reader, answer);
      JudgeMeans(c, answer);
    }
    if reader, answer :| Asked(auth, task, step, key, prior, reader, answer) && States(c, answer) {
      var k: nat, i: nat, evidence :| AskedAt(auth, task, step, key, prior, k, i, evidence, reader, answer);
      AskedIsAnswered(auth, task, c, step, key, prior, k, i, evidence, reader, answer);
      JudgeMeans(c, answer);
      assert AuthorityConfirms(auth, task, c, step, key, prior);
    }
  }

  /** It fails exactly if the criterion says what must hold and the authority that was asked contradicts it;
      whatever else - no evidence, no tool or two, no answer - is inconclusive, and never a failure. */
  lemma StepFailMeans(auth: Authority, task: string, c: Criterion, step: string, key: string, prior: seq<Record>)
    requires ParseInputSource(c.source) == Ok(FromStep(step, key))
    ensures VerifyCriterion(auth, task, c, prior) == Fail <==>
            && (c.exist || Trim(c.field) != "" || Trim(c.equals) != "")
            && exists reader, answer :: Asked(auth, task, step, key, prior, reader, answer) && Contradicts(c, answer)
  {
    ReadableIsNotBlank(c.source);
    if VerifyCriterion(auth, task, c, prior) == Fail {
      var evidence, reader, answer := FailIsAnswered(auth, task, c, step, key, prior);
      AnsweredIsJudged(auth, task, c, step, key, prior, evidence, reader, answer);
      AnsweredIsAsked(auth, task, c, step, key, prior, evidence, reader, answer);
      JudgeMeans(c, answer);
    }
    if reader, answer :| Asked(auth, task, step, key, prior, reader, answer) && Contradicts(c, answer) {
      var k: nat, i: nat, evidence :| AskedAt(auth, task, step, key, prior, k, i, evidence, reader, answer);
      AskedIsAnswered(auth, task, c, step, key, prior, k, i, evidence, reader, answer);
      JudgeMeans(c, answer);
      AnsweredIsJudged(auth, task, c, step, key, prior, evidence, reader, answer);
    }
  }

  lemma FailIsAnswered(auth: Authority, task: string, c: Criterion, step: string, key: string, prior: seq<Record>)
    returns (evidence: string, reader: Reader, answer: Values)
    requires ParseInputSource(c.source) == Ok(FromStep(step, key)) && VerifyStep(auth, task, step, key, c, prior) == Fail
    ensures IsAnswered(auth, task, c, step, key, prior, evidence, reader, answer) && (c.exist || c.field != "")
  {
    var producer := prior[Find(prior, step).value];
    evidence := producer.output[key];
    reader := ToolForKind(auth.tools, OutputKind(auth.reg, producer.capability, key), key).value;
    ReaderGetsTheSlot(auth, task, reader, c, step, key, prior, evidence);
    answer := auth.answer(Canonical(reader.capability), ReaderInput(auth, task, reader, evidence)).value;
  }

  /** The World Model's field named by a path. */
  ghost predicate Field(asset: Asset, path: seq<string>, v: string)
    requires path != []
  {
    && (path[|path| - 1] == "state" ==> v == asset.state)
    && (path[|path| - 1] == "kind" ==> v == asset.kind)
  }

  /** A criterion over the World Model: it is judged if it says what must hold, and names the slot's field or
      none; then it passes exactly if the asset is there and - unless existence is all - the field is as
      expected, and fails otherwise. */
  lemma WorldVerdictMeans(auth: Authority, task: string, c: Criterion, path: seq<string>, prior: seq<Record>)
    requires ParseInputSource(c.source) == Ok(FromWorld(path))
    ensures |path| >= 3
    ensures var judged := (c.exist || Trim(c.field) != "" || Trim(c.equals) != "") && (c.field == "" || SameText(c.field, path[|path| - 1]));
            var asset := auth.env.asset(0, AssetId(path));
            var verdict := VerifyCriterion(auth, task, c, prior);
            && (verdict == Inconclusive <==> !judged)
            && (verdict == Pass <==> judged && asset.Some? &&
                                     (c.exist || exists v :: Field(asset.value, path, v) && SameText(v, c.equals)))
  {
    ReadableIsNotBlank(c.source);
    AcceptedFieldIsKnown(c.source);
    MatchesMeans(c.field, path[|path| - 1]);
    var asset := auth.env.asset(0, AssetId(path));
    if asset.Some? {
      var own := FieldOf(asset.value, path);
      assert Field(asset.value, path, own);
      forall v | Field(asset.value, path, v) ensures v == own {
      }
      MatchesMeans(own, c.equals);
    }
  }
}
