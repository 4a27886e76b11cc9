/**
  Verification of a `done`: each criterion of the pinned contract is judged by the authority on
  the one object its evidence slot names.
*/
module Verification {
  import opened Basics
  import opened Text
  import opened PlanInput
  import opened PlanLineage
  import opened PlanExecution
  import opened Evidence

  /** One fact that must hold; `source` is its evidence slot. */
  datatype Criterion = Criterion(name: string, source: string, hasCheck: bool, exist: bool, field: string, equals: string)

  datatype Verdict = Pass | Fail | Inconclusive

  /** A capability that is a system verification tool for one kind of object. */
  datatype Tool = Tool(name: string, kind: string, declared: bool, inputs: seq<Field>)

  /**
    What verification asks: the registry, the system tools in registration order, which
    capabilities this runtime runs, what they answer (nothing on an error), and the world.
  */
  datatype Authority = Authority(reg: Registry, tools: seq<Tool>, runs: string -> bool, answer: (string, Values) -> Option<Values>, env: Env)

  datatype Reader = Reader(capability: string, input: string)

  /** White space at the ends and letter case aside. */
  predicate Matches(a: string, b: string) {
    Canonical(a) == Canonical(b)
  }

  predicate Judges(c: Criterion) {
    c.exist || Trim(c.field) != "" || Trim(c.equals) != ""
  }

  // ---- who is asked --------------------------------------------------------------------

  /** The kind of object a producer declares under `key`. */
  function OutputKind(reg: Registry, producer: string, key: string): string {
    var entry := reg(Canonical(producer));
    if entry.Declared? then KindOf(entry.outputs, key) else ""
  }

  function KindOf(fields: seq<Field>, key: string): string {
    if fields == [] then ""
    else if FieldAccepts([fields[0]], key) then Canonical(fields[0].kind)
    else KindOf(fields[1..], key)
  }

  /** The input a tool takes this evidence in: the one of its kind that accepts the key, else the first of its kind. */
  function InputForKind(fields: seq<Field>, kind: string, key: string, first: string): string {
    if fields == [] then first
    else if Canonical(fields[0].kind) != kind then InputForKind(fields[1..], kind, key, first)
    else if FieldAccepts([fields[0]], Canonical(key)) then fields[0].name
    else InputForKind(fields[1..], kind, key, if first == "" then fields[0].name else first)
  }

  predicate Checks(tool: Tool, kind: string, key: string) {
    tool.declared && Canonical(tool.kind) == kind && InputForKind(tool.inputs, kind, key, "") != ""
  }

  function Filter<T>(s: seq<T>, keep: T -> bool): seq<T> {
    if s == [] then []
    else
      var n := |s| - 1;
      Filter(s[..n], keep) + if keep(s[n]) then [s[n]] else []
  }

  function Checkers(tools: seq<Tool>, kind: string, key: string): seq<Tool> {
    Filter(tools, (tool: Tool) => Checks(tool, kind, key))
  }

  function ReaderOf(tool: Tool, kind: string, key: string): Reader {
    Reader(tool.name, InputForKind(tool.inputs, kind, key, ""))
  }

  function ToolForKind(tools: seq<Tool>, kind: string, key: string): Option<Reader> {
    var found := Checkers(tools, kind, key);
    if kind != "" && |found| == 1 then Some(ReaderOf(found[0], kind, key)) else None
  }

  /** Goes through `s`, and answers how many are kept and the last of them. */
  method CountAndLast<T>(s: seq<T>, keep: T -> bool) returns (n: nat, last: Option<T>)
    ensures n == |Filter(s, keep)|
    ensures last == if n == 0 then None else Some(Filter(s, keep)[n - 1])
  {
    n, last := 0, None;
    for i := 0 to |s|
      invariant n == |Filter(s[..i], keep)|
      invariant last == if n == 0 then None else Some(Filter(s[..i], keep)[n - 1])
    {
      assert s[..i + 1][..i] == s[..i];
      if keep(s[i]) {
        n, last := n + 1, Some(s[i]);
      }
    }
    assert s[..|s|] == s;
  }

  /** The one tool that checks a kind: two that check the same kind answer nothing. */
  method FindTool(tools: seq<Tool>, kind: string, key: string) returns (tool: Option<Reader>)
    ensures tool == ToolForKind(tools, kind, key)
  {
    if kind == "" {
      return None;
    }
    var n, last := CountAndLast(tools, (tool: Tool) => Checks(tool, kind, key));
    tool := if n == 1 then Some(ReaderOf(last.value, kind, key)) else None;
  }

  predicate IsTool(tools: seq<Tool>, name: string) {
    exists i | 0 <= i < |tools| :: tools[i].name == name
  }

  /** A reader is called only if it is a tool this runtime runs, takes the input and needs no other. */
  predicate CanAsk(auth: Authority, reader: Reader) {
    var name, entry := Canonical(reader.capability), auth.reg(Canonical(reader.capability));
    && IsTool(auth.tools, name)
    && auth.runs(name)
    && (entry.Declared? ==>
          && FieldAccepts(entry.inputs, reader.input)
          && forall k | 0 <= k < |entry.inputs| ::
               entry.inputs[k].required ==> reader.input == entry.inputs[k].name || reader.input in entry.inputs[k].aliases)
  }

  /** What the reader is called with: the evidence, as its producer reported it, and the task id if it takes one. */
  function ReaderInput(auth: Authority, task: string, reader: Reader, evidence: string): Values {
    FillTaskId(auth.reg(Canonical(reader.capability)), task, map[reader.input := evidence])
  }

  function AskAuthority(auth: Authority, task: string, reader: Reader, source: string, prior: seq<Record>): Option<Values> {
    if !CanAsk(auth, reader) then None
    else
      var resolved := Resolve(auth.env, 0, StepInput("", source), prior);
      if resolved.Value? then auth.answer(Canonical(reader.capability), ReaderInput(auth, task, reader, resolved.v)) else None
  }

  // ---- one criterion -------------------------------------------------------------------

  function VerifyWorld(env: Env, path: seq<string>, c: Criterion): Verdict
    requires |path| >= 2
  {
    if c.field != "" && !Matches(c.field, WorldField(path)) then Inconclusive
    else
      var asset := env.asset(0, AssetId(path));
      if asset == None then Fail
      else if c.exist then Pass
      else if Matches(FieldOf(asset.value, path), c.equals) then Pass
      else Fail
  }

  function VerifyStep(auth: Authority, task: string, step: string, key: string, c: Criterion, prior: seq<Record>): Verdict {
    var at := Find(prior, step);
    if at == None || key !in prior[at.value].output || Trim(prior[at.value].output[key]) == "" then Inconclusive
    else if !c.exist && c.field == "" then Inconclusive
    else
      var producer := prior[at.value];
      var reader := ToolForKind(auth.tools, OutputKind(auth.reg, producer.capability, key), key);
      if reader == None then Inconclusive
      else
        var answer := AskAuthority(auth, task, reader.value, c.source, prior);
        if answer == None then Inconclusive else Judge(c, answer.value)
  }

  /** The verdict on what the authority answered. */
  function Judge(c: Criterion, answer: Values): Verdict {
    if c.exist then
      if "exists" in answer && !Matches(answer["exists"], "true") then Fail else Pass
    else if c.field !in answer || Trim(answer[c.field]) == "" then Inconclusive
    else if Matches(answer[c.field], c.equals) then Pass
    else Fail
  }

  function VerifyCriterion(auth: Authority, task: string, c: Criterion, prior: seq<Record>): Verdict {
    if !Judges(c) || Trim(c.source) == "" then Inconclusive
    else
      match ParseInputSource(c.source)
      case Err => Inconclusive
      case Ok(FromWorld(path)) => if |path| < 2 then Inconclusive else VerifyWorld(auth.env, path, c)
      case Ok(FromStep(step, key)) => VerifyStep(auth, task, step, key, c, prior)
  }

  // ---- a done ----------------------------------------------------------------------------

  predicate AllPass(auth: Authority, task: string, contract: seq<Criterion>, prior: seq<Record>) {
    forall i | 0 <= i < |contract| :: VerifyCriterion(auth, task, contract[i], prior) == Pass
  }

  method JudgeAll(contract: seq<Criterion>, judge: Criterion -> Verdict) returns (verdicts: seq<Verdict>, unverified: nat)
    ensures |verdicts| == |contract| && forall i | 0 <= i < |contract| :: verdicts[i] == judge(contract[i])
    ensures unverified == 0 <==> forall i | 0 <= i < |contract| :: judge(contract[i]) == Pass
  {
    verdicts, unverified := [], 0;
    for i := 0 to |contract|
      invariant |verdicts| == i && forall k | 0 <= k < i :: verdicts[k] == judge(contract[k])
      invariant unverified == 0 <==> forall k | 0 <= k < i :: judge(contract[k]) == Pass
    {
      var verdict := judge(contract[i]);
      verdicts := verdicts + [verdict];
      if verdict != Pass {
        unverified := unverified + 1;
      }
    }
  }

  /** Judges every criterion; the done holds up when there is one and all pass. */
  method VerifyDone(auth: Authority, task: string, contract: seq<Criterion>, plans: seq<seq<StepRow>>)
    returns (ok: bool, verdicts: seq<Verdict>)
    ensures ok <==> contract != [] && AllPass(auth, task, contract, Produced(Flat(plans)))
    ensures ok <==> contract != [] && forall i | 0 <= i < |contract| :: |verdicts| == |contract| && verdicts[i] == Pass
    ensures |verdicts| == |contract| &&
            forall i | 0 <= i < |contract| :: verdicts[i] == VerifyCriterion(auth, task, contract[i], Produced(Flat(plans)))
  {
    if contract == [] {
      return false, [];
    }
    var prior := TaskStepOutputs(plans);
    var unverified;
    verdicts, unverified := JudgeAll(contract, c => VerifyCriterion(auth, task, c, prior));
    ok := unverified == 0;
  }

  // ---- what a verdict means ----------------------------------------------------------------

  /** The slot of `c` names output `key` of `step`, and that is what it last produced. */
  predicate Slot(c: Criterion, step: string, key: string, prior: seq<Record>, evidence: string) {
    && ParseInputSource(c.source) == Ok(FromStep(step, key))
    && Find(prior, step).Some?
    && key in prior[Find(prior, step).value].output
    && prior[Find(prior, step).value].output[key] == evidence
    && Trim(evidence) != ""
  }

  lemma ReadableIsNotBlank(source: string)
    requires ParseInputSource(source).Ok?
    ensures Trim(source) != ""
  {
  }

  /** Once the evidence is there, asking about it cannot fail to resolve: a reader that is called is
      called with exactly the producer's report, and the task id only besides it. */
  lemma ReaderGetsTheSlot(auth: Authority, task: string, reader: Reader, c: Criterion, step: string, key: string, prior: seq<Record>, evidence: string)
    requires Slot(c, step, key, prior, evidence)
    ensures Resolve(auth.env, 0, StepInput("", c.source), prior) == Value(evidence)
    ensures AskAuthority(auth, task, reader, c.source, prior) ==
            if CanAsk(auth, reader) then auth.answer(Canonical(reader.capability), ReaderInput(auth, task, reader, evidence)) else None
    ensures var input := ReaderInput(auth, task, reader, evidence);
            && reader.input in input && input[reader.input] == evidence
            && input.Keys <= {reader.input, "task_id"}
  {
    ReadableIsNotBlank(c.source);
    assert Trim("") == "";
  }

  /** The evidence is there, exactly one tool checks its kind, and that tool was asked and answered `answer`. */
  predicate IsAnswered(auth: Authority, task: string, c: Criterion, step: string, key: string, prior: seq<Record>,
                       evidence: string, reader: Reader, answer: Values) {
    && Slot(c, step, key, prior, evidence)
    && ToolForKind(auth.tools, OutputKind(auth.reg, prior[Find(prior, step).value].capability, key), key) == Some(reader)
    && CanAsk(auth, reader)
    && auth.answer(Canonical(reader.capability), ReaderInput(auth, task, reader, evidence)) == Some(answer)
  }

  /** The answer states the fact that the criterion expects. */
  predicate StatesTheFact(c: Criterion, answer: Values) {
    if c.exist then "exists" in answer ==> Matches(answer["exists"], "true")
    else c.field != "" && c.field in answer && Trim(answer[c.field]) != "" && Matches(answer[c.field], c.equals)
  }

  /** What it takes for a criterion over a step's output to pass: an authority's answer - not the
      step's own report - states the fact. */
  ghost predicate AuthorityConfirms(auth: Authority, task: string, c: Criterion, step: string, key: string, prior: seq<Record>) {
    exists evidence, reader, answer ::
      IsAnswered(auth, task, c, step, key, prior, evidence, reader, answer) && StatesTheFact(c, answer)
  }

  lemma JudgePasses(c: Criterion, answer: Values)
    ensures (c.exist || c.field != "") && Judge(c, answer) == Pass <==> StatesTheFact(c, answer)
  {
  }

  lemma AnsweredIsJudged(auth: Authority, task: string, c: Criterion, step: string, key: string, prior: seq<Record>,
                         evidence: string, reader: Reader, answer: Values)
    requires IsAnswered(auth, task, c, step, key, prior, evidence, reader, answer)
    ensures VerifyStep(auth, task, step, key, c, prior) == if c.exist || c.field != "" then Judge(c, answer) else Inconclusive
  {
    ReaderGetsTheSlot(auth, task, reader, c, step, key, prior, evidence);
  }

  lemma PassIsAnswered(auth: Authority, task: string, c: Criterion, step: string, key: string, prior: seq<Record>)
    returns (evidence: string, reader: Reader, answer: Values)
    requires ParseInputSource(c.source) == Ok(FromStep(step, key)) && VerifyStep(auth, task, step, key, c, prior) == Pass
    ensures IsAnswered(auth, task, c, step, key, prior, evidence, reader, answer) && (c.exist || c.field != "")
  {
    var producer := prior[Find(prior, step).value];
    evidence := producer.output[key];
    reader := ToolForKind(auth.tools, OutputKind(auth.reg, producer.capability, key), key).value;
    ReaderGetsTheSlot(auth, task, reader, c, step, key, prior, evidence);
    answer := auth.answer(Canonical(reader.capability), ReaderInput(auth, task, reader, evidence)).value;
  }

  lemma StepPassIsConfirmed(auth: Authority, task: string, c: Criterion, step: string, key: string, prior: seq<Record>)
    requires ParseInputSource(c.source) == Ok(FromStep(step, key))
    ensures VerifyStep(auth, task, step, key, c, prior) == Pass <==> AuthorityConfirms(auth, task, c, step, key, prior)
  {
    if VerifyStep(auth, task, step, key, c, prior) == Pass {
      var evidence, reader, answer := PassIsAnswered(auth, task, c, step, key, prior);
      AnsweredIsJudged(auth, task, c, step, key, prior, evidence, reader, answer);
      JudgePasses(c, answer);
    }
    if AuthorityConfirms(auth, task, c, step, key, prior) {
      var evidence, reader, answer :| IsAnswered(auth, task, c, step, key, prior, evidence, reader, answer) && StatesTheFact(c, answer);
      AnsweredIsJudged(auth, task, c, step, key, prior, evidence, reader, answer);
      JudgePasses(c, answer);
    }
  }

  /** What it takes for a criterion over the World Model to pass: if it names a field it is the slot's,
      the asset is there, and - unless existence is all it asks - the field is as expected. */
  predicate WorldConfirms(env: Env, path: seq<string>, c: Criterion)
    requires |path| >= 2
  {
    var asset := env.asset(0, AssetId(path));
    && (c.exist || Trim(c.field) != "" || Trim(c.equals) != "")
    && (c.field == "" || Matches(c.field, WorldField(path)))
    && asset.Some?
    && (c.exist || Matches(FieldOf(asset.value, path), c.equals))
  }

  /** Every criterion, whatever its slot: it passes exactly when the slot reads, and the authority the
      slot points at - the one tool for a step's output, the World Model - states the fact. */
  ghost predicate Confirmed(auth: Authority, task: string, c: Criterion, prior: seq<Record>) {
    match ParseInputSource(c.source)
    case Err => false
    case Ok(FromStep(step, key)) => AuthorityConfirms(auth, task, c, step, key, prior)
    case Ok(FromWorld(path)) => |path| >= 2 && WorldConfirms(auth.env, path, c)
  }

  lemma StatedIsJudged(c: Criterion, answer: Values)
    requires StatesTheFact(c, answer)
    ensures Judges(c)
  {
    if !c.exist {
      assert |Canonical(answer[c.field])| == |Trim(answer[c.field])| && |Canonical(c.equals)| == |Trim(c.equals)|;
    }
  }

  lemma ConfirmedIsJudged(auth: Authority, task: string, c: Criterion, step: string, key: string, prior: seq<Record>)
    requires AuthorityConfirms(auth, task, c, step, key, prior)
    ensures Judges(c)
  {
    var evidence, reader, answer :| IsAnswered(auth, task, c, step, key, prior, evidence, reader, answer) && StatesTheFact(c, answer);
    StatedIsJudged(c, answer);
  }

  lemma WorldPassIsConfirmed(auth: Authority, task: string, c: Criterion, path: seq<string>, prior: seq<Record>)
    requires ParseInputSource(c.source) == Ok(FromWorld(path)) && |path| >= 2
    ensures VerifyCriterion(auth, task, c, prior) == Pass <==> WorldConfirms(auth.env, path, c)
  {
    ReadableIsNotBlank(c.source);
  }

  lemma PassIsConfirmed(auth: Authority, task: string, c: Criterion, prior: seq<Record>)
    ensures VerifyCriterion(auth, task, c, prior) == Pass <==> Confirmed(auth, task, c, prior)
  {
    match ParseInputSource(c.source)
    case Err =>
    case Ok(FromStep(step, key)) =>
      ReadableIsNotBlank(c.source);
      StepPassIsConfirmed(auth, task, c, step, key, prior);
      if AuthorityConfirms(auth, task, c, step, key, prior) {
        ConfirmedIsJudged(auth, task, c, step, key, prior);
      }
    case Ok(FromWorld(path)) =>
      if |path| >= 2 {
        WorldPassIsConfirmed(auth, task, c, path, prior);
      }
  }

  /** The verdict on a step's evidence depends on that step's last success alone: whatever else the
      task's steps produced, with the same authority it is the same verdict. */
  lemma OtherStepsDoNotMatter(auth: Authority, task: string, c: Criterion, rows: seq<StepRow>, rows': seq<StepRow>)
    requires ParseInputSource(c.source).Ok? && ParseInputSource(c.source).value.FromStep?
    requires var step := ParseInputSource(c.source).value.step; SameLast(rows, rows', step)
    ensures VerifyCriterion(auth, task, c, Produced(rows)) == VerifyCriterion(auth, task, c, Produced(rows'))
  {
    var src := ParseInputSource(c.source).value;
    SameLastIsRead(rows, rows', src.step);
    SameProducerSameVerdict(auth, task, c, src.step, src.key, Produced(rows), Produced(rows'));
  }

  ghost predicate SameEntry(a: seq<Record>, b: seq<Record>, step: string) {
    && Find(a, step).Some? == Find(b, step).Some?
    && (Find(a, step).Some? ==> a[Find(a, step).value] == b[Find(b, step).value])
  }

  lemma SameProducerSameVerdict(auth: Authority, task: string, c: Criterion, step: string, key: string, a: seq<Record>, b: seq<Record>)
    requires ParseInputSource(c.source) == Ok(FromStep(step, key)) && SameEntry(a, b, step)
    ensures VerifyStep(auth, task, step, key, c, a) == VerifyStep(auth, task, step, key, c, b)
  {
    assert Resolve(auth.env, 0, StepInput("", c.source), a) == Resolve(auth.env, 0, StepInput("", c.source), b);
  }

  ghost function KeptAt<T>(s: seq<T>, n: nat, keep: T -> bool): set<nat>
    requires n <= |s|
  {
    set i: nat | i < n && keep(s[i])
  }

  lemma {:induction false} FilterLength<T>(s: seq<T>, n: nat, keep: T -> bool)
    requires n <= |s|
    ensures |Filter(s[..n], keep)| == |KeptAt(s, n, keep)|
  {
    if n > 0 {
      FilterLength(s, n - 1, keep);
      assert s[..n][..n - 1] == s[..n - 1];
      assert KeptAt(s, n, keep) == KeptAt(s, n - 1, keep) + if keep(s[n - 1]) then {n - 1} else {};
    }
  }

  /** A kind is answered by a tool exactly when there is one such tool and no other, whatever their order. */
  lemma OneToolAnswers(tools: seq<Tool>, kind: string, key: string)
    requires kind != ""
    ensures ToolForKind(tools, kind, key).Some? <==> |set i: nat | i < |tools| && Checks(tools[i], kind, key)| == 1
  {
    var keep := (tool: Tool) => Checks(tool, kind, key);
    FilterLength(tools, |tools|, keep);
    assert tools[..|tools|] == tools;
    assert KeptAt(tools, |tools|, keep) == set i: nat | i < |tools| && Checks(tools[i], kind, key);
  }

  // ---- the contract ----------------------------------------------------------------------

  /** The first contract is kept, position by position; a longer one later adds what lies beyond. */
  function Pinned(kept: seq<Criterion>, contract: seq<Criterion>): seq<Criterion> {
    if |contract| <= |kept| then kept else kept + contract[|kept|..]
  }

  /** The contract rows of one task, by position counted from 1. */
  class ContractStore {
    var rows: map<nat, Criterion>

    ghost predicate Valid()
      reads this
    {
      forall q :: q in rows <==> 1 <= q <= |rows|
    }

    ghost function Kept(): seq<Criterion>
      reads this
      requires Valid()
    {
      var kept := rows;
      seq(|kept|, i requires 0 <= i < |kept| => kept[i + 1])
    }

    constructor ()
      ensures Valid() && Kept() == []
    {
      rows := map[];
    }

    /** The first row of a position is the one kept. */
    method Append(idx: nat, c: Criterion)
      requires Valid() && 1 <= idx <= |rows| + 1
      modifies this
      ensures Valid() && Kept() == if idx <= old(|rows|) then old(Kept()) else old(Kept()) + [c]
    {
      if idx !in rows {
        ghost var kept := Kept();
        OneMoreRow(rows, idx, c);
        rows := rows[idx := c];
        assert Kept() == kept + [c];
      }
    }

    /** Writes a contract, each criterion at its position. */
    method Pin(contract: seq<Criterion>)
      requires Valid()
      modifies this
      ensures Valid() && Kept() == Pinned(old(Kept()), contract)
    {
      ghost var was := Kept();
      for i := 0 to |contract|
        invariant Valid() && Kept() == Pinned(was, contract[..i])
      {
        PinOneMore(was, contract, i);
        Append(i + 1, contract[i]);
      }
      assert contract[..|contract|] == contract;
    }

    /** The pinned contract, in order. */
    method List() returns (contract: seq<Criterion>)
      requires Valid()
      ensures contract == Kept()
    {
      contract := [];
      for i := 0 to |rows|
        invariant contract == Kept()[..i]
      {
        contract := contract + [rows[i + 1]];
        assert contract == Kept()[..i + 1];
      }
      assert Kept()[..|rows|] == Kept();
    }
  }

  lemma OneMoreRow(rows: map<nat, Criterion>, idx: nat, c: Criterion)
    requires idx !in rows
    ensures |rows[idx := c]| == |rows| + 1
  {
    assert rows[idx := c].Keys == rows.Keys + {idx};
    assert |rows.Keys| == |rows| && |rows[idx := c].Keys| == |rows[idx := c]|;
  }

  lemma PinOneMore(kept: seq<Criterion>, contract: seq<Criterion>, i: nat)
    requires i < |contract|
    ensures |Pinned(kept, contract[..i])| >= i
    ensures Pinned(kept, contract[..i + 1]) ==
            if i + 1 <= |Pinned(kept, contract[..i])| then Pinned(kept, contract[..i])
            else Pinned(kept, contract[..i]) + [contract[i]]
  {
    if i >= |kept| {
      assert contract[..i + 1][|kept|..] == contract[..i][|kept|..] + [contract[i]];
      assert kept + contract[..i + 1][|kept|..] == (kept + contract[..i][|kept|..]) + [contract[i]];
    }
  }

  function PinnedAll(kept: seq<Criterion>, contracts: seq<seq<Criterion>>): seq<Criterion>
    decreases |contracts|
  {
    if contracts == [] then kept else PinnedAll(Pinned(kept, contracts[0]), contracts[1..])
  }

  /** However many contracts follow, what is pinned stays pinned, and grows at its end only. */
  lemma {:induction false} ContractOnlyGrows(kept: seq<Criterion>, contracts: seq<seq<Criterion>>, k: nat)
    requires k <= |contracts|
    ensures kept <= PinnedAll(kept, contracts)
    ensures k < |contracts| ==> |contracts[k]| <= |PinnedAll(kept, contracts)|
    decreases |contracts|
  {
    if contracts != [] {
      var rest := contracts[1..];
      assert kept <= Pinned(kept, contracts[0]);
      ContractOnlyGrows(Pinned(kept, contracts[0]), rest, if k == 0 then 0 else k - 1);
      assert 0 < k < |contracts| ==> contracts[k] == rest[k - 1];
    }
  }

  /** A position is judged by what the first contract that reached it said. */
  lemma {:induction false} FirstContractCounts(kept: seq<Criterion>, contracts: seq<seq<Criterion>>, i: nat) returns (k: nat)
    requires |kept| <= i < |PinnedAll(kept, contracts)|
    ensures SetBy(contracts, k, i) && contracts[k][i] == PinnedAll(kept, contracts)[i]
    decreases |contracts|
  {
    var kept', rest := Pinned(kept, contracts[0]), contracts[1..];
    if i < |kept'| {
      k := 0;
      ContractOnlyGrows(kept', rest, 0);
      assert PinnedAll(kept', rest)[i] == kept'[i];
    } else {
      var l := FirstContractCounts(kept', rest, i);
      LaterContract(contracts, l, i);
      k := l + 1;
    }
  }

  /** Contract `k` is the first that reaches position `i`. */
  predicate SetBy(contracts: seq<seq<Criterion>>, k: nat, i: nat) {
    k < |contracts| && i < |contracts[k]| && forall l | 0 <= l < k :: |contracts[l]| <= i
  }

  lemma LaterContract(contracts: seq<seq<Criterion>>, k: nat, i: nat)
    requires contracts != [] && |contracts[0]| <= i && SetBy(contracts[1..], k, i)
    ensures SetBy(contracts, k + 1, i) && contracts[k + 1] == contracts[1..][k]
  {
    forall l | 0 <= l < k + 1 ensures |contracts[l]| <= i {
      assert l > 0 ==> contracts[l] == contracts[1..][l - 1];
    }
  }

  /** A contract stated again changes nothing exactly when it is no longer than what is pinned. */
  lemma RestatedChangesNothing(kept: seq<Criterion>, contract: seq<Criterion>)
    ensures Pinned(kept, contract) == kept <==> |contract| <= |kept|
  {
    if |contract| > |kept| {
      assert |Pinned(kept, contract)| == |contract|;
    }
  }

  /** However many follow: what is pinned is the pinned contract still, exactly when none is longer. */
  lemma {:induction false} RestatedNeverChanges(kept: seq<Criterion>, contracts: seq<seq<Criterion>>)
    ensures PinnedAll(kept, contracts) == kept <==> forall k | 0 <= k < |contracts| :: |contracts[k]| <= |kept|
    decreases |contracts|
  {
    if contracts != [] {
      var rest := contracts[1..];
      RestatedChangesNothing(kept, contracts[0]);
      assert forall k | 0 < k < |contracts| :: contracts[k] == rest[k - 1];
      if |contracts[0]| <= |kept| {
        RestatedNeverChanges(kept, rest);
        assert forall k | 0 <= k < |rest| :: rest[k] == contracts[k + 1];
      } else {
        ContractOnlyGrows(kept, contracts, 0);
      }
    }
  }

  /** The input that fails: a first contract of one criterion, stated again with a second one. */
  lemma ALongerRestatementAdds(a: Criterion, b: Criterion)
    ensures PinnedAll([], [[a], [a, b]]) == [a, b] != PinnedAll([], [[a]])
  {
    assert Pinned([], [a]) == [a] && Pinned([a], [a, b]) == [a, b];
    assert [[a], [a, b]][1..] == [[a, b]] && [[a, b]][1..] == [] && [[a]][1..] == [];
    assert PinnedAll([a], [[a, b]]) == PinnedAll([a, b], []);
    assert PinnedAll([], [[a]]) == PinnedAll([a], []);
  }

  // ---- the check of a contract -------------------------------------------------------------

  predicate IsCalled(a: Action, step: string) {
    a.Step? && NameOf(a) == step
  }

  /** The first step of this plan that is called `step`, if there is one, declares the output. */
  predicate SlotFitsPlan(reg: Registry, actions: seq<Action>, step: string, key: string) {
    forall i | 0 <= i < |actions| && IsCalled(actions[i], step) ::
      (exists j | 0 <= j < i :: IsCalled(actions[j], step)) || Reports(reg, actions[i], key)
  }

  predicate Reports(reg: Registry, a: Action, key: string)
    requires a.Step?
  {
    EntryOf(reg, a).Declared? && FieldAccepts(EntryOf(reg, a).outputs, key)
  }

  predicate CriterionOk(reg: Registry, actions: seq<Action>, c: Criterion) {
    Trim(c.source) != "" ==>
      && ParseInputSource(c.source).Ok?
      && (ParseInputSource(c.source).value.FromStep? ==>
            SlotFitsPlan(reg, actions, ParseInputSource(c.source).value.step, ParseInputSource(c.source).value.key))
      && !c.hasCheck
  }

  predicate ContractOk(reg: Registry, actions: seq<Action>, contract: seq<Criterion>) {
    contract == [] || (CriterionOk(reg, actions, contract[0]) && ContractOk(reg, actions, contract[1..]))
  }

  method FirstCalled(actions: seq<Action>, step: string) returns (at: Option<nat>)
    ensures at.Some? ==> at.value < |actions| && IsCalled(actions[at.value], step) &&
                         forall j | 0 <= j < at.value :: !IsCalled(actions[j], step)
    ensures at == None ==> forall j | 0 <= j < |actions| :: !IsCalled(actions[j], step)
  {
    for i := 0 to |actions|
      invariant forall j | 0 <= j < i :: !IsCalled(actions[j], step)
    {
      if IsCalled(actions[i], step) {
        return Some(i);
      }
    }
    at := None;
  }

  lemma TheFirstDecides(reg: Registry, actions: seq<Action>, step: string, key: string, at: nat)
    requires at < |actions| && IsCalled(actions[at], step) && forall j | 0 <= j < at :: !IsCalled(actions[j], step)
    ensures SlotFitsPlan(reg, actions, step, key) <==> Reports(reg, actions[at], key)
  {
    if Reports(reg, actions[at], key) {
      forall i | 0 <= i < |actions| && IsCalled(actions[i], step)
        ensures (exists j | 0 <= j < i :: IsCalled(actions[j], step)) || Reports(reg, actions[i], key)
      {
        assert i == at || IsCalled(actions[at], step);
      }
    }
  }

  method CheckSlotAgainstPlan(reg: Registry, actions: seq<Action>, step: string, key: string) returns (ok: bool)
    ensures ok == SlotFitsPlan(reg, actions, step, key)
  {
    var at := FirstCalled(actions, step);
    if at == None {
      return true;
    }
    TheFirstDecides(reg, actions, step, key, at.value);
    ok := Reports(reg, actions[at.value], key);
  }

  method CheckCriterion(reg: Registry, actions: seq<Action>, c: Criterion) returns (ok: bool)
    ensures ok == CriterionOk(reg, actions, c)
  {
    if Trim(c.source) == "" {
      return true;
    }
    match ParseInputSource(c.source) {
      case Err => return false;
      case Ok(FromStep(step, key)) =>
        var fits := CheckSlotAgainstPlan(reg, actions, step, key);
        ok := fits && !c.hasCheck;
      case Ok(FromWorld(_)) =>
        ok := !c.hasCheck;
    }
  }

  /** A contract that could never be read is refused before it is pinned. */
  method ValidateCompletionContract(reg: Registry, actions: seq<Action>, contract: seq<Criterion>) returns (ok: bool)
    ensures ok == ContractOk(reg, actions, contract)
  {
    for i := 0 to |contract|
      invariant ContractOk(reg, actions, contract) == ContractOk(reg, actions, contract[i..])
    {
      assert contract[i..][1..] == contract[i + 1..];
      var criterionOk := CheckCriterion(reg, actions, contract[i]);
      if !criterionOk {
        return false;
      }
    }
    ok := true;
  }
}
