/** What a task's steps have produced: the evidence its completion contract is judged by. */
module Evidence {
  import opened Basics
  import opened Text
  import opened PlanLineage
  import opened PlanExecution

  /** One executed step as the store keeps it, with the plan row it carries out. */
  datatype StepRow = StepRow(planStep: nat, name: string, ok: bool, capability: string, output: Values)

  /** What a row produced under its name, if it counts at all. */
  function Success(row: StepRow): Option<Record> {
    if row.ok && Trim(row.name) != "" then Some(Record(0, row.capability, Trim(row.name), map[], row.output, false)) else None
  }

  function Successes(rows: seq<StepRow>): seq<Option<Record>> {
    seq(|rows|, k requires 0 <= k < |rows| => Success(rows[k]))
  }

  predicate Of(row: Option<Record>, name: string) {
    row.Some? && row.value.stepName == name
  }

  /** One more row: it replaces the entry of its name, or is the first of it. */
  function AddRow(out: seq<Record>, row: Option<Record>): seq<Record> {
    if row == None then out
    else
      var at := Find(out, row.value.stepName);
      if at.Some? then out[at.value := row.value] else out + [row.value]
  }

  function Outputs(rows: seq<Option<Record>>): seq<Record> {
    if rows == [] then [] else AddRow(Outputs(rows[..|rows| - 1]), rows[|rows| - 1])
  }

  /** What a task's rows come to. */
  function Produced(rows: seq<StepRow>): seq<Record> {
    Outputs(Successes(rows))
  }

  lemma ProducedIsLatest(rows: seq<StepRow>)
    ensures IsLatest(rows, Produced(rows))
  {
    OutputsAreLatest(Successes(rows));
    LatestOfRows(rows, Produced(rows));
  }

  /** When `name` first succeeded. */
  function First(rows: seq<Option<Record>>, name: string): (r: nat)
    ensures r <= |rows| && (r < |rows| ==> Of(rows[r], name)) && forall k | 0 <= k < r :: !Of(rows[k], name)
  {
    if rows == [] then 0
    else
      var n := |rows| - 1;
      var before := First(rows[..n], name);
      if before < n || Of(rows[n], name) then before else n + 1
  }

  /** What `name` produced when it last succeeded. */
  function Last(rows: seq<Option<Record>>, name: string): Option<Record> {
    if rows == [] then None
    else if Of(rows[|rows| - 1], name) then rows[|rows| - 1]
    else Last(rows[..|rows| - 1], name)
  }

  ghost predicate AreLatest(rows: seq<Option<Record>>, out: seq<Record>) {
    && (forall k | 0 <= k < |out| :: Last(rows, out[k].stepName) == Some(out[k]))
    && (forall name :: Last(rows, name).Some? ==> exists k :: 0 <= k < |out| && out[k].stepName == name)
    && (forall k, l | 0 <= k < l < |out| :: First(rows, out[k].stepName) < First(rows, out[l].stepName))
  }

  lemma {:induction false} LastIffFirst(rows: seq<Option<Record>>, name: string)
    ensures Last(rows, name).Some? <==> First(rows, name) < |rows|
    ensures Last(rows, name).Some? ==> Last(rows, name).value.stepName == name
  {
    if rows != [] {
      LastIffFirst(rows[..|rows| - 1], name);
    }
  }

  lemma Names(rows: seq<Option<Record>>, out: seq<Record>, k: nat, l: nat)
    requires AreLatest(rows, out) && k < |out| && l < |out| && out[k].stepName == out[l].stepName
    ensures k == l
  {
  }

  lemma {:induction false} FirstLonger(rows: seq<Option<Record>>, row: Option<Record>, name: string)
    ensures First(rows + [row], name) ==
            if First(rows, name) < |rows| || Of(row, name) then First(rows, name) else |rows| + 1
    ensures Last(rows + [row], name) == if Of(row, name) then row else Last(rows, name)
  {
    assert (rows + [row])[..|rows|] == rows;
  }

  lemma AddKeepsLatest(rows: seq<Option<Record>>, out: seq<Record>, row: Option<Record>)
    requires AreLatest(rows, out)
    ensures AreLatest(rows + [row], AddRow(out, row))
  {
    forall name
      ensures First(rows + [row], name) == if First(rows, name) < |rows| || Of(row, name) then First(rows, name) else |rows| + 1
      ensures Last(rows + [row], name) == if Of(row, name) then row else Last(rows, name)
      ensures Last(rows, name).Some? <==> First(rows, name) < |rows|
    {
      FirstLonger(rows, row, name);
      LastIffFirst(rows, name);
    }
    if row.Some? {
      AddLatest(rows, out, row, row.value.stepName);
    }
  }

  /** `row` names `own`: what it changes of every name's first and last success. */
  ghost predicate Grows(rows: seq<Option<Record>>, row: Option<Record>, own: string) {
    && (forall name :: First(rows + [row], name) == if First(rows, name) < |rows| || name == own then First(rows, name) else |rows| + 1)
    && (forall name :: Last(rows + [row], name) == if name == own then row else Last(rows, name))
    && (forall name :: Last(rows, name).Some? <==> First(rows, name) < |rows|)
  }

  lemma AddLatest(rows: seq<Option<Record>>, out: seq<Record>, row: Option<Record>, own: string)
    requires AreLatest(rows, out) && Of(row, own) && Grows(rows, row, own)
    ensures AreLatest(rows + [row], AddRow(out, row))
  {
    var at := Find(out, own);
    if at.Some? {
      Replaced(rows, out, row, own, at.value);
    } else {
      Appended(rows, out, row, own);
    }
  }

  lemma Replaced(rows: seq<Option<Record>>, out: seq<Record>, row: Option<Record>, own: string, at: nat)
    requires AreLatest(rows, out) && Of(row, own) && Grows(rows, row, own) && at < |out| && out[at].stepName == own
    ensures AreLatest(rows + [row], out[at := row.value])
  {
    var out' := out[at := row.value];
    forall k | 0 <= k < |out'| ensures Last(rows + [row], out'[k].stepName) == Some(out'[k]) {
      if out[k].stepName == own {
        Names(rows, out, k, at);
      }
    }
    forall name | Last(rows + [row], name).Some? ensures exists k :: 0 <= k < |out'| && out'[k].stepName == name {
      assert name == own || Last(rows, name).Some?;
      StillNamed(rows, out, out', name);
    }
  }

  lemma {:induction false} StillNamed(rows: seq<Option<Record>>, out: seq<Record>, out': seq<Record>, name: string)
    requires AreLatest(rows, out) && |out'| == |out| && forall k | 0 <= k < |out| :: out'[k].stepName == out[k].stepName
    requires Last(rows, name).Some? || exists k :: 0 <= k < |out| && out[k].stepName == name
    ensures exists k :: 0 <= k < |out'| && out'[k].stepName == name
  {
    var k :| 0 <= k < |out| && out[k].stepName == name;
    assert out'[k].stepName == name;
  }

  lemma Appended(rows: seq<Option<Record>>, out: seq<Record>, row: Option<Record>, own: string)
    requires AreLatest(rows, out) && Of(row, own) && Grows(rows, row, own)
    requires forall k | 0 <= k < |out| :: out[k].stepName != own
    ensures AreLatest(rows + [row], out + [row.value])
  {
    var out' := out + [row.value];
    forall name | Last(rows + [row], name).Some? ensures exists k :: 0 <= k < |out'| && out'[k].stepName == name {
      if name == own {
        assert out'[|out|].stepName == name;
      } else {
        var k :| 0 <= k < |out| && out[k].stepName == name;
        assert out'[k].stepName == name;
      }
    }
  }

  /** The evidence of a task is the last success of each name, ordered by its first. */
  lemma {:induction false} OutputsAreLatest(rows: seq<Option<Record>>)
    ensures AreLatest(rows, Outputs(rows))
  {
    if rows != [] {
      var n := |rows| - 1;
      OutputsAreLatest(rows[..n]);
      AddKeepsLatest(rows[..n], Outputs(rows[..n]), rows[n]);
      assert rows[..n] + [rows[n]] == rows;
    }
  }

  lemma SameLatest(rows: seq<Option<Record>>, a: seq<Record>, b: seq<Record>)
    requires AreLatest(rows, a) && AreLatest(rows, b)
    ensures a == b
  {
    var ra := seq(|a|, k requires 0 <= k < |a| => First(rows, a[k].stepName));
    var rb := seq(|b|, k requires 0 <= k < |b| => First(rows, b[k].stepName));
    RanksCovered(rows, a, b, ra, rb);
    RanksCovered(rows, b, a, rb, ra);
    SameRanks(ra, rb);
    forall k | 0 <= k < |a| ensures a[k] == b[k] {
      assert ra[k] == rb[k];
      SameName(rows, a[k].stepName, b[k].stepName);
    }
  }

  lemma {:induction false} SameName(rows: seq<Option<Record>>, name: string, name': string)
    requires Last(rows, name).Some? && Last(rows, name').Some? && First(rows, name) == First(rows, name')
    ensures name == name'
  {
    LastIffFirst(rows, name);
    LastIffFirst(rows, name');
  }

  lemma {:induction false} RanksCovered(rows: seq<Option<Record>>, a: seq<Record>, b: seq<Record>, ra: seq<nat>, rb: seq<nat>)
    requires AreLatest(rows, a) && AreLatest(rows, b)
    requires |ra| == |a| && forall k | 0 <= k < |a| :: ra[k] == First(rows, a[k].stepName)
    requires |rb| == |b| && forall k | 0 <= k < |b| :: rb[k] == First(rows, b[k].stepName)
    ensures forall x | x in ra :: x in rb
  {
    forall k | 0 <= k < |a| ensures ra[k] in rb {
      assert Last(rows, a[k].stepName).Some?;
      var l :| 0 <= l < |b| && b[l].stepName == a[k].stepName;
      assert rb[l] == ra[k];
    }
  }

  lemma SomeElement(s: seq<nat>)
    ensures s == [] || exists x :: x in s
  {
    assert s != [] ==> s[0] in s;
  }

  lemma {:induction false} SameRanks(a: seq<nat>, b: seq<nat>)
    requires forall i, j | 0 <= i < j < |a| :: a[i] < a[j]
    requires forall i, j | 0 <= i < j < |b| :: b[i] < b[j]
    requires forall x :: x in a <==> x in b
    ensures a == b
    decreases |a|
  {
    if a == [] {
      SomeElement(b);
    } else {
      var m, n := |a| - 1, |b| - 1;
      assert a[m] in b;
      var k :| 0 <= k < |b| && b[k] == a[m];
      assert b[n] in a;
      assert a[m] == b[n];
      forall x ensures x in a[..m] <==> x in b[..n] {
        assert x in a[..m] <==> x in a && x < a[m];
        assert x in b[..n] <==> x in b && x < b[n];
      }
      SameRanks(a[..m], b[..n]);
      assert a == a[..m] + [a[m]] && b == b[..n] + [b[n]];
    }
  }

  // ---- over the rows themselves ------------------------------------------------------------

  /** Row `r` is a success of the step called `name`. */
  predicate Succeeds(rows: seq<StepRow>, r: nat, name: string) {
    r < |rows| && rows[r].ok && name != "" && Trim(rows[r].name) == name
  }

  /** Row `r` is the last success of `name`. */
  ghost predicate LastSuccess(rows: seq<StepRow>, r: nat, name: string) {
    Succeeds(rows, r, name) && forall q: nat | r < q :: !Succeeds(rows, q, name)
  }

  /** `name` has succeeded in a row before `other` did in any. */
  ghost predicate SucceedsBefore(rows: seq<StepRow>, name: string, other: string) {
    exists r: nat :: Succeeds(rows, r, name) && forall q: nat | q <= r :: !Succeeds(rows, q, other)
  }

  /** The entry is what this row says its step produced. */
  predicate IsFrom(entry: Record, row: StepRow) {
    entry == Record(0, row.capability, Trim(row.name), map[], row.output, false)
  }

  ghost predicate IsFromLast(rows: seq<StepRow>, entry: Record) {
    exists r: nat :: LastSuccess(rows, r, entry.stepName) && IsFrom(entry, rows[r])
  }

  ghost predicate HasEntry(out: seq<Record>, name: string) {
    exists k :: 0 <= k < |out| && out[k].stepName == name
  }

  /** One entry for each step that has succeeded, with the capability and the output of its last success,
      in the order the steps first did. A row that is not ok, or has no name, plays no part. */
  ghost predicate IsLatest(rows: seq<StepRow>, out: seq<Record>) {
    && (forall k | 0 <= k < |out| :: IsFromLast(rows, out[k]))
    && (forall r: nat, name | Succeeds(rows, r, name) :: HasEntry(out, name))
    && (forall k, l | 0 <= k < l < |out| :: SucceedsBefore(rows, out[k].stepName, out[l].stepName))
  }

  lemma SuccessOf(rows: seq<StepRow>, r: nat, name: string)
    requires r < |rows|
    ensures Of(Successes(rows)[r], name) <==> Succeeds(rows, r, name)
    ensures Successes(rows)[r].Some? ==> IsFrom(Successes(rows)[r].value, rows[r])
  {
  }

  lemma {:induction false} LastIsRow(rows: seq<Option<Record>>, name: string)
    ensures Last(rows, name) == None <==> forall q | 0 <= q < |rows| :: !Of(rows[q], name)
    ensures Last(rows, name).Some? ==>
              exists r: nat :: r < |rows| && Of(rows[r], name) && rows[r] == Last(rows, name) &&
                               forall q | r < q < |rows| :: !Of(rows[q], name)
  {
    if rows != [] && !Of(rows[|rows| - 1], name) {
      LastIsRow(rows[..|rows| - 1], name);
    }
  }

  lemma LastIsSuccess(rows: seq<StepRow>, name: string) returns (r: nat)
    requires Last(Successes(rows), name).Some?
    ensures LastSuccess(rows, r, name) && IsFrom(Last(Successes(rows), name).value, rows[r])
  {
    LastIsRow(Successes(rows), name);
    r :| r < |rows| && Of(Successes(rows)[r], name) && Successes(rows)[r] == Last(Successes(rows), name) &&
         forall q | r < q < |rows| :: !Of(Successes(rows)[q], name);
    SuccessOf(rows, r, name);
    forall q: nat | r < q ensures !Succeeds(rows, q, name) {
      if q < |rows| {
        SuccessOf(rows, q, name);
      }
    }
  }

  lemma {:induction false} SuccessIsLast(rows: seq<StepRow>, r: nat, name: string)
    requires LastSuccess(rows, r, name)
    ensures Last(Successes(rows), name).Some? && IsFrom(Last(Successes(rows), name).value, rows[r])
  {
    SuccessOf(rows, r, name);
    LastIsRow(Successes(rows), name);
    var q := LastIsSuccess(rows, name);
    assert q == r;
  }

  lemma {:induction false} LaterSuccess(rows: seq<StepRow>, r: nat, name: string)
    requires Succeeds(rows, r, name)
    ensures Last(Successes(rows), name).Some?
  {
    SuccessOf(rows, r, name);
    LastIsRow(Successes(rows), name);
  }

  lemma {:induction false} FirstIsEarlier(rows: seq<StepRow>, name: string, other: string)
    requires Last(Successes(rows), name).Some?
    ensures First(Successes(rows), name) < First(Successes(rows), other) <==> SucceedsBefore(rows, name, other)
  {
    LastIffFirst(Successes(rows), name);
    var f := First(Successes(rows), name);
    forall r: nat | r < |rows| ensures Of(Successes(rows)[r], name) <==> Succeeds(rows, r, name)
                               ensures Of(Successes(rows)[r], other) <==> Succeeds(rows, r, other) {
      SuccessOf(rows, r, name);
      SuccessOf(rows, r, other);
    }
    if f < First(Successes(rows), other) {
      assert Succeeds(rows, f, name);
    }
  }

  lemma EntryIsLatest(rows: seq<StepRow>, entry: Record)
    requires Last(Successes(rows), entry.stepName) == Some(entry)
    ensures IsFromLast(rows, entry)
  {
    var r := LastIsSuccess(rows, entry.stepName);
  }

  lemma SuccessHasEntry(rows: seq<StepRow>, out: seq<Record>, r: nat, name: string)
    requires AreLatest(Successes(rows), out) && Succeeds(rows, r, name)
    ensures HasEntry(out, name)
  {
    LaterSuccess(rows, r, name);
  }

  lemma EntriesInOrder(rows: seq<StepRow>, out: seq<Record>, k: nat, l: nat)
    requires AreLatest(Successes(rows), out) && k < l < |out|
    ensures SucceedsBefore(rows, out[k].stepName, out[l].stepName)
  {
    FirstIsEarlier(rows, out[k].stepName, out[l].stepName);
  }

  lemma LatestOfRows(rows: seq<StepRow>, out: seq<Record>)
    requires AreLatest(Successes(rows), out)
    ensures IsLatest(rows, out)
  {
    forall k | 0 <= k < |out| ensures IsFromLast(rows, out[k]) {
      EntryIsLatest(rows, out[k]);
    }
    forall r: nat, name | Succeeds(rows, r, name) ensures HasEntry(out, name) {
      SuccessHasEntry(rows, out, r, name);
    }
    forall k, l | 0 <= k < l < |out| ensures SucceedsBefore(rows, out[k].stepName, out[l].stepName) {
      EntriesInOrder(rows, out, k, l);
    }
  }

  lemma RowsOfLatest(rows: seq<StepRow>, out: seq<Record>)
    requires IsLatest(rows, out)
    ensures AreLatest(Successes(rows), out)
  {
    forall k | 0 <= k < |out| ensures Last(Successes(rows), out[k].stepName) == Some(out[k]) {
      assert IsFromLast(rows, out[k]);
      var r: nat :| LastSuccess(rows, r, out[k].stepName) && IsFrom(out[k], rows[r]);
      SuccessIsLast(rows, r, out[k].stepName);
    }
    forall name | Last(Successes(rows), name).Some? ensures exists k :: 0 <= k < |out| && out[k].stepName == name {
      var r := LastIsSuccess(rows, name);
      assert Succeeds(rows, r, name);
      assert HasEntry(out, name);
    }
    OrderOfLatest(rows, out);
  }

  lemma OrderOfLatest(rows: seq<StepRow>, out: seq<Record>)
    requires IsLatest(rows, out)
    ensures forall k, l | 0 <= k < l < |out| :: First(Successes(rows), out[k].stepName) < First(Successes(rows), out[l].stepName)
  {
    forall k, l | 0 <= k < l < |out| ensures First(Successes(rows), out[k].stepName) < First(Successes(rows), out[l].stepName) {
      var name, other := out[k].stepName, out[l].stepName;
      assert SucceedsBefore(rows, name, other);
      var r: nat :| Succeeds(rows, r, name) && forall q: nat | q <= r :: !Succeeds(rows, q, other);
      LaterSuccess(rows, r, name);
      FirstIsEarlier(rows, name, other);
    }
  }

  /** A task's rows determine its evidence. */
  lemma LatestIsUnique(rows: seq<StepRow>, a: seq<Record>, b: seq<Record>)
    requires IsLatest(rows, a) && IsLatest(rows, b)
    ensures a == b
  {
    RowsOfLatest(rows, a);
    RowsOfLatest(rows, b);
    SameLatest(Successes(rows), a, b);
  }

  /** A row that is not ok, or has no name, changes nothing wherever it stands. */
  lemma FailuresDoNotCount(before: seq<StepRow>, row: StepRow, after: seq<StepRow>)
    requires !row.ok || Trim(row.name) == ""
    ensures Produced(before + [row] + after) == Produced(before + after)
    decreases |after|
  {
    if after == [] {
      OneMore(before, row);
      assert before + [row] + [] == before + [row] && before + [] == before;
    } else {
      var n := |after| - 1;
      FailuresDoNotCount(before, row, after[..n]);
      OneMore(before + [row] + after[..n], after[n]);
      OneMore(before + after[..n], after[n]);
      assert (before + [row] + after[..n]) + [after[n]] == before + [row] + after;
      assert (before + after[..n]) + [after[n]] == before + after;
    }
  }

  // ---- the method --------------------------------------------------------------------

  function Flat(plans: seq<seq<StepRow>>): seq<StepRow> {
    if plans == [] then [] else Flat(plans[..|plans| - 1]) + plans[|plans| - 1]
  }

  /** Where each name stands in `out`. */
  ghost predicate IndexOf(out: seq<Record>, at: map<string, nat>) {
    && (forall k | 0 <= k < |out| :: out[k].stepName in at && at[out[k].stepName] == k)
    && (forall name | name in at :: at[name] < |out| && out[at[name]].stepName == name)
  }

  /** Reads a task's step rows, plan by plan, and keeps the latest success of each name. */
  method TaskStepOutputs(plans: seq<seq<StepRow>>) returns (out: seq<Record>)
    ensures out == Produced(Flat(plans)) && IsLatest(Flat(plans), out)
  {
    var at: map<string, nat> := map[];
    out := [];
    for p := 0 to |plans|
      invariant out == Produced(Flat(plans[..p])) && IndexOf(out, at)
    {
      assert plans[..p + 1][..p] == plans[..p];
      out, at := ReadPlan(Flat(plans[..p]), plans[p], out, at);
    }
    assert plans[..|plans|] == plans;
    ProducedIsLatest(Flat(plans));
  }

  method ReadPlan(ghost rows: seq<StepRow>, steps: seq<StepRow>, before: seq<Record>, index: map<string, nat>)
    returns (out: seq<Record>, at: map<string, nat>)
    requires before == Produced(rows) && IndexOf(before, index)
    ensures out == Produced(rows + steps) && IndexOf(out, at)
  {
    out, at := before, index;
    assert rows + [] == rows;
    for s := 0 to |steps|
      invariant out == Produced(rows + steps[..s]) && IndexOf(out, at)
    {
      NextStep(rows, steps, s);
      out, at := Merge(out, at, steps[s]);
    }
    assert steps[..|steps|] == steps;
  }

  lemma OneMore(rows: seq<StepRow>, row: StepRow)
    ensures Produced(rows + [row]) == AddRow(Produced(rows), Success(row))
  {
    assert Successes(rows + [row]) == Successes(rows) + [Success(row)];
    assert (Successes(rows) + [Success(row)])[..|rows|] == Successes(rows);
  }

  lemma NextStep(rows: seq<StepRow>, steps: seq<StepRow>, s: nat)
    requires s < |steps|
    ensures Produced(rows + steps[..s + 1]) == AddRow(Produced(rows + steps[..s]), Success(steps[s]))
  {
    OneMore(rows + steps[..s], steps[s]);
    assert (rows + steps[..s]) + [steps[s]] == rows + steps[..s + 1];
  }

  method Merge(out: seq<Record>, at: map<string, nat>, row: StepRow) returns (out': seq<Record>, at': map<string, nat>)
    requires IndexOf(out, at)
    ensures out' == AddRow(out, Success(row)) && IndexOf(out', at')
  {
    out', at' := out, at;
    var name := Trim(row.name);
    if name == "" || !row.ok {
      return;
    }
    var record := Record(0, row.capability, name, map[], row.output, false);
    if name in at {
      out' := out[at[name] := record];
      return;
    }
    at' := at[name := |out|];
    out' := out + [record];
  }

  lemma {:induction false} EvidenceIsTheLast(rows: seq<Option<Record>>, name: string)
    ensures Find(Outputs(rows), name).Some? <==> Last(rows, name).Some?
    ensures Find(Outputs(rows), name).Some? ==> Outputs(rows)[Find(Outputs(rows), name).value] == Last(rows, name).value
  {
    OutputsAreLatest(rows);
  }

  /** What a binding to a step reads is what that step reported when it last succeeded, if it ever did. */
  lemma {:induction false} BindingReadsTheLast(rows: seq<StepRow>, name: string)
    ensures Find(Produced(rows), name) == None <==> forall r: nat :: !Succeeds(rows, r, name)
    ensures forall r: nat | LastSuccess(rows, r, name) ::
              Find(Produced(rows), name).Some? && IsFrom(Produced(rows)[Find(Produced(rows), name).value], rows[r])
  {
    EvidenceIsTheLast(Successes(rows), name);
    forall r: nat | LastSuccess(rows, r, name)
      ensures Find(Produced(rows), name).Some? && IsFrom(Produced(rows)[Find(Produced(rows), name).value], rows[r])
    {
      SuccessIsLast(rows, r, name);
    }
    if Find(Produced(rows), name).Some? {
      var r := LastIsSuccess(rows, name);
    } else {
      forall r: nat ensures !Succeeds(rows, r, name) {
        if Succeeds(rows, r, name) {
          LaterSuccess(rows, r, name);
        }
      }
    }
  }

  /** In both, `name` never succeeded or last reported the same. */
  ghost predicate SameLast(rows: seq<StepRow>, rows': seq<StepRow>, name: string) {
    || ((forall r: nat :: !Succeeds(rows, r, name)) && (forall r: nat :: !Succeeds(rows', r, name)))
    || (exists r: nat, r': nat :: LastSuccess(rows, r, name) && LastSuccess(rows', r', name) &&
          rows[r].capability == rows'[r'].capability && rows[r].output == rows'[r'].output)
  }

  lemma {:induction false} SameLastIsRead(rows: seq<StepRow>, rows': seq<StepRow>, name: string)
    requires SameLast(rows, rows', name)
    ensures Find(Produced(rows), name).Some? == Find(Produced(rows'), name).Some?
    ensures Find(Produced(rows), name).Some? ==>
              Produced(rows)[Find(Produced(rows), name).value] == Produced(rows')[Find(Produced(rows'), name).value]
  {
    BindingReadsTheLast(rows, name);
    BindingReadsTheLast(rows', name);
  }

  /** The rows of a task, whatever plans they come from, stand in the order of the plans. */
  lemma {:induction false} FlatKeepsOrder(before: seq<seq<StepRow>>, after: seq<seq<StepRow>>)
    ensures Flat(before + after) == Flat(before) + Flat(after)
  {
    if after == [] {
      assert before + after == before;
    } else {
      var n := |after| - 1;
      FlatKeepsOrder(before, after[..n]);
      assert (before + after)[..|before| + n] == before + after[..n];
    }
  }
}
