/** Runs of a plan, whatever executing one of its actions does. */
module PlanRuns {
  import opened PlanLineage
  import opened PlanExecution

  /** How many of the first `n` actions execute anything at all. */
  function Pos(actions: seq<Action>, n: nat): nat
    requires n <= |actions|
  {
    if n == 0 then 0 else Pos(actions, n - 1) + if actions[n - 1].Nil? then 0 else 1
  }

  lemma {:induction false} PosGrows(actions: seq<Action>, i: nat, n: nat)
    requires i < n <= |actions|
    ensures Pos(actions, i) <= Pos(actions, n)
    ensures !actions[i].Nil? ==> Pos(actions, i) < Pos(actions, n)
  {
    if i < n - 1 {
      PosGrows(actions, i, n - 1);
    }
  }

  ghost predicate Reached(actions: seq<Action>, exec: Exec, i: nat)
    requires i <= |actions|
  {
    !RunWith(actions, exec, i).failed
  }

  ghost function Prior(actions: seq<Action>, exec: Exec, i: nat): seq<Record>
    requires i <= |actions|
  {
    RunWith(actions, exec, i).records
  }

  /** What is known of action `j` once `prior` is all that ran. */
  ghost predicate Ran(actions: seq<Action>, exec: Exec, j: nat, prior: seq<Record>) {
    && j < |actions| && !actions[j].Nil?
    && Reached(actions, exec, j)
    && Pos(actions, j) < |prior|
    && Prior(actions, exec, j) == prior[..Pos(actions, j)]
    && prior[Pos(actions, j)] == exec(j, Prior(actions, exec, j))
    && !prior[Pos(actions, j)].failed
  }

  lemma RanLonger(actions: seq<Action>, exec: Exec, j: nat, prior: seq<Record>, record: Record)
    requires Ran(actions, exec, j, prior)
    ensures Ran(actions, exec, j, prior + [record])
  {
    assert (prior + [record])[..Pos(actions, j)] == prior[..Pos(actions, j)];
  }

  lemma NextPrior(actions: seq<Action>, exec: Exec, i: nat)
    requires i < |actions| && Reached(actions, exec, i)
    ensures Prior(actions, exec, i + 1) ==
            if actions[i].Nil? then Prior(actions, exec, i)
            else Prior(actions, exec, i) + [exec(i, Prior(actions, exec, i))]
  {
  }

  /** As long as nothing failed there is one record for each action that executes, in plan order. */
  ghost predicate AllRan(actions: seq<Action>, exec: Exec, n: nat, prior: seq<Record>) {
    && n <= |actions|
    && |prior| == Pos(actions, n)
    && forall j: nat | j < n && !actions[j].Nil? :: Ran(actions, exec, j, prior)
  }

  lemma RanLast(actions: seq<Action>, exec: Exec, i: nat, prior: seq<Record>, record: Record)
    requires i < |actions| && !actions[i].Nil? && Reached(actions, exec, i) && Reached(actions, exec, i + 1)
    requires prior == Prior(actions, exec, i) && |prior| == Pos(actions, i) && record == exec(i, prior)
    ensures Ran(actions, exec, i, prior + [record])
  {
    assert (prior + [record])[..|prior|] == prior;
  }

  lemma AllRanSnoc(actions: seq<Action>, exec: Exec, i: nat, prior: seq<Record>, record: Record)
    requires i < |actions| && AllRan(actions, exec, i, prior) && Ran(actions, exec, i, prior + [record])
    ensures AllRan(actions, exec, i + 1, prior + [record])
  {
    forall j: nat | j < i && !actions[j].Nil? ensures Ran(actions, exec, j, prior + [record]) {
      RanLonger(actions, exec, j, prior, record);
    }
  }

  lemma AllRanPast(actions: seq<Action>, exec: Exec, i: nat, prior: seq<Record>)
    requires i < |actions| && actions[i].Nil? && AllRan(actions, exec, i, prior)
    ensures AllRan(actions, exec, i + 1, prior)
  {
    AllRanBefore(actions, exec, i, prior);
  }

  lemma AllRanBefore(actions: seq<Action>, exec: Exec, i: nat, prior: seq<Record>)
    requires i < |actions| && actions[i].Nil?
    requires forall j: nat | j < i && !actions[j].Nil? :: Ran(actions, exec, j, prior)
    ensures forall j: nat | j < i + 1 && !actions[j].Nil? :: Ran(actions, exec, j, prior)
  {
    forall j: nat | j < i + 1 && !actions[j].Nil? ensures Ran(actions, exec, j, prior) {
      assert j < i;
    }
  }

  lemma AllRanOne(actions: seq<Action>, exec: Exec, i: nat, prior: seq<Record>)
    requires i < |actions| && !actions[i].Nil? && Reached(actions, exec, i) && Reached(actions, exec, i + 1)
    requires prior == Prior(actions, exec, i) && AllRan(actions, exec, i, prior)
    ensures AllRan(actions, exec, i + 1, prior + [exec(i, prior)])
  {
    RanLast(actions, exec, i, prior, exec(i, prior));
    AllRanSnoc(actions, exec, i, prior, exec(i, prior));
  }

  lemma AllRanLonger(actions: seq<Action>, exec: Exec, i: nat)
    requires i < |actions| && Reached(actions, exec, i) && Reached(actions, exec, i + 1)
    requires AllRan(actions, exec, i, Prior(actions, exec, i))
    ensures AllRan(actions, exec, i + 1, Prior(actions, exec, i + 1))
  {
    NextPrior(actions, exec, i);
    if actions[i].Nil? {
      AllRanPast(actions, exec, i, Prior(actions, exec, i));
    } else {
      AllRanOne(actions, exec, i, Prior(actions, exec, i));
    }
  }

  lemma ReachedBefore(actions: seq<Action>, exec: Exec, i: nat)
    requires i < |actions| && Reached(actions, exec, i + 1)
    ensures Reached(actions, exec, i)
  {
  }

  lemma {:induction false} OneRecordEach(actions: seq<Action>, exec: Exec, n: nat)
    requires n <= |actions| && Reached(actions, exec, n)
    ensures AllRan(actions, exec, n, Prior(actions, exec, n))
  {
    if n > 0 {
      ReachedBefore(actions, exec, n - 1);
      OneRecordEach(actions, exec, n - 1);
      AllRanLonger(actions, exec, n - 1);
    }
  }

  lemma {:induction false} RecordsAreKept(actions: seq<Action>, exec: Exec, i: nat, n: nat)
    requires i <= n <= |actions|
    ensures Prior(actions, exec, i) <= Prior(actions, exec, n)
    ensures !Reached(actions, exec, i) ==> Prior(actions, exec, n) == Prior(actions, exec, i) && !Reached(actions, exec, n)
  {
    if i < n {
      RecordsAreKept(actions, exec, i, n - 1);
    }
  }

  lemma {:induction false} FewRecords(actions: seq<Action>, exec: Exec, i: nat)
    requires i <= |actions|
    ensures |Prior(actions, exec, i)| <= Pos(actions, i)
  {
    if i > 0 {
      FewRecords(actions, exec, i - 1);
    }
  }

  /** An action has its record exactly when it was reached. */
  lemma {:induction false} HasRecord(actions: seq<Action>, exec: Exec, i: nat, n: nat)
    requires i < n <= |actions| && !actions[i].Nil?
    ensures Pos(actions, i) < |Prior(actions, exec, n)| <==> Reached(actions, exec, i)
  {
    if Reached(actions, exec, i) {
      OneRecordEach(actions, exec, i);
      NextPrior(actions, exec, i);
      RecordsAreKept(actions, exec, i + 1, n);
    } else {
      RecordsAreKept(actions, exec, i, n);
      FewRecords(actions, exec, i);
    }
  }

  lemma NextIsThere(before: seq<Record>, next: Record, all: seq<Record>)
    requires before + [next] <= all
    ensures |before| < |all| && all[|before|] == next
  {
    assert (before + [next])[|before|] == next;
  }

  lemma {:induction false} AsManyAsPassed(actions: seq<Action>, exec: Exec, i: nat)
    requires i <= |actions| && Reached(actions, exec, i)
    ensures |Prior(actions, exec, i)| == Pos(actions, i)
  {
    OneRecordEach(actions, exec, i);
  }

  /** An action that was reached left its record in its place. */
  lemma {:induction false} OwnRecord(actions: seq<Action>, exec: Exec, i: nat, n: nat)
    requires i < n <= |actions| && !actions[i].Nil? && Reached(actions, exec, i)
    ensures Pos(actions, i) < |Prior(actions, exec, n)|
    ensures Prior(actions, exec, n)[Pos(actions, i)] == exec(i, Prior(actions, exec, i))
  {
    AsManyAsPassed(actions, exec, i);
    KeptAfter(actions, exec, i, n);
    NextIsThere(Prior(actions, exec, i), exec(i, Prior(actions, exec, i)), Prior(actions, exec, n));
  }

  lemma KeptAfter(actions: seq<Action>, exec: Exec, i: nat, n: nat)
    requires i < n <= |actions| && !actions[i].Nil? && Reached(actions, exec, i)
    ensures Prior(actions, exec, i) + [exec(i, Prior(actions, exec, i))] <= Prior(actions, exec, n)
  {
    NextPrior(actions, exec, i);
    RecordsAreKept(actions, exec, i + 1, n);
  }

  /** Record `k` is the one its action's execution left, after the records before it. */
  lemma {:induction false} RecordIsFrom(actions: seq<Action>, exec: Exec, n: nat, k: nat) returns (j: nat)
    requires n <= |actions| && k < |Prior(actions, exec, n)|
    ensures j < n && !actions[j].Nil? && Pos(actions, j) == k
    ensures Prior(actions, exec, n)[k] == exec(j, Prior(actions, exec, j))
  {
    if k < |Prior(actions, exec, n - 1)| {
      RecordsAreKept(actions, exec, n - 1, n);
      j := RecordIsFrom(actions, exec, n - 1, k);
    } else {
      j := n - 1;
      assert Reached(actions, exec, j);
      OneRecordEach(actions, exec, j);
    }
  }

  /** Every record is some action's. */
  lemma {:induction false} WhoseRecord(actions: seq<Action>, n: nat, k: nat) returns (j: nat)
    requires n <= |actions| && k < Pos(actions, n)
    ensures j < n && !actions[j].Nil? && Pos(actions, j) == k
  {
    if k < Pos(actions, n - 1) {
      j := WhoseRecord(actions, n - 1, k);
    } else {
      j := n - 1;
    }
  }
}
