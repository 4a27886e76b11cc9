/**
  The messages one agent processes, one after the other and across restarts, as a run of the
  confirmation gate's protocol: what `ApprovalGate` proves of every such run holds of what
  `DecisionLoop` executes.
*/
module GateRefinement {
  import opened Basics
  import opened PlanLineage
  import PlanExecution
  import PlanRuns
  import Evidence
  import opened Decisions
  import G = ApprovalGate
  import D = DecisionLoop

  /** One processed message: the gate it began at, and what it came to. */
  datatype Call = Call(
    o: D.Oracles,
    task: string,
    maxSteps: nat,
    isApproval: bool,
    gate: G.Gate,
    history: seq<D.Cycle>,
    confirmed: Option<Decision>,
    ending: D.Ending,
    status: Status,
    gate': G.Gate,
    plans: seq<seq<Evidence.StepRow>>)

  datatype Link = Called(call: Call) | Restarted

  /** Where the loop of this message begins: an approval confirms a pending plan. */
  function Begins(c: Call): G.Gate {
    if c.isApproval then G.Approve(c.gate) else c.gate
  }

  /** The planner answers one of the four types. */
  ghost predicate AnswersTyped(o: D.Oracles) {
    forall n, before | o.decide(n, before).Some? :: IsTyped(o.decide(n, before).value)
  }

  /** What processing a message promises of it. */
  ghost predicate Promised(c: Call) {
    AnswersTyped(c.o) &&
    D.Outcome(c.o, c.task, c.maxSteps, Begins(c), c.history, c.confirmed, c.ending, c.status, c.gate', c.plans)
  }

  function GateAfter(asked: bool, links: seq<Link>): G.Gate {
    if links == [] then G.Gate(asked, None, false)
    else
      match links[|links| - 1]
      case Called(c) => c.gate'
      case Restarted => G.RESTORED
  }

  /** Each message begins at the gate the one before it left, and a restart drops it. */
  ghost predicate Chain(asked: bool, links: seq<Link>) {
    forall i | 0 <= i < |links| && links[i].Called? ::
      links[i].call.gate == GateAfter(asked, links[..i]) && Promised(links[i].call)
  }

  function Restarts(links: seq<Link>): nat {
    if links == [] then 0 else Restarts(links[..|links| - 1]) + if links[|links| - 1].Restarted? then 1 else 0
  }

  // ---- what the two have in common -----------------------------------------------------------

  /** The gates agree; where their histories note a pending plan is each one's own. */
  predicate SameGate(a: G.Gate, b: G.Gate) {
    && a.required == b.required && a.approved == b.approved && a.pending.Some? == b.pending.Some?
    && (a.pending.Some? ==> a.pending.value.decision == b.pending.value.decision)
  }

  /** The steps a cycle has records of are those one worker of process `p` has run. */
  ghost predicate ShownBy(worker: G.Worker, c: D.Cycle, p: nat) {
    && worker.decision == c.decision && worker.process == p && worker.next <= |c.decision.actions|
    && PlanRuns.Pos(c.decision.actions, worker.next) == |c.result.records|
  }

  ghost predicate Shown(workers: seq<G.Worker>, c: D.Cycle, p: nat) {
    c.result.records == [] || exists w :: 0 <= w < |workers| && ShownBy(workers[w], c, p)
  }

  lemma StaysShown(workers: seq<G.Worker>, workers': seq<G.Worker>, c: D.Cycle, p: nat)
    requires Shown(workers, c, p) && workers <= workers'
    ensures Shown(workers', c, p)
  {
    if c.result.records != [] {
      var w :| 0 <= w < |workers| && ShownBy(workers[w], c, p);
      assert workers'[w] == workers[w];
    }
  }

  // ---- one cycle -----------------------------------------------------------------------------

  /** The records of a plan's run are those of its actions up to some place. */
  lemma {:induction false} RecordsUpTo(actions: seq<Action>, exec: PlanExecution.Exec, n: nat) returns (m: nat)
    requires n <= |actions|
    ensures m <= n && PlanRuns.Pos(actions, m) == |PlanExecution.RunWith(actions, exec, n).records|
  {
    if n == 0 {
      m := 0;
    } else if PlanExecution.RunWith(actions, exec, n - 1).failed {
      m := RecordsUpTo(actions, exec, n - 1);
    } else {
      PlanRuns.OneRecordEach(actions, exec, n - 1);
      m := n;
    }
  }

  /** What is done of the gate's protocol between two points: no restart, and workers are only added. */
  ghost predicate GoesTo(asked: bool, g: G.Sys, g': G.Sys) {
    G.Reachable(asked, g') && g'.process == g.process && g.workers <= g'.workers
  }

  /** The last worker runs its first `n` actions. */
  lemma {:induction false} Works(asked: bool, g: G.Sys, workers: seq<G.Worker>, worker: G.Worker, n: nat) returns (g': G.Sys)
    requires G.Reachable(asked, g) && g.workers == workers + [worker]
    requires worker.next == 0 && worker.process == g.process && n <= |worker.decision.actions|
    ensures G.Reachable(asked, g') && g'.process == g.process && g'.gate == g.gate
    ensures g'.workers == workers + [worker.(next := n)]
  {
    if n == 0 {
      g' := g;
    } else {
      var before := Works(asked, g, workers, worker, n - 1);
      g' := G.Reach(asked, before, G.DoWork(|workers|));
      assert g'.workers == workers + [worker.(next := n)];
    }
  }

  /** A new worker does what the cycle has records of. */
  lemma WorksCycle(asked: bool, g: G.Sys, workers: seq<G.Worker>, worker: G.Worker, m: nat, c: D.Cycle) returns (g': G.Sys)
    requires G.Reachable(asked, g) && g.workers == workers + [worker] && worker.decision == c.decision
    requires worker.next == 0 && worker.process == g.process
    requires RanUpTo(c, m)
    ensures G.Reachable(asked, g') && g'.process == g.process && g'.gate == g.gate && workers <= g'.workers
    ensures Shown(g'.workers, c, g.process)
  {
    g' := Works(asked, g, workers, worker, m);
    assert ShownBy(g'.workers[|workers|], c, g.process);
  }

  /** As many actions as a cycle that ran has records of; and what ran unconfirmed had passed its checks. */
  lemma CycleCount(o: D.Oracles, task: string, required: bool, confirmed: Option<Decision>, history: seq<D.Cycle>, k: nat)
    returns (m: nat)
    requires k < |history| && D.Trail(o, task, required, confirmed, history)
    ensures RanUpTo(history[k], m)
    ensures history[k].result.records != [] && !(k == 0 && confirmed.Some?) ==> G.Accepted(o.reg, history[k].decision, k + 1 == 1)
  {
    assert D.CycleOk(o, task, required, confirmed, history, k);
    var c := history[k];
    m := 0;
    if c.result.records != [] {
      var rows :| D.RanLinked(o, task, k + 1, c, rows);
      var plan := PlanExecution.Plan(c.decision.actions, rows, task);
      m := RecordsUpTo(plan.actions, PlanExecution.ExecOf(o.reg, o.env(k + 1), plan), |plan.actions|);
    }
  }

  /** The cycle's records are those of its first `m` actions. */
  predicate RanUpTo(c: D.Cycle, m: nat) {
    m <= |c.decision.actions| && PlanRuns.Pos(c.decision.actions, m) == |c.result.records|
  }

  /** An accepted decision that the gate does not hold gets its worker. */
  lemma Joins(asked: bool, g: G.Sys, reg: Registry, d: Decision, first: bool) returns (g': G.Sys)
    requires G.Reachable(asked, g) && !G.CanRelease(g.gate) && IsTyped(d) && !G.NeedsApproval(g.gate, d)
    requires G.Accepted(reg, d, first)
    ensures G.Reachable(asked, g') && g'.process == g.process && g'.gate == g.gate
    ensures g'.workers == g.workers + [G.Worker(d, None, g.process, 0)]
  {
    g' := G.Reach(asked, g, G.DoDecide(reg, d, first));
  }

  /** The gate has no plan to release and lets the decision of cycle `k` through, which then ran its first `m` actions. */
  ghost predicate LetsThrough(gate: G.Gate, reg: Registry, k: nat, c: D.Cycle, m: nat) {
    && !G.CanRelease(gate) && IsTyped(c.decision) && !G.NeedsApproval(gate, c.decision)
    && RanUpTo(c, m)
    && (c.result.records != [] ==> G.Accepted(reg, c.decision, k + 1 == 1))
  }

  lemma Dispatches(asked: bool, g: G.Sys, reg: Registry, k: nat, c: D.Cycle, m: nat) returns (g': G.Sys)
    requires G.Reachable(asked, g) && LetsThrough(g.gate, reg, k, c, m)
    ensures GoesTo(asked, g, g') && g'.gate == g.gate && Shown(g'.workers, c, g.process)
  {
    g' := g;
    if c.result.records != [] {
      g' := Joins(asked, g, reg, c.decision, k + 1 == 1);
      g' := WorksCycle(asked, g', g.workers, G.Worker(c.decision, None, g.process, 0), m, c);
    }
  }

  /** The pending plan leaves the gate; `c` is its cycle, if the run came to one. */
  lemma Releases(asked: bool, g: G.Sys, c: Option<D.Cycle>, m: nat) returns (g': G.Sys)
    requires G.Reachable(asked, g) && G.CanRelease(g.gate)
    requires c.Some? ==> c.value.decision == g.gate.pending.value.decision && RanUpTo(c.value, m)
    ensures GoesTo(asked, g, g') && g'.gate == G.Release(g.gate)
    ensures c.Some? ==> Shown(g'.workers, c.value, g.process)
  {
    var plan := g.gate.pending.value;
    g' := G.Reach(asked, g, G.DoRelease);
    if c.Some? {
      g' := WorksCycle(asked, g', g.workers,
                       G.Worker(plan.decision, Some(G.Confirmed(plan, g.approvedAt, |g.log|)), g.process, 0), m, c.value);
    }
  }

  // ---- one message ---------------------------------------------------------------------------

  ghost predicate AllShown(workers: seq<G.Worker>, history: seq<D.Cycle>, n: nat, p: nat)
    requires n <= |history|
  {
    forall k | 0 <= k < n :: Shown(workers, history[k], p)
  }

  lemma AllStayShown(workers: seq<G.Worker>, workers': seq<G.Worker>, history: seq<D.Cycle>, n: nat, p: nat)
    requires n <= |history| && AllShown(workers, history, n, p) && workers <= workers'
    ensures AllShown(workers', history, n, p)
  {
    forall k | 0 <= k < n ensures Shown(workers', history[k], p) {
      StaysShown(workers, workers', history[k], p);
    }
  }

  /** The message itself: an approval is logged while a plan is pending. */
  lemma Arrives(asked: bool, g: G.Sys, c: Call) returns (g': G.Sys)
    requires G.Reachable(asked, g) && SameGate(c.gate, g.gate)
    ensures GoesTo(asked, g, g') && SameGate(Begins(c), g'.gate)
  {
    g' := G.Reach(asked, g, G.DoMessage(c.isApproval));
  }

  /** The confirmed plan, if the run released one. */
  lemma Goes(asked: bool, g: G.Sys, c: Call) returns (g': G.Sys)
    requires G.Reachable(asked, g) && SameGate(Begins(c), g.gate) && Promised(c)
    ensures GoesTo(asked, g, g') && SameGate(D.After(Begins(c), c.confirmed), g'.gate)
    ensures c.confirmed.Some? && c.history != [] ==> AllShown(g'.workers, c.history, 1, g.process)
  {
    g' := g;
    if c.confirmed.Some? {
      if c.history == [] {
        g' := Releases(asked, g, None, 0);
      } else {
        var m := CycleCount(c.o, c.task, Begins(c).required, c.confirmed, c.history, 0);
        FirstIsConfirmed(c);
        g' := Releases(asked, g, Some(c.history[0]), m);
      }
    }
  }

  lemma FirstIsConfirmed(c: Call)
    requires Promised(c) && c.confirmed.Some? && c.history != []
    ensures c.history[0].decision == c.confirmed.value
  {
    assert D.CycleOk(c.o, c.task, Begins(c).required, c.confirmed, c.history, 0);
  }

  /** At this gate, with this reasoner, the cycles that are no confirmed plan's were let through. */
  ghost predicate Proceeds(o: D.Oracles, task: string, confirmed: Option<Decision>, history: seq<D.Cycle>, gate: G.Gate) {
    && AnswersTyped(o) && D.Trail(o, task, gate.required, confirmed, history)
    && (history != [] ==> !G.CanRelease(gate))
  }

  lemma PromisedProceeds(c: Call, gate: G.Gate)
    requires Promised(c) && SameGate(D.After(Begins(c), c.confirmed), gate)
    ensures Proceeds(c.o, c.task, c.confirmed, c.history, gate)
  {
    assert Begins(c).required == gate.required;
  }

  lemma AnswerPasses(o: D.Oracles, task: string, confirmed: Option<Decision>, history: seq<D.Cycle>, gate: G.Gate, k: nat)
    requires Proceeds(o, task, confirmed, history, gate)
    requires k < |history| && !(k == 0 && confirmed.Some?)
    ensures IsTyped(history[k].decision) && !G.NeedsApproval(gate, history[k].decision)
  {
    assert D.CycleOk(o, task, gate.required, confirmed, history, k);
    var answer := o.decide(k + 1, D.Results(history[..k]));
    assert answer.Some? && IsTyped(answer.value);
  }

  lemma PassesWith(gate: G.Gate, reg: Registry, k: nat, c: D.Cycle, m: nat)
    requires !G.CanRelease(gate) && IsTyped(c.decision) && !G.NeedsApproval(gate, c.decision)
    requires RanUpTo(c, m)
    requires c.result.records != [] ==> G.Accepted(reg, c.decision, k + 1 == 1)
    ensures Passes(gate, reg, k, c)
  {
    assert LetsThrough(gate, reg, k, c, m);
  }

  /** What a cycle that is no confirmed plan's finds at the gate. */
  lemma AtTheGate(o: D.Oracles, task: string, confirmed: Option<Decision>, history: seq<D.Cycle>, gate: G.Gate, k: nat)
    requires Proceeds(o, task, confirmed, history, gate)
    requires k < |history| && !(k == 0 && confirmed.Some?)
    ensures Passes(gate, o.reg, k, history[k])
  {
    AnswerPasses(o, task, confirmed, history, gate, k);
    var m := CycleCount(o, task, gate.required, confirmed, history, k);
    PassesWith(gate, o.reg, k, history[k], m);
  }

  ghost predicate Passes(gate: G.Gate, reg: Registry, k: nat, c: D.Cycle) {
    exists m :: LetsThrough(gate, reg, k, c, m)
  }

  /** Every cycle from the `from`th on is let through. */
  ghost predicate AllPass(gate: G.Gate, reg: Registry, history: seq<D.Cycle>, from: nat) {
    forall k: nat | from <= k < |history| :: Passes(gate, reg, k, history[k])
  }

  lemma AllAtTheGate(c: Call, gate: G.Gate, from: nat)
    requires Promised(c) && SameGate(D.After(Begins(c), c.confirmed), gate)
    requires c.confirmed.Some? ==> from >= 1
    ensures AllPass(gate, c.o.reg, c.history, from)
  {
    PromisedProceeds(c, gate);
    forall k: nat | from <= k < |c.history| ensures Passes(gate, c.o.reg, k, c.history[k]) {
      AtTheGate(c.o, c.task, c.confirmed, c.history, gate, k);
    }
  }

  /** The first `n` cycles; the first `from` of them have been run. */
  lemma {:induction false} Cycles(asked: bool, g: G.Sys, reg: Registry, history: seq<D.Cycle>, from: nat, n: nat) returns (g': G.Sys)
    requires G.Reachable(asked, g) && AllPass(g.gate, reg, history, from)
    requires n <= |history| && AllShown(g.workers, history, if from <= n then from else n, g.process)
    ensures GoesTo(asked, g, g') && g'.gate == g.gate && AllShown(g'.workers, history, n, g.process)
  {
    g' := g;
    if from < n {
      var before := Cycles(asked, g, reg, history, from, n - 1);
      assert Passes(g.gate, reg, n - 1, history[n - 1]);
      var m :| LetsThrough(g.gate, reg, n - 1, history[n - 1], m);
      g' := Dispatches(asked, before, reg, n - 1, history[n - 1], m);
      AllStayShown(before.workers, g'.workers, history, n - 1, g.process);
    }
  }

  /** A run that waits has paused on its plan. */
  lemma Leaves(asked: bool, g: G.Sys, c: Call) returns (g': G.Sys)
    requires G.Reachable(asked, g) && SameGate(D.After(Begins(c), c.confirmed), g.gate) && Promised(c)
    ensures GoesTo(asked, g, g') && SameGate(c.gate', g'.gate)
  {
    g' := g;
    if c.ending == D.Waits {
      g' := G.Reach(asked, g, G.DoDecide(c.o.reg, c.gate'.pending.value.decision, |c.history| == 0));
    }
  }

  /** Processing one message is a run of the protocol. */
  lemma CallIsAGateRun(asked: bool, g: G.Sys, c: Call) returns (g': G.Sys)
    requires G.Reachable(asked, g) && SameGate(c.gate, g.gate) && Promised(c)
    ensures GoesTo(asked, g, g') && SameGate(c.gate', g'.gate)
    ensures AllShown(g'.workers, c.history, |c.history|, g.process)
  {
    var g1 := Arrives(asked, g, c);
    var g2 := Goes(asked, g1, c);
    var from := if c.confirmed.Some? then 1 else 0;
    AllAtTheGate(c, g2.gate, from);
    var g3 := Cycles(asked, g2, c.o.reg, c.history, from, |c.history|);
    g' := Leaves(asked, g3, c);
    AllStayShown(g3.workers, g'.workers, c.history, |c.history|, g.process);
  }

  // ---- all messages ----------------------------------------------------------------------------

  /** Every step there is a record of, in every message, was run by a worker of its process. */
  ghost predicate ShowsLinks(workers: seq<G.Worker>, links: seq<Link>) {
    forall i | 0 <= i < |links| && links[i].Called? ::
      AllShown(workers, links[i].call.history, |links[i].call.history|, Restarts(links[..i]))
  }

  lemma {:induction false} ShowsMore(workers: seq<G.Worker>, workers': seq<G.Worker>, links: seq<Link>, link: Link)
    requires ShowsLinks(workers, links) && workers <= workers'
    requires link.Called? ==> AllShown(workers', link.call.history, |link.call.history|, Restarts(links))
    ensures ShowsLinks(workers', links + [link])
  {
    var more := links + [link];
    assert more[..|links|] == links;
    forall i | 0 <= i < |more| && more[i].Called?
      ensures AllShown(workers', more[i].call.history, |more[i].call.history|, Restarts(more[..i]))
    {
      if i < |links| {
        assert more[..i] == links[..i];
        AllStayShown(workers, workers', links[i].call.history, |links[i].call.history|, Restarts(links[..i]));
      }
    }
  }

  lemma ChainBefore(asked: bool, links: seq<Link>, n: nat)
    requires Chain(asked, links) && n <= |links|
    ensures Chain(asked, links[..n])
  {
    forall i | 0 <= i < n && links[..n][i].Called?
      ensures links[..n][i].call.gate == GateAfter(asked, links[..n][..i]) && Promised(links[..n][i].call)
    {
      assert links[..n][..i] == links[..i];
    }
  }

  lemma OneMoreLink(asked: bool, g: G.Sys, links: seq<Link>, link: Link) returns (g': G.Sys)
    requires G.Reachable(asked, g) && g.process == Restarts(links) && SameGate(GateAfter(asked, links), g.gate)
    requires ShowsLinks(g.workers, links)
    requires link.Called? ==> link.call.gate == GateAfter(asked, links) && Promised(link.call)
    ensures G.Reachable(asked, g') && g'.process == Restarts(links + [link])
    ensures SameGate(GateAfter(asked, links + [link]), g'.gate) && ShowsLinks(g'.workers, links + [link])
  {
    assert (links + [link])[..|links|] == links;
    if link.Called? {
      g' := CallIsAGateRun(asked, g, link.call);
    } else {
      g' := G.Reach(asked, g, G.DoRestart);
    }
    ShowsMore(g.workers, g'.workers, links, link);
  }

  /** An agent's messages, in any number and with restarts anywhere between them, are a run of the
      protocol that ends at the same gate and in which workers run exactly the recorded steps. */
  lemma {:induction false} HistoryIsAGateRun(asked: bool, links: seq<Link>) returns (g: G.Sys)
    requires Chain(asked, links)
    ensures G.Reachable(asked, g) && g.process == Restarts(links) && SameGate(GateAfter(asked, links), g.gate)
    ensures ShowsLinks(g.workers, links)
    decreases |links|
  {
    if links == [] {
      assert G.Run(G.Init(asked), [], G.Init(asked));
      g := G.Init(asked);
    } else {
      var before, link := links[..|links| - 1], links[|links| - 1];
      ChainBefore(asked, links, |links| - 1);
      var g0 := HistoryIsAGateRun(asked, before);
      assert link.Called? ==> link.call.gate == GateAfter(asked, before) && Promised(link.call);
      g := OneMoreLink(asked, g0, before, link);
      assert before + [link] == links;
    }
  }

  /** So in the process that initialised an agent to plan first, whatever its messages: a cycle that has
      run any step ran a plan that was checked and paused on, confirmed while it was the one pending, and released. */
  lemma EveryCycleWasConfirmed(links: seq<Link>, i: nat, k: nat) returns (g: G.Sys, confirmed: G.Confirmed)
    requires Chain(true, links) && i < |links| && links[i].Called? && Restarts(links[..i]) == 0
    requires k < |links[i].call.history| && links[i].call.history[k].result.records != []
    ensures G.Reachable(true, g) && SameGate(GateAfter(true, links), g.gate)
    ensures G.WasConfirmed(g.log, confirmed) && confirmed.plan.decision == links[i].call.history[k].decision
  {
    g := HistoryIsAGateRun(true, links);
    var c := links[i].call.history[k];
    assert AllShown(g.workers, links[i].call.history, |links[i].call.history|, 0);
    assert Shown(g.workers, c, 0);
    var w :| 0 <= w < |g.workers| && ShownBy(g.workers[w], c, 0);
    G.InvReachable(true, g);
    assert G.WorkerOk(g.asked, g.process, g.log, g.workers[w]);
    confirmed := g.workers[w].from.value;
  }
}
