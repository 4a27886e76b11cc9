/**
  What a pause holds back besides new runs: `start` asks before anything, so while the runtime
  is paused no agent gets a consumer, and a message that is no new run - a delegated prompt, a
  stop's record, a chat, an approval - waits with the rest unless a consumer is there already.
*/
module InboxHeld {
  import opened Basics
  import opened InboxMemory
  import opened InboxProtocol
  import opened InboxInvariants
  import opened InboxWaiters
  import opened InboxTheorems

  /** A goroutine passed the hold check of `start` and will take the flag if it is free. */
  ghost predicate StartUnderWay(s: Sys) {
    exists t :: t in s.threads && s.threads[t].AtTestAndSet?
  }

  /** This consumer claims again, or has in hand what it will run. */
  predicate WillClaim(m: Mem, pc: Pc) {
    if pc.AtHoldCheck? then pc.id in m.rows && !IsNewRun(m.rows[pc.id].kind)
    else IsConsumer(pc) && !pc.AtPutBack? && !pc.AtEndDrain?
  }

  ghost predicate SomebodyWillClaim(s: Sys) {
    (Consumer(s).Some? && WillClaim(s.mem, Consumer(s).value)) || StartUnderWay(s)
  }

  predicate PastTheCheck(c: Option<Pc>, id: MsgId) {
    c.Some? && (c.value.AtTakeWaiter? || c.value.AtHandle? || c.value.Handling?) && c.value.id == id
  }

  /** An open new run stands before `id` that the pause will hold back. */
  ghost predicate RunAhead(rows: Rows, c: Option<Pc>, id: MsgId) {
    exists j: MsgId :: j < id && IsOpen(rows, j) && IsNewRun(rows[j].kind) && !PastTheCheck(c, j)
  }

  /** While the pause lasts this message can still be handed over. */
  ghost predicate CanGetThrough(s: Sys, id: MsgId) {
    SomebodyWillClaim(s) && !RunAhead(s.mem.rows, Consumer(s), id)
  }

  predicate NoNewRun(rows: Rows, id: MsgId) {
    IsOpen(rows, id) && !IsNewRun(rows[id].kind)
  }

  // ---- what stays blocked ----------------------------------------------------------------

  lemma NobodyStaysDrain(s: Sys, t: Tid, a: DrainAction)
    requires DrainEnabled(s, t, a) && OneConsumer(s) && s.mem.paused && !SomebodyWillClaim(s)
    ensures !SomebodyWillClaim(ApplyDrain(s, t, a)) && ApplyDrain(s, t, a).hist.handled == s.hist.handled
  {
    var s' := ApplyDrain(s, t, a);
    OneConsumerDrain(s, t, a);
    forall u | u in s'.threads ensures !s'.threads[u].AtTestAndSet? {
      assert u != t ==> s.threads[u] == s'.threads[u];
    }
  }

  lemma NobodyStaysStart(s: Sys, t: Tid, a: StartAction)
    requires StartEnabled(s, t, a) && OneConsumer(s) && s.mem.paused && !a.DoEndPause? && !SomebodyWillClaim(s)
    requires Ordered(s)
    ensures !SomebodyWillClaim(ApplyStart(s, t, a)) && ApplyStart(s, t, a).hist.handled == s.hist.handled
  {
    var s' := ApplyStart(s, t, a);
    StartConsumer(s, t, a);
    StartMemory(s, t, a);
    assert !a.DoTestAndSet?;
    forall u | u in s'.threads ensures !s'.threads[u].AtTestAndSet? {
      assert u != t ==> s.threads[u] == s'.threads[u];
    }
  }

  lemma NobodyStays(s: Sys, step: Step)
    requires Enabled(s, step) && OneConsumer(s) && Ordered(s) && s.mem.paused && KeepsPause(step) && !SomebodyWillClaim(s)
    ensures !SomebodyWillClaim(Apply(s, step)) && Apply(s, step).hist.handled == s.hist.handled
  {
    match step
    case Start(t, a) => NobodyStaysStart(s, t, a);
    case Drain(t, a) => NobodyStaysDrain(s, t, a);
    case Outside(a) => assert Consumer(ApplyOutside(s, a)) == Consumer(s);
  }

  /** With nobody there to claim, a pause stops everything: whatever kind it is, no message is handed
      over until the pause ends. */
  lemma {:induction false} APauseStopsAnIdleAgent(s: Sys, steps: seq<Step>, s': Sys)
    requires Inv(s) && s.mem.paused && !SomebodyWillClaim(s) && StaysPaused(steps) && Run(s, steps, s')
    ensures s'.hist.handled == s.hist.handled && !SomebodyWillClaim(s')
    decreases |steps|
  {
    if steps != [] {
      InvStep(s, steps[0]);
      PausedStays(s, steps[0]);
      NobodyStays(s, steps[0]);
      APauseStopsAnIdleAgent(Apply(s, steps[0]), steps[1..], s');
    }
  }

  lemma AheadStaysDrain(m: Mem, h: History, pc: Pc, a: DrainAction, j: MsgId)
    requires Fits(m, pc, a) && m.paused && RowsOwned(m, Some(pc), h)
    requires IsOpen(m.rows, j) && IsNewRun(m.rows[j].kind) && !PastTheCheck(Some(pc), j)
    ensures IsOpen(NextMem(m, pc, a).rows, j) && NextMem(m, pc, a).rows[j].kind == m.rows[j].kind
    ensures !PastTheCheck(if a.DoEndDrain? then None else Some(NextPc(m, h, pc, a)), j)
  {
  }

  lemma AheadStays(s: Sys, step: Step, id: MsgId)
    requires Enabled(s, step) && OneConsumer(s) && Ordered(s) && s.mem.paused && KeepsPause(step)
    requires RunAhead(s.mem.rows, Consumer(s), id)
    ensures RunAhead(Apply(s, step).mem.rows, Consumer(Apply(s, step)), id)
  {
    var s' := Apply(s, step);
    var j: MsgId :| j < id && IsOpen(s.mem.rows, j) && IsNewRun(s.mem.rows[j].kind) && !PastTheCheck(Consumer(s), j);
    match step
    case Start(t, a) =>
      StartConsumer(s, t, a);
      StartMemory(s, t, a);
      assert IsOpen(s'.mem.rows, j) && !PastTheCheck(Consumer(s'), j);
    case Drain(t, a) =>
      OneConsumerDrain(s, t, a);
      AheadStaysDrain(s.mem, s.hist, s.threads[t], a, j);
      assert IsOpen(s'.mem.rows, j) && !PastTheCheck(Consumer(s'), j);
    case Outside(a) =>
      RowsMoveOutside(s, a);
      assert IsOpen(s'.mem.rows, j) && !PastTheCheck(Consumer(s'), j);
  }

  lemma {:induction false} BlockedStays(s: Sys, steps: seq<Step>, s': Sys, id: MsgId)
    requires Inv(s) && s.mem.paused && StaysPaused(steps) && Run(s, steps, s') && !CanGetThrough(s, id)
    ensures Inv(s') && !CanGetThrough(s', id)
    decreases |steps|
  {
    if steps != [] {
      InvStep(s, steps[0]);
      PausedStays(s, steps[0]);
      if RunAhead(s.mem.rows, Consumer(s), id) {
        AheadStays(s, steps[0], id);
      } else {
        NobodyStays(s, steps[0]);
      }
      BlockedStays(Apply(s, steps[0]), steps[1..], s', id);
    }
  }

  // ---- what gets through -------------------------------------------------------------------

  /** The next section of a consumer; `next` is the message it would claim. */
  function NextAction(pc: Pc, next: MsgId): DrainAction
    requires IsConsumer(pc)
  {
    match pc
    case AtTakeReclaim(_) => DoTakeReclaim
    case AtRequeueRunning(_) => DoRequeueRunning
    case AtClaim(_) => DoClaim(Some(next))
    case AtHoldCheck(_, _) => DoHoldCheck
    case AtPutBack(_, _) => DoPutBack
    case AtTakeWaiter(_, _, _) => DoTakeWaiter
    case AtHandle(_, _, _, _) => DoHandle
    case Handling(_, _, _) => DoFinish(false, false)
    case AtDryCheck(_, _) => DoDryCheck
    case AtDeliver(_, _) => DoDeliver
    case _ => DoEndDrain
  }

  /** How far a consumer is from handing over the next message. */
  function Rank(c: Option<Pc>): nat {
    match c
    case None => 12
    case Some(AtPutBack(_, _)) => 14
    case Some(AtEndDrain(_, _, _)) => 13
    case Some(AtTakeReclaim(_)) => 11
    case Some(AtRequeueRunning(_)) => 10
    case Some(AtDryCheck(_, _)) => 9
    case Some(AtDeliver(_, _)) => 8
    case Some(AtClaim(_)) => 7
    case Some(AtHoldCheck(_, _)) => 6
    case Some(AtTakeWaiter(_, _, _)) => 5
    case Some(AtHandle(_, _, _, _)) => 4
    case Some(_) => 3
  }

  /** Nothing was handed over yet, and nothing is in the way. */
  ghost predicate OnTheWay(m: Mem, c: Option<Pc>, id: MsgId) {
    && m.paused && NoNewRun(m.rows, id) && !RunAhead(m.rows, c, id)
    && (c.Some? ==> !(c.value.Handling? && c.value.id == id))
  }

  lemma OpenIsQueued(m: Mem, h: History, pc: Pc, id: MsgId)
    requires RowsOwned(m, Some(pc), h) && (pc.AtClaim? || pc.AtDryCheck?) && IsOpen(m.rows, id)
    ensures IsQueued(m.rows, id)
  {
  }

  lemma HeldIsNext(m: Mem, h: History, pc: Pc, id: MsgId)
    requires RowsOwned(m, Some(pc), h) && OnTheWay(m, Some(pc), id) && pc.AtHoldCheck?
    ensures pc.id in m.rows && !IsNewRun(m.rows[pc.id].kind)
  {
    assert IsOpen(m.rows, pc.id) && pc.id <= id;
    assert !PastTheCheck(Some(pc), pc.id);
  }

  lemma ActionFits(m: Mem, h: History, pc: Pc, id: MsgId) returns (a: DrainAction)
    requires RowsOwned(m, Some(pc), h) && IsConsumer(pc) && OnTheWay(m, Some(pc), id)
    ensures Fits(m, pc, a) && (exists next :: a == NextAction(pc, next)) && (pc.AtClaim? ==> a.DoClaim? && a.found.Some?)
  {
    var next := id;
    if pc.AtClaim? {
      OpenIsQueued(m, h, pc, id);
      next := OldestQueued(m.rows, id);
    }
    a := NextAction(pc, next);
  }

  lemma OldestQueued(rows: Rows, id: MsgId) returns (next: MsgId)
    requires IsQueued(rows, id)
    ensures IsNextClaim(rows, Some(next)) && next <= id
  {
    var queued := set j | j in rows && IsQueued(rows, j);
    LeastExists(queued, id);
    next :| next in queued && forall r | r in queued :: next <= r;
    forall j | IsQueued(rows, j) ensures next <= j {
      assert j in queued;
    }
  }

  /** A section of the consumer brings the message nearer, and nothing gets in its way. */
  lemma SectionAdvances(m: Mem, h: History, pc: Pc, a: DrainAction, id: MsgId)
    requires Fits(m, pc, a) && RowsOwned(m, Some(pc), h) && IsConsumer(pc) && OnTheWay(m, Some(pc), id)
    requires (exists next :: a == NextAction(pc, next)) && (pc.AtClaim? ==> a.found.Some?)
    requires !(pc.AtHandle? && pc.id == id)
    ensures var m', c' := NextMem(m, pc, a), if a.DoEndDrain? then None else Some(NextPc(m, h, pc, a));
            && NoNewRun(m'.rows, id) && m'.paused
            && (c'.Some? ==> !(c'.value.Handling? && c'.value.id == id))
            && (WillClaim(m, pc) ==> c'.Some? && WillClaim(m', c'.value))
            && (pc.Handling? || Rank(c') < Rank(Some(pc)))
  {
    if pc.AtHoldCheck? {
      HeldIsNext(m, h, pc, id);
    }
    if pc.AtDryCheck? {
      OpenIsQueued(m, h, pc, id);
    }
    if pc.AtClaim? {
      OpenIsQueued(m, h, pc, id);
      ClaimedIsNoNewRun(m, h, pc, a, id);
    }
  }

  lemma ClaimedIsNoNewRun(m: Mem, h: History, pc: Pc, a: DrainAction, id: MsgId)
    requires Fits(m, pc, a) && pc.AtClaim? && a.DoClaim? && a.found.Some? && OnTheWay(m, Some(pc), id) && IsQueued(m.rows, id)
    ensures a.found.value <= id && !IsNewRun(m.rows[a.found.value].kind)
  {
    var next := a.found.value;
    assert IsOpen(m.rows, next) && !PastTheCheck(Some(pc), next);
  }

  lemma NothingGetsInTheWay(m: Mem, h: History, pc: Pc, a: DrainAction, id: MsgId)
    requires Fits(m, pc, a) && RowsOwned(m, Some(pc), h) && IsConsumer(pc) && OnTheWay(m, Some(pc), id)
    requires !a.DoFinish? || a == DoFinish(false, false)
    ensures !RunAhead(NextMem(m, pc, a).rows, if a.DoEndDrain? then None else Some(NextPc(m, h, pc, a)), id)
  {
    var rows', c' := NextMem(m, pc, a).rows, if a.DoEndDrain? then None else Some(NextPc(m, h, pc, a));
    forall j: MsgId | j < id && IsOpen(rows', j) && IsNewRun(rows'[j].kind) ensures PastTheCheck(c', j) {
      assert IsOpen(m.rows, j) && IsNewRun(m.rows[j].kind);
      assert PastTheCheck(Some(pc), j);
    }
  }

  lemma {:induction false} FreshTid(used: set<nat>) returns (u: nat)
    ensures forall x | x in used :: x < u
    decreases used
  {
    if used == {} {
      u := 0;
    } else {
      var x :| x in used;
      var v := FreshTid(used - {x});
      u := if v <= x then x + 1 else v;
      assert forall y | y in used :: y == x || y in used - {x};
    }
  }

  lemma CanDeliverNow(s: Sys, t: Tid, a: DrainAction)
    requires Inv(s) && t in s.threads && Fits(s.mem, s.threads[t], a)
    ensures DrainEnabled(s, t, a)
  {
    if a.DoDeliver? {
      assert CarriedBy(s.threads, t, s.threads[t].id);
    }
  }

  /** The consumer takes its next section. */
  lemma ConsumerAdvances(s: Sys, id: MsgId) returns (step: Step, s': Sys)
    requires Reachable(s) && OnTheWay(s.mem, Consumer(s), id) && SomebodyWillClaim(s)
    requires Consumer(s).Some? && !(Consumer(s).value.AtHandle? && Consumer(s).value.id == id)
    ensures Enabled(s, step) && KeepsPause(step) && s' == Apply(s, step) && Reachable(s')
    ensures OnTheWay(s'.mem, Consumer(s'), id) && SomebodyWillClaim(s')
    ensures Ahead(s'.mem.rows, id) < Ahead(s.mem.rows, id) ||
            (Ahead(s'.mem.rows, id) == Ahead(s.mem.rows, id) && Rank(Consumer(s')) < Rank(Consumer(s)))
  {
    InvReachable(s);
    var t, pc := s.hist.owner.value, Consumer(s).value;
    var a := ActionFits(s.mem, s.hist, pc, id);
    CanDeliverNow(s, t, a);
    step := Drain(t, a);
    Reach(s, step);
    s' := Apply(s, step);
    OneConsumerDrain(s, t, a);
    SectionAdvances(s.mem, s.hist, pc, a, id);
    NothingGetsInTheWay(s.mem, s.hist, pc, a, id);
    AheadStep(s, step, id);
    ClaimGoesOn(s, t, a);
  }

  lemma ClaimGoesOn(s: Sys, t: Tid, a: DrainAction)
    requires DrainEnabled(s, t, a) && OneConsumer(s) && SomebodyWillClaim(s) && Consumer(s) == Some(s.threads[t])
    requires WillClaim(s.mem, s.threads[t]) ==>
               Consumer(ApplyDrain(s, t, a)).Some? && WillClaim(NextMem(s.mem, s.threads[t], a), Consumer(ApplyDrain(s, t, a)).value)
    ensures SomebodyWillClaim(ApplyDrain(s, t, a))
  {
    if !WillClaim(s.mem, s.threads[t]) {
      var u :| u in s.threads && s.threads[u].AtTestAndSet?;
      assert u in ApplyDrain(s, t, a).threads && ApplyDrain(s, t, a).threads[u].AtTestAndSet?;
    }
  }

  /** A start that is under way takes the flag. */
  lemma StartAdvances(s: Sys, id: MsgId) returns (step: Step, s': Sys)
    requires Reachable(s) && OnTheWay(s.mem, Consumer(s), id) && SomebodyWillClaim(s) && Consumer(s) == None
    ensures Enabled(s, step) && KeepsPause(step) && s' == Apply(s, step) && Reachable(s')
    ensures OnTheWay(s'.mem, Consumer(s'), id) && SomebodyWillClaim(s')
    ensures Ahead(s'.mem.rows, id) == Ahead(s.mem.rows, id) && Rank(Consumer(s')) < Rank(Consumer(s))
  {
    InvReachable(s);
    var t :| t in s.threads && s.threads[t].AtTestAndSet?;
    var u := FreshTid(s.threads.Keys);
    step := Start(t, DoTestAndSet(u));
    Reach(s, step);
    s' := Apply(s, step);
    StartConsumer(s, t, DoTestAndSet(u));
    StartMemory(s, t, DoTestAndSet(u));
    assert forall j: MsgId :: PastTheCheck(Consumer(s'), j) == PastTheCheck(Consumer(s), j);
  }

  /** `steps` leads from `s` to where `id` is about to be handed over, and the pause lasts throughout. */
  ghost predicate LeadsTo(s: Sys, steps: seq<Step>, s': Sys, t: Tid, id: MsgId) {
    Run(s, steps, s') && StaysPaused(steps) && DrainEnabled(s', t, DoHandle) && s'.threads[t].id == id
  }

  lemma {:induction false} GetsThrough(s: Sys, id: MsgId) returns (steps: seq<Step>, s': Sys, t: Tid)
    requires Reachable(s) && OnTheWay(s.mem, Consumer(s), id) && SomebodyWillClaim(s)
    ensures LeadsTo(s, steps, s', t, id)
    decreases Ahead(s.mem.rows, id), Rank(Consumer(s))
  {
    InvReachable(s);
    if Consumer(s).Some? && Consumer(s).value.AtHandle? && Consumer(s).value.id == id {
      steps, s', t := [], s, s.hist.owner.value;
    } else {
      var step, s1;
      if Consumer(s).Some? {
        step, s1 := ConsumerAdvances(s, id);
      } else {
        step, s1 := StartAdvances(s, id);
      }
      var rest;
      rest, s', t := GetsThrough(s1, id);
      steps := [step] + rest;
      assert steps[0] == step && steps[1..] == rest;
    }
  }

  lemma AboutToBeHanded(s: Sys, t: Tid, id: MsgId)
    requires Inv(s) && DrainEnabled(s, t, DoHandle) && s.threads[t].id == id
    ensures CanGetThrough(s, id)
  {
    OneConsumerDrain(s, t, DoHandle);
  }

  /** What a pause does to a message that starts no new run - a delegated prompt among them: it is still
      handed over while the pause lasts, in some run, if and only if a consumer is there that claims again
      (or a start has passed its hold check), and no new run the pause holds back stands before it. */
  lemma HeldUnlessAConsumerIsThere(s: Sys, id: MsgId)
    requires Reachable(s) && s.mem.paused && NoNewRun(s.mem.rows, id) && !InHandler(Consumer(s), id)
    ensures (exists steps, s', t :: LeadsTo(s, steps, s', t, id)) <==> CanGetThrough(s, id)
  {
    InvReachable(s);
    if CanGetThrough(s, id) {
      var steps, s', t := GetsThrough(s, id);
    }
    if exists steps, s', t :: LeadsTo(s, steps, s', t, id) {
      var steps, s', t :| LeadsTo(s, steps, s', t, id);
      InvRun(s, steps, s');
      AboutToBeHanded(s', t, id);
      if !CanGetThrough(s, id) {
        BlockedStays(s, steps, s', id);
      }
    }
  }

  lemma PausedAndIdle() returns (s: Sys)
    ensures Reachable(s) && s.mem == FRESH.(paused := true) && s.threads == map[] && s.hist.owner == None
  {
    assert Run(INIT, [], INIT);
    Reach(INIT, Outside(DoBeginPause));
    s := Apply(INIT, Outside(DoBeginPause));
  }

  lemma DelegationArrives(s: Sys) returns (s': Sys)
    requires Reachable(s) && s.mem == FRESH.(paused := true) && s.threads == map[] && s.hist.owner == None
    ensures Reachable(s') && s'.mem.paused && s'.threads == map[0 := AtHoldStart(None)] && s'.hist.owner == None
    ensures s'.mem.rows == map[0 := Row(Delegation, Queued)]
  {
    Reach(s, Start(0, DoEnqueue(Delegation, true)));
    s' := Apply(s, Start(0, DoEnqueue(Delegation, true)));
  }

  /** A delegation to an idle worker arrives while the runtime is paused: it is accepted, its agent is
      remembered, and nobody will run it before the pause ends. */
  lemma ADelegationIsHeld() returns (s: Sys)
    ensures Reachable(s) && s.mem.paused && s.mem.held && s.mem.rows == map[0 := Row(Delegation, Queued)]
    ensures NoNewRun(s.mem.rows, 0) && !SomebodyWillClaim(s)
    ensures forall steps, s' :: StaysPaused(steps) && Run(s, steps, s') ==> s'.hist.handled == s.hist.handled
  {
    var s1 := PausedAndIdle();
    var s2 := DelegationArrives(s1);
    Reach(s2, Start(0, DoHoldStart));
    s := Apply(s2, Start(0, DoHoldStart));
    assert Consumer(s) == None && s.threads == map[];
    InvReachable(s);
    forall steps, s' | StaysPaused(steps) && Run(s, steps, s') ensures s'.hist.handled == s.hist.handled {
      APauseStopsAnIdleAgent(s, steps, s');
    }
  }
}
