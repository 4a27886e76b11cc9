/** What holds of every run of the inbox protocol. */
module InboxTheorems {
  import opened Basics
  import opened InboxMemory
  import opened InboxProtocol
  import opened InboxInvariants
  import opened InboxWaiters

  ghost predicate Inv(s: Sys) {
    && OneConsumer(s)
    && Ordered(s)
    && Covered(s)
    && LapseIsReal(s)
    && HeldIsOwed(s)
    && Admitted(s.mem, Consumer(s), s.hist)
    && Waits(s)
    && WaitIsKnown(s)
  }

  lemma InvStep(s: Sys, step: Step)
    requires Enabled(s, step) && Inv(s)
    ensures Inv(Apply(s, step))
  {
    OneConsumerStep(s, step);
    HeldIsOwedStep(s, step);
    AdmittedStep(s, step);
    WaitIsKnownStep(s, step);
    match step
    case Start(t, a) =>
      OrderedStart(s, t, a);
      CoveredStart(s, t, a);
      LapseStart(s, t, a);
      WaitsStart(s, t, a);
    case Drain(t, a) =>
      OrderedDrain(s, t, a);
      CoveredDrain(s, t, a);
      LapseDrain(s, t, a);
      WaitsDrain(s, t, a);
    case Outside(a) =>
      OrderedOutside(s, a);
      CoveredOutside(s, a);
      LapseOutside(s, a);
      WaitsOutside(s, a);
  }

  lemma {:induction false} InvRun(s: Sys, steps: seq<Step>, s': Sys)
    requires Inv(s) && Run(s, steps, s')
    ensures Inv(s')
    decreases |steps|
  {
    if steps != [] {
      InvStep(s, steps[0]);
      InvRun(Apply(s, steps[0]), steps[1..], s');
    }
  }

  lemma InvReachable(s: Sys)
    requires Reachable(s)
    ensures Inv(s)
  {
    var steps :| Run(INIT, steps, s);
    InvRun(INIT, steps, s);
  }

  // ---- one consumer, in order ------------------------------------------------------

  /** However many goroutines call `start`, at most one drains, and it drains exactly while the flag is set. */
  lemma AtMostOneConsumer(s: Sys)
    requires Reachable(s)
    ensures forall t, u | t in s.threads && u in s.threads && IsConsumer(s.threads[t]) && IsConsumer(s.threads[u]) :: t == u
    ensures s.mem.running <==> exists t :: t in s.threads && IsConsumer(s.threads[t])
  {
    InvReachable(s);
  }

  /** Within a process messages are handed over in strictly increasing order; across crashes the
      order never goes back, and a message comes again only if a crash left it running. */
  lemma HandedOverInOrder(s: Sys, i: nat, k: nat)
    requires Reachable(s) && i < k < |s.hist.handled|
    ensures s.hist.handled[i] <= s.hist.handled[k]
    ensures s.hist.handled[i] == s.hist.handled[k] ==> i < s.hist.base && s.hist.handled[i] in s.hist.cut
  {
    InvReachable(s);
  }

  /** A process takes back the claims of the one before it at most once, before its own first
      claim, and while no goroutine holds a message: it never takes back a live claim. */
  lemma ReclaimTakesNoLiveClaim(s: Sys, t: Tid)
    requires Reachable(s) && DrainEnabled(s, t, DoRequeueRunning)
    ensures s.hist.claims == 0 && s.hist.reclaims == 0
    ensures forall u | u in s.threads :: Holds(Some(s.threads[u])) == None
  {
    InvReachable(s);
    OneConsumerDrain(s, t, DoRequeueRunning);
  }

  /** A held message keeps its place: put back, it is the very next one to be claimed. */
  lemma PutBackKeepsThePlace(s: Sys, t: Tid, found: Option<MsgId>)
    requires Reachable(s) && DrainEnabled(s, t, DoPutBack)
    ensures var rows := ApplyDrain(s, t, DoPutBack).mem.rows;
            IsNextClaim(rows, found) <==> found == Some(s.threads[t].id)
  {
    InvReachable(s);
    OneConsumerDrain(s, t, DoPutBack);
    var id, rows := s.threads[t].id, ApplyDrain(s, t, DoPutBack).mem.rows;
    assert IsQueued(rows, id);
    forall j | IsQueued(rows, j) ensures id <= j {
      assert IsOpen(s.mem.rows, j);
    }
  }

  /** A message ends as its handler answered, and no other row moves. */
  lemma EndsAsAnswered(s: Sys, t: Tid, failed: bool, cancelled: bool)
    requires Reachable(s) && DrainEnabled(s, t, DoFinish(failed, cancelled))
    ensures var id, rows := s.threads[t].id, ApplyDrain(s, t, DoFinish(failed, cancelled)).mem.rows;
            && (rows[id].status == Done <==> !failed)
            && (rows[id].status == Stopped <==> failed && cancelled)
            && (rows[id].status == Failed <==> failed && !cancelled)
            && rows.Keys == s.mem.rows.Keys && forall j | j in rows && j != id :: rows[j] == s.mem.rows[j]
  {
  }

  /** A claimed message is put back exactly if the runtime is paused and it is an instruction or an observation. */
  lemma HeldByKind(s: Sys, t: Tid)
    requires Reachable(s) && DrainEnabled(s, t, DoHoldCheck)
    ensures var kind := s.mem.rows[s.threads[t].id].kind;
            ApplyDrain(s, t, DoHoldCheck).threads[t].AtPutBack? <==> s.mem.paused && (kind == Instruction || kind == Observation)
  {
  }

  // ---- nobody is forgotten -------------------------------------------------------------

  predicate Quiescent(s: Sys) {
    s.threads == map[] && !s.mem.paused
  }

  /** When everything has come to rest, a started agent has an open message left exactly if its
      latest start lapsed: it met a consumer that was leaving with a held message. */
  lemma StrandedExactlyWhenLapsed(s: Sys)
    requires Reachable(s) && Quiescent(s) && s.hist.started
    ensures AnyOpen(s.mem.rows) <==> s.hist.lapsed
  {
    InvReachable(s);
  }

  /** In any state, an open message of a started agent is looked after, or its start has lapsed. */
  lemma NoMessageForgotten(s: Sys)
    requires Reachable(s) && s.hist.started && AnyOpen(s.mem.rows) && !s.hist.lapsed
    ensures s.mem.held || StartPending(s) ||
            exists t :: t in s.threads && IsConsumer(s.threads[t]) &&
              (s.threads[t].gen < s.mem.gen || !(s.threads[t].AtPutBack? || s.threads[t].AtEndDrain?))
    ensures s.mem.held ==> s.mem.paused || exists t :: t in s.threads && s.threads[t].AtSwapHeld?
  {
    InvReachable(s);
    if Consumer(s).Some? {
      var t := s.hist.owner.value;
      assert t in s.threads && IsConsumer(s.threads[t]);
    }
  }

  lemma {:induction false} RunSnoc(s: Sys, steps: seq<Step>, s': Sys, step: Step)
    requires Run(s, steps, s') && Enabled(s', step)
    ensures Run(s, steps + [step], Apply(s', step))
    decreases |steps|
  {
    if steps == [] {
      assert [step][1..] == [];
    } else {
      assert (steps + [step])[0] == steps[0] && (steps + [step])[1..] == steps[1..] + [step];
      RunSnoc(Apply(s, steps[0]), steps[1..], s', step);
    }
  }

  lemma Reach(s: Sys, step: Step)
    requires Reachable(s) && Enabled(s, step)
    ensures Reachable(Apply(s, step))
  {
    var steps :| Run(INIT, steps, s);
    RunSnoc(INIT, steps, s, step);
    assert Run(INIT, steps + [step], Apply(s, step));
  }

  /** The consumer `c` stands alone at the hold check of a new run, and nothing was enqueued since it started. */
  ghost predicate AloneAtTheCheck(s: Sys, c: Tid, id: MsgId) {
    && s.threads == map[c := AtHoldCheck(s.mem.gen, id)]
    && s.hist.owner == Some(c) && s.mem.running && !s.mem.paused
    && id in s.mem.rows && IsNewRun(s.mem.rows[id].kind)
  }

  /** It put its message back on account of a pause, and a start during that pause's end was lost. */
  ghost predicate LeftBehind(s: Sys, c: Tid, id: MsgId) {
    && s.threads == map[c := AtPutBack(s.mem.gen, id)]
    && s.hist.owner == Some(c) && s.mem.running && !s.mem.paused && s.hist.started && s.hist.lapsed
    && id in s.mem.rows
  }

  /** A pause that begins before the hold check and ends after it: its `resumePaused` starts the
      agent while the consumer that is leaving still holds the flag. */
  lemma PauseEndsInTheWindow(s: Sys, c: Tid, id: MsgId) returns (s': Sys)
    requires Reachable(s) && AloneAtTheCheck(s, c, id)
    ensures Reachable(s') && LeftBehind(s', c, id) && s'.mem.rows == s.mem.rows
  {
    var u := c + 1;
    Reach(s, Outside(DoBeginPause));
    var s1 := Apply(s, Outside(DoBeginPause));
    Reach(s1, Drain(c, DoHoldCheck));
    var s2 := Apply(s1, Drain(c, DoHoldCheck));
    Reach(s2, Start(u, DoEndPause));
    var s3 := Apply(s2, Start(u, DoEndPause));
    s' := StartIsLost(s3, c, u, id);
  }

  lemma StartIsLost(s: Sys, c: Tid, u: Tid, id: MsgId) returns (s': Sys)
    requires Reachable(s) && u != c && s.threads == map[c := AtPutBack(s.mem.gen, id), u := AtSwapHeld]
    requires s.hist.owner == Some(c) && s.mem.running && s.mem.held && !s.mem.paused && id in s.mem.rows
    ensures Reachable(s') && LeftBehind(s', c, id) && s'.mem.rows == s.mem.rows
  {
    Reach(s, Start(u, DoSwapHeld));
    var s1 := Apply(s, Start(u, DoSwapHeld));
    Reach(s1, Start(u, DoHoldStart));
    var s2 := Apply(s1, Start(u, DoHoldStart));
    var w := c + u + 1;
    Reach(s2, Start(u, DoTestAndSet(w)));
    s' := Apply(s2, Start(u, DoTestAndSet(w)));
  }

  lemma TheConsumerLeaves(s: Sys, c: Tid, id: MsgId) returns (s': Sys)
    requires Reachable(s) && LeftBehind(s, c, id)
    ensures Reachable(s') && Quiescent(s') && s'.hist.started && IsQueued(s'.mem.rows, id)
  {
    Reach(s, Drain(c, DoPutBack));
    var s1 := Apply(s, Drain(c, DoPutBack));
    Reach(s1, Drain(c, DoEndDrain));
    var s2 := Apply(s1, Drain(c, DoEndDrain));
    Reach(s2, Start(c, DoDrained));
    s' := Apply(s2, Start(c, DoDrained));
  }

  lemma Enqueued() returns (s: Sys)
    ensures Reachable(s) && s.threads == map[0 := AtHoldStart(None)] && s.mem.rows == map[0 := Row(Instruction, Queued)]
    ensures s.mem == FRESH.(rows := s.mem.rows, nextId := 1, gen := 1)
  {
    assert Run(INIT, [], INIT);
    Reach(INIT, Start(0, DoEnqueue(Instruction, false)));
    s := Apply(INIT, Start(0, DoEnqueue(Instruction, false)));
  }

  lemma FirstInstruction() returns (s: Sys)
    ensures Reachable(s) && s.threads == map[1 := AtTakeReclaim(1)] && s.mem.rows == map[0 := Row(Instruction, Queued)]
    ensures s.mem.gen == 1 && s.mem.nextId == 1 && s.mem.waiters == {} && s.hist.owner == Some(1)
    ensures s.mem.running && !s.mem.paused && !s.mem.reclaimed
  {
    var s1 := Enqueued();
    Reach(s1, Start(0, DoHoldStart));
    var s2 := Apply(s1, Start(0, DoHoldStart));
    Reach(s2, Start(0, DoTestAndSet(1)));
    s := Apply(s2, Start(0, DoTestAndSet(1)));
  }

  lemma FirstMayClaim() returns (s: Sys)
    ensures Reachable(s) && s.threads == map[1 := AtClaim(1)] && s.mem.rows == map[0 := Row(Instruction, Queued)]
    ensures s.mem.gen == 1 && s.mem.nextId == 1 && s.mem.waiters == {} && s.hist.owner == Some(1)
    ensures s.mem.running && !s.mem.paused
  {
    s := FirstInstruction();
    Reach(s, Drain(1, DoTakeReclaim));
    s := Apply(s, Drain(1, DoTakeReclaim));
    Reach(s, Drain(1, DoRequeueRunning));
    s := Apply(s, Drain(1, DoRequeueRunning));
  }

  lemma FirstClaim() returns (s: Sys)
    ensures Reachable(s) && AloneAtTheCheck(s, 1, 0) && s.mem.rows == map[0 := Row(Instruction, Running)]
    ensures s.mem.gen == 1 && s.mem.nextId == 1 && s.mem.waiters == {}
  {
    s := FirstMayClaim();
    assert IsNextClaim(s.mem.rows, Some(0));
    Reach(s, Drain(1, DoClaim(Some(0))));
    s := Apply(s, Drain(1, DoClaim(Some(0))));
  }

  /** The one gap: an instruction stays queued, the agent idle, the pause over. */
  lemma AStartCanLapse()
    ensures exists s :: Reachable(s) && Quiescent(s) && s.hist.started && IsQueued(s.mem.rows, 0)
  {
    var s0 := FirstClaim();
    var s1 := PauseEndsInTheWindow(s0, 1, 0);
    var s := TheConsumerLeaves(s1, 1, 0);
  }

  // ---- rows over a run --------------------------------------------------------------------

  /** Over any run, crashes included, no row is lost or re-addressed and no ended row moves again. */
  lemma {:induction false} EndedRowsStay(s: Sys, steps: seq<Step>, s': Sys)
    requires Inv(s) && Run(s, steps, s')
    ensures RowsMove(s.mem.rows, s'.mem.rows)
    decreases |steps|
  {
    if steps != [] {
      InvStep(s, steps[0]);
      RowsMoveStep(s, steps[0]);
      EndedRowsStay(Apply(s, steps[0]), steps[1..], s');
    }
  }

  // ---- the place in the queue ---------------------------------------------------------------

  function OpenBefore(rows: Rows, id: MsgId): set<MsgId> {
    set j | j in rows && j < id && Open(rows[j])
  }

  /** How many open messages the agent has in front of `id`. */
  function Ahead(rows: Rows, id: MsgId): nat {
    |OpenBefore(rows, id)|
  }

  lemma AheadStart(s: Sys, t: Tid, a: StartAction, id: MsgId)
    requires StartEnabled(s, t, a) && Ordered(s) && id in s.mem.rows
    ensures OpenBefore(s.mem.rows, id) == OpenBefore(ApplyStart(s, t, a).mem.rows, id)
    ensures ApplyStart(s, t, a).hist.finished == s.hist.finished
  {
    StartMemory(s, t, a);
  }

  lemma OpenBeforeSame(rows: Rows, rows': Rows, id: MsgId)
    requires forall j: MsgId | j < id :: IsOpen(rows, j) <==> IsOpen(rows', j)
    ensures OpenBefore(rows, id) == OpenBefore(rows', id)
  {
    forall j: MsgId ensures j in OpenBefore(rows, id) <==> j in OpenBefore(rows', id) {
      if j < id {
        assert IsOpen(rows, j) <==> IsOpen(rows', j);
      }
    }
  }

  lemma OpenBeforeLess(rows: Rows, ended: MsgId, status: Status, id: MsgId)
    requires ended < id && IsOpen(rows, ended) && Terminal(status)
    ensures Ahead(rows, id) == Ahead(rows[ended := rows[ended].(status := status)], id) + 1
  {
    var rows' := rows[ended := rows[ended].(status := status)];
    assert OpenBefore(rows, id) == OpenBefore(rows', id) + {ended};
  }

  lemma OpenStaysDrain(m: Mem, pc: Pc, a: DrainAction, h: History, j: MsgId)
    requires Fits(m, pc, a) && RowsOwned(m, Some(pc), h) && !a.DoFinish?
    ensures IsOpen(m.rows, j) <==> IsOpen(NextMem(m, pc, a).rows, j)
  {
  }

  lemma AheadDrain(m: Mem, h: History, pc: Pc, a: DrainAction, id: MsgId)
    requires Fits(m, pc, a) && RowsOwned(m, Some(pc), h)
    requires IsOpen(m.rows, id) && IsOpen(NextMem(m, pc, a).rows, id)
    ensures |h.finished| + Ahead(m.rows, id) == |NextHist(m, h, pc, a).finished| + Ahead(NextMem(m, pc, a).rows, id)
  {
    if a.DoFinish? {
      OpenBeforeLess(m.rows, pc.id, EndStatus(a.failed, a.cancelled), id);
    } else {
      forall j: MsgId | j < id ensures IsOpen(m.rows, j) <==> IsOpen(NextMem(m, pc, a).rows, j) {
        OpenStaysDrain(m, pc, a, h, j);
      }
      OpenBeforeSame(m.rows, NextMem(m, pc, a).rows, id);
    }
  }

  /** An ended message is one less in front of every open one; no other step changes the number. */
  lemma AheadStep(s: Sys, step: Step, id: MsgId)
    requires Enabled(s, step) && OneConsumer(s) && Ordered(s)
    requires IsOpen(s.mem.rows, id) && IsOpen(Apply(s, step).mem.rows, id)
    ensures |s.hist.finished| + Ahead(s.mem.rows, id) ==
            |Apply(s, step).hist.finished| + Ahead(Apply(s, step).mem.rows, id)
  {
    match step
    case Start(t, a) => AheadStart(s, t, a, id);
    case Drain(t, a) =>
      OneConsumerDrain(s, t, a);
      AheadDrain(s.mem, s.hist, s.threads[t], a, id);
    case Outside(a) => RowsMoveOutside(s, a);
  }

  lemma {:induction false} AheadOverARun(s: Sys, steps: seq<Step>, s': Sys, id: MsgId)
    requires Inv(s) && Run(s, steps, s') && IsOpen(s.mem.rows, id) && IsOpen(s'.mem.rows, id)
    ensures |s.hist.finished| + Ahead(s.mem.rows, id) == |s'.hist.finished| + Ahead(s'.mem.rows, id)
    decreases |steps|
  {
    if steps != [] {
      var mid := Apply(s, steps[0]);
      InvStep(s, steps[0]);
      RowsMoveStep(s, steps[0]);
      EndedRowsStay(mid, steps[1..], s');
      AheadStep(s, steps[0], id);
      AheadOverARun(mid, steps[1..], s', id);
    }
  }

  /** The position an acceptance answers is exact: whatever happens in between - holds, put-backs,
      crashes - precisely that many messages end before this one is handed over. */
  lemma {:induction false} AheadIsExact(s: Sys, steps: seq<Step>, s': Sys, t: Tid, id: MsgId)
    requires Reachable(s) && Run(s, steps, s') && IsOpen(s.mem.rows, id)
    requires DrainEnabled(s', t, DoHandle) && s'.threads[t].id == id
    ensures |s'.hist.finished| - |s.hist.finished| == Ahead(s.mem.rows, id)
  {
    InvReachable(s);
    InvRun(s, steps, s');
    OneConsumerDrain(s', t, DoHandle);
    AheadOverARun(s, steps, s', id);
    forall j | j in OpenBefore(s'.mem.rows, id) ensures false {
      assert IsOpen(s'.mem.rows, j);
    }
  }

  // ---- the pause -------------------------------------------------------------------------------

  /** Neither the pause nor the process ends. */
  predicate StaysPaused(steps: seq<Step>) {
    forall i | 0 <= i < |steps| :: KeepsPause(steps[i])
  }

  /** The consumer is past the hold check of this message and has not handed it over. */
  predicate OnItsWay(c: Option<Pc>, id: MsgId) {
    c.Some? && (c.value.AtTakeWaiter? || c.value.AtHandle?) && c.value.id == id
  }

  predicate KeepsPause(step: Step) {
    !(step.Start? && step.start.DoEndPause?) && step != Outside(DoCrash)
  }

  lemma PausedDrain(m: Mem, h: History, pc: Pc, a: DrainAction, id: MsgId)
    requires Fits(m, pc, a) && m.paused && RowsOwned(m, Some(pc), h)
    requires OnItsWay(Some(NextPc(m, h, pc, a)), id) && id in m.rows && IsNewRun(m.rows[id].kind)
    ensures OnItsWay(Some(pc), id)
  {
  }

  lemma PausedStep(s: Sys, step: Step, id: MsgId)
    requires Enabled(s, step) && OneConsumer(s) && Ordered(s) && s.mem.paused && KeepsPause(step)
    requires id in s.mem.rows && IsNewRun(s.mem.rows[id].kind)
    ensures OnItsWay(Consumer(Apply(s, step)), id) ==> OnItsWay(Consumer(s), id)
  {
    match step
    case Start(t, a) => StartConsumer(s, t, a);
    case Drain(t, a) =>
      OneConsumerDrain(s, t, a);
      if !a.DoEndDrain? && OnItsWay(Consumer(ApplyDrain(s, t, a)), id) {
        PausedDrain(s.mem, s.hist, s.threads[t], a, id);
      }
    case Outside(a) => assert Consumer(ApplyOutside(s, a)) == Consumer(s);
  }

  lemma PausedStays(s: Sys, step: Step)
    requires Enabled(s, step) && s.mem.paused && KeepsPause(step)
    ensures Apply(s, step).mem.paused
  {
    match step
    case Start(t, a) => StartMemory(s, t, a);
    case Drain(t, a) => assert NextMem(s.mem, s.threads[t], a).paused;
    case Outside(a) =>
  }

  lemma {:induction false} PausedRun(s: Sys, steps: seq<Step>, s': Sys, id: MsgId)
    requires Inv(s) && s.mem.paused && StaysPaused(steps) && Run(s, steps, s')
    requires id in s.mem.rows && IsNewRun(s.mem.rows[id].kind)
    ensures s'.mem.paused && (OnItsWay(Consumer(s'), id) ==> OnItsWay(Consumer(s), id))
    decreases |steps|
  {
    if steps != [] {
      InvStep(s, steps[0]);
      RowsMoveStep(s, steps[0]);
      PausedStays(s, steps[0]);
      PausedStep(s, steps[0], id);
      PausedRun(Apply(s, steps[0]), steps[1..], s', id);
    }
  }

  lemma {:induction false} NotYetEnqueued(s: Sys, steps: seq<Step>, s': Sys, id: MsgId)
    requires Inv(s) && s.mem.paused && StaysPaused(steps) && Run(s, steps, s') && id !in s.mem.rows
    requires id in s'.mem.rows && IsNewRun(s'.mem.rows[id].kind)
    ensures s'.mem.paused && !OnItsWay(Consumer(s'), id)
    decreases |steps|
  {
    var mid := Apply(s, steps[0]);
    InvStep(s, steps[0]);
    PausedStays(s, steps[0]);
    if id in mid.mem.rows {
      EndedRowsStay(mid, steps[1..], s');
      PausedRun(mid, steps[1..], s', id);
      NewRowIsNotClaimed(s, steps[0], id);
    } else {
      NotYetEnqueued(mid, steps[1..], s', id);
    }
  }

  lemma NewRowIsNotClaimed(s: Sys, step: Step, id: MsgId)
    requires Enabled(s, step) && OneConsumer(s) && Ordered(s) && id !in s.mem.rows && id in Apply(s, step).mem.rows
    ensures !OnItsWay(Consumer(Apply(s, step)), id)
  {
    match step
    case Start(t, a) =>
      StartConsumer(s, t, a);
      assert Holds(Consumer(s)) != Some(id);
    case Drain(t, a) =>
      OneConsumerDrain(s, t, a);
      RowsMoveDrain(s.mem, s.hist, s.threads[t], a);
      DrainAddsNoRow(s.mem, s.threads[t], a);
    case Outside(a) => RowsMoveOutside(s, a);
  }

  lemma DrainAddsNoRow(m: Mem, pc: Pc, a: DrainAction)
    requires Fits(m, pc, a) && (pc.AtHoldCheck? || pc.AtPutBack? || pc.Handling? ==> pc.id in m.rows)
    ensures NextMem(m, pc, a).rows.Keys == m.rows.Keys
  {
  }

  /** While the runtime stays paused a new run is handed over only if it was already on its way when
      we looked, and its hold check came before the pause began; there is at most one such message. */
  lemma {:induction false} NoNewRunWhilePaused(s: Sys, steps: seq<Step>, s': Sys, t: Tid)
    requires Reachable(s) && s.mem.paused && StaysPaused(steps) && Run(s, steps, s')
    requires DrainEnabled(s', t, DoHandle)
    ensures var id := s'.threads[t].id;
            id in s'.mem.rows && (IsNewRun(s'.mem.rows[id].kind) ==> OnItsWay(Consumer(s), id))
    ensures IsNewRun(s'.mem.rows[s'.threads[t].id].kind) ==> s'.threads[t].epoch < s'.hist.pauses
  {
    InvReachable(s);
    InvRun(s, steps, s');
    OneConsumerDrain(s', t, DoHandle);
    var id := s'.threads[t].id;
    if IsNewRun(s'.mem.rows[id].kind) {
      if id in s.mem.rows {
        EndedRowsStay(s, steps, s');
        PausedRun(s, steps, s', id);
      } else {
        NotYetEnqueued(s, steps, s', id);
      }
    }
  }

  // ---- receipts ----------------------------------------------------------------------------------

  /** A caller gets the outcome of its own message; a delivery never finds the slot taken; while a
      message is unprocessed its caller is known to whoever will process it, and afterwards its
      outcome is there or on its way; and who releases a caller last has stopped being the consumer. */
  lemma ReceiptsAreExact(s: Sys, id: MsgId)
    requires Reachable(s) && id in s.callers
    ensures s.callers[id].Got? ==> s.callers[id].outcome == id
    ensures forall t | t in s.threads && (s.threads[t].AtDeliver? || s.threads[t].AtRelease?) && s.threads[t].id == id :: CanSend(s, id)
    ensures s.callers[id] == Waiting && IsOpen(s.mem.rows, id) ==>
              id in s.mem.waiters || exists t :: CarriedBy(s.threads, t, id)
    ensures s.callers[id] == Waiting && !IsOpen(s.mem.rows, id) ==>
              (id in s.chans && s.chans[id] == [id]) || exists t :: CarriedBy(s.threads, t, id)
    ensures forall t | t in s.threads && s.threads[t].AtRelease? :: s.hist.owner != Some(t)
  {
    InvReachable(s);
    forall t | t in s.threads && (s.threads[t].AtDeliver? || s.threads[t].AtRelease?) && s.threads[t].id == id
      ensures CanSend(s, id)
    {
      assert CarriedBy(s.threads, t, id);
    }
    if s.callers[id] == Waiting && IsOpen(s.mem.rows, id) && id !in s.mem.waiters {
      assert CarriedBy(s.threads, s.hist.owner.value, id);
    }
  }

  predicate HasItsOutcome(s: Sys, id: MsgId) {
    id in s.callers && s.callers[id].Got? && id in s.chans && s.chans[id] == []
  }

  /** A caller that has its outcome keeps it: no second one is ever delivered to it. */
  lemma OneOutcome(s: Sys, step: Step, id: MsgId)
    requires Reachable(s) && Enabled(s, step) && step != Outside(DoCrash)
    requires id in s.callers && s.callers[id].Got?
    ensures HasItsOutcome(s, id) && HasItsOutcome(Apply(s, step), id)
    ensures Apply(s, step).callers[id] == s.callers[id]
  {
    InvReachable(s);
    OneOutcomeStep(s, step, id);
  }

  lemma OneOutcomeStep(s: Sys, step: Step, id: MsgId)
    requires Enabled(s, step) && step != Outside(DoCrash) && Ordered(s) && Waits(s)
    requires id in s.callers && s.callers[id].Got?
    ensures HasItsOutcome(s, id) && HasItsOutcome(Apply(s, step), id)
    ensures Apply(s, step).callers[id] == s.callers[id]
  {
    match step
    case Start(t, a) => OneOutcomeStart(s, t, a, id);
    case Drain(t, a) => OneOutcomeDrain(s, t, a, id);
    case Outside(a) => OneOutcomeOutside(s, a, id);
  }

  lemma OneOutcomeOutside(s: Sys, a: OutsideAction, id: MsgId)
    requires OutsideEnabled(s, a) && !a.DoCrash? && HasItsOutcome(s, id)
    ensures HasItsOutcome(ApplyOutside(s, a), id) && ApplyOutside(s, a).callers[id] == s.callers[id]
  {
  }

  lemma OneOutcomeDrain(s: Sys, t: Tid, a: DrainAction, id: MsgId)
    requires DrainEnabled(s, t, a) && Waits(s) && HasItsOutcome(s, id)
    ensures HasItsOutcome(ApplyDrain(s, t, a), id) && ApplyDrain(s, t, a).callers[id] == s.callers[id]
  {
    assert a.DoDeliver? ==> CarriedBy(s.threads, t, s.threads[t].id);
  }

  lemma OneOutcomeStart(s: Sys, t: Tid, a: StartAction, id: MsgId)
    requires StartEnabled(s, t, a) && Ordered(s) && Waits(s) && HasItsOutcome(s, id)
    ensures HasItsOutcome(ApplyStart(s, t, a), id) && ApplyStart(s, t, a).callers[id] == s.callers[id]
  {
    assert a.DoRelease? ==> CarriedBy(s.threads, t, s.threads[t].id);
  }

  // ---- a delegated prompt, from the door to its receipt ----------------------------------------------

  lemma PromptClaimed() returns (s: Sys)
    ensures Reachable(s) && s.threads == map[1 := AtHoldCheck(1, 0)] && s.hist.owner == Some(1)
    ensures s.mem == FRESH.(rows := map[0 := Row(Delegation, Running)], nextId := 1, gen := 1, waiters := {0}, running := true, reclaimed := true)
    ensures s.callers == map[0 := Waiting] && s.chans == map[0 := []]
  {
    s := PromptStarted();
    Reach(s, Drain(1, DoTakeReclaim));
    s := Apply(s, Drain(1, DoTakeReclaim));
    Reach(s, Drain(1, DoRequeueRunning));
    s := Apply(s, Drain(1, DoRequeueRunning));
    assert IsNextClaim(s.mem.rows, Some(0));
    Reach(s, Drain(1, DoClaim(Some(0))));
    s := Apply(s, Drain(1, DoClaim(Some(0))));
  }

  lemma PromptStarted() returns (s: Sys)
    ensures Reachable(s) && s.threads == map[1 := AtTakeReclaim(1)] && s.hist.owner == Some(1)
    ensures s.mem == FRESH.(rows := map[0 := Row(Delegation, Queued)], nextId := 1, gen := 1, waiters := {0}, running := true)
    ensures s.callers == map[0 := Waiting] && s.chans == map[0 := []]
  {
    s := PromptMayStart();
    Reach(s, Start(0, DoTestAndSet(1)));
    s := Apply(s, Start(0, DoTestAndSet(1)));
  }

  lemma PromptMayStart() returns (s: Sys)
    ensures Reachable(s) && s.threads == map[0 := AtTestAndSet(None)] && s.hist.owner == None
    ensures s.mem == FRESH.(rows := map[0 := Row(Delegation, Queued)], nextId := 1, gen := 1, waiters := {0})
    ensures s.callers == map[0 := Waiting] && s.chans == map[0 := []]
  {
    s := PromptEnqueued();
    Reach(s, Start(0, DoHoldStart));
    s := Apply(s, Start(0, DoHoldStart));
  }

  lemma PromptEnqueued() returns (s: Sys)
    ensures Reachable(s) && s.threads == map[0 := AtHoldStart(None)] && s.hist.owner == None
    ensures s.mem == FRESH.(rows := map[0 := Row(Delegation, Queued)], nextId := 1, gen := 1, waiters := {0})
    ensures s.callers == map[0 := Waiting] && s.chans == map[0 := []]
  {
    assert Run(INIT, [], INIT);
    Reach(INIT, Start(0, DoEnqueue(Delegation, true)));
    s := Apply(INIT, Start(0, DoEnqueue(Delegation, true)));
  }

  lemma PromptHandled() returns (s: Sys)
    ensures Reachable(s) && s.threads == map[1 := AtDryCheck(1, 0)] && s.hist.owner == Some(1)
    ensures s.mem.rows == map[0 := Row(Delegation, Failed)] && s.mem.gen == 1
    ensures s.callers == map[0 := Waiting] && s.chans == map[0 := []]
  {
    s := PromptClaimed();
    Reach(s, Drain(1, DoHoldCheck));
    s := Apply(s, Drain(1, DoHoldCheck));
    Reach(s, Drain(1, DoTakeWaiter));
    s := Apply(s, Drain(1, DoTakeWaiter));
    Reach(s, Drain(1, DoHandle));
    s := Apply(s, Drain(1, DoHandle));
    Reach(s, Drain(1, DoFinish(true, false)));
    s := Apply(s, Drain(1, DoFinish(true, false)));
  }

  lemma PromptDrained() returns (s: Sys)
    ensures Reachable(s) && s.threads == map[1 := AtRelease(0)] && s.hist.owner == None
    ensures s.mem.rows == map[0 := Row(Delegation, Failed)]
    ensures s.callers == map[0 := Waiting] && s.chans == map[0 := []]
  {
    s := PromptEnded();
    Reach(s, Start(1, DoDrained));
    s := Apply(s, Start(1, DoDrained));
  }

  lemma PromptEnded() returns (s: Sys)
    ensures Reachable(s) && s.threads == map[1 := AtDrained(Some(0))] && s.hist.owner == None
    ensures s.mem.rows == map[0 := Row(Delegation, Failed)]
    ensures s.callers == map[0 := Waiting] && s.chans == map[0 := []]
  {
    s := QueueIsDry();
    Reach(s, Drain(1, DoEndDrain));
    s := Apply(s, Drain(1, DoEndDrain));
  }

  lemma QueueIsDry() returns (s: Sys)
    ensures Reachable(s) && s.threads == map[1 := AtEndDrain(1, Some(0), false)] && s.hist.owner == Some(1)
    ensures s.mem.rows == map[0 := Row(Delegation, Failed)] && s.mem.gen == 1
    ensures s.callers == map[0 := Waiting] && s.chans == map[0 := []]
  {
    s := PromptHandled();
    Reach(s, Drain(1, DoDryCheck));
    s := Apply(s, Drain(1, DoDryCheck));
  }

  /** A delegated prompt that fails is recorded so, and its caller is told once the consumer is gone. */
  lemma ACallerIsTold() returns (s: Sys)
    ensures Reachable(s) && s.threads == map[] && s.hist.owner == None
    ensures s.mem.rows == map[0 := Row(Delegation, Failed)] && s.callers == map[0 := Got(0)]
  {
    s := PromptDrained();
    Reach(s, Start(1, DoRelease));
    s := Apply(s, Start(1, DoRelease));
    Reach(s, Outside(DoReceive(0)));
    s := Apply(s, Outside(DoReceive(0)));
  }
}
