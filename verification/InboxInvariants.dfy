/** What every step of the inbox protocol keeps. */
module InboxInvariants {
  import opened Basics
  import opened InboxMemory
  import opened InboxProtocol

  // ---- one consumer -----------------------------------------------------------

  /** Every consumer is the goroutine that holds the flag, so there is at most one. */
  ghost predicate OneConsumer(s: Sys) {
    && (forall t | t in s.threads && IsConsumer(s.threads[t]) ::
          s.hist.owner == Some(t) && s.threads[t].gen <= s.mem.gen)
    && (s.mem.running <==> s.hist.owner.Some?)
    && (s.hist.owner.Some? ==>
          s.hist.owner.value in s.threads && IsConsumer(s.threads[s.hist.owner.value]))
  }

  /** Where the agent's consumer stands, when there is one. */
  function Consumer(s: Sys): Option<Pc> {
    if s.hist.owner.Some? && s.hist.owner.value in s.threads then Some(s.threads[s.hist.owner.value]) else None
  }

  lemma OneConsumerStart(s: Sys, t: Tid, a: StartAction)
    requires StartEnabled(s, t, a) && OneConsumer(s)
    ensures OneConsumer(ApplyStart(s, t, a))
  {
    if a.DoTestAndSet? {
      OneConsumerTestAndSet(s, t, a.spawned);
    }
  }

  lemma OneConsumerTestAndSet(s: Sys, t: Tid, u: Tid)
    requires StartEnabled(s, t, DoTestAndSet(u)) && OneConsumer(s)
    ensures OneConsumer(ApplyStart(s, t, DoTestAndSet(u)))
  {
  }

  lemma OneConsumerDrain(s: Sys, t: Tid, a: DrainAction)
    requires DrainEnabled(s, t, a) && OneConsumer(s)
    ensures OneConsumer(ApplyDrain(s, t, a))
    ensures Consumer(s) == Some(s.threads[t])
    ensures Consumer(ApplyDrain(s, t, a)) ==
            if a.DoEndDrain? then None else Some(NextPc(s.mem, s.hist, s.threads[t], a))
  {
  }

  lemma OneConsumerOutside(s: Sys, a: OutsideAction)
    requires OutsideEnabled(s, a) && OneConsumer(s)
    ensures OneConsumer(ApplyOutside(s, a))
  {
  }

  lemma OneConsumerStep(s: Sys, step: Step)
    requires Enabled(s, step) && OneConsumer(s)
    ensures OneConsumer(Apply(s, step))
  {
    match step
    case Start(t, a) => OneConsumerStart(s, t, a);
    case Drain(t, a) => OneConsumerDrain(s, t, a);
    case Outside(a) => OneConsumerOutside(s, a);
  }

  // ---- the rows and who holds them ---------------------------------------------

  /** The claimed message a consumer has not recorded the end of. */
  function Holds(c: Option<Pc>): Option<MsgId> {
    match c
    case Some(AtHoldCheck(_, id)) => Some(id)
    case Some(AtPutBack(_, id)) => Some(id)
    case Some(AtTakeWaiter(_, id, _)) => Some(id)
    case Some(AtHandle(_, id, _, _)) => Some(id)
    case Some(Handling(_, id, _)) => Some(id)
    case _ => None
  }

  predicate InHandler(c: Option<Pc>, id: MsgId) {
    c.Some? && c.value.Handling? && c.value.id == id
  }

  /** This process has not taken back the claims of the one before it. */
  predicate NotReclaimed(m: Mem, c: Option<Pc>) {
    !m.reclaimed || (c.Some? && c.value.AtRequeueRunning?)
  }

  /** A claimed message is running and the oldest open one, and no other row runs once
      this process has taken back the claims of the one before it. */
  ghost predicate RowsOwned(m: Mem, c: Option<Pc>, h: History) {
    && (forall id | id in m.rows :: id < m.nextId)
    && (Holds(c).Some? ==>
          var id := Holds(c).value;
          id in m.rows && m.rows[id].status == Running && forall j :: IsOpen(m.rows, j) ==> id <= j)
    && (!NotReclaimed(m, c) ==>
          forall j :: j in m.rows && m.rows[j].status == Running ==> Holds(c) == Some(j))
    && (c.Some? && !c.value.AtTakeReclaim? ==> m.reclaimed)
    && (if NotReclaimed(m, c) then h.claims == 0 && h.reclaims == 0 && h.base == |h.handled|
        else h.reclaims == 1)
  }

  /** Ids are handed over in increasing order; before `base`, what a crash cut off may come again. */
  ghost predicate Increasing(handled: seq<MsgId>, base: nat, cut: set<MsgId>) {
    && base <= |handled|
    && (forall i, k | 0 <= i < k < |handled| ::
          handled[i] < handled[k] || (handled[i] == handled[k] && i < base && handled[i] in cut))
  }

  /** Messages are handed over oldest first; only what a crash cut off comes twice. */
  ghost predicate InOrder(m: Mem, c: Option<Pc>, h: History) {
    && Increasing(h.handled, h.base, h.cut)
    && (forall k | 0 <= k < |h.handled| :: h.handled[k] in m.rows)
    && (forall k, j | 0 <= k < |h.handled| && IsOpen(m.rows, j) ::
          h.handled[k] < j || (h.handled[k] == j && ((k < h.base && j in h.cut) || InHandler(c, j))))
  }

  ghost predicate Ordered(s: Sys) {
    RowsOwned(s.mem, Consumer(s), s.hist) && InOrder(s.mem, Consumer(s), s.hist)
  }

  lemma RowsOwnedDrain(m: Mem, h: History, pc: Pc, a: DrainAction)
    requires Fits(m, pc, a) && IsConsumer(pc) && RowsOwned(m, Some(pc), h)
    ensures RowsOwned(NextMem(m, pc, a), if a.DoEndDrain? then None else Some(NextPc(m, h, pc, a)), NextHist(m, h, pc, a))
  {
    var m' := NextMem(m, pc, a);
    forall j | IsOpen(m'.rows, j) ensures IsOpen(m.rows, j) && (IsQueued(m.rows, j) || m.rows[j].status == Running) {
    }
  }

  /** No message is handed over: the order stands as long as no row reopens. */
  lemma InOrderKept(m: Mem, c: Option<Pc>, h: History, m': Mem, c': Option<Pc>, h': History)
    requires RowsOwned(m, c, h) && InOrder(m, c, h)
    requires h'.handled == h.handled && h.cut <= h'.cut && h.base <= h'.base <= |h.handled|
    requires m.rows.Keys <= m'.rows.Keys
    requires forall j | IsOpen(m'.rows, j) :: IsOpen(m.rows, j) || m.nextId <= j
    requires forall j | IsOpen(m'.rows, j) && InHandler(c, j) :: InHandler(c', j) || (h'.base == |h.handled| && j in h'.cut)
    ensures InOrder(m', c', h')
  {
  }

  lemma IncreasingAppend(handled: seq<MsgId>, base: nat, cut: set<MsgId>, id: MsgId)
    requires Increasing(handled, base, cut)
    requires forall i | 0 <= i < |handled| :: handled[i] < id || (handled[i] == id && i < base && id in cut)
    ensures Increasing(handled + [id], base, cut)
  {
  }

  lemma InOrderHandle(m: Mem, h: History, pc: Pc)
    requires Fits(m, pc, DoHandle) && RowsOwned(m, Some(pc), h) && InOrder(m, Some(pc), h)
    ensures InOrder(m, Some(NextPc(m, h, pc, DoHandle)), NextHist(m, h, pc, DoHandle))
  {
    assert IsOpen(m.rows, pc.id);
    IncreasingAppend(h.handled, h.base, h.cut, pc.id);
  }

  lemma InOrderDrain(m: Mem, h: History, pc: Pc, a: DrainAction)
    requires Fits(m, pc, a) && IsConsumer(pc) && RowsOwned(m, Some(pc), h) && InOrder(m, Some(pc), h)
    ensures InOrder(NextMem(m, pc, a), if a.DoEndDrain? then None else Some(NextPc(m, h, pc, a)), NextHist(m, h, pc, a))
  {
    if a.DoHandle? {
      InOrderHandle(m, h, pc);
    } else {
      InOrderKept(m, Some(pc), h,
                  NextMem(m, pc, a), if a.DoEndDrain? then None else Some(NextPc(m, h, pc, a)), NextHist(m, h, pc, a));
    }
  }

  /** What a start leaves of the rows: all of them, and the new one of an enqueue. */
  ghost predicate StartKeeps(m: Mem, h: History, m': Mem, h': History, a: StartAction) {
    && m'.rows == (if a.DoEnqueue? then m.rows[m.nextId := Row(a.kind, Queued)] else m.rows)
    && m'.nextId == (if a.DoEnqueue? then m.nextId + 1 else m.nextId)
    && m'.reclaimed == m.reclaimed
    && m'.paused == (m.paused && !a.DoEndPause?)
    && h'.(owner := h.owner, started := h.started, lapsed := h.lapsed) == h
  }

  lemma StartMemory(s: Sys, t: Tid, a: StartAction)
    requires StartEnabled(s, t, a)
    ensures StartKeeps(s.mem, s.hist, ApplyStart(s, t, a).mem, ApplyStart(s, t, a).hist, a)
  {
  }

  lemma StartConsumer(s: Sys, t: Tid, a: StartAction)
    requires StartEnabled(s, t, a) && OneConsumer(s)
    ensures Consumer(ApplyStart(s, t, a)) ==
            if a.DoTestAndSet? && !s.mem.running then Some(AtTakeReclaim(s.mem.gen)) else Consumer(s)
    ensures a.DoTestAndSet? && !s.mem.running ==> Consumer(s) == None
  {
  }

  lemma OrderedStart(s: Sys, t: Tid, a: StartAction)
    requires StartEnabled(s, t, a) && OneConsumer(s) && Ordered(s)
    ensures Ordered(ApplyStart(s, t, a))
  {
    StartMemory(s, t, a);
    StartConsumer(s, t, a);
    var s' := ApplyStart(s, t, a);
    RowsOwnedStart(s.mem, Consumer(s), s.hist, s'.mem, Consumer(s'), s'.hist, a);
    InOrderKept(s.mem, Consumer(s), s.hist, s'.mem, Consumer(s'), s'.hist);
  }

  lemma RowsOwnedStart(m: Mem, c: Option<Pc>, h: History, m': Mem, c': Option<Pc>, h': History, a: StartAction)
    requires RowsOwned(m, c, h)
    requires StartKeeps(m, h, m', h', a)
    requires c' == c || (c == None && c' == Some(AtTakeReclaim(m.gen)))
    ensures RowsOwned(m', c', h')
  {
    forall j | IsOpen(m'.rows, j) ensures IsOpen(m.rows, j) || j == m.nextId {
    }
  }

  lemma OrderedDrain(s: Sys, t: Tid, a: DrainAction)
    requires DrainEnabled(s, t, a) && OneConsumer(s) && Ordered(s)
    ensures Ordered(ApplyDrain(s, t, a))
  {
    OneConsumerDrain(s, t, a);
    RowsOwnedDrain(s.mem, s.hist, s.threads[t], a);
    InOrderDrain(s.mem, s.hist, s.threads[t], a);
  }

  lemma OrderedOutside(s: Sys, a: OutsideAction)
    requires OutsideEnabled(s, a) && OneConsumer(s) && Ordered(s)
    ensures Ordered(ApplyOutside(s, a))
  {
    var s' := ApplyOutside(s, a);
    forall j | IsOpen(s'.mem.rows, j) ensures IsOpen(s.mem.rows, j) {
    }
    assert a.DoCrash? ==> Consumer(s') == None;
    assert !a.DoCrash? ==> Consumer(s') == Consumer(s);
    InOrderKept(s.mem, Consumer(s), s.hist, s'.mem, Consumer(s'), s'.hist);
  }

  // ---- nobody is forgotten ---------------------------------------------------------

  /** Somebody is inside `start`. */
  ghost predicate StartPending(s: Sys) {
    exists t :: t in s.threads && IsStarter(s.threads[t])
  }

  /**
    Once the agent was started in this process, an open message is looked after: by
    a consumer that will claim again or was overtaken by an enqueue, by a start under
    way, by the agent being remembered as held; or its start has lapsed.
  */
  ghost predicate Covered(s: Sys) {
    && (s.hist.started ==>
          match Consumer(s)
          case None => AnyOpen(s.mem.rows) ==> s.mem.held || StartPending(s) || s.hist.lapsed
          case Some(pc) =>
            && (LeavingHeld(pc) ==> s.mem.held || StartPending(s) || pc.gen < s.mem.gen || s.hist.lapsed)
            && (pc.AtEndDrain? && !pc.putBack && AnyOpen(s.mem.rows) ==> pc.gen < s.mem.gen))
    && (!s.hist.started ==> Consumer(s) == None && !StartPending(s) && !s.hist.lapsed)
  }

  /** A start lapses only on a message that is still open and that no consumer will claim. */
  ghost predicate LapseIsReal(s: Sys) {
    && (Consumer(s).Some? && LeavingHeld(Consumer(s).value) ==> AnyOpen(s.mem.rows))
    && (s.hist.lapsed ==> AnyOpen(s.mem.rows) && (Consumer(s).Some? ==> LeavingHeld(Consumer(s).value)))
  }

  /** An agent stays remembered only while the pause lasts or its end is still to be carried out. */
  ghost predicate HeldIsOwed(s: Sys) {
    s.mem.held ==> s.mem.paused || exists t :: t in s.threads && s.threads[t].AtSwapHeld?
  }

  lemma CoveredStart(s: Sys, t: Tid, a: StartAction)
    requires StartEnabled(s, t, a) && OneConsumer(s) && Ordered(s) && Covered(s)
    ensures Covered(ApplyStart(s, t, a))
  {
    var s' := ApplyStart(s, t, a);
    StartConsumer(s, t, a);
    if a.DoEnqueue? || a.DoBootStart? || (a.DoHoldStart? && !s.mem.paused) || (a.DoSwapHeld? && s.mem.held) {
      assert t in s'.threads && IsStarter(s'.threads[t]);
      if a.DoEnqueue? && AnyOpen(s'.mem.rows) {
        assert Consumer(s').Some? ==> Consumer(s').value.gen <= s.mem.gen;
      }
    } else if a.DoHoldStart? {
      assert s'.mem.held && s.hist.started;
    } else if a.DoTestAndSet? {
      assert t in s.threads && IsStarter(s.threads[t]);
      assert s.hist.started;
    } else {
      StartersStay(s, t, s');
    }
  }

  /** A goroutine that is not inside `start` moves: the starts under way stay. */
  lemma StartersStay(s: Sys, t: Tid, s': Sys)
    requires t in s.threads ==> !IsStarter(s.threads[t])
    requires forall u | u != t :: (u in s.threads <==> u in s'.threads) && (u in s.threads ==> s.threads[u] == s'.threads[u])
    ensures StartPending(s) ==> StartPending(s')
    ensures StartPending(s') ==> StartPending(s) || (t in s'.threads && IsStarter(s'.threads[t]))
  {
    if StartPending(s) {
      var u :| u in s.threads && IsStarter(s.threads[u]);
      assert u in s'.threads && IsStarter(s'.threads[u]);
    }
  }

  lemma CoveredDrain(s: Sys, t: Tid, a: DrainAction)
    requires DrainEnabled(s, t, a) && OneConsumer(s) && Ordered(s) && Covered(s)
    ensures Covered(ApplyDrain(s, t, a))
  {
    var s' := ApplyDrain(s, t, a);
    OneConsumerDrain(s, t, a);
    StartersStay(s, t, s');
    if a.DoEndDrain? {
      assert s.mem.gen != s.threads[t].gen ==> t in s'.threads && IsStarter(s'.threads[t]);
    } else if (a.DoClaim? && a.found == None) || a.DoDryCheck? {
      assert forall j | IsOpen(s'.mem.rows, j) :: IsQueued(s.mem.rows, j) && AnyQueued(s.mem.rows);
    }
  }

  lemma CoveredOutside(s: Sys, a: OutsideAction)
    requires OutsideEnabled(s, a) && OneConsumer(s) && Ordered(s) && Covered(s)
    ensures Covered(ApplyOutside(s, a))
  {
    var s' := ApplyOutside(s, a);
    if !a.DoCrash? {
      assert Consumer(s') == Consumer(s) && s'.threads == s.threads;
    }
  }

  lemma LapseStart(s: Sys, t: Tid, a: StartAction)
    requires StartEnabled(s, t, a) && OneConsumer(s) && LapseIsReal(s)
    ensures LapseIsReal(ApplyStart(s, t, a))
  {
    StartConsumer(s, t, a);
    StartMemory(s, t, a);
    OpenStays(s.mem.rows, ApplyStart(s, t, a).mem.rows);
  }

  lemma LapseDrain(s: Sys, t: Tid, a: DrainAction)
    requires DrainEnabled(s, t, a) && OneConsumer(s) && Ordered(s) && LapseIsReal(s)
    ensures LapseIsReal(ApplyDrain(s, t, a))
  {
    var s' := ApplyDrain(s, t, a);
    OneConsumerDrain(s, t, a);
    var pc := s.threads[t];
    if a.DoPutBack? || a.DoHoldCheck? {
      assert IsOpen(s'.mem.rows, pc.id);
    }
  }

  lemma LapseOutside(s: Sys, a: OutsideAction)
    requires OutsideEnabled(s, a) && LapseIsReal(s)
    ensures LapseIsReal(ApplyOutside(s, a))
  {
    assert !a.DoCrash? ==> Consumer(ApplyOutside(s, a)) == Consumer(s);
  }

  lemma OpenStays(rows: Rows, rows': Rows)
    requires forall id | IsOpen(rows, id) :: IsOpen(rows', id)
    ensures AnyOpen(rows) ==> AnyOpen(rows')
  {
  }

  lemma HeldIsOwedStep(s: Sys, step: Step)
    requires Enabled(s, step) && HeldIsOwed(s)
    ensures HeldIsOwed(Apply(s, step))
  {
    match step
    case Start(t, a) => HeldIsOwedStart(s, t, a);
    case Drain(t, a) => HeldIsOwedDrain(s, t, a);
    case Outside(a) => HeldIsOwedOutside(s, a);
  }

  lemma HeldIsOwedOutside(s: Sys, a: OutsideAction)
    requires OutsideEnabled(s, a) && HeldIsOwed(s)
    ensures HeldIsOwed(ApplyOutside(s, a))
  {
    if !a.DoCrash? {
      assert ApplyOutside(s, a).threads == s.threads && ApplyOutside(s, a).mem.held == s.mem.held;
    }
  }

  lemma HeldIsOwedStart(s: Sys, t: Tid, a: StartAction)
    requires StartEnabled(s, t, a) && HeldIsOwed(s)
    ensures HeldIsOwed(ApplyStart(s, t, a))
  {
    var s' := ApplyStart(s, t, a);
    if a.DoEndPause? {
      assert s'.threads[t].AtSwapHeld?;
    } else if s.mem.held && !s.mem.paused && !a.DoSwapHeld? {
      var u :| u in s.threads && s.threads[u].AtSwapHeld?;
      assert u in s'.threads && s'.threads[u].AtSwapHeld?;
    }
  }

  lemma HeldIsOwedDrain(s: Sys, t: Tid, a: DrainAction)
    requires DrainEnabled(s, t, a) && HeldIsOwed(s)
    ensures HeldIsOwed(ApplyDrain(s, t, a))
  {
    var s' := ApplyDrain(s, t, a);
    if s.mem.held && !s.mem.paused {
      var u :| u in s.threads && s.threads[u].AtSwapHeld?;
      assert u in s'.threads && s'.threads[u].AtSwapHeld?;
    }
  }

  // ---- the pause ------------------------------------------------------------------

  /** A new run on its way to the handler passed its hold check before the pause in force began. */
  ghost predicate Admitted(m: Mem, c: Option<Pc>, h: History) {
    c.Some? && (c.value.AtTakeWaiter? || c.value.AtHandle?) && c.value.id in m.rows && IsNewRun(m.rows[c.value.id].kind) ==>
      c.value.epoch <= h.pauses && (m.paused ==> c.value.epoch < h.pauses)
  }

  lemma AdmittedStep(s: Sys, step: Step)
    requires Enabled(s, step) && OneConsumer(s) && Ordered(s) && Admitted(s.mem, Consumer(s), s.hist)
    ensures Admitted(Apply(s, step).mem, Consumer(Apply(s, step)), Apply(s, step).hist)
  {
    match step
    case Start(t, a) =>
      StartConsumer(s, t, a);
      AdmittedStart(s, t, a);
    case Drain(t, a) =>
      OneConsumerDrain(s, t, a);
      AdmittedDrain(s.mem, s.hist, s.threads[t], a);
    case Outside(a) =>
      assert !a.DoCrash? ==> Consumer(ApplyOutside(s, a)) == Consumer(s);
  }

  lemma AdmittedStart(s: Sys, t: Tid, a: StartAction)
    requires StartEnabled(s, t, a) && OneConsumer(s) && Ordered(s) && Admitted(s.mem, Consumer(s), s.hist)
    ensures Admitted(ApplyStart(s, t, a).mem, Consumer(ApplyStart(s, t, a)), ApplyStart(s, t, a).hist)
  {
    StartConsumer(s, t, a);
    StartMemory(s, t, a);
    assert ApplyStart(s, t, a).mem.paused ==> s.mem.paused;
  }

  lemma AdmittedDrain(m: Mem, h: History, pc: Pc, a: DrainAction)
    requires Fits(m, pc, a) && Admitted(m, Some(pc), h)
    ensures Admitted(NextMem(m, pc, a), if a.DoEndDrain? then None else Some(NextPc(m, h, pc, a)), NextHist(m, h, pc, a))
  {
  }

  // ---- rows only move forward --------------------------------------------------------

  /** Rows are never removed or re-addressed, and a row that ended stays as it ended. */
  ghost predicate RowsMove(rows: Rows, rows': Rows) {
    forall id | id in rows :: id in rows' && rows'[id].kind == rows[id].kind && (Terminal(rows[id].status) ==> rows'[id] == rows[id])
  }

  lemma RowsMoveStep(s: Sys, step: Step)
    requires Enabled(s, step) && OneConsumer(s) && Ordered(s)
    ensures RowsMove(s.mem.rows, Apply(s, step).mem.rows)
  {
    match step
    case Start(t, a) => RowsMoveStart(s, t, a);
    case Drain(t, a) =>
      OneConsumerDrain(s, t, a);
      RowsMoveDrain(s.mem, s.hist, s.threads[t], a);
    case Outside(a) => RowsMoveOutside(s, a);
  }

  lemma RowsMoveStart(s: Sys, t: Tid, a: StartAction)
    requires StartEnabled(s, t, a) && Ordered(s)
    ensures RowsMove(s.mem.rows, ApplyStart(s, t, a).mem.rows)
  {
    StartMemory(s, t, a);
  }

  lemma RowsMoveDrain(m: Mem, h: History, pc: Pc, a: DrainAction)
    requires Fits(m, pc, a) && RowsOwned(m, Some(pc), h)
    ensures RowsMove(m.rows, NextMem(m, pc, a).rows)
  {
  }

  lemma RowsMoveOutside(s: Sys, a: OutsideAction)
    requires OutsideEnabled(s, a)
    ensures ApplyOutside(s, a).mem.rows == s.mem.rows
  {
  }
}
