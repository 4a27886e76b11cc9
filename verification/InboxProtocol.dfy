/**
  The inbox protocol as a transition system: any number of goroutines, each between
  two atomic sections, over one agent's memory.

  A goroutine is what the runtime starts: a caller that enqueued and still has to
  run `start`, the consumer loop `drain`, the tail of a consumer that has ended, and
  the goroutine that ends a pause. Every control point below is a place where
  another goroutine may run. `History` records what happened; no step reads it.
*/
module InboxProtocol {
  import opened Basics
  import opened InboxMemory

  type Tid = nat

  /**
    Where a goroutine stands. `gen` is the generation its consumer captured, `owed`
    the outcome it still has to hand to a waiting caller, `epoch` the number of
    pauses begun when the message passed its hold check.
  */
  datatype Pc =
    | AtHoldStart(owed: Option<MsgId>)
    | AtTestAndSet(owed: Option<MsgId>)
    | AtTakeReclaim(gen: nat)
    | AtRequeueRunning(gen: nat)
    | AtClaim(gen: nat)
    | AtHoldCheck(gen: nat, id: MsgId)
    | AtPutBack(gen: nat, id: MsgId)
    | AtTakeWaiter(gen: nat, id: MsgId, epoch: nat)
    | AtHandle(gen: nat, id: MsgId, epoch: nat, waited: bool)
    | Handling(gen: nat, id: MsgId, waited: bool)
    | AtDryCheck(gen: nat, id: MsgId)
    | AtDeliver(gen: nat, id: MsgId)
    | AtEndDrain(gen: nat, owed: Option<MsgId>, putBack: bool)
    | AtDrained(owed: Option<MsgId>)
    | AtRelease(id: MsgId)
    | AtSwapHeld

  predicate IsConsumer(pc: Pc) {
    pc.AtTakeReclaim? || pc.AtRequeueRunning? || pc.AtClaim? || pc.AtHoldCheck? || pc.AtPutBack? ||
    pc.AtTakeWaiter? || pc.AtHandle? || pc.Handling? || pc.AtDryCheck? || pc.AtDeliver? || pc.AtEndDrain?
  }

  predicate IsStarter(pc: Pc) {
    pc.AtHoldStart? || pc.AtTestAndSet?
  }

  /** A caller waiting for its receipt's outcome. */
  datatype Caller = Waiting | Got(outcome: MsgId) | GaveUp

  /**
    What happened so far. `handled` and `finished` are the ids handed to the handler
    and recorded as ended, oldest first; `base` is where the current process begins
    in `handled`; `cut` are the rows some crash left running; `owner` is the
    goroutine whose test-and-set took the consumer flag; `pauses`, `claims` and
    `reclaims` count pauses begun and, in this process, claims and take-backs.
    `started` says the agent has been started in this process, `lapsed` that its
    latest start was lost (see `TestAndSetLapses`).
  */
  datatype History = History(
    handled: seq<MsgId>,
    finished: seq<MsgId>,
    base: nat,
    cut: set<MsgId>,
    owner: Option<Tid>,
    pauses: nat,
    claims: nat,
    reclaims: nat,
    started: bool,
    lapsed: bool)

  datatype Sys = Sys(
    mem: Mem,
    threads: map<Tid, Pc>,
    callers: map<MsgId, Caller>,
    chans: map<MsgId, seq<MsgId>>,
    hist: History)

  const INIT := Sys(FRESH, map[], map[], map[], History([], [], 0, {}, None, 0, 0, 0, false, false))

  /** What a goroutine does before it is a consumer, or once it no longer is one. */
  datatype StartAction =
    | DoEnqueue(kind: Kind, waited: bool)
    | DoBootStart
    | DoHoldStart
    | DoTestAndSet(spawned: Tid)
    | DoDrained
    | DoRelease
    | DoEndPause
    | DoSwapHeld

  /** The sections of the consumer loop. */
  datatype DrainAction =
    | DoTakeReclaim
    | DoRequeueRunning
    | DoClaim(found: Option<MsgId>)
    | DoHoldCheck
    | DoPutBack
    | DoTakeWaiter
    | DoHandle
    | DoFinish(failed: bool, cancelled: bool)
    | DoDryCheck
    | DoDeliver
    | DoEndDrain

  /** What everybody else does: the pause, waiting callers, other agents, the crash. */
  datatype OutsideAction =
    | DoBeginPause
    | DoReceive(id: MsgId)
    | DoCancel(id: MsgId)
    | DoDropWaiter(id: MsgId)
    | DoOtherAgent(skip: nat)
    | DoCrash

  datatype Step =
    | Start(t: Tid, start: StartAction)
    | Drain(t: Tid, drain: DrainAction)
    | Outside(outside: OutsideAction)

  // ---- when a step can happen ------------------------------------------------

  ghost predicate Enabled(s: Sys, step: Step) {
    match step
    case Start(t, a) => StartEnabled(s, t, a)
    case Drain(t, a) => DrainEnabled(s, t, a)
    case Outside(a) => OutsideEnabled(s, a)
  }

  predicate StartEnabled(s: Sys, t: Tid, a: StartAction) {
    match a
    case DoEnqueue(_, _) => t !in s.threads
    case DoBootStart => t !in s.threads
    case DoHoldStart => t in s.threads && s.threads[t].AtHoldStart?
    case DoTestAndSet(u) => t in s.threads && s.threads[t].AtTestAndSet? && u !in s.threads
    case DoDrained => t in s.threads && s.threads[t].AtDrained?
    case DoRelease => t in s.threads && s.threads[t].AtRelease? && CanSend(s, s.threads[t].id)
    case DoEndPause => t !in s.threads && s.mem.paused
    case DoSwapHeld => t in s.threads && s.threads[t].AtSwapHeld?
  }

  ghost predicate DrainEnabled(s: Sys, t: Tid, a: DrainAction) {
    t in s.threads && Fits(s.mem, s.threads[t], a) && (a.DoDeliver? ==> CanSend(s, s.threads[t].id))
  }

  /** The section `a` is the next one of a consumer that stands at `pc`. */
  ghost predicate Fits(m: Mem, pc: Pc, a: DrainAction) {
    match a
    case DoTakeReclaim => pc.AtTakeReclaim?
    case DoRequeueRunning => pc.AtRequeueRunning?
    case DoClaim(found) => pc.AtClaim? && IsNextClaim(m.rows, found)
    case DoHoldCheck => pc.AtHoldCheck? && pc.id in m.rows
    case DoPutBack => pc.AtPutBack? && pc.id in m.rows
    case DoTakeWaiter => pc.AtTakeWaiter?
    case DoHandle => pc.AtHandle?
    case DoFinish(_, _) => pc.Handling? && pc.id in m.rows
    case DoDryCheck => pc.AtDryCheck?
    case DoDeliver => pc.AtDeliver?
    case DoEndDrain => pc.AtEndDrain?
  }

  predicate OutsideEnabled(s: Sys, a: OutsideAction) {
    match a
    case DoReceive(id) => id in s.callers && s.callers[id] == Waiting && id in s.chans && s.chans[id] != []
    case DoCancel(id) => id in s.callers && s.callers[id] == Waiting
    case DoDropWaiter(id) => id in s.callers && s.callers[id] == GaveUp
    case _ => true
  }

  /** A waiter's channel has one slot: a send goes through only while it is empty. */
  predicate CanSend(s: Sys, id: MsgId) {
    id in s.chans && |s.chans[id]| < 1
  }

  // ---- what a step does ------------------------------------------------------

  function At(s: Sys, t: Tid, pc: Pc): Sys {
    s.(threads := s.threads[t := pc])
  }

  /** The goroutine leaves `start`: it hands over the outcome it carries, or is gone. */
  function Resume(s: Sys, t: Tid, owed: Option<MsgId>): Sys {
    match owed
    case None => s.(threads := s.threads - {t})
    case Some(id) => At(s, t, AtRelease(id))
  }

  /**
    The one start that is lost: it finds the consumer flag still set, while the
    consumer that holds it has decided to put its message back and leave, and
    nothing was enqueued since that consumer captured its generation.
  */
  predicate TestAndSetLapses(s: Sys) {
    s.mem.running && s.hist.owner.Some? && s.hist.owner.value in s.threads &&
    var pc := s.threads[s.hist.owner.value];
    LeavingHeld(pc) && pc.gen == s.mem.gen
  }

  predicate LeavingHeld(pc: Pc) {
    pc.AtPutBack? || (pc.AtEndDrain? && pc.putBack)
  }

  function NewStart(h: History): History {
    h.(started := true, lapsed := false)
  }

  function Apply(s: Sys, step: Step): Sys
    requires Enabled(s, step)
  {
    match step
    case Start(t, a) => ApplyStart(s, t, a)
    case Drain(t, a) => ApplyDrain(s, t, a)
    case Outside(a) => ApplyOutside(s, a)
  }

  function ApplyStart(s: Sys, t: Tid, a: StartAction): Sys
    requires StartEnabled(s, t, a)
  {
    match a
    case DoEnqueue(kind, waited) =>
      var id := s.mem.nextId;
      At(s, t, AtHoldStart(None)).(
        mem := Enqueue(s.mem, kind, waited),
        callers := if waited then s.callers[id := Waiting] else s.callers,
        chans := if waited then s.chans[id := []] else s.chans,
        hist := NewStart(s.hist))
    case DoBootStart =>
      At(s, t, AtHoldStart(None)).(hist := NewStart(s.hist))
    case DoHoldStart =>
      var owed := s.threads[t].owed;
      if s.mem.paused then
        Resume(s, t, owed).(mem := HoldStart(s.mem), hist := s.hist.(lapsed := false))
      else At(s, t, AtTestAndSet(owed))
    case DoTestAndSet(u) =>
      var owed := s.threads[t].owed;
      if s.mem.running then
        Resume(s, t, owed).(hist := s.hist.(lapsed := s.hist.lapsed || TestAndSetLapses(s)))
      else
        At(Resume(s, t, owed), u, AtTakeReclaim(s.mem.gen)).(
          mem := TestAndSet(s.mem), hist := s.hist.(owner := Some(u), lapsed := false))
    case DoDrained =>
      Resume(s, t, s.threads[t].owed)
    case DoRelease =>
      var id := s.threads[t].id;
      s.(threads := s.threads - {t}, chans := Send(s.chans, id))
    case DoEndPause =>
      At(s, t, AtSwapHeld).(mem := EndPause(s.mem))
    case DoSwapHeld =>
      if s.mem.held then At(s, t, AtHoldStart(None)).(mem := SwapHeld(s.mem), hist := NewStart(s.hist))
      else s.(threads := s.threads - {t})
  }

  function ApplyDrain(s: Sys, t: Tid, a: DrainAction): Sys
    requires DrainEnabled(s, t, a)
  {
    var pc := s.threads[t];
    Sys(NextMem(s.mem, pc, a),
        s.threads[t := NextPc(s.mem, s.hist, pc, a)],
        s.callers,
        if a.DoDeliver? then Send(s.chans, pc.id) else s.chans,
        NextHist(s.mem, s.hist, pc, a))
  }

  function Send(chans: map<MsgId, seq<MsgId>>, id: MsgId): map<MsgId, seq<MsgId>>
    requires id in chans
  {
    chans[id := chans[id] + [id]]
  }

  function NextPc(m: Mem, h: History, pc: Pc, a: DrainAction): Pc
    requires Fits(m, pc, a)
  {
    match a
    case DoTakeReclaim => if m.reclaimed then AtClaim(pc.gen) else AtRequeueRunning(pc.gen)
    case DoRequeueRunning => AtClaim(pc.gen)
    case DoClaim(None) => AtEndDrain(pc.gen, None, false)
    case DoClaim(Some(id)) => AtHoldCheck(pc.gen, id)
    case DoHoldCheck => if HeldBack(m, pc.id) then AtPutBack(pc.gen, pc.id) else AtTakeWaiter(pc.gen, pc.id, h.pauses)
    case DoPutBack => AtEndDrain(pc.gen, None, true)
    case DoTakeWaiter => AtHandle(pc.gen, pc.id, pc.epoch, pc.id in m.waiters)
    case DoHandle => Handling(pc.gen, pc.id, pc.waited)
    case DoFinish(_, _) => if pc.waited then AtDryCheck(pc.gen, pc.id) else AtClaim(pc.gen)
    case DoDryCheck => if AnyQueued(m.rows) then AtDeliver(pc.gen, pc.id) else AtEndDrain(pc.gen, Some(pc.id), false)
    case DoDeliver => AtClaim(pc.gen)
    case DoEndDrain => if m.gen != pc.gen then AtHoldStart(pc.owed) else AtDrained(pc.owed)
  }

  function NextMem(m: Mem, pc: Pc, a: DrainAction): Mem
    requires Fits(m, pc, a)
  {
    match a
    case DoTakeReclaim => TakeReclaim(m)
    case DoRequeueRunning => RequeueRunning(m)
    case DoClaim(Some(id)) => SetStatus(m, id, Running)
    case DoHoldCheck => if HeldBack(m, pc.id) then HoldStart(m) else m
    case DoPutBack => SetStatus(m, pc.id, Queued)
    case DoTakeWaiter => TakeWaiter(m, pc.id)
    case DoFinish(failed, cancelled) => SetStatus(m, pc.id, EndStatus(failed, cancelled))
    case DoEndDrain => EndDrain(m)
    case _ => m
  }

  function NextHist(m: Mem, h: History, pc: Pc, a: DrainAction): History
    requires Fits(m, pc, a)
  {
    match a
    case DoRequeueRunning => h.(reclaims := h.reclaims + 1)
    case DoClaim(Some(_)) => h.(claims := h.claims + 1)
    case DoHoldCheck => if HeldBack(m, pc.id) then h.(lapsed := false) else h
    case DoHandle => h.(handled := h.handled + [pc.id])
    case DoFinish(_, _) => h.(finished := h.finished + [pc.id])
    case DoEndDrain => h.(owner := None)
    case _ => h
  }

  /** The hold check of a consumer: new runs wait while the runtime is paused. */
  predicate HeldBack(m: Mem, id: MsgId)
    requires id in m.rows
  {
    IsNewRun(m.rows[id].kind) && m.paused
  }

  function ApplyOutside(s: Sys, a: OutsideAction): Sys
    requires OutsideEnabled(s, a)
  {
    match a
    case DoBeginPause =>
      s.(mem := BeginPause(s.mem),
         hist := if s.mem.paused then s.hist else s.hist.(pauses := s.hist.pauses + 1))
    case DoReceive(id) =>
      s.(callers := s.callers[id := Got(s.chans[id][0])], chans := s.chans[id := s.chans[id][1..]])
    case DoCancel(id) =>
      s.(callers := s.callers[id := GaveUp])
    case DoDropWaiter(id) =>
      s.(mem := TakeWaiter(s.mem, id))
    case DoOtherAgent(skip) =>
      s.(mem := s.mem.(nextId := s.mem.nextId + skip))
    case DoCrash =>
      Sys(Crash(s.mem), map[], map[], map[],
          s.hist.(base := |s.hist.handled|,
                  cut := s.hist.cut + (set id | id in s.mem.rows && s.mem.rows[id].status == Running),
                  owner := None, claims := 0, reclaims := 0, started := false, lapsed := false))
  }

  // ---- runs ------------------------------------------------------------------

  /** `steps` takes `s` to `s'`, one enabled step after the other. */
  ghost predicate Run(s: Sys, steps: seq<Step>, s': Sys)
    decreases |steps|
  {
    if steps == [] then s' == s
    else Enabled(s, steps[0]) && Run(Apply(s, steps[0]), steps[1..], s')
  }

  ghost predicate Reachable(s: Sys) {
    exists steps :: Run(INIT, steps, s)
  }
}
