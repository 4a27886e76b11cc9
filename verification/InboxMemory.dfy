/**
  The memory one agent's inbox protocol works on, and what each of its atomic
  sections does to it.

  A section is one critical region of the inbox's mutex, one call on the message
  store, or one critical region of the drain's mutex. The protocol
  (`InboxProtocol`) interleaves these sections; the class in `Inbox` runs them on
  the maps the runtime really keeps.
*/
module InboxMemory {
  import opened Basics

  type MsgId = nat

  datatype Kind = Instruction | Chat | Approval | Delegation | StopRecord | Observation

  /** The kinds a graceful drain holds back: those that start a new decision run. */
  predicate IsNewRun(k: Kind) {
    k == Instruction || k == Observation
  }

  datatype Status = Queued | Running | Done | Failed | Stopped

  predicate Terminal(s: Status) {
    s == Done || s == Failed || s == Stopped
  }

  /** How a message ends, from what its handler answered and whether it was cancelled. */
  function EndStatus(failed: bool, cancelled: bool): Status {
    if failed && cancelled then Stopped
    else if failed then Failed
    else Done
  }

  datatype Row = Row(kind: Kind, status: Status)

  type Rows = map<MsgId, Row>

  predicate Open(r: Row) {
    !Terminal(r.status)
  }

  /**
    One agent's slice: the durable rows (with the table's next id), the inbox's
    in-memory fields for that agent, and the drain's flag.
  */
  datatype Mem = Mem(
    rows: Rows,
    nextId: MsgId,
    running: bool,
    gen: nat,
    held: bool,
    waiters: set<MsgId>,
    reclaimed: bool,
    paused: bool)

  const FRESH := Mem(map[], 0, false, 0, false, {}, false, false)

  predicate IsQueued(rows: Rows, id: MsgId) {
    id in rows && rows[id].status == Queued
  }

  predicate IsOpen(rows: Rows, id: MsgId) {
    id in rows && Open(rows[id])
  }

  predicate AnyQueued(rows: Rows) {
    exists id | id in rows :: IsQueued(rows, id)
  }

  ghost predicate AnyOpen(rows: Rows) {
    exists id :: IsOpen(rows, id)
  }

  /** What a claim may answer: the oldest queued row, or nothing when there is none. */
  ghost predicate IsNextClaim(rows: Rows, found: Option<MsgId>) {
    match found
    case None => !AnyQueued(rows)
    case Some(id) => IsQueued(rows, id) && forall j :: IsQueued(rows, j) ==> id <= j
  }

  // ---- sections -------------------------------------------------------------

  function SetStatus(m: Mem, id: MsgId, s: Status): Mem
    requires id in m.rows
  {
    m.(rows := m.rows[id := m.rows[id].(status := s)])
  }

  function Enqueue(m: Mem, kind: Kind, waited: bool): Mem {
    m.(rows := m.rows[m.nextId := Row(kind, Queued)],
       nextId := m.nextId + 1,
       waiters := if waited then m.waiters + {m.nextId} else m.waiters,
       gen := m.gen + 1)
  }

  /** Remembers the agent when new runs are held; the answer is `m.paused`. */
  function HoldStart(m: Mem): Mem {
    if m.paused then m.(held := true) else m
  }

  /** Test-and-set of the consumer flag; it took effect when `!m.running`. */
  function TestAndSet(m: Mem): Mem {
    m.(running := true)
  }

  function SwapHeld(m: Mem): Mem {
    m.(held := false)
  }

  function TakeReclaim(m: Mem): Mem {
    m.(reclaimed := true)
  }

  function RequeueRunning(m: Mem): Mem {
    m.(rows := map id | id in m.rows ::
                 if m.rows[id].status == Running then m.rows[id].(status := Queued) else m.rows[id])
  }

  function TakeWaiter(m: Mem, id: MsgId): Mem {
    m.(waiters := m.waiters - {id})
  }

  function EndDrain(m: Mem): Mem {
    m.(running := false)
  }

  function BeginPause(m: Mem): Mem {
    m.(paused := true)
  }

  function EndPause(m: Mem): Mem {
    m.(paused := false)
  }

  /** A process dies: the rows stay, everything else is gone. */
  function Crash(m: Mem): Mem {
    FRESH.(rows := m.rows, nextId := m.nextId)
  }
}
