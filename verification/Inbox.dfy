/**
  The inbox the runtime keeps: one table of messages and one set of per-agent fields.
  Each critical section is a method, proved to do to the agent's slice exactly what the
  protocol's section does, and to another agent's slice nothing but hand out an id.
*/
module Inbox {
  import opened Basics
  import opened InboxMemory
  import opened InboxProtocol

  type Agent = string

  datatype Stored = Stored(agent: Agent, row: Row)

  function RowsOf(table: map<MsgId, Stored>, a: Agent): Rows {
    map id | id in table && table[id].agent == a :: table[id].row
  }

  function Flag(flags: map<Agent, bool>, a: Agent): bool {
    a in flags && flags[a]
  }

  function Count(counts: map<Agent, nat>, a: Agent): nat {
    if a in counts then counts[a] else 0
  }

  function WaitersOf(table: map<MsgId, Stored>, waiters: set<MsgId>, a: Agent): set<MsgId> {
    set id | id in waiters && id in table && table[id].agent == a
  }

  lemma UpdateRow(table: map<MsgId, Stored>, id: MsgId, agent: Agent, row: Row, waiters: set<MsgId>, a: Agent)
    requires id in table ==> table[id].agent == agent
    requires id !in table ==> id !in waiters
    ensures RowsOf(table[id := Stored(agent, row)], a) == if a == agent then RowsOf(table, a)[id := row] else RowsOf(table, a)
    ensures WaitersOf(table[id := Stored(agent, row)], waiters, a) == WaitersOf(table, waiters, a)
  {
  }

  lemma NewRow(table: map<MsgId, Stored>, id: MsgId, agent: Agent, row: Row, waiters: set<MsgId>, waited: bool, a: Agent)
    requires id !in table && waiters <= table.Keys
    ensures var table', waiters' := table[id := Stored(agent, row)], if waited then waiters + {id} else waiters;
            && RowsOf(table', a) == (if a == agent then RowsOf(table, a)[id := row] else RowsOf(table, a))
            && WaitersOf(table', waiters', a) == (if a == agent && waited then WaitersOf(table, waiters, a) + {id} else WaitersOf(table, waiters, a))
  {
  }

  /** The running rows of one agent are queued again. */
  function Requeued(table: map<MsgId, Stored>, agent: Agent): map<MsgId, Stored> {
    map id | id in table ::
      if table[id].agent == agent && table[id].row.status == Running then table[id].(row := table[id].row.(status := Queued))
      else table[id]
  }

  lemma RequeuedRows(table: map<MsgId, Stored>, agent: Agent, waiters: set<MsgId>, a: Agent)
    ensures RowsOf(Requeued(table, agent), a) ==
            if a == agent then map id | id in RowsOf(table, a) ::
                                 if RowsOf(table, a)[id].status == Running then RowsOf(table, a)[id].(status := Queued)
                                 else RowsOf(table, a)[id]
            else RowsOf(table, a)
    ensures WaitersOf(Requeued(table, agent), waiters, a) == WaitersOf(table, waiters, a)
  {
  }

  class Inbox {
    var table: map<MsgId, Stored>
    var nextId: MsgId
    var running: map<Agent, bool>
    var reclaim: map<Agent, bool>
    var gen: map<Agent, nat>
    var waiters: set<MsgId>
    var paused: bool
    var held: set<Agent>

    ghost predicate Valid()
      reads this
    {
      (forall id | id in table :: id < nextId) && waiters <= table.Keys
    }

    /** What the protocol of one agent sees of all this. */
    ghost function Slice(a: Agent): Mem
      reads this
    {
      Mem(RowsOf(table, a), nextId, Flag(running, a), Count(gen, a), a in held, WaitersOf(table, waiters, a),
          Flag(reclaim, a), paused)
    }

    twostate predicate OthersKept(a: Agent)
      reads this
    {
      forall b | b != a :: Slice(b) == old(Slice(b))
    }

    constructor (table: map<MsgId, Stored>, nextId: MsgId)
      requires forall id | id in table :: id < nextId
      ensures Valid()
      ensures forall a :: Slice(a) == Crash(Mem(RowsOf(table, a), nextId, false, 0, false, {}, false, false))
    {
      this.table, this.nextId := table, nextId;
      running, reclaim, gen, waiters, paused, held := map[], map[], map[], {}, false, {};
    }

    // ---- the sections ------------------------------------------------------------------

    /** The door: the row is written, its waiter registered and the generation bumped in one section. */
    method EnqueueRow(a: Agent, kind: Kind, waited: bool) returns (id: MsgId)
      requires Valid()
      modifies this
      ensures Valid() && id == old(nextId)
      ensures Slice(a) == Enqueue(old(Slice(a)), kind, waited)
      ensures forall b | b != a :: Slice(b) == old(Slice(b)).(nextId := old(nextId) + 1)
    {
      id := WriteRow(a, kind, waited);
      gen := gen[a := Count(gen, a) + 1];
    }

    method WriteRow(a: Agent, kind: Kind, waited: bool) returns (id: MsgId)
      requires Valid()
      modifies this`table, this`nextId, this`waiters
      ensures Valid() && id == old(nextId) && nextId == id + 1
      ensures forall b ::
                && RowsOf(table, b) == (if b == a then old(RowsOf(table, b))[id := Row(kind, Queued)] else old(RowsOf(table, b)))
                && WaitersOf(table, waiters, b) == old(WaitersOf(table, waiters, b)) + if b == a && waited then {id} else {}
    {
      id := nextId;
      forall b {
        NewRow(table, id, a, Row(kind, Queued), waiters, waited, b);
      }
      table, nextId := table[id := Stored(a, Row(kind, Queued))], id + 1;
      waiters := if waited then waiters + {id} else waiters;
    }

    method HoldStart(a: Agent) returns (mustWait: bool)
      modifies this`held
      ensures mustWait == paused && Slice(a) == InboxMemory.HoldStart(old(Slice(a))) && OthersKept(a)
    {
      mustWait := paused;
      if mustWait {
        held := held + {a};
      }
    }

    method TestAndSet(a: Agent) returns (took: Option<nat>)
      modifies this`running
      ensures took == if old(Slice(a)).running then None else Some(Slice(a).gen)
      ensures Slice(a) == InboxMemory.TestAndSet(old(Slice(a))) && OthersKept(a)
    {
      if Flag(running, a) {
        return None;
      }
      running := running[a := true];
      took := Some(Count(gen, a));
    }

    method SwapHeld() returns (agents: set<Agent>)
      modifies this`held
      ensures forall a :: Slice(a) == InboxMemory.SwapHeld(old(Slice(a))) && (a in agents <==> old(Slice(a)).held)
    {
      agents := held;
      held := {};
    }

    method TakeReclaim(a: Agent) returns (mine: bool)
      modifies this`reclaim
      ensures mine == !old(Slice(a)).reclaimed
      ensures Slice(a) == InboxMemory.TakeReclaim(old(Slice(a))) && OthersKept(a)
    {
      mine := !Flag(reclaim, a);
      reclaim := reclaim[a := true];
    }

    method RequeueRunningMessages(a: Agent)
      requires Valid()
      modifies this`table
      ensures Valid() && Slice(a) == RequeueRunning(old(Slice(a))) && OthersKept(a)
    {
      forall b {
        RequeuedRows(table, a, waiters, b);
      }
      table := Requeued(table, a);
    }

    /** Takes the agent's oldest queued message. */
    method ClaimNextMessage(a: Agent) returns (found: Option<MsgId>)
      requires Valid()
      modifies this`table
      ensures Valid() && IsNextClaim(old(Slice(a)).rows, found) && OthersKept(a)
      ensures Slice(a) == if found.Some? then SetStatus(old(Slice(a)), found.value, Running) else old(Slice(a))
      ensures found.Some? ==> found.value in table && table[found.value] == Stored(a, Slice(a).rows[found.value])
    {
      var queued := set id | id in table && table[id].agent == a && table[id].row.status == Queued;
      assert forall id :: id in queued <==> IsQueued(RowsOf(table, a), id);
      if queued == {} {
        return None;
      }
      var some :| some in queued;
      LeastExists(queued, some);
      var id :| id in queued && forall j | j in queued :: id <= j;
      SetRow(id, Running);
      found := Some(id);
    }

    method SetRow(id: MsgId, status: Status)
      requires Valid() && id in table
      modifies this`table
      ensures Valid() && table == old(table)[id := Stored(old(table)[id].agent, old(table)[id].row.(status := status))]
      ensures Slice(table[id].agent) == SetStatus(old(Slice(table[id].agent)), id, status) && OthersKept(table[id].agent)
    {
      var agent, row := table[id].agent, table[id].row.(status := status);
      forall b ensures RowsOf(table[id := Stored(agent, row)], b) ==
                       if b == agent then RowsOf(table, b)[id := row] else RowsOf(table, b)
               ensures WaitersOf(table[id := Stored(agent, row)], waiters, b) == WaitersOf(table, waiters, b)
      {
        UpdateRow(table, id, agent, row, waiters, b);
      }
      table := table[id := Stored(agent, row)];
    }

    method TakeWaiter(id: MsgId, ghost a: Agent) returns (waited: bool)
      requires Valid() && id in table && table[id].agent == a
      modifies this`waiters
      ensures Valid() && waited == (id in old(Slice(a)).waiters)
      ensures Slice(a) == InboxMemory.TakeWaiter(old(Slice(a)), id) && OthersKept(a)
    {
      waited := id in waiters;
      waiters := waiters - {id};
      assert forall b :: WaitersOf(table, waiters, b) == old(Slice(b)).waiters - {id};
      assert forall b | b != a :: id !in old(Slice(b)).waiters;
    }

    method QueueIsDry(a: Agent) returns (dry: bool)
      ensures dry == !AnyQueued(Slice(a).rows)
    {
      dry := forall id | id in table && table[id].agent == a :: table[id].row.status != Queued;
      assert forall id :: id in RowsOf(table, a) <==> id in table && table[id].agent == a;
    }

    method ClearRunning(a: Agent, g: nat) returns (arrived: bool)
      modifies this`running
      ensures arrived == (old(Slice(a)).gen != g) && Slice(a) == EndDrain(old(Slice(a))) && OthersKept(a)
    {
      running := running[a := false];
      arrived := Count(gen, a) != g;
    }

    /** How many open messages the agent still has in front of this one. */
    method CountMessagesAhead(a: Agent, id: MsgId) returns (n: nat)
      ensures n == |set j | j in Slice(a).rows && j < id && Open(Slice(a).rows[j])|
    {
      var ahead := set j | j in table && table[j].agent == a && j < id && Open(table[j].row);
      assert ahead == set j | j in Slice(a).rows && j < id && Open(Slice(a).rows[j]);
      n := |ahead|;
    }

    // ---- the operations ------------------------------------------------------------------

    /** Makes sure the agent has a consumer: the answer is the generation of the one to spawn. */
    method Start(a: Agent) returns (spawn: Option<nat>)
      modifies this`held, this`running
      ensures OthersKept(a)
      ensures var m := old(Slice(a));
              && spawn == (if m.paused || m.running then None else Some(m.gen))
              && Slice(a) == if m.paused then m.(held := true) else m.(running := true)
    {
      var mustWait := HoldStart(a);
      if mustWait {
        return None;
      }
      spawn := TestAndSet(a);
    }

    /** Writes the message and starts its agent. */
    method EnqueueMessage(a: Agent, kind: Kind, waited: bool) returns (id: MsgId, spawn: Option<nat>)
      requires Valid()
      modifies this
      ensures Valid() && id == old(nextId)
      ensures var m := Enqueue(old(Slice(a)), kind, waited);
              && spawn == (if m.paused || m.running then None else Some(m.gen))
              && Slice(a) == if m.paused then m.(held := true) else m.(running := true)
      ensures forall b | b != a :: Slice(b) == old(Slice(b)).(nextId := old(nextId) + 1)
    {
      id := EnqueueRow(a, kind, waited);
      spawn := Start(a);
    }

    /** The pause is over: every agent held back is started, unless it has a consumer already. */
    method ResumePaused() returns (spawned: map<Agent, nat>)
      requires !paused
      modifies this`held, this`running
      ensures forall a :: Slice(a) == old(Slice(a)).(held := false, running := old(Slice(a)).running || old(Slice(a)).held)
      ensures forall a :: a in spawned <==> old(Slice(a)).held && !old(Slice(a)).running
      ensures forall a | a in spawned :: spawned[a] == Slice(a).gen
    {
      var rest := SwapHeld();
      spawned := map[];
      ghost var all := rest;
      while rest != {}
        invariant rest <= all && forall a :: a in all <==> old(Slice(a)).held
        invariant forall a :: Slice(a) == old(Slice(a)).(held := false, running := old(Slice(a)).running || a in all - rest)
        invariant forall a :: a in spawned <==> a in all - rest && !old(Slice(a)).running
        invariant forall a | a in spawned :: spawned[a] == Slice(a).gen
        decreases rest
      {
        var a :| a in rest;
        var spawn := Start(a);
        if spawn.Some? {
          spawned := spawned[a := spawn.value];
        }
        rest := rest - {a};
      }
    }

    /** A drain for a restart begins, or is announced again. */
    method BeginDrain()
      modifies this`paused
      ensures forall a :: Slice(a) == BeginPause(old(Slice(a)))
    {
      paused := true;
    }

    /** The drain ends without a restart: what it held back starts. One that is not on changes nothing. */
    method FinishDrain() returns (spawned: map<Agent, nat>)
      modifies this`paused, this`held, this`running
      ensures !old(paused) ==> spawned == map[] && forall a :: Slice(a) == old(Slice(a))
      ensures old(paused) ==>
                && (forall a :: Slice(a) == EndPause(old(Slice(a))).(held := false,
                                                                     running := old(Slice(a)).running || old(Slice(a)).held))
                && (forall a :: a in spawned <==> old(Slice(a)).held && !old(Slice(a)).running)
                && (forall a | a in spawned :: spawned[a] == Slice(a).gen)
    {
      if !paused {
        return map[];
      }
      paused := false;
      assert forall a :: Slice(a) == EndPause(old(Slice(a)));
      spawned := ResumePaused();
    }

    /** Runs one message: its waiter is taken, the handler answers, the row ends. */
    method Process(a: Agent, id: MsgId, answer: MsgId -> Answer, ghost c: Loop)
      returns (waited: bool, ghost path: seq<DrainAction>, ghost c': Loop)
      requires Valid() && id in table && table[id].agent == a
      requires c.mem == Slice(a) && c.pc.AtTakeWaiter? && c.pc.id == id
      modifies this`table, this`waiters
      ensures Valid() && OthersKept(a)
      ensures Path(c, path, c') && c'.mem == Slice(a)
      ensures waited == (id in c.mem.waiters)
      ensures c'.pc == if waited then AtDryCheck(c.pc.gen, id) else AtClaim(c.pc.gen)
      ensures c'.hist.handled == c.hist.handled + [id]
      ensures c'.mem.rows == c.mem.rows[id := c.mem.rows[id].(status := answer(id).Status())]
      ensures c'.mem == c.mem.(rows := c'.mem.rows, waiters := c.mem.waiters - {id})
      ensures Records(c'.mem.rows[id].status, answer(id))
    {
      path := [];
      waited := TakeWaiter(id, a);
      path, c' := Extend(c, path, c, DoTakeWaiter);
      path, c' := Extend(c, path, c', DoHandle);
      var ans := answer(id);
      SetRow(id, ans.Status());
      path, c' := Extend(c, path, c', DoFinish(ans.failed, ans.cancelled));
    }

    /** The hold check of a claimed message; a message that must wait is put back. */
    method Admit(a: Agent, id: MsgId, ghost c0: Loop, ghost path0: seq<DrainAction>, ghost c: Loop)
      returns (admitted: bool, ghost path: seq<DrainAction>, ghost c': Loop)
      requires Valid() && id in table && table[id].agent == a
      requires c.mem == Slice(a) && c.pc.AtHoldCheck? && c.pc.id == id && c.mem.rows[id].status == Running && Path(c0, path0, c)
      modifies this`table, this`held
      ensures Valid() && OthersKept(a) && id in table && table[id].agent == a
      ensures admitted == !HeldBack(c.mem, id)
      ensures Path(c0, path, c') && c'.mem == Slice(a) && c'.hist.handled == c.hist.handled
      ensures c'.pc == if admitted then AtTakeWaiter(c.pc.gen, id, c.hist.pauses) else AtEndDrain(c.pc.gen, None, true)
      ensures c'.mem == if admitted then c.mem else SetStatus(c.mem, id, Queued).(held := true)
    {
      admitted := true;
      if IsNewRun(table[id].row.kind) {
        var mustWait := HoldStart(a);
        admitted := !mustWait;
      }
      path, c' := Extend(c0, path0, c, DoHoldCheck);
      if !admitted {
        SetRow(id, Queued);
        path, c' := Extend(c0, path, c', DoPutBack);
      }
    }

    /** One turn of the consumer loop, from a claim to the next or to the end of the drain;
        `tell` is the caller whose outcome the turn has. */
    method Turn(a: Agent, answer: MsgId -> Answer, ghost c: Loop)
      returns (ran: Option<MsgId>, more: bool, tell: Option<MsgId>, ghost path: seq<DrainAction>, ghost c': Loop)
      requires Valid() && c.mem == Slice(a) && c.pc.AtClaim?
      modifies this`table, this`waiters, this`held
      ensures Valid() && OthersKept(a)
      ensures Path(c, path, c') && c'.mem == Slice(a)
      ensures c'.pc == if more then c.pc else AtEndDrain(c.pc.gen, tell, ran == None && AnyQueued(c.mem.rows))
      ensures TurnTook(c.mem, ran, more, tell, c'.mem, answer)
      ensures c'.hist.handled == c.hist.handled + OneIf(ran)
    {
      ran, more, tell, path := None, false, None, [];
      var found := ClaimNextMessage(a);
      path, c' := Extend(c, path, c, DoClaim(found));
      if found.Some? {
        ran, more, tell, path, c' := Claimed(a, found.value, answer, c, path, c');
      }
    }

    method Claimed(a: Agent, id: MsgId, answer: MsgId -> Answer, ghost c0: Loop, ghost path0: seq<DrainAction>, ghost c: Loop)
      returns (ran: Option<MsgId>, more: bool, tell: Option<MsgId>, ghost path: seq<DrainAction>, ghost c': Loop)
      requires Valid() && id in table && table[id].agent == a && c.mem == Slice(a) && Path(c0, path0, c)
      requires c0.pc.AtClaim? && IsNextClaim(c0.mem.rows, Some(id)) && c == After(c0, DoClaim(Some(id)))
      modifies this`table, this`waiters, this`held
      ensures Valid() && OthersKept(a)
      ensures Path(c0, path, c') && c'.mem == Slice(a)
      ensures c'.pc == if more then c0.pc else AtEndDrain(c0.pc.gen, tell, ran == None)
      ensures TurnTook(c0.mem, ran, more, tell, c'.mem, answer)
      ensures c'.hist.handled == c0.hist.handled + OneIf(ran)
    {
      ran, more, tell := None, false, None;
      var admitted;
      admitted, path, c' := Admit(a, id, c0, path0, c);
      if admitted {
        more, tell, path, c' := Deliver(a, id, answer, c0, path, c');
        ran := Some(id);
      }
      TurnIs(c0.mem, id, admitted, more, tell, c'.mem, answer);
    }

    /** Runs an admitted message and hands its outcome over; on a dry queue the caller waits for the end. */
    method Deliver(a: Agent, id: MsgId, answer: MsgId -> Answer, ghost c0: Loop, ghost path0: seq<DrainAction>, ghost c: Loop)
      returns (more: bool, tell: Option<MsgId>, ghost path: seq<DrainAction>, ghost c': Loop)
      requires Valid() && id in table && table[id].agent == a
      requires c.mem == Slice(a) && c.pc.AtTakeWaiter? && c.pc.id == id && Path(c0, path0, c)
      modifies this`table, this`waiters
      ensures Valid() && OthersKept(a)
      ensures Path(c0, path, c') && c'.mem == Slice(a)
      ensures c'.pc == if more then AtClaim(c.pc.gen) else AtEndDrain(c.pc.gen, tell, false)
      ensures c'.mem == c.mem.(rows := c.mem.rows[id := c.mem.rows[id].(status := answer(id).Status())],
                               waiters := c.mem.waiters - {id})
      ensures tell == if id in c.mem.waiters then Some(id) else None
      ensures !more ==> tell.Some? && !AnyQueued(c'.mem.rows)
      ensures c'.hist.handled == c.hist.handled + [id]
    {
      var waited;
      ghost var tail;
      waited, tail, c' := Process(a, id, answer, c);
      path := Join(c0, path0, c, tail, c');
      more, tell := true, None;
      if waited {
        var dry := QueueIsDry(a);
        path, c' := Extend(c0, path, c', DoDryCheck);
        more, tell := !dry, Some(id);
        if more {
          path, c' := Extend(c0, path, c', DoDeliver);
        }
      }
    }

    /** The claims of a process that is gone are taken back, once. */
    method Reclaim(a: Agent, ghost c: Loop) returns (ghost path: seq<DrainAction>, ghost c': Loop)
      requires Valid() && c.mem == Slice(a) && c.pc.AtTakeReclaim?
      modifies this`table, this`reclaim
      ensures Valid() && OthersKept(a)
      ensures Path(c, path, c') && c'.mem == Slice(a) && c'.mem == Reclaimed(c.mem)
      ensures c'.pc == AtClaim(c.pc.gen) && c'.hist.handled == c.hist.handled
    {
      var mine := TakeReclaim(a);
      path, c' := Extend(c, [], c, DoTakeReclaim);
      if mine {
        RequeueRunningMessages(a);
        path, c' := Extend(c, path, c', DoRequeueRunning);
      }
    }

    /** Turn after turn, until the queue is dry or its next message must wait. */
    method Turns(a: Agent, answer: MsgId -> Answer, ghost c: Loop)
      returns (handled: seq<MsgId>, told: seq<MsgId>, ghost path: seq<DrainAction>, ghost end: Loop)
      requires Valid() && c.mem == Slice(a) && c.pc.AtClaim?
      modifies this`table, this`waiters, this`held
      ensures Valid() && OthersKept(a)
      ensures Path(c, path, end) && end.mem == Slice(a)
      ensures end.pc.AtEndDrain? && end.pc.gen == c.pc.gen
      ensures end.hist.handled == c.hist.handled + handled
      ensures SoFar(c.mem, handled, told, Slice(a), answer) && NothingLeft(Slice(a))
    {
      handled, told, path, end := [], [], [], c;
      SoFarStart(c.mem, answer);
      var more := true;
      while more
        invariant Valid() && OthersKept(a) && end.mem == Slice(a)
        invariant if more then end.pc == c.pc else end.pc.AtEndDrain? && end.pc.gen == c.pc.gen
        invariant Going(c, handled, told, path, end, answer)
        invariant !more ==> NothingLeft(end.mem)
        decreases if more then 1 + |QueuedIds(end.mem.rows)| else 0
      {
        ghost var tail, mid := path, end;
        var ran, tell;
        ran, more, tell, tail, end := Turn(a, answer, mid);
        path := GoOn(c, handled, told, path, mid, ran, more, tell, tail, end, answer);
        handled, told := handled + OneIf(ran), told + OneIf(tell);
      }
    }

    /** The whole consumer, run with nobody else at work: `handled` are the messages it ran, `told`
        those of them somebody waited for, and `arrived` says a message landed meanwhile. */
    method Drain(a: Agent, g: nat, answer: MsgId -> Answer, ghost h: History)
      returns (handled: seq<MsgId>, told: seq<MsgId>, arrived: bool, ghost path: seq<DrainAction>, ghost end: Loop)
      requires Valid()
      modifies this`table, this`waiters, this`held, this`reclaim, this`running
      ensures Valid() && OthersKept(a)
      ensures Path(Loop(old(Slice(a)), AtTakeReclaim(g), h), path, end) && end.mem == Slice(a)
      ensures if arrived then end.pc.AtHoldStart? else end.pc.AtDrained?
      ensures end.hist.handled == h.handled + handled
      ensures Slice(a).running == false && arrived == (old(Slice(a)).gen != g)
      ensures RanThrough(Reclaimed(old(Slice(a))), handled, told, Slice(a), answer)
    {
      ghost var c := Loop(Slice(a), AtTakeReclaim(g), h);
      ghost var tail, mid;
      path, mid := Reclaim(a, c);
      handled, told, tail, end := Turns(a, answer, mid);
      RanToTheEnd(mid.mem, handled, told, end.mem, answer);
      path := Join(c, path, mid, tail, end);
      arrived := ClearRunning(a, g);
      path, end := Extend(c, path, end, DoEndDrain);
    }
  }

  // ---- the consumer loop as a path of the protocol ---------------------------------------

  /** How a handler ended: with an error or not, its context cancelled or not. */
  datatype Answer = Answer(failed: bool, cancelled: bool) {
    function Status(): Status { EndStatus(failed, cancelled) }
  }

  /** What the protocol's consumer sections read and write. */
  datatype Loop = Loop(mem: Mem, pc: Pc, hist: History)

  function After(c: Loop, a: DrainAction): Loop
    requires Fits(c.mem, c.pc, a)
  {
    Loop(NextMem(c.mem, c.pc, a), NextPc(c.mem, c.hist, c.pc, a), NextHist(c.mem, c.hist, c.pc, a))
  }

  /** `actions` takes a consumer that runs alone from `c` to `c'`. */
  ghost predicate Path(c: Loop, actions: seq<DrainAction>, c': Loop)
    decreases |actions|
  {
    if actions == [] then c' == c
    else
      var n := |actions| - 1;
      exists mid :: Path(c, actions[..n], mid) && Fits(mid.mem, mid.pc, actions[n]) && c' == After(mid, actions[n])
  }

  lemma Extend(c: Loop, actions: seq<DrainAction>, mid: Loop, a: DrainAction) returns (actions': seq<DrainAction>, c': Loop)
    requires Path(c, actions, mid) && Fits(mid.mem, mid.pc, a)
    ensures actions' == actions + [a] && c' == After(mid, a) && Path(c, actions', c')
  {
    actions', c' := actions + [a], After(mid, a);
    assert actions'[..|actions|] == actions;
  }

  lemma {:induction false} Join(c: Loop, actions: seq<DrainAction>, mid: Loop, tail: seq<DrainAction>, c': Loop)
    returns (joined: seq<DrainAction>)
    requires Path(c, actions, mid) && Path(mid, tail, c')
    ensures joined == actions + tail && Path(c, joined, c')
    decreases |tail|
  {
    joined := actions + tail;
    if tail == [] {
      assert joined == actions;
    } else {
      var n := |tail| - 1;
      var last :| Path(mid, tail[..n], last) && Fits(last.mem, last.pc, tail[n]) && c' == After(last, tail[n]);
      var front := Join(c, actions, mid, tail[..n], last);
      var whole, c'' := Extend(c, front, last, tail[n]);
      assert whole == joined;
    }
  }

  // ---- what a consumer that runs alone leaves ---------------------------------------------

  /** What one turn does to the agent's slice, and when it is the last. */
  ghost predicate TurnTook(m: Mem, ran: Option<MsgId>, more: bool, tell: Option<MsgId>, m': Mem, answer: MsgId -> Answer) {
    match ran
    case None =>
      && !more && tell == None
      && (forall next | IsNextClaim(m.rows, Some(next)) :: m.paused && IsNewRun(m.rows[next].kind))
      && m' == m.(held := m.held || AnyQueued(m.rows))
    case Some(id) =>
      && IsNextClaim(m.rows, ran) && !(m.paused && IsNewRun(m.rows[id].kind))
      && m' == m.(rows := m.rows[id := m.rows[id].(status := answer(id).Status())], waiters := m.waiters - {id})
      && tell == (if id in m.waiters then ran else None)
      && (!more ==> !AnyQueued(m'.rows))
  }

  function OneIf(o: Option<MsgId>): seq<MsgId> {
    match o
    case None => []
    case Some(id) => [id]
  }

  function Reclaimed(m: Mem): Mem {
    if m.reclaimed then m else RequeueRunning(TakeReclaim(m))
  }

  ghost function QueuedIds(rows: Rows): set<MsgId> {
    set id | id in rows && IsQueued(rows, id)
  }

  /** The rows once the messages in `handled` have ended as their handlers answered. */
  function EndedRows(rows: Rows, handled: seq<MsgId>, answer: MsgId -> Answer): Rows {
    map id | id in rows :: if id in handled then rows[id].(status := answer(id).Status()) else rows[id]
  }

  function Waited(handled: seq<MsgId>, waiters: set<MsgId>): seq<MsgId> {
    if handled == [] then []
    else Waited(handled[..|handled| - 1], waiters) +
         if handled[|handled| - 1] in waiters then [handled[|handled| - 1]] else []
  }

  /** Nothing is queued, or what comes next is a run the pause holds back. */
  ghost predicate NothingLeft(m: Mem) {
    forall next | IsNextClaim(m.rows, Some(next)) :: m.paused && IsNewRun(m.rows[next].kind) && m.held
  }

  /** The oldest queued messages have ended, in order; none was passed over. */
  ghost predicate SoFar(m0: Mem, handled: seq<MsgId>, told: seq<MsgId>, m: Mem, answer: MsgId -> Answer) {
    && (forall i, k | 0 <= i < k < |handled| :: handled[i] < handled[k])
    && (forall k | 0 <= k < |handled| :: IsQueued(m0.rows, handled[k]) && !(m0.paused && IsNewRun(m0.rows[handled[k]].kind)))
    && (forall j, k | IsQueued(m0.rows, j) && j !in handled && 0 <= k < |handled| :: handled[k] < j)
    && told == Waited(handled, m0.waiters)
    && m == m0.(rows := EndedRows(m0.rows, handled, answer), waiters := m.waiters, held := m.held)
    && (forall id :: id in m.waiters <==> id in m0.waiters && id !in handled)
  }

  /**
    A consumer alone ran, in order of arrival, exactly the messages that were queued - up to
    the first run that a pause holds back - and told exactly the callers that waited for them.
  */
  ghost predicate RanThrough(m0: Mem, handled: seq<MsgId>, told: seq<MsgId>, m: Mem, answer: MsgId -> Answer) {
    && (forall i, k | 0 <= i < k < |handled| :: handled[i] < handled[k])
    && (forall id :: id in handled <==> IsQueued(m0.rows, id) && !HeldUp(m0, id))
    && told == Waited(handled, m0.waiters)
    && m.rows == EndedRows(m0.rows, handled, answer)
    && (forall id | id in handled :: id in m.rows && Records(m.rows[id].status, answer(id)))
    && (AnyQueued(m.rows) ==> m.held)
  }

  /** A pause holds back a run that is queued before `id`, or `id` itself. */
  ghost predicate HeldUp(m: Mem, id: MsgId) {
    m.paused && exists j: MsgId :: j <= id && IsQueued(m.rows, j) && (m.rows[j].kind == Instruction || m.rows[j].kind == Observation)
  }

  /** A row ends as done if its handler gave no error; with one, as stopped if its context was cancelled
      and as failed if not. */
  predicate Records(status: Status, answer: Answer) {
    && (status == Done <==> !answer.failed)
    && (status == Stopped <==> answer.failed && answer.cancelled)
    && (status == Failed <==> answer.failed && !answer.cancelled)
  }

  lemma SoFarStart(m0: Mem, answer: MsgId -> Answer)
    ensures SoFar(m0, [], [], m0, answer)
  {
    assert EndedRows(m0.rows, [], answer) == m0.rows;
  }

  lemma QueuedNow(m0: Mem, handled: seq<MsgId>, told: seq<MsgId>, m: Mem, answer: MsgId -> Answer, j: MsgId)
    requires SoFar(m0, handled, told, m, answer)
    ensures IsQueued(m.rows, j) <==> IsQueued(m0.rows, j) && j !in handled
    ensures j in m.rows ==> m.rows[j].kind == m0.rows[j].kind
  {
  }

  ghost predicate Going(c: Loop, handled: seq<MsgId>, told: seq<MsgId>, path: seq<DrainAction>, end: Loop, answer: MsgId -> Answer) {
    && Path(c, path, end)
    && SoFar(c.mem, handled, told, end.mem, answer)
    && end.hist.handled == c.hist.handled + handled
  }

  lemma GoOn(c: Loop, handled: seq<MsgId>, told: seq<MsgId>, path: seq<DrainAction>, mid: Loop,
             ran: Option<MsgId>, more: bool, tell: Option<MsgId>, tail: seq<DrainAction>, end: Loop, answer: MsgId -> Answer)
    returns (path': seq<DrainAction>)
    requires Going(c, handled, told, path, mid, answer)
    requires Path(mid, tail, end) && TurnTook(mid.mem, ran, more, tell, end.mem, answer)
    requires end.hist.handled == mid.hist.handled + OneIf(ran)
    ensures Going(c, handled + OneIf(ran), told + OneIf(tell), path', end, answer)
    ensures !more ==> NothingLeft(end.mem)
    ensures more ==> |QueuedIds(end.mem.rows)| < |QueuedIds(mid.mem.rows)|
  {
    path' := Join(c, path, mid, tail, end);
    TurnGoesOn(c.mem, handled, told, mid.mem, ran, more, tell, end.mem, answer);
  }

  lemma TurnGoesOn(m0: Mem, handled: seq<MsgId>, told: seq<MsgId>, m: Mem,
                   ran: Option<MsgId>, more: bool, tell: Option<MsgId>, m': Mem, answer: MsgId -> Answer)
    requires SoFar(m0, handled, told, m, answer) && TurnTook(m, ran, more, tell, m', answer)
    ensures SoFar(m0, handled + OneIf(ran), told + OneIf(tell), m', answer)
    ensures !more ==> NothingLeft(m')
    ensures more ==> |QueuedIds(m'.rows)| < |QueuedIds(m.rows)|
  {
    match ran
    case None =>
      assert handled + [] == handled && told + [] == told;
    case Some(id) =>
      RanOne(m0, handled, told, m, id, m', answer);
      assert told + [] == told;
      OneLessQueued(m.rows, id, answer(id).Status());
  }

  lemma OneLessQueued(rows: Rows, id: MsgId, s: Status)
    requires IsQueued(rows, id) && s != Queued
    ensures |QueuedIds(rows[id := rows[id].(status := s)])| < |QueuedIds(rows)|
  {
    assert QueuedIds(rows[id := rows[id].(status := s)]) == QueuedIds(rows) - {id};
  }

  lemma RanOne(m0: Mem, handled: seq<MsgId>, told: seq<MsgId>, m: Mem, id: MsgId, m': Mem, answer: MsgId -> Answer)
    requires SoFar(m0, handled, told, m, answer)
    requires IsNextClaim(m.rows, Some(id)) && !(m.paused && IsNewRun(m.rows[id].kind))
    requires m' == m.(rows := m.rows[id := m.rows[id].(status := answer(id).Status())], waiters := m.waiters - {id})
    ensures SoFar(m0, handled + [id], if id in m.waiters then told + [id] else told, m', answer)
  {
    var handled' := handled + [id];
    QueuedNow(m0, handled, told, m, answer, id);
    assert handled'[..|handled|] == handled;
    assert told + [] == told;
    assert forall x :: x in handled' <==> x in handled || x == id;
    assert m'.rows == EndedRows(m0.rows, handled', answer);
    forall j | IsQueued(m0.rows, j) && j !in handled' ensures id < j {
      QueuedNow(m0, handled, told, m, answer, j);
    }
  }

  lemma RanToTheEnd(m0: Mem, handled: seq<MsgId>, told: seq<MsgId>, m: Mem, answer: MsgId -> Answer)
    requires SoFar(m0, handled, told, m, answer) && NothingLeft(m)
    ensures RanThrough(m0, handled, told, m, answer)
  {
    forall j ensures IsQueued(m.rows, j) <==> IsQueued(m0.rows, j) && j !in handled {
      QueuedNow(m0, handled, told, m, answer, j);
    }
    if AnyQueued(m.rows) {
      var next := NextClaim(m.rows);
      assert IsNewRun(m0.rows[next].kind) && m.held && m0.paused;
      forall id: MsgId | IsQueued(m0.rows, id) && id !in handled ensures HeldUp(m0, id) {
        assert next <= id;
      }
    }
    forall id | id in handled ensures IsQueued(m0.rows, id) && !HeldUp(m0, id) {
      NotHeldUp(m0, handled, told, m, answer, id);
    }
  }

  lemma NotHeldUp(m0: Mem, handled: seq<MsgId>, told: seq<MsgId>, m: Mem, answer: MsgId -> Answer, id: MsgId)
    requires SoFar(m0, handled, told, m, answer) && id in handled
    ensures IsQueued(m0.rows, id) && !HeldUp(m0, id)
  {
    var k :| 0 <= k < |handled| && handled[k] == id;
    assert forall j | IsQueued(m0.rows, j) && j !in handled :: id < j;
  }

  lemma NextClaim(rows: Rows) returns (next: MsgId)
    requires AnyQueued(rows)
    ensures IsNextClaim(rows, Some(next))
  {
    var some :| some in rows && IsQueued(rows, some);
    assert some in QueuedIds(rows);
    LeastExists(QueuedIds(rows), some);
    next :| next in QueuedIds(rows) && forall r | r in QueuedIds(rows) :: next <= r;
    forall j | IsQueued(rows, j) ensures next <= j {
      assert j in QueuedIds(rows);
    }
  }

  lemma TurnIs(m: Mem, id: MsgId, admitted: bool, more: bool, tell: Option<MsgId>, m': Mem, answer: MsgId -> Answer)
    requires IsNextClaim(m.rows, Some(id)) && admitted == !HeldBack(m, id)
    requires !admitted ==> !more && tell == None && m' == SetStatus(SetStatus(m, id, Running), id, Queued).(held := true)
    requires var m1 := SetStatus(m, id, Running);
             admitted ==> m' == m1.(rows := m1.rows[id := m1.rows[id].(status := answer(id).Status())], waiters := m1.waiters - {id})
    requires admitted ==> tell == (if id in m.waiters then Some(id) else None) && (!more ==> !AnyQueued(m'.rows))
    ensures TurnTook(m, if admitted then Some(id) else None, more, tell, m', answer)
  {
    if !admitted {
      assert m'.rows == m.rows;
    } else {
      assert m'.rows == m.rows[id := m.rows[id].(status := answer(id).Status())];
    }
  }
}
