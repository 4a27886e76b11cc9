/** Callers that wait for a receipt: each gets one outcome, its own, and it is never lost. */
module InboxWaiters {
  import opened Basics
  import opened InboxMemory
  import opened InboxProtocol
  import opened InboxInvariants

  /** The waiting caller a goroutine still owes an outcome to. */
  function Carries(pc: Pc): Option<MsgId> {
    match pc
    case AtHandle(_, id, _, waited) => if waited then Some(id) else None
    case Handling(_, id, waited) => if waited then Some(id) else None
    case AtDryCheck(_, id) => Some(id)
    case AtDeliver(_, id) => Some(id)
    case AtEndDrain(_, owed, _) => owed
    case AtHoldStart(owed) => owed
    case AtTestAndSet(owed) => owed
    case AtDrained(owed) => owed
    case AtRelease(id) => Some(id)
    case _ => None
  }

  predicate CarriedBy(threads: map<Tid, Pc>, t: Tid, id: MsgId) {
    t in threads && Carries(threads[t]) == Some(id)
  }

  ghost predicate Carried(threads: map<Tid, Pc>, id: MsgId) {
    exists t :: CarriedBy(threads, t, id)
  }

  /** The consumer has already taken this message's waiter, or is about to find none. */
  predicate WaiterTaken(c: Option<Pc>, id: MsgId) {
    c.Some? && (c.value.AtHandle? || c.value.Handling?) && c.value.id == id
  }

  ghost predicate ChannelsOk(s: Sys) {
    && s.callers.Keys == s.chans.Keys
    && (forall id | id in s.callers ::
          && id in s.mem.rows
          && (s.chans[id] == [] || s.chans[id] == [id])
          && (s.callers[id].Got? ==> s.callers[id].outcome == id && s.chans[id] == [])
          && (s.callers[id] == Waiting ==> id in s.mem.waiters || Carried(s.threads, id) || s.chans[id] == [id]))
  }

  /** A caller nothing was delivered to yet. */
  predicate Empty(s: Sys, id: MsgId) {
    id in s.callers && !s.callers[id].Got? && id in s.chans && s.chans[id] == []
  }

  ghost predicate CarriersOk(s: Sys) {
    && (forall t, u, id | CarriedBy(s.threads, t, id) && CarriedBy(s.threads, u, id) :: t == u)
    && (forall t, id | CarriedBy(s.threads, t, id) :: Empty(s, id) && id !in s.mem.waiters)
  }

  ghost predicate WaitersOk(s: Sys) {
    forall id | id in s.mem.waiters :: Empty(s, id) && IsOpen(s.mem.rows, id) && !WaiterTaken(Consumer(s), id)
  }

  ghost predicate Waits(s: Sys) {
    ChannelsOk(s) && CarriersOk(s) && WaitersOk(s)
  }

  // ---- who owes what after a step ------------------------------------------------

  function CarriesAt(threads: map<Tid, Pc>, t: Tid): Option<MsgId> {
    if t in threads then Carries(threads[t]) else None
  }

  /** Only `t` may owe something else than before: now `now`. */
  ghost predicate Moved(threads: map<Tid, Pc>, threads': map<Tid, Pc>, t: Tid, now: Option<MsgId>) {
    && (forall u, id | u != t :: CarriedBy(threads', u, id) <==> CarriedBy(threads, u, id))
    && CarriesAt(threads', t) == now
  }

  lemma MovedStart(s: Sys, t: Tid, a: StartAction)
    requires StartEnabled(s, t, a)
    ensures Moved(s.threads, ApplyStart(s, t, a).threads, t, if a.DoRelease? then None else CarriesAt(s.threads, t))
  {
    if a.DoTestAndSet? {
      MovedTestAndSet(s, t, a.spawned);
    } else {
      MovedAlone(s.threads, ApplyStart(s, t, a).threads, t);
    }
  }

  lemma MovedAlone(threads: map<Tid, Pc>, threads': map<Tid, Pc>, t: Tid)
    requires forall u | u != t :: (u in threads' <==> u in threads) && (u in threads ==> threads'[u] == threads[u])
    ensures Moved(threads, threads', t, CarriesAt(threads', t))
  {
  }

  /** A consumer that begins owes nothing. */
  lemma MovedTestAndSet(s: Sys, t: Tid, u: Tid)
    requires StartEnabled(s, t, DoTestAndSet(u))
    ensures Moved(s.threads, ApplyStart(s, t, DoTestAndSet(u)).threads, t, CarriesAt(s.threads, t))
  {
    var threads' := ApplyStart(s, t, DoTestAndSet(u)).threads;
    forall v, id | v != t ensures CarriedBy(threads', v, id) <==> CarriedBy(s.threads, v, id) {
      assert v != u ==> (v in threads' <==> v in s.threads);
    }
  }

  lemma MovedDrain(s: Sys, t: Tid, a: DrainAction)
    requires DrainEnabled(s, t, a)
    ensures Moved(s.threads, ApplyDrain(s, t, a).threads, t,
                  if a.DoDeliver? then None
                  else if a.DoTakeWaiter? && s.threads[t].id in s.mem.waiters then Some(s.threads[t].id)
                  else Carries(s.threads[t]))
  {
  }

  /** Nobody's debt changed: what holds of the carried ids goes on holding. */
  lemma CarriedSame(threads: map<Tid, Pc>, threads': map<Tid, Pc>, t: Tid)
    requires Moved(threads, threads', t, CarriesAt(threads, t))
    ensures forall u, id :: CarriedBy(threads', u, id) <==> CarriedBy(threads, u, id)
    ensures forall id :: Carried(threads', id) <==> Carried(threads, id)
  {
    forall id, u ensures CarriedBy(threads', u, id) <==> CarriedBy(threads, u, id) {
    }
    forall id ensures Carried(threads', id) <==> Carried(threads, id) {
      if Carried(threads', id) {
        var u :| CarriedBy(threads', u, id);
        assert CarriedBy(threads, u, id);
      }
      if Carried(threads, id) {
        var u :| CarriedBy(threads, u, id);
        assert CarriedBy(threads', u, id);
      }
    }
  }

  /** A step that moves no debt, delivers nothing and takes no waiter away. */
  lemma WaitsKept(s: Sys, s': Sys, t: Tid)
    requires Waits(s) && Moved(s.threads, s'.threads, t, CarriesAt(s.threads, t))
    requires s'.callers == s.callers && s'.chans == s.chans && s'.mem.waiters == s.mem.waiters
    requires s.mem.rows.Keys <= s'.mem.rows.Keys
    requires forall id | id in s.mem.waiters && IsOpen(s.mem.rows, id) && !WaiterTaken(Consumer(s), id) ::
               IsOpen(s'.mem.rows, id) && !WaiterTaken(Consumer(s'), id)
    ensures Waits(s')
  {
    CarriedSame(s.threads, s'.threads, t);
  }

  lemma WaitsEnqueue(s: Sys, t: Tid, kind: Kind)
    requires StartEnabled(s, t, DoEnqueue(kind, true)) && OneConsumer(s) && Ordered(s) && Waits(s)
    ensures Waits(ApplyStart(s, t, DoEnqueue(kind, true)))
  {
    var s' := ApplyStart(s, t, DoEnqueue(kind, true));
    MovedStart(s, t, DoEnqueue(kind, true));
    StartConsumer(s, t, DoEnqueue(kind, true));
    assert s.mem.nextId !in s.mem.rows && s.mem.nextId !in s.callers;
    assert !WaiterTaken(Consumer(s), s.mem.nextId);
    CarriedSame(s.threads, s'.threads, t);
    ChannelsNew(s, s', kind);
    CarriersNew(s, s', kind);
    WaitersNew(s, s', kind);
  }

  /** A new waiter joins, of a message nobody knew; nobody's debt changes. */
  ghost predicate WaiterJoins(s: Sys, s': Sys, kind: Kind) {
    && Consumer(s') == Consumer(s)
    && s.mem.nextId !in s.mem.rows && s.mem.nextId !in s.callers && !WaiterTaken(Consumer(s), s.mem.nextId)
    && s'.mem.rows == s.mem.rows[s.mem.nextId := Row(kind, Queued)]
    && s'.mem.waiters == s.mem.waiters + {s.mem.nextId}
    && s'.callers == s.callers[s.mem.nextId := Waiting] && s'.chans == s.chans[s.mem.nextId := []]
    && (forall u, id :: CarriedBy(s'.threads, u, id) <==> CarriedBy(s.threads, u, id))
    && (forall id :: Carried(s'.threads, id) <==> Carried(s.threads, id))
  }

  lemma ChannelsNew(s: Sys, s': Sys, kind: Kind)
    requires ChannelsOk(s) && WaiterJoins(s, s', kind)
    ensures ChannelsOk(s')
  {
  }

  lemma CarriersNew(s: Sys, s': Sys, kind: Kind)
    requires CarriersOk(s) && WaiterJoins(s, s', kind)
    ensures CarriersOk(s')
  {
    forall t, id | CarriedBy(s'.threads, t, id) ensures Empty(s', id) && id !in s'.mem.waiters {
      assert CarriedBy(s.threads, t, id);
    }
  }

  lemma WaitersNew(s: Sys, s': Sys, kind: Kind)
    requires WaitersOk(s) && WaiterJoins(s, s', kind)
    ensures WaitersOk(s')
  {
  }

  /** The one slot of a waiter that is owed an outcome is empty: a delivery never blocks. */
  lemma WaitsDelivered(s: Sys, s': Sys, t: Tid, id: MsgId)
    requires Waits(s) && CarriedBy(s.threads, t, id) && id in s.chans
    requires Moved(s.threads, s'.threads, t, None)
    requires s'.callers == s.callers && s'.chans == Send(s.chans, id) && s'.mem == s.mem
    requires forall j :: WaiterTaken(Consumer(s'), j) ==> WaiterTaken(Consumer(s), j)
    ensures Waits(s')
  {
    forall j | j != id ensures Carried(s.threads, j) ==> Carried(s'.threads, j) {
      if Carried(s.threads, j) {
        var u :| CarriedBy(s.threads, u, j);
        assert CarriedBy(s'.threads, u, j);
      }
    }
    assert !CarriedBy(s'.threads, t, id);
  }

  lemma WaitsStart(s: Sys, t: Tid, a: StartAction)
    requires StartEnabled(s, t, a) && OneConsumer(s) && Ordered(s) && Waits(s)
    ensures Waits(ApplyStart(s, t, a))
  {
    if a.DoEnqueue? && a.waited {
      WaitsEnqueue(s, t, a.kind);
    } else if a.DoRelease? {
      var s' := ApplyStart(s, t, a);
      StartConsumer(s, t, a);
      MovedStart(s, t, a);
      assert CarriedBy(s.threads, t, s.threads[t].id);
      WaitsDelivered(s, s', t, s.threads[t].id);
    } else {
      WaitsKeptStart(s, t, a);
    }
  }

  lemma WaitsKeptStart(s: Sys, t: Tid, a: StartAction)
    requires StartEnabled(s, t, a) && OneConsumer(s) && Ordered(s) && Waits(s)
    requires !(a.DoEnqueue? && a.waited) && !a.DoRelease?
    ensures Waits(ApplyStart(s, t, a))
  {
    StartConsumer(s, t, a);
    MovedStart(s, t, a);
    CallersKeptStart(s, t, a);
    WaitsKept(s, ApplyStart(s, t, a), t);
  }

  lemma CallersKeptStart(s: Sys, t: Tid, a: StartAction)
    requires StartEnabled(s, t, a) && Ordered(s) && !(a.DoEnqueue? && a.waited) && !a.DoRelease?
    ensures var s' := ApplyStart(s, t, a);
            && s'.callers == s.callers && s'.chans == s.chans && s'.mem.waiters == s.mem.waiters
            && s.mem.rows.Keys <= s'.mem.rows.Keys
            && forall id | IsOpen(s.mem.rows, id) :: IsOpen(s'.mem.rows, id)
  {
    StartMemory(s, t, a);
  }

  lemma WaitsTakeWaiter(s: Sys, t: Tid)
    requires DrainEnabled(s, t, DoTakeWaiter) && OneConsumer(s) && Ordered(s) && Waits(s)
    ensures Waits(ApplyDrain(s, t, DoTakeWaiter))
  {
    var s' := ApplyDrain(s, t, DoTakeWaiter);
    OneConsumerDrain(s, t, DoTakeWaiter);
    MovedDrain(s, t, DoTakeWaiter);
    var id := s.threads[t].id;
    assert CarriesAt(s.threads, t) == None;
    if id in s.mem.waiters {
      assert CarriedBy(s'.threads, t, id);
      forall j | Carried(s.threads, j) ensures Carried(s'.threads, j) {
        var u :| CarriedBy(s.threads, u, j);
        assert CarriedBy(s'.threads, u, j);
      }
      forall u, v, j | CarriedBy(s'.threads, u, j) && CarriedBy(s'.threads, v, j) ensures u == v {
        assert u != t ==> CarriedBy(s.threads, u, j);
        assert v != t ==> CarriedBy(s.threads, v, j);
      }
    } else {
      CarriedSame(s.threads, s'.threads, t);
    }
  }

  lemma WaitsDrain(s: Sys, t: Tid, a: DrainAction)
    requires DrainEnabled(s, t, a) && OneConsumer(s) && Ordered(s) && Waits(s)
    ensures Waits(ApplyDrain(s, t, a))
  {
    var s' := ApplyDrain(s, t, a);
    OneConsumerDrain(s, t, a);
    MovedDrain(s, t, a);
    if a.DoTakeWaiter? {
      WaitsTakeWaiter(s, t);
    } else if a.DoDeliver? {
      assert CarriedBy(s.threads, t, s.threads[t].id);
      WaitsDelivered(s, s', t, s.threads[t].id);
    } else {
      assert CarriesAt(s.threads, t) == Carries(s.threads[t]);
      forall id | IsOpen(s.mem.rows, id) && !WaiterTaken(Consumer(s), id)
        ensures IsOpen(s'.mem.rows, id) && !WaiterTaken(Consumer(s'), id) {
      }
      WaitsKept(s, s', t);
    }
  }

  lemma WaitsOutside(s: Sys, a: OutsideAction)
    requires OutsideEnabled(s, a) && OneConsumer(s) && Ordered(s) && Waits(s)
    ensures Waits(ApplyOutside(s, a))
  {
  }

  // ---- the receipt's promise -----------------------------------------------------------

  /** A message that has not ended and somebody waits for has its waiter: registered, or
      taken along by the consumer that is processing it. */
  ghost predicate WaitIsKnown(s: Sys) {
    forall id | id in s.callers && s.callers[id] == Waiting && IsOpen(s.mem.rows, id) ::
      id in s.mem.waiters || (WaiterTaken(Consumer(s), id) && Consumer(s).value.waited)
  }

  lemma WaitIsKnownStep(s: Sys, step: Step)
    requires Enabled(s, step) && OneConsumer(s) && Ordered(s) && Waits(s) && WaitIsKnown(s)
    ensures WaitIsKnown(Apply(s, step))
  {
    match step
    case Start(t, a) => WaitIsKnownStart(s, t, a);
    case Drain(t, a) => WaitIsKnownDrain(s, t, a);
    case Outside(a) => WaitIsKnownOutside(s, a);
  }

  lemma WaitIsKnownOutside(s: Sys, a: OutsideAction)
    requires OutsideEnabled(s, a) && WaitIsKnown(s)
    ensures WaitIsKnown(ApplyOutside(s, a))
  {
    assert !a.DoCrash? ==> Consumer(ApplyOutside(s, a)) == Consumer(s);
  }

  lemma WaitIsKnownStart(s: Sys, t: Tid, a: StartAction)
    requires StartEnabled(s, t, a) && OneConsumer(s) && Ordered(s) && Waits(s) && WaitIsKnown(s)
    ensures WaitIsKnown(ApplyStart(s, t, a))
  {
    StartConsumer(s, t, a);
    StartMemory(s, t, a);
  }

  lemma WaitIsKnownDrain(s: Sys, t: Tid, a: DrainAction)
    requires DrainEnabled(s, t, a) && OneConsumer(s) && Ordered(s) && WaitIsKnown(s)
    ensures WaitIsKnown(ApplyDrain(s, t, a))
  {
    OneConsumerDrain(s, t, a);
    forall id | IsOpen(ApplyDrain(s, t, a).mem.rows, id) ensures IsOpen(s.mem.rows, id) {
    }
  }
}
