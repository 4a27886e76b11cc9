/**
  A run's event stream: an unbounded buffer, a terminal result, and a one-slot wake-up.
  Producers append and then signal, consumers look and then wait, each in two separate steps.
*/
module BridgeStream {
  import opened Basics

  type Event = nat
  type Tid = nat

  /** How a run ends: with the bridge's answer to its request, or because the bridge is gone. */
  datatype Outcome = Answered(ok: bool) | BridgeGone

  /** The stream's fields; `notify` is the wake-up slot. */
  datatype Stream = Stream(events: seq<Event>, result: Option<Outcome>, notify: bool)

  /** What a consumer that looks finds. */
  datatype Look = Item(event: Event) | Terminal(result: Outcome) | Nothing

  // ---- sections ------------------------------------------------------------------------

  function Appended(s: Stream, e: Event): Stream {
    s.(events := s.events + [e])
  }

  /** The first terminal result is the one kept. */
  function Ended(s: Stream, r: Outcome): Stream {
    if s.result.Some? then s else s.(result := Some(r))
  }

  function Signal(s: Stream): Stream {
    s.(notify := true)
  }

  function LookNext(s: Stream): Look {
    if s.events != [] then Item(s.events[0])
    else if s.result.Some? then Terminal(s.result.value)
    else Nothing
  }

  function LookDone(s: Stream): Look {
    if s.result.Some? then Terminal(s.result.value) else Nothing
  }

  /** What the look takes out of the buffer. */
  function Taken(s: Stream, l: Look): Stream {
    if l.Item? && s.events != [] then s.(events := s.events[1..]) else s
  }

  function Wake(s: Stream): Stream {
    s.(notify := false)
  }

  // ---- the object ------------------------------------------------------------------------

  class RunStream {
    var events: seq<Event>
    var result: Option<Outcome>
    var notify: bool

    function Value(): Stream
      reads this
    {
      Stream(events, result, notify)
    }

    constructor ()
      ensures Value() == Stream([], None, false)
    {
      events, result, notify := [], None, false;
    }

    method Append(e: Event)
      modifies this`events
      ensures Value() == Appended(old(Value()), e)
    {
      events := events + [e];
    }

    /** `first` says this result is the one that counts, and has to be signalled. */
    method SetResult(r: Outcome) returns (first: bool)
      modifies this`result
      ensures Value() == Ended(old(Value()), r) && first == old(Value()).result.None?
    {
      if result.Some? {
        return false;
      }
      result, first := Some(r), true;
    }

    method Ring()
      modifies this`notify
      ensures Value() == Signal(old(Value()))
    {
      notify := true;
    }

    method Push(e: Event)
      modifies this`events, this`notify
      ensures Value() == Signal(Appended(old(Value()), e))
    {
      Append(e);
      Ring();
    }

    /** Only the first result wakes anybody. */
    method Finish(r: Outcome)
      modifies this`result, this`notify
      ensures Value() == if old(Value()).result.Some? then old(Value()) else Signal(Ended(old(Value()), r))
    {
      var first := SetResult(r);
      if first {
        Ring();
      }
    }

    method Next() returns (l: Look)
      modifies this`events
      ensures l == LookNext(old(Value())) && Value() == Taken(old(Value()), l)
    {
      if |events| > 0 {
        l := Item(events[0]);
        events := events[1..];
        return;
      }
      l := if result.Some? then Terminal(result.value) else Nothing;
    }

    /** One consumer alone, after the last signal: it gets every event there is, in order, and then the end. */
    method Drain() returns (got: seq<Event>, end: Option<Outcome>)
      modifies this`events
      ensures got == old(events) && events == [] && end == result == old(result)
    {
      got, end := [], None;
      var more := true;
      while more
        invariant got + events == old(events) && result == old(result)
        invariant more ==> end == None
        invariant !more ==> events == [] && end == result
        decreases more, |events|
      {
        var l := Next();
        match l {
          case Item(e) => got := got + [e];
          case Terminal(r) => end, more := Some(r), false;
          case Nothing => more := false;
        }
      }
    }
  }

  // ---- the protocol ------------------------------------------------------------------------

  /** What a consumer asked for: the next event, or only the end. */
  datatype Ask = ForNext | ForEnd

  datatype Consumer = Idle | Looking(ask: Ask) | Parked(ask: Ask)

  /**
    `owed` are the producers that have written and not yet signalled. The rest is history:
    everything pushed and delivered, and the results consumers were told, each with what had
    been pushed and delivered by then.
  */
  datatype Sys = Sys(
    stream: Stream,
    owed: set<Tid>,
    consumers: map<Tid, Consumer>,
    pushed: seq<Event>,
    delivered: seq<Event>,
    told: seq<Told>)

  datatype Told = Told(ask: Ask, result: Outcome, pushed: seq<Event>, delivered: seq<Event>)

  const INIT := Sys(Stream([], None, false), {}, map[], [], [], [])

  datatype Step =
    | DoPush(t: Tid, event: Event)
    | DoFinish(t: Tid, result: Outcome)
    | DoSignal(t: Tid)
    | DoAsk(t: Tid, ask: Ask)
    | DoLook(t: Tid)
    | DoWake(t: Tid)
    | DoCancel(t: Tid)

  predicate IsParked(s: Sys, t: Tid) {
    t in s.consumers && s.consumers[t].Parked?
  }

  predicate Active(s: Sys, t: Tid) {
    t in s.consumers && s.consumers[t] != Idle
  }

  /** `alone` is the discipline of the runtime: a consumer asks only while no other one is at it. */
  ghost predicate Enabled(alone: bool, s: Sys, step: Step) {
    match step
    case DoPush(t, _) => t !in s.owed
    case DoFinish(t, _) => t !in s.owed
    case DoSignal(t) => t in s.owed
    case DoAsk(t, _) => !Active(s, t) && (alone ==> forall u :: !Active(s, u))
    case DoLook(t) => t in s.consumers && s.consumers[t].Looking?
    case DoWake(t) => IsParked(s, t) && s.stream.notify
    case DoCancel(t) => IsParked(s, t)
  }

  function LookOf(s: Stream, ask: Ask): Look {
    match ask
    case ForNext => LookNext(s)
    case ForEnd => LookDone(s)
  }

  function Apply(s: Sys, step: Step): Sys
    requires Enabled(false, s, step)
  {
    match step
    case DoPush(t, e) => s.(stream := Appended(s.stream, e), owed := s.owed + {t}, pushed := s.pushed + [e])
    case DoFinish(t, r) => s.(stream := Ended(s.stream, r), owed := if s.stream.result.Some? then s.owed else s.owed + {t})
    case DoSignal(t) => s.(stream := Signal(s.stream), owed := s.owed - {t})
    case DoAsk(t, ask) => s.(consumers := s.consumers[t := Looking(ask)])
    case DoLook(t) => Looked(s, t, s.consumers[t].ask)
    case DoWake(t) => s.(stream := Wake(s.stream), consumers := s.consumers[t := Looking(s.consumers[t].ask)])
    case DoCancel(t) => s.(consumers := s.consumers[t := Idle])
  }

  function Looked(s: Sys, t: Tid, ask: Ask): Sys {
    match LookOf(s.stream, ask)
    case Item(e) => s.(stream := Taken(s.stream, Item(e)), consumers := s.consumers[t := Idle], delivered := s.delivered + [e])
    case Terminal(r) => s.(consumers := s.consumers[t := Idle], told := s.told + [Told(ask, r, s.pushed, s.delivered)])
    case Nothing => s.(consumers := s.consumers[t := Parked(ask)])
  }

  ghost predicate Run(alone: bool, s: Sys, steps: seq<Step>, s': Sys)
    decreases |steps|
  {
    if steps == [] then s' == s
    else Enabled(alone, s, steps[0]) && Run(alone, Apply(s, steps[0]), steps[1..], s')
  }

  ghost predicate Reachable(alone: bool, s: Sys) {
    exists steps :: Run(alone, INIT, steps, s)
  }

  // ---- what every step keeps -----------------------------------------------------------------

  /** Nothing is lost, doubled or reordered, and an asker is told the end only when it has everything. */
  ghost predicate Conserved(s: Sys) {
    && s.delivered + s.stream.events == s.pushed
    && (forall k | 0 <= k < |s.told| ::
          && s.stream.result == Some(s.told[k].result)
          && (s.told[k].ask == ForNext ==> s.told[k].delivered == s.told[k].pushed)
          && s.told[k].pushed <= s.pushed && s.told[k].delivered <= s.delivered)
  }

  ghost predicate OneAtATime(s: Sys) {
    forall t, u | Active(s, t) && Active(s, u) :: t == u
  }

  /** A parked consumer that would find something has a wake-up waiting or coming. */
  ghost predicate WillWake(s: Sys) {
    forall t | IsParked(s, t) :: LookOf(s.stream, s.consumers[t].ask) != Nothing ==> s.stream.notify || s.owed != {}
  }

  lemma ConservedStep(s: Sys, step: Step)
    requires Enabled(false, s, step) && Conserved(s)
    ensures Conserved(Apply(s, step))
  {
    var s' := Apply(s, step);
    match step
    case DoPush(t, e) => assert s.delivered + (s.stream.events + [e]) == (s.delivered + s.stream.events) + [e];
    case DoLook(t) =>
      if s.consumers[t].ask == ForNext && s.stream.events != [] {
        assert s'.delivered + s'.stream.events == s.delivered + ([s.stream.events[0]] + s.stream.events[1..]);
      } else if s.consumers[t].ask == ForNext {
        assert s.delivered + [] == s.delivered;
      }
    case _ =>
  }

  lemma WillWakeStep(s: Sys, step: Step)
    requires Enabled(true, s, step) && OneAtATime(s) && WillWake(s)
    ensures OneAtATime(Apply(s, step)) && WillWake(Apply(s, step))
  {
    var s' := Apply(s, step);
    forall u, v | Active(s', u) && Active(s', v) ensures u == v {
      if step.DoAsk? {
        assert u != step.t ==> Active(s, u);
        assert v != step.t ==> Active(s, v);
      } else {
        assert Active(s, u) && Active(s, v);
      }
    }
    forall u | IsParked(s', u) && LookOf(s'.stream, s'.consumers[u].ask) != Nothing ensures s'.stream.notify || s'.owed != {} {
      match step
      case DoPush(t, _) => assert t in s'.owed;
      case DoFinish(t, _) => assert s.stream.result.None? ==> t in s'.owed;
      case DoWake(t) => assert Active(s, t) && Active(s, u);
      case DoLook(t) => assert Active(s, t) && Active(s', u);
      case _ =>
    }
  }

  lemma {:induction false} InvRun(alone: bool, s: Sys, steps: seq<Step>, s': Sys)
    requires Conserved(s) && (alone ==> OneAtATime(s) && WillWake(s)) && Run(alone, s, steps, s')
    ensures Conserved(s') && (alone ==> OneAtATime(s') && WillWake(s'))
    decreases |steps|
  {
    if steps != [] {
      ConservedStep(s, steps[0]);
      if alone {
        WillWakeStep(s, steps[0]);
      }
      InvRun(alone, Apply(s, steps[0]), steps[1..], s');
    }
  }

  // ---- theorems --------------------------------------------------------------------------------

  /** Under every interleaving of any producers and consumers, what was delivered and what is buffered
      is what was pushed, in order; every result told is the first one set; and an asker for events is
      told it only once everything pushed by then was delivered. */
  lemma InOrderThenTheEnd(alone: bool, s: Sys)
    requires Reachable(alone, s)
    ensures s.delivered + s.stream.events == s.pushed
    ensures forall k | 0 <= k < |s.told| :: s.stream.result == Some(s.told[k].result)
    ensures forall k | 0 <= k < |s.told| && s.told[k].ask == ForNext :: s.told[k].delivered == s.told[k].pushed
    ensures forall k | 0 <= k < |s.told| :: s.told[k].delivered <= s.delivered
  {
    var steps :| Run(alone, INIT, steps, s);
    InvRun(alone, INIT, steps, s);
  }

  /** With one consumer at a time no wake-up is lost: when producers have signalled and the slot is empty,
      a consumer that stays parked has nothing to get. */
  lemma NoLostWakeUp(s: Sys, t: Tid)
    requires Reachable(true, s) && IsParked(s, t) && s.owed == {} && !s.stream.notify
    ensures LookOf(s.stream, s.consumers[t].ask) == Nothing
  {
    var steps :| Run(true, INIT, steps, s);
    InvRun(true, INIT, steps, s);
  }

  predicate Writes(step: Step) {
    step.DoPush? || step.DoFinish?
  }

  ghost predicate NobodyWrites(steps: seq<Step>) {
    forall i | 0 <= i < |steps| :: !Writes(steps[i])
  }

  /** Whoever writes no more, an empty slot that no signal is owed to stays empty. */
  lemma {:induction false} StaysEmpty(alone: bool, s: Sys, steps: seq<Step>, s': Sys)
    requires Run(alone, s, steps, s') && NobodyWrites(steps) && !s.stream.notify && s.owed == {}
    ensures !s'.stream.notify && s'.owed == {}
    decreases |steps|
  {
    if steps != [] {
      assert !Writes(steps[0]);
      assert forall i | 0 <= i < |steps[1..]| :: steps[1..][i] == steps[i + 1];
      StaysEmpty(alone, Apply(s, steps[0]), steps[1..], s');
    }
  }

  /** In any state, however many consumers there are: without a further event or result a parked one
      can be woken exactly if the slot is full or a producer has still to signal. A wake-up is lost to a
      consumer that has something to get exactly where neither is so. */
  lemma WokenExactly(alone: bool, s: Sys, t: Tid)
    requires IsParked(s, t)
    ensures (exists steps, s' :: NobodyWrites(steps) && Run(alone, s, steps, s') && Enabled(alone, s', DoWake(t))) <==>
            s.stream.notify || s.owed != {}
  {
    if s.stream.notify {
      assert NobodyWrites([]) && Run(alone, s, [], s) && Enabled(alone, s, DoWake(t));
    } else if s.owed != {} {
      var u :| u in s.owed;
      var s' := Apply(s, DoSignal(u));
      assert [DoSignal(u)][1..] == [] && NobodyWrites([DoSignal(u)]) && Run(alone, s, [DoSignal(u)], s');
      assert Enabled(alone, s', DoWake(t));
    } else {
      forall steps, s' | NobodyWrites(steps) && Run(alone, s, steps, s') ensures !Enabled(alone, s', DoWake(t)) {
        StaysEmpty(alone, s, steps, s');
      }
    }
  }

  lemma {:induction false} RunSnoc(alone: bool, s: Sys, steps: seq<Step>, s': Sys, step: Step)
    requires Run(alone, s, steps, s') && Enabled(alone, s', step)
    ensures Run(alone, s, steps + [step], Apply(s', step))
    decreases |steps|
  {
    if steps == [] {
      assert [step][1..] == [];
    } else {
      assert (steps + [step])[0] == steps[0] && (steps + [step])[1..] == steps[1..] + [step];
      RunSnoc(alone, Apply(s, steps[0]), steps[1..], s', step);
    }
  }

  lemma Reach(alone: bool, s: Sys, step: Step) returns (s': Sys)
    requires Reachable(alone, s) && Enabled(alone, s, step)
    ensures Reachable(alone, s') && s' == Apply(s, step)
  {
    var steps :| Run(alone, INIT, steps, s);
    RunSnoc(alone, INIT, steps, s, step);
    assert Run(alone, INIT, steps + [step], Apply(s, step));
    s' := Apply(s, step);
  }

  lemma BothPark() returns (s: Sys)
    ensures Reachable(false, s) && s.stream == Stream([], None, false) && s.owed == {}
    ensures s.consumers == map[0 := Parked(ForNext), 1 := Parked(ForNext)]
  {
    assert Run(false, INIT, [], INIT);
    s := Reach(false, INIT, DoAsk(0, ForNext));
    s := Reach(false, s, DoLook(0));
    s := Reach(false, s, DoAsk(1, ForNext));
    s := Reach(false, s, DoLook(1));
  }

  /** With two consumers at once a wake-up can be lost: two events, one signal, and the one it wakes
      leaves with the first - the second event waits, and so does its consumer, for ever. */
  lemma TwoConsumersCanLoseOne()
    ensures exists s :: Reachable(false, s) && IsParked(s, 1) && s.consumers[1].ask == ForNext &&
                        s.stream.events == [8] && s.owed == {} && !s.stream.notify
  {
    var s := BothPark();
    s := Reach(false, s, DoPush(2, 7));
    s := Reach(false, s, DoSignal(2));
    s := Reach(false, s, DoPush(2, 8));
    s := Reach(false, s, DoSignal(2));
    s := Reach(false, s, DoWake(0));
    s := Reach(false, s, DoLook(0));
    assert IsParked(s, 1) && s.stream.events == [8];
  }

  /** Two events and a result, and one consumer that asks again and again: it gets both, in order, and is told the result. */
  lemma OneConsumerGetsAll() returns (s: Sys)
    ensures Reachable(true, s) && s.pushed == s.delivered == [7, 8]
    ensures |s.told| == 1 && s.told[0].result == Answered(false) && s.told[0].ask == ForNext
  {
    s := TwoEventsAndTheEnd();
    s := Reach(true, s, DoAsk(1, ForNext));
    s := Reach(true, s, DoLook(1));
    s := Reach(true, s, DoAsk(1, ForNext));
    s := Reach(true, s, DoLook(1));
    s := Reach(true, s, DoAsk(1, ForNext));
    s := Reach(true, s, DoLook(1));
  }

  lemma TwoEventsAndTheEnd() returns (s: Sys)
    ensures Reachable(true, s) && s.stream == Stream([7, 8], Some(Answered(false)), true) && s.owed == {}
    ensures s.consumers == map[] && s.pushed == [7, 8] && s.delivered == [] && s.told == []
  {
    assert Run(true, INIT, [], INIT);
    s := Reach(true, INIT, DoPush(0, 7));
    s := Reach(true, s, DoSignal(0));
    s := Reach(true, s, DoPush(0, 8));
    s := Reach(true, s, DoSignal(0));
    s := Reach(true, s, DoFinish(0, Answered(false)));
    s := Reach(true, s, DoSignal(0));
  }
}
