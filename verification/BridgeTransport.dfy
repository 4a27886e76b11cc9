/**
  The bridge's request/response correlation: callers register and wait, one reader hands
  responses over, and a shutdown steals whoever still waits. A request is always in exactly
  one hand: the maps', the reader's, the shutdown's, or nobody's any more.
*/
module BridgeTransport {
  import BridgeStream

  type ReqId = nat
  type Event = BridgeStream.Event

  /** A call's response; `id` is the request it answers. */
  datatype Response = Response(id: ReqId, ok: bool)

  /** The maps of waiting calls and runs, by request id, with what guards them. */
  datatype Table = Table(nextId: nat, pending: set<ReqId>, streams: set<ReqId>, closed: bool)

  // ---- sections ------------------------------------------------------------------------

  /** A new request, unless the transport is closed. */
  function Register(t: Table, isRun: bool): Table
    requires !t.closed
  {
    var id := t.nextId + 1;
    if isRun then t.(nextId := id, streams := t.streams + {id}) else t.(nextId := id, pending := t.pending + {id})
  }

  /** Nobody waits for this request any more. */
  function Forget(t: Table, id: ReqId): Table {
    t.(pending := t.pending - {id}, streams := t.streams - {id})
  }

  /** Closed, and everybody who waited is taken out; a second shutdown takes nobody. */
  function Shutdown(t: Table): Table {
    if t.closed then t else t.(closed := true, pending := {}, streams := {})
  }

  // ---- the object ------------------------------------------------------------------------

  class Transport {
    var nextId: nat
    var pending: set<ReqId>
    var streams: set<ReqId>
    var closed: bool

    function Value(): Table
      reads this
    {
      Table(nextId, pending, streams, closed)
    }

    constructor ()
      ensures Value() == Table(0, {}, {}, false)
    {
      nextId, pending, streams, closed := 0, {}, {}, false;
    }

    method Begin(isRun: bool) returns (id: ReqId)
      modifies this
      ensures if old(closed) then id == 0 && Value() == old(Value())
              else id == old(nextId) + 1 && Value() == Register(old(Value()), isRun)
    {
      if closed {
        return 0;
      }
      nextId := nextId + 1;
      id := nextId;
      if isRun {
        streams := streams + {id};
      } else {
        pending := pending + {id};
      }
    }

    /** A result arrives: the call or the run it is for leaves its map. */
    method TakeResult(id: ReqId) returns (isCall: bool, isRun: bool)
      modifies this
      ensures isCall == (id in old(pending)) && isRun == (id in old(streams)) && Value() == Forget(old(Value()), id)
    {
      isCall, isRun := id in pending, id in streams;
      pending, streams := pending - {id}, streams - {id};
    }

    method ForgetRequest(id: ReqId)
      modifies this
      ensures Value() == Forget(old(Value()), id)
    {
      pending, streams := pending - {id}, streams - {id};
    }

    method Steal() returns (calls: set<ReqId>, runs: set<ReqId>)
      modifies this
      ensures Value() == Shutdown(old(Value()))
      ensures if old(closed) then calls == {} && runs == {} else calls == old(pending) && runs == old(streams)
    {
      calls, runs := {}, {};
      if !closed {
        calls, runs := pending, streams;
        closed, pending, streams := true, {}, {};
      }
    }
  }

  // ---- the protocol ------------------------------------------------------------------------

  /** A call's one-slot channel. */
  datatype Chan = Empty | Full(response: Response) | Drained | Closed

  /** Where a request's caller stands; a run's caller goes on with its stream once the request is written. */
  datatype Caller =
    | Writing(isRun: bool)
    | Waiting
    | Streaming
    | Got(response: Response)
    | ToldClosed
    | Failed
    | Cancelled

  /** What the reader holds between the maps and whoever it is for: a call's response, an event of a
      run, or a run's result. */
  datatype Hand = Free | Call(id: ReqId, response: Response) | Emit(id: ReqId, event: Event) | Stream(id: ReqId, ok: bool)

  /** `stolenCalls` and `stolenRuns` are what the shutdown has taken and not yet released;
      `ended` are the runs whose stream was finished, once for each time it was tried. */
  datatype Sys = Sys(
    table: Table,
    hand: Hand,
    stolenCalls: set<ReqId>,
    stolenRuns: set<ReqId>,
    chans: map<ReqId, Chan>,
    callers: map<ReqId, Caller>,
    ended: multiset<ReqId>)

  const INIT := Sys(Table(0, {}, {}, false), Free, {}, {}, map[], map[], multiset{})

  datatype Step =
    | DoRegister(isRun: bool)
    | DoWritten(id: ReqId)
    | DoWriteFailed(id: ReqId)
    | DoEvent(id: ReqId, event: Event)
    | DoPush
    | DoResult(id: ReqId, ok: bool)
    | DoSend
    | DoFinish
    | DoShutdown
    | DoCloseCall(id: ReqId)
    | DoFinishRun(id: ReqId)
    | DoReceive(id: ReqId)
    | DoCancel(id: ReqId)

  predicate Stands(s: Sys, id: ReqId, c: Caller) {
    id in s.callers && s.callers[id] == c
  }

  /** When a step can be taken. A send is not waited for and a close is not guarded: that
      they find the channel empty is a theorem, not a condition. */
  predicate Enabled(s: Sys, step: Step) {
    match step
    case DoRegister(_) => !s.table.closed
    case DoWritten(id) => id in s.callers && s.callers[id].Writing?
    case DoWriteFailed(id) => id in s.callers && s.callers[id].Writing?
    case DoEvent(_, _) => s.hand == Free
    case DoPush => s.hand.Emit?
    case DoResult(_, _) => s.hand == Free
    case DoSend => s.hand.Call?
    case DoFinish => s.hand.Stream?
    case DoShutdown => true
    case DoCloseCall(id) => id in s.stolenCalls
    case DoFinishRun(id) => id in s.stolenRuns
    case DoReceive(id) => Stands(s, id, Waiting) && id in s.chans && (s.chans[id].Full? || s.chans[id].Closed?)
    case DoCancel(id) => Stands(s, id, Waiting)
  }

  function Apply(s: Sys, step: Step): Sys
    requires Enabled(s, step)
  {
    match step
    case DoRegister(isRun) =>
      var id := s.table.nextId + 1;
      s.(table := Register(s.table, isRun),
         callers := s.callers[id := Writing(isRun)],
         chans := if isRun then s.chans else s.chans[id := Empty])
    case DoWritten(id) => s.(callers := s.callers[id := if s.callers[id].isRun then Streaming else Waiting])
    case DoWriteFailed(id) => s.(table := Forget(s.table, id), callers := s.callers[id := Failed])
    case DoEvent(id, e) => s.(hand := if id in s.table.streams then Emit(id, e) else Free)
    case DoPush => s.(hand := Free)
    case DoResult(id, ok) =>
      s.(table := Forget(s.table, id),
         hand := if id in s.table.pending then Call(id, Response(id, ok))
                 else if id in s.table.streams then Stream(id, ok)
                 else Free)
    case DoSend => s.(hand := Free, chans := s.chans[s.hand.id := Full(s.hand.response)])
    case DoFinish => s.(hand := Free, ended := s.ended + multiset{s.hand.id})
    case DoShutdown =>
      s.(table := Shutdown(s.table),
         stolenCalls := if s.table.closed then s.stolenCalls else s.table.pending,
         stolenRuns := if s.table.closed then s.stolenRuns else s.table.streams)
    case DoCloseCall(id) => s.(stolenCalls := s.stolenCalls - {id}, chans := s.chans[id := Closed])
    case DoFinishRun(id) => s.(stolenRuns := s.stolenRuns - {id}, ended := s.ended + multiset{id})
    case DoReceive(id) =>
      if s.chans[id].Full? then s.(chans := s.chans[id := Drained], callers := s.callers[id := Got(s.chans[id].response)])
      else s.(callers := s.callers[id := ToldClosed])
    case DoCancel(id) => s.(table := Forget(s.table, id), callers := s.callers[id := Cancelled])
  }

  ghost predicate Run(s: Sys, steps: seq<Step>, s': Sys)
    decreases |steps|
  {
    if steps == [] then s' == s
    else Enabled(s, steps[0]) && Run(Apply(s, steps[0]), steps[1..], s')
  }

  ghost predicate Reachable(s: Sys) {
    exists steps :: Run(INIT, steps, s)
  }

  // ---- what every step keeps -----------------------------------------------------------------

  predicate InHand(s: Sys, id: ReqId) {
    s.hand.Call? && s.hand.id == id
  }

  predicate RunInHand(s: Sys, id: ReqId) {
    s.hand.Stream? && s.hand.id == id
  }

  /** How many hold a call: the map, the reader, the shutdown. */
  function Holders(s: Sys, id: ReqId): nat {
    (if id in s.table.pending then 1 else 0) + (if InHand(s, id) then 1 else 0) + (if id in s.stolenCalls then 1 else 0)
  }

  function RunHolders(s: Sys, id: ReqId): nat {
    (if id in s.table.streams then 1 else 0) + (if RunInHand(s, id) then 1 else 0) + (if id in s.stolenRuns then 1 else 0)
  }

  /** A caller that may still be answered. */
  predicate Expects(c: Caller) {
    c == Waiting || c == Writing(false)
  }

  predicate ExpectsRun(c: Caller) {
    c == Streaming || c == Writing(true)
  }

  /** The state of one request that is a call. */
  predicate CallOk(s: Sys, id: ReqId) {
    && Holders(s, id) <= 1
    && (Holders(s, id) == 1 ==> id in s.chans && id in s.callers && s.chans[id] == Empty)
    && (InHand(s, id) ==> s.hand.response.id == id)
    && (id in s.chans ==>
          && id in s.callers && id !in s.table.streams && !RunInHand(s, id) && id !in s.stolenRuns
          && !ExpectsRun(s.callers[id])
          && (s.chans[id].Full? ==> s.chans[id].response.id == id)
          && (s.callers[id].Got? ==> s.callers[id].response.id == id && s.chans[id] == Drained)
          && (s.callers[id].ToldClosed? ==> s.chans[id] == Closed)
          && (s.chans[id].Drained? ==> s.callers[id].Got?)
          && (Expects(s.callers[id]) ==> Holders(s, id) == 1 || s.chans[id].Full? || s.chans[id].Closed?))
  }

  /** The state of one request that is a run. */
  predicate RunOk(s: Sys, id: ReqId) {
    && RunHolders(s, id) + s.ended[id] <= 1
    && (RunHolders(s, id) + s.ended[id] == 1 ==> id in s.callers && id !in s.chans)
    && (id in s.callers && id !in s.chans ==>
          && !Expects(s.callers[id]) && !s.callers[id].Got?
          && (ExpectsRun(s.callers[id]) ==> RunHolders(s, id) + s.ended[id] == 1))
  }

  ghost predicate Inv(s: Sys) {
    && (forall id | id in s.callers :: id <= s.table.nextId)
    && s.chans.Keys <= s.callers.Keys
    && (s.table.closed ==> s.table.pending == {} && s.table.streams == {})
    && (!s.table.closed ==> s.stolenCalls == {} && s.stolenRuns == {})
    && (forall id :: CallOk(s, id))
    && (forall id :: RunOk(s, id))
  }

  lemma CallsStep(s: Sys, step: Step, id: ReqId)
    requires Enabled(s, step) && Inv(s)
    ensures CallOk(Apply(s, step), id)
  {
    assert CallOk(s, id) && RunOk(s, id);
  }

  lemma RunsStep(s: Sys, step: Step, id: ReqId)
    requires Enabled(s, step) && Inv(s)
    ensures RunOk(Apply(s, step), id)
  {
    assert CallOk(s, id) && RunOk(s, id);
  }

  lemma InvStep(s: Sys, step: Step)
    requires Enabled(s, step) && Inv(s)
    ensures Inv(Apply(s, step))
  {
    forall id ensures CallOk(Apply(s, step), id) && RunOk(Apply(s, step), id) {
      CallsStep(s, step, id);
      RunsStep(s, step, id);
    }
    match step
    case DoSend => assert CallOk(s, s.hand.id);
    case DoCloseCall(id) => assert CallOk(s, id);
    case _ =>
  }

  lemma {:induction false} InvRun(s: Sys, steps: seq<Step>, s': Sys)
    requires Inv(s) && Run(s, steps, s')
    ensures Inv(s')
    decreases |steps|
  {
    if steps != [] {
      InvStep(s, steps[0]);
      InvRun(Apply(s, steps[0]), steps[1..], s');
    }
  }

  lemma InvReachable(s: Sys)
    requires Reachable(s)
    ensures Inv(s)
  {
    var steps :| Run(INIT, steps, s);
    InvRun(INIT, steps, s);
  }

  // ---- theorems --------------------------------------------------------------------------------

  /** A request is held once: no id is a call and a run, and none is in two hands. A new one is nobody's. */
  lemma HeldOnce(s: Sys, id: ReqId)
    requires Reachable(s)
    ensures Holders(s, id) + RunHolders(s, id) <= 1
    ensures id == s.table.nextId + 1 ==> Holders(s, id) + RunHolders(s, id) == 0 && id !in s.callers && id !in s.chans
  {
    InvReachable(s);
    assert CallOk(s, id) && RunOk(s, id);
  }

  /** A send always finds an empty slot on an open channel, and so does a close: the reader is never
      blocked by a caller, and no channel is both sent to and closed. */
  lemma ChannelIsFree(s: Sys, step: Step)
    requires Reachable(s) && Enabled(s, step)
    ensures step == DoSend ==> s.hand.id in s.chans && s.chans[s.hand.id] == Empty
    ensures step.DoCloseCall? ==> step.id in s.chans && s.chans[step.id] == Empty
  {
    InvReachable(s);
    if step == DoSend {
      assert CallOk(s, s.hand.id);
    } else if step.DoCloseCall? {
      assert CallOk(s, step.id);
    }
  }

  /** A run's stream is finished at most once, by the reader or by the shutdown. */
  lemma RunEndsOnce(s: Sys, id: ReqId)
    requires Reachable(s)
    ensures s.ended[id] <= 1
    ensures s.ended[id] == 1 ==> RunHolders(s, id) == 0
  {
    InvReachable(s);
    assert RunOk(s, id);
  }

  /** Every registered call has its own response, a close, or somebody who still owes it one. */
  lemma NobodyIsForgotten(s: Sys, id: ReqId)
    requires Reachable(s) && id in s.callers
    ensures s.callers[id].Got? ==> s.callers[id].response.id == id
    ensures Stands(s, id, Waiting) ==> id in s.chans && (Holders(s, id) == 1 || Enabled(s, DoReceive(id)))
    ensures Stands(s, id, Streaming) ==> RunHolders(s, id) + s.ended[id] == 1
  {
    InvReachable(s);
    assert CallOk(s, id) && RunOk(s, id);
  }

  /** Once the transport is closed and the reader and the shutdown have let go of what they held, no
      call is left waiting without an answer, and no run's stream without its end; and nobody new registers. */
  lemma AfterShutdownNobodyWaits(s: Sys, id: ReqId)
    requires Reachable(s) && s.table.closed && s.hand == Free && s.stolenCalls == {} && s.stolenRuns == {}
    ensures Stands(s, id, Waiting) ==> Enabled(s, DoReceive(id))
    ensures Stands(s, id, Streaming) ==> s.ended[id] == 1
    ensures !Enabled(s, DoRegister(true)) && !Enabled(s, DoRegister(false))
  {
    InvReachable(s);
    assert CallOk(s, id) && RunOk(s, id);
  }

  /** What is still to be handed over once the transport is closed. */
  function ToRelease(s: Sys): nat {
    |s.stolenCalls| + |s.stolenRuns| + if s.hand == Free then 0 else 1
  }

  predicate Releases(step: Step) {
    step == DoSend || step == DoPush || step == DoFinish || step.DoCloseCall? || step.DoFinishRun?
  }

  /** That state is reached: closed, something to hand over can always be handed over, and there is one
      less of it; no other step adds to it. */
  lemma ShutdownCompletes(s: Sys, step: Step)
    requires Reachable(s) && s.table.closed && Enabled(s, step)
    ensures Apply(s, step).table.closed
    ensures Releases(step) ==> ToRelease(Apply(s, step)) == ToRelease(s) - 1
    ensures !Releases(step) ==> ToRelease(Apply(s, step)) == ToRelease(s)
  {
    InvReachable(s);
    var s' := Apply(s, step);
    match step
    case DoCloseCall(id) => assert |s'.stolenCalls| == |s.stolenCalls| - 1;
    case DoFinishRun(id) => assert |s'.stolenRuns| == |s.stolenRuns| - 1;
    case _ =>
  }

  lemma SomethingCanBeReleased(s: Sys) returns (step: Step)
    requires ToRelease(s) > 0
    ensures Enabled(s, step) && Releases(step)
  {
    if s.hand.Call? {
      step := DoSend;
    } else if s.hand.Emit? {
      step := DoPush;
    } else if s.hand.Stream? {
      step := DoFinish;
    } else if s.stolenCalls != {} {
      var id :| id in s.stolenCalls;
      step := DoCloseCall(id);
    } else {
      var id :| id in s.stolenRuns;
      step := DoFinishRun(id);
    }
  }

  /** An answered call stays answered as it was. */
  lemma AnswerIsFinal(s: Sys, step: Step, id: ReqId)
    requires Reachable(s) && Enabled(s, step) && id in s.callers && id in s.chans && s.chans[id] != Empty
    ensures var s' := Apply(s, step);
            id in s'.chans && (s'.chans[id] == s.chans[id] || (step == DoReceive(id) && s.chans[id].Full? && s'.chans[id] == Drained))
    ensures s.callers[id].Got? ==> Stands(Apply(s, step), id, s.callers[id])
  {
    InvReachable(s);
    assert CallOk(s, id) && CallOk(s, s.table.nextId + 1);
    ChannelIsFree(s, step);
  }
}
