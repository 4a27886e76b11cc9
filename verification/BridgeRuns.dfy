/**
  The transport and the streams of its runs together: the bridge writes lines, the one reader routes
  them, a shutdown ends what is left, and each run's consumer drains its own stream. Every stream is
  one of `BridgeStream`'s, the maps and hands are `BridgeTransport`'s.
*/
module BridgeRuns {
  import opened Basics
  import B = BridgeStream
  import T = BridgeTransport

  /** What the bridge writes: an event of a request, or its result. */
  datatype Line = EventLine(id: T.ReqId, event: B.Event) | ResultLine(id: T.ReqId, ok: bool)

  /** The goroutines that write to streams: the reader, and whoever shuts down. */
  const READER: B.Tid := 0
  const CLOSER: B.Tid := 1

  /** `log` is every line read; `since` says how many had been when a request registered. */
  datatype Sys = Sys(bridge: T.Sys, runs: map<T.ReqId, B.Sys>, log: seq<Line>, since: map<T.ReqId, nat>)

  const INIT := Sys(T.INIT, map[], [], map[])

  datatype Step =
    | Bridge(step: T.Step)
    | Ring(id: T.ReqId, t: B.Tid)
    | Consume(id: T.ReqId, consumer: B.Step)

  // ---- what the bridge sent ------------------------------------------------------------------

  /** The first result among these lines that is for this request. */
  function FirstResult(lines: seq<Line>, id: T.ReqId): Option<bool> {
    if lines == [] then None
    else if lines[0].ResultLine? && lines[0].id == id then Some(lines[0].ok)
    else FirstResult(lines[1..], id)
  }

  /** The events for this request, up to its result. */
  function Sent(lines: seq<Line>, id: T.ReqId): seq<B.Event> {
    if lines == [] || (lines[0].ResultLine? && lines[0].id == id) then []
    else (if lines[0].EventLine? && lines[0].id == id then [lines[0].event] else []) + Sent(lines[1..], id)
  }

  function LinesOf(s: Sys, id: T.ReqId): seq<Line> {
    if id in s.since && s.since[id] <= |s.log| then s.log[s.since[id]..] else []
  }

  lemma {:induction false} OneMoreLine(lines: seq<Line>, line: Line, id: T.ReqId)
    ensures FirstResult(lines + [line], id) ==
            if FirstResult(lines, id) == None && line.ResultLine? && line.id == id then Some(line.ok) else FirstResult(lines, id)
    ensures Sent(lines + [line], id) ==
            if FirstResult(lines, id) == None && line.EventLine? && line.id == id then Sent(lines, id) + [line.event]
            else Sent(lines, id)
  {
    if lines == [] {
      assert [line][1..] == [];
    } else {
      assert (lines + [line])[1..] == lines[1..] + [line];
      OneMoreLine(lines[1..], line, id);
    }
  }

  // ---- the steps -------------------------------------------------------------------------------

  /** The reader has signalled whatever it wrote. */
  ghost predicate ReaderIsDone(s: Sys) {
    forall id | id in s.runs :: READER !in s.runs[id].owed
  }

  /** The stream a step of the transport writes to, with the write. */
  function Write(s: T.Sys, step: T.Step): Option<(T.ReqId, B.Step)>
    requires T.Enabled(s, step)
  {
    match step
    case DoPush => Some((s.hand.id, B.DoPush(READER, s.hand.event)))
    case DoFinish => Some((s.hand.id, B.DoFinish(READER, B.Answered(s.hand.ok))))
    case DoFinishRun(id) => Some((id, B.DoFinish(CLOSER, B.BridgeGone)))
    case _ => None
  }

  function LineOf(step: T.Step): Option<Line> {
    match step
    case DoEvent(id, e) => Some(EventLine(id, e))
    case DoResult(id, ok) => Some(ResultLine(id, ok))
    case _ => None
  }

  /** The reader reads on only when it is done with the line before. That a write finds its stream,
      and nobody's signal in its way, is a theorem. */
  ghost predicate BridgeEnabled(s: Sys, step: T.Step) {
    && T.Enabled(s.bridge, step)
    && (LineOf(step).Some? ==> ReaderIsDone(s))
    && (Write(s.bridge, step).Some? ==> CanWrite(s, Write(s.bridge, step).value))
  }

  ghost predicate CanWrite(s: Sys, write: (T.ReqId, B.Step)) {
    write.0 in s.runs && B.Enabled(true, s.runs[write.0], write.1)
  }

  predicate IsConsumers(step: B.Step) {
    step.DoAsk? || step.DoLook? || step.DoWake? || step.DoCancel?
  }

  /** A run's caller turns to its stream once the request is written; one asks at a time. */
  ghost predicate Enabled(s: Sys, step: Step) {
    match step
    case Bridge(b) => BridgeEnabled(s, b)
    case Ring(id, t) => id in s.runs && t in s.runs[id].owed
    case Consume(id, c) =>
      id in s.runs && T.Stands(s.bridge, id, T.Streaming) && IsConsumers(c) && B.Enabled(true, s.runs[id], c)
  }

  ghost function OnRun(runs: map<T.ReqId, B.Sys>, id: T.ReqId, step: B.Step): map<T.ReqId, B.Sys>
    requires id in runs && B.Enabled(true, runs[id], step)
  {
    runs[id := B.Apply(runs[id], step)]
  }

  ghost function Apply(s: Sys, step: Step): Sys
    requires Enabled(s, step)
  {
    match step
    case Bridge(b) => ApplyBridge(s, b)
    case Ring(id, t) => s.(runs := OnRun(s.runs, id, B.DoSignal(t)))
    case Consume(id, c) => s.(runs := OnRun(s.runs, id, c))
  }

  ghost function ApplyBridge(s: Sys, b: T.Step): Sys
    requires BridgeEnabled(s, b)
  {
    var s' := s.(bridge := T.Apply(s.bridge, b));
    if b.DoRegister? then
      var id := s.bridge.table.nextId + 1;
      s'.(runs := if b.isRun then s.runs[id := B.INIT] else s.runs, since := s.since[id := |s.log|])
    else if LineOf(b).Some? then s'.(log := s.log + [LineOf(b).value])
    else if Write(s.bridge, b).Some? then
      s'.(runs := OnRun(s.runs, Write(s.bridge, b).value.0, Write(s.bridge, b).value.1))
    else s'
  }

  ghost predicate Run(s: Sys, steps: seq<Step>, s': Sys)
    decreases |steps|
  {
    if steps == [] then s' == s
    else Enabled(s, steps[0]) && Run(Apply(s, steps[0]), steps[1..], s')
  }

  ghost predicate Reachable(s: Sys) {
    exists steps :: Run(INIT, steps, s)
  }

  // ---- what every step keeps ---------------------------------------------------------------------

  /** The event the reader has in hand for this run. */
  function Held(hand: T.Hand, id: T.ReqId): seq<B.Event> {
    if hand.Emit? && hand.id == id then [hand.event] else []
  }

  predicate IsAnswered(run: B.Sys) {
    run.stream.result.Some? && run.stream.result.value.Answered?
  }

  /** How far the stream of one run is with what the bridge sent for it. `open` says the maps have it. */
  ghost predicate Follows(hand: T.Hand, open: bool, run: B.Sys, lines: seq<Line>, id: T.ReqId) {
    && run.pushed + Held(hand, id) <= Sent(lines, id)
    && (open ==> FirstResult(lines, id) == None && run.pushed + Held(hand, id) == Sent(lines, id))
    && (hand.Stream? && hand.id == id ==> FirstResult(lines, id) == Some(hand.ok) && run.pushed == Sent(lines, id))
    && (IsAnswered(run) ==>
          !open && FirstResult(lines, id) == Some(run.stream.result.value.ok) && run.pushed == Sent(lines, id))
    && (forall k | 0 <= k < |run.told| && run.told[k].result.Answered? :: IsAnswered(run) && run.told[k].pushed == run.pushed)
  }

  /** Who has still to signal this run. */
  ghost predicate Owing(s: Sys, id: T.ReqId)
    requires id in s.runs
  {
    && s.runs[id].owed <= {READER, CLOSER}
    && (CLOSER in s.runs[id].owed ==> s.runs[id].stream.result.Some?)
    && (s.bridge.hand != T.Free ==> READER !in s.runs[id].owed)
  }

  ghost predicate RunInv(s: Sys, id: T.ReqId)
    requires id in s.runs
  {
    && B.Reachable(true, s.runs[id])
    && id in s.since && s.since[id] <= |s.log|
    && Follows(s.bridge.hand, id in s.bridge.table.streams, s.runs[id], LinesOf(s, id), id)
    && (s.runs[id].stream.result.Some? <==> s.bridge.ended[id] == 1)
    && Owing(s, id)
  }

  /** Whoever has something of a call's answer - the reader, the channel, the caller - has what the first
      result line for it said; while the maps have the call there was none. */
  ghost predicate CallFollows(bridge: T.Sys, lines: seq<Line>, id: T.ReqId) {
    && (id in bridge.table.pending ==> FirstResult(lines, id) == None)
    && (T.InHand(bridge, id) ==> FirstResult(lines, id) == Some(bridge.hand.response.ok))
    && (id in bridge.chans && bridge.chans[id].Full? ==> FirstResult(lines, id) == Some(bridge.chans[id].response.ok))
    && (id in bridge.callers && bridge.callers[id].Got? ==> FirstResult(lines, id) == Some(bridge.callers[id].response.ok))
  }

  ghost predicate CallInv(s: Sys, id: T.ReqId) {
    && id in s.since && s.since[id] <= |s.log|
    && CallFollows(s.bridge, LinesOf(s, id), id)
  }

  ghost predicate Inv(s: Sys) {
    && T.Inv(s.bridge)
    && (forall id | id in s.bridge.chans :: CallInv(s, id))
    && (forall id :: id in s.runs <==> id in s.bridge.callers && id !in s.bridge.chans)
    && (s.bridge.hand.Emit? ==> s.bridge.hand.id in s.runs)
    && (forall id | id in s.runs :: RunInv(s, id))
  }

  /** A run somebody holds is there, and has not ended. */
  lemma HeldRun(s: Sys, id: T.ReqId)
    requires Inv(s) && T.RunHolders(s.bridge, id) > 0
    ensures id in s.runs && s.runs[id].stream.result == None && T.RunHolders(s.bridge, id) == 1
  {
    assert T.RunOk(s.bridge, id);
  }

  // ---- one run, step by step ---------------------------------------------------------------------

  lemma FollowsRead(open: bool, run: B.Sys, lines: seq<Line>, id: T.ReqId, line: Line, hand: T.Hand, open': bool)
    requires Follows(T.Free, open, run, lines, id)
    requires line.id != id ==> open' == open && Held(hand, id) == [] && !(hand.Stream? && hand.id == id)
    requires line.id == id && line.EventLine? ==> open' == open && hand == if open then T.Emit(id, line.event) else T.Free
    requires line.id == id && line.ResultLine? ==> !open' && Held(hand, id) == [] && (hand.Stream? ==> open && hand == T.Stream(id, line.ok))
    ensures Follows(hand, open', run, lines + [line], id)
  {
    OneMoreLine(lines, line, id);
    assert run.pushed + [] == run.pushed;
  }

  lemma FollowsPush(hand: T.Hand, open: bool, run: B.Sys, lines: seq<Line>, id: T.ReqId)
    requires hand.Emit? && hand.id == id && Follows(hand, open, run, lines, id) && READER !in run.owed
    ensures Follows(T.Free, open, B.Apply(run, B.DoPush(READER, hand.event)), lines, id)
  {
    assert run.pushed + [hand.event] + [] == run.pushed + [hand.event];
    assert |run.pushed + [hand.event]| == |run.pushed| + 1;
  }

  lemma FollowsFinish(hand: T.Hand, open: bool, run: B.Sys, lines: seq<Line>, id: T.ReqId)
    requires hand.Stream? && hand.id == id && Follows(hand, open, run, lines, id) && READER !in run.owed
    requires !open && run.stream.result == None
    ensures Follows(T.Free, open, B.Apply(run, B.DoFinish(READER, B.Answered(hand.ok))), lines, id)
  {
    assert run.pushed + [] == run.pushed;
  }

  lemma FollowsGone(hand: T.Hand, open: bool, run: B.Sys, lines: seq<Line>, id: T.ReqId)
    requires Follows(hand, open, run, lines, id) && CLOSER !in run.owed
    ensures Follows(hand, open, B.Apply(run, B.DoFinish(CLOSER, B.BridgeGone)), lines, id)
  {
  }

  /** A signal and a consumer's step push nothing and end nothing. */
  lemma FollowsOn(hand: T.Hand, open: bool, run: B.Sys, lines: seq<Line>, id: T.ReqId, step: B.Step)
    requires Follows(hand, open, run, lines, id) && (step.DoSignal? || IsConsumers(step)) && B.Enabled(true, run, step)
    ensures Follows(hand, open, B.Apply(run, step), lines, id)
  {
  }

  /** Less in the maps, or a response handed over: nothing changes for a run. */
  lemma FollowsLess(hand: T.Hand, open: bool, hand': T.Hand, open': bool, run: B.Sys, lines: seq<Line>, id: T.ReqId)
    requires Follows(hand, open, run, lines, id) && (open' ==> open)
    requires hand' == hand || (hand.Call? && hand' == T.Free)
    ensures Follows(hand', open', run, lines, id)
  {
  }

  lemma StillAStream(run: B.Sys, step: B.Step)
    requires B.Reachable(true, run) && B.Enabled(true, run, step)
    ensures B.Reachable(true, B.Apply(run, step))
  {
    var run' := B.Reach(true, run, step);
  }

  // ---- the invariant, step by step -----------------------------------------------------------------

  lemma OwnStep(s: Sys, id: T.ReqId, step: B.Step)
    requires id in s.runs && RunInv(s, id) && (step.DoSignal? || IsConsumers(step)) && B.Enabled(true, s.runs[id], step)
    ensures RunInv(s.(runs := OnRun(s.runs, id, step)), id)
  {
    StillAStream(s.runs[id], step);
    FollowsOn(s.bridge.hand, id in s.bridge.table.streams, s.runs[id], LinesOf(s, id), id, step);
  }

  lemma OwnInv(s: Sys, id: T.ReqId, step: B.Step)
    requires Inv(s) && id in s.runs && (step.DoSignal? || IsConsumers(step)) && B.Enabled(true, s.runs[id], step)
    ensures Inv(s.(runs := OnRun(s.runs, id, step)))
  {
    var s' := s.(runs := OnRun(s.runs, id, step));
    OwnStep(s, id, step);
    forall j | j in s'.runs && j != id ensures RunInv(s', j) {
      assert RunInv(s, j) && LinesOf(s', j) == LinesOf(s, j);
    }
    forall j | j in s'.bridge.chans ensures CallInv(s', j) {
      assert CallInv(s, j) && LinesOf(s', j) == LinesOf(s, j);
    }
  }

  /** The callers that have a stream are those of before, and a new run's. */
  lemma SameRequests(s: T.Sys, b: T.Step, id: T.ReqId)
    requires T.Inv(s) && T.Enabled(s, b)
    ensures var s' := T.Apply(s, b);
            id in s'.callers && id !in s'.chans <==>
            (id in s.callers && id !in s.chans) || (b == T.DoRegister(true) && id == s.table.nextId + 1)
  {
    match b
    case DoSend => assert T.CallOk(s, s.hand.id);
    case DoCloseCall(call) => assert T.CallOk(s, call);
    case DoRegister(isRun) => assert T.CallOk(s, s.table.nextId + 1) && T.RunOk(s, s.table.nextId + 1);
    case _ =>
  }

  lemma RegisterRun(s: Sys, id: T.ReqId)
    requires Inv(s) && BridgeEnabled(s, T.DoRegister(true)) && id in ApplyBridge(s, T.DoRegister(true)).runs
    ensures RunInv(ApplyBridge(s, T.DoRegister(true)), id)
  {
    var s' := ApplyBridge(s, T.DoRegister(true));
    var n := s.bridge.table.nextId + 1;
    assert T.RunOk(s.bridge, n) && T.CallOk(s.bridge, n) && n !in s.runs;
    if id == n {
      assert B.Run(true, B.INIT, [], B.INIT);
      assert LinesOf(s', n) == [];
    } else {
      assert RunInv(s, id) && LinesOf(s', id) == LinesOf(s, id);
    }
  }

  /** What reading a line does for a request that is a run. */
  lemma ReadForRun(bridge: T.Sys, b: T.Step, id: T.ReqId)
    requires T.Inv(bridge) && T.Enabled(bridge, b) && LineOf(b).Some? && id !in bridge.chans
    ensures var bridge', line := T.Apply(bridge, b), LineOf(b).value;
            var open, open', hand := id in bridge.table.streams, id in bridge'.table.streams, bridge'.hand;
            && bridge.hand == T.Free && bridge'.ended == bridge.ended
            && (line.id != id ==> open' == open && Held(hand, id) == [] && !(hand.Stream? && hand.id == id))
            && (line.id == id && line.EventLine? ==> open' == open && hand == if open then T.Emit(id, line.event) else T.Free)
            && (line.id == id && line.ResultLine? ==>
                  !open' && Held(hand, id) == [] && (hand.Stream? ==> open && hand == T.Stream(id, line.ok)))
  {
    assert T.CallOk(bridge, id) && T.RunOk(bridge, id);
  }

  lemma ReadLine(s: Sys, b: T.Step, id: T.ReqId)
    requires Inv(s) && BridgeEnabled(s, b) && LineOf(b).Some? && id in s.runs
    ensures RunInv(ApplyBridge(s, b), id)
  {
    var s', line := ApplyBridge(s, b), LineOf(b).value;
    assert RunInv(s, id);
    ReadForRun(s.bridge, b, id);
    assert LinesOf(s', id) == LinesOf(s, id) + [line];
    FollowsRead(id in s.bridge.table.streams, s.runs[id], LinesOf(s, id), id, line,
                s'.bridge.hand, id in s'.bridge.table.streams);
  }

  lemma WriteOwn(s: Sys, b: T.Step, id: T.ReqId)
    requires Inv(s) && BridgeEnabled(s, b) && Write(s.bridge, b).Some? && Write(s.bridge, b).value.0 == id
    ensures RunInv(ApplyBridge(s, b), id)
  {
    var run, hand, open, lines := s.runs[id], s.bridge.hand, id in s.bridge.table.streams, LinesOf(s, id);
    assert RunInv(s, id) && T.RunOk(s.bridge, id);
    StillAStream(run, Write(s.bridge, b).value.1);
    match b
    case DoPush => FollowsPush(hand, open, run, lines, id);
    case DoFinish => FollowsFinish(hand, open, run, lines, id);
    case DoFinishRun(_) => FollowsGone(hand, open, run, lines, id);
  }

  lemma WriteOther(s: Sys, b: T.Step, id: T.ReqId)
    requires Inv(s) && BridgeEnabled(s, b) && Write(s.bridge, b).Some? && Write(s.bridge, b).value.0 != id && id in s.runs
    ensures RunInv(ApplyBridge(s, b), id)
  {
    assert RunInv(s, id);
    var s' := ApplyBridge(s, b);
    assert LinesOf(s', id) == LinesOf(s, id) && (id in s'.bridge.table.streams <==> id in s.bridge.table.streams);
    assert s'.bridge.ended[id] == s.bridge.ended[id];
    FollowsOther(s.bridge.hand, s'.bridge.hand, id in s.bridge.table.streams, s.runs[id], LinesOf(s, id), id);
  }

  /** What the reader had for another run is gone. */
  lemma FollowsOther(hand: T.Hand, hand': T.Hand, open: bool, run: B.Sys, lines: seq<Line>, id: T.ReqId)
    requires Follows(hand, open, run, lines, id)
    requires hand' == hand || (hand' == T.Free && (hand.Emit? || hand.Stream?) && hand.id != id)
    ensures Follows(hand', open, run, lines, id)
  {
    assert run.pushed + [] == run.pushed;
  }

  /** What a step that neither registers a run, nor reads, nor writes changes of what a run is held by. */
  lemma OtherBridge(bridge: T.Sys, b: T.Step, id: T.ReqId)
    requires T.Inv(bridge) && T.Enabled(bridge, b) && b != T.DoRegister(true) && LineOf(b) == None && Write(bridge, b) == None
    ensures var bridge' := T.Apply(bridge, b);
            && (id in bridge'.table.streams ==> id in bridge.table.streams)
            && (bridge'.hand == bridge.hand || (bridge.hand.Call? && bridge'.hand == T.Free))
            && bridge'.ended == bridge.ended
  {
  }

  /** A run that nobody wrote to is as well as it was. */
  lemma UntouchedRun(s: Sys, s': Sys, id: T.ReqId)
    requires id in s.runs && RunInv(s, id) && id in s'.runs && s'.runs[id] == s.runs[id] && s'.since == s.since && s'.log == s.log
    requires id in s'.bridge.table.streams ==> id in s.bridge.table.streams
    requires s'.bridge.hand == s.bridge.hand || (s.bridge.hand.Call? && s'.bridge.hand == T.Free)
    requires s'.bridge.ended[id] == s.bridge.ended[id]
    ensures RunInv(s', id)
  {
    assert LinesOf(s', id) == LinesOf(s, id);
    FollowsLess(s.bridge.hand, id in s.bridge.table.streams, s'.bridge.hand, id in s'.bridge.table.streams,
                s.runs[id], LinesOf(s, id), id);
  }

  lemma OtherStep(s: Sys, b: T.Step, id: T.ReqId)
    requires Inv(s) && BridgeEnabled(s, b) && id in s.runs
    requires b != T.DoRegister(true) && LineOf(b) == None && Write(s.bridge, b) == None
    ensures RunInv(ApplyBridge(s, b), id)
  {
    OtherBridge(s.bridge, b, id);
    assert RunInv(s, id);
    if b.DoRegister? {
      RegisterCallKeeps(s, id);
    } else {
      UntouchedRun(s, ApplyBridge(s, b), id);
    }
  }

  lemma RegisterCallKeeps(s: Sys, id: T.ReqId)
    requires Inv(s) && BridgeEnabled(s, T.DoRegister(false)) && id in s.runs
    ensures RunInv(ApplyBridge(s, T.DoRegister(false)), id)
  {
    var s' := ApplyBridge(s, T.DoRegister(false));
    assert RunInv(s, id) && id <= s.bridge.table.nextId;
    assert LinesOf(s', id) == LinesOf(s, id);
  }

  /** No line is for a call: what is known of it stays, or is handed on. */
  lemma CallFollowsOn(bridge: T.Sys, b: T.Step, lines: seq<Line>, id: T.ReqId)
    requires T.Inv(bridge) && T.Enabled(bridge, b) && LineOf(b) == None && id in bridge.chans && CallFollows(bridge, lines, id)
    ensures CallFollows(T.Apply(bridge, b), lines, id)
  {
    assert T.CallOk(bridge, id);
  }

  /** A line is read: a result of a call that is registered comes into the reader's hand as it stands. */
  lemma CallFollowsRead(bridge: T.Sys, b: T.Step, lines: seq<Line>, id: T.ReqId)
    requires T.Inv(bridge) && T.Enabled(bridge, b) && LineOf(b).Some? && id in bridge.chans && CallFollows(bridge, lines, id)
    ensures CallFollows(T.Apply(bridge, b), lines + [LineOf(b).value], id)
  {
    OneMoreLine(lines, LineOf(b).value, id);
    assert T.CallOk(bridge, id);
  }

  lemma RegisteredCall(s: Sys, id: T.ReqId)
    requires Inv(s) && BridgeEnabled(s, T.DoRegister(false)) && id == s.bridge.table.nextId + 1
    ensures CallInv(ApplyBridge(s, T.DoRegister(false)), id)
  {
    assert T.CallOk(s.bridge, id) && T.RunOk(s.bridge, id);
    assert LinesOf(ApplyBridge(s, T.DoRegister(false)), id) == [];
  }

  lemma CallsAreOld(bridge: T.Sys, b: T.Step, id: T.ReqId)
    requires T.Inv(bridge) && T.Enabled(bridge, b) && id in T.Apply(bridge, b).chans
    ensures id in bridge.chans || (b == T.DoRegister(false) && id == bridge.table.nextId + 1)
  {
    match b
    case DoSend => assert T.CallOk(bridge, bridge.hand.id);
    case DoCloseCall(call) => assert T.CallOk(bridge, call);
    case _ =>
  }

  lemma BridgeStepOfCall(s: Sys, b: T.Step, id: T.ReqId)
    requires Inv(s) && BridgeEnabled(s, b) && id in ApplyBridge(s, b).bridge.chans
    ensures CallInv(ApplyBridge(s, b), id)
  {
    var s' := ApplyBridge(s, b);
    CallsAreOld(s.bridge, b, id);
    if id !in s.bridge.chans {
      RegisteredCall(s, id);
    } else {
      assert CallInv(s, id);
      CallStays(s, b, id);
    }
  }

  lemma CallStays(s: Sys, b: T.Step, id: T.ReqId)
    requires T.Inv(s.bridge) && BridgeEnabled(s, b) && id in s.bridge.chans && CallInv(s, id)
    ensures CallInv(ApplyBridge(s, b), id)
  {
    var s' := ApplyBridge(s, b);
    assert id in s.bridge.callers;
    if LineOf(b).Some? {
      CallFollowsRead(s.bridge, b, LinesOf(s, id), id);
      assert LinesOf(s', id) == LinesOf(s, id) + [LineOf(b).value];
    } else {
      CallFollowsOn(s.bridge, b, LinesOf(s, id), id);
      assert LinesOf(s', id) == LinesOf(s, id);
    }
  }

  lemma BridgeStep(s: Sys, b: T.Step)
    requires Inv(s) && BridgeEnabled(s, b)
    ensures Inv(ApplyBridge(s, b))
  {
    var s' := ApplyBridge(s, b);
    T.InvStep(s.bridge, b);
    forall id ensures id in s'.runs <==> id in s'.bridge.callers && id !in s'.bridge.chans {
      SameRequests(s.bridge, b, id);
    }
    forall id | id in s'.runs ensures RunInv(s', id) {
      BridgeStepOfRun(s, b, id);
    }
    forall id | id in s'.bridge.chans ensures CallInv(s', id) {
      BridgeStepOfCall(s, b, id);
    }
    HandHasItsRun(s, b);
  }

  lemma BridgeStepOfRun(s: Sys, b: T.Step, id: T.ReqId)
    requires Inv(s) && BridgeEnabled(s, b) && id in ApplyBridge(s, b).runs
    ensures RunInv(ApplyBridge(s, b), id)
  {
    if b == T.DoRegister(true) {
      RegisterRun(s, id);
    } else if LineOf(b).Some? {
      ReadLine(s, b, id);
    } else if Write(s.bridge, b) == None {
      OtherStep(s, b, id);
    } else if Write(s.bridge, b).value.0 == id {
      WriteOwn(s, b, id);
    } else {
      WriteOther(s, b, id);
    }
  }

  lemma HandHasItsRun(s: Sys, b: T.Step)
    requires Inv(s) && BridgeEnabled(s, b)
    ensures var s' := ApplyBridge(s, b); s'.bridge.hand.Emit? ==> s'.bridge.hand.id in s'.runs
  {
    if b.DoEvent? && b.id in s.bridge.table.streams {
      HeldRun(s, b.id);
    }
  }

  lemma InvStep(s: Sys, step: Step)
    requires Inv(s) && Enabled(s, step)
    ensures Inv(Apply(s, step))
  {
    match step
    case Bridge(b) => BridgeStep(s, b);
    case Ring(id, t) => OwnInv(s, id, B.DoSignal(t));
    case Consume(id, c) => OwnInv(s, id, c);
  }

  lemma {:induction false} InvRun(s: Sys, steps: seq<Step>, s': Sys)
    requires Inv(s) && Run(s, steps, s')
    ensures Inv(s')
    decreases |steps|
  {
    if steps != [] {
      InvStep(s, steps[0]);
      InvRun(Apply(s, steps[0]), steps[1..], s');
    }
  }

  lemma InvReachable(s: Sys)
    requires Reachable(s)
    ensures Inv(s)
  {
    var steps :| Run(INIT, steps, s);
    InvRun(INIT, steps, s);
  }

  // ---- theorems ------------------------------------------------------------------------------------

  /** Every run's stream behaves as a stream with one consumer at a time does: what is proved of those
      holds of it. */
  lemma EachRunIsAStream(s: Sys, id: T.ReqId)
    requires Reachable(s) && id in s.runs
    ensures B.Reachable(true, s.runs[id])
  {
    InvReachable(s);
    assert RunInv(s, id);
  }

  /** Whatever has been delivered to a run is a beginning of what the bridge sent for its own request. */
  lemma {:induction false} OnlyItsOwnEvents(s: Sys, id: T.ReqId)
    requires Reachable(s) && id in s.runs
    ensures s.runs[id].delivered <= Sent(LinesOf(s, id), id)
  {
    InvReachable(s);
    assert RunInv(s, id);
    B.InOrderThenTheEnd(true, s.runs[id]);
    assert s.runs[id].delivered <= s.runs[id].pushed <= Sent(LinesOf(s, id), id);
  }

  /** A run that is told the bridge's result is told that of its own request, and has been handed
      every event the bridge sent for it before that result, in order, and no other. */
  lemma {:induction false} ResultAfterItsEvents(s: Sys, id: T.ReqId, k: nat)
    requires Reachable(s) && id in s.runs && k < |s.runs[id].told| && s.runs[id].told[k].result.Answered?
    ensures FirstResult(LinesOf(s, id), id) == Some(s.runs[id].told[k].result.ok)
    ensures s.runs[id].told[k].ask == B.ForNext ==>
              s.runs[id].told[k].delivered == s.runs[id].delivered == Sent(LinesOf(s, id), id)
  {
    InvReachable(s);
    assert RunInv(s, id);
    var run := s.runs[id];
    B.InOrderThenTheEnd(true, run);
    if run.told[k].ask == B.ForNext {
      assert run.delivered <= run.pushed;
    }
  }

  /** A call that has an answer has that of the first result line for its request, success or error; and
      until then whoever holds it - its channel, the reader - holds the same. */
  lemma {:induction false} AnswerIsTheFirstResult(s: Sys, id: T.ReqId)
    requires Reachable(s) && id in s.bridge.callers
    ensures s.bridge.callers[id].Got? ==>
              s.bridge.callers[id].response.id == id && FirstResult(LinesOf(s, id), id) == Some(s.bridge.callers[id].response.ok)
    ensures id in s.bridge.chans && s.bridge.chans[id].Full? ==>
              s.bridge.chans[id].response.id == id && FirstResult(LinesOf(s, id), id) == Some(s.bridge.chans[id].response.ok)
    ensures T.InHand(s.bridge, id) ==> FirstResult(LinesOf(s, id), id) == Some(s.bridge.hand.response.ok)
    ensures id in s.bridge.table.pending ==> FirstResult(LinesOf(s, id), id) == None
  {
    InvReachable(s);
    assert T.CallOk(s.bridge, id) && T.RunOk(s.bridge, id);
    assert id in s.bridge.chans ==> CallInv(s, id);
  }

  /** A consumer that stays parked - nothing in its slot, nobody about to signal or to finish its stream -
      has everything there is: it is still registered, its result has not come, and what was
      delivered is all the bridge sent. After a shutdown there is no such consumer. */
  lemma {:induction false} ParkedHasEverything(s: Sys, id: T.ReqId, t: B.Tid)
    requires Reachable(s) && id in s.runs && T.Stands(s.bridge, id, T.Streaming)
    requires B.IsParked(s.runs[id], t) && !s.runs[id].stream.notify && s.runs[id].owed == {}
    requires s.bridge.hand == T.Free && id !in s.bridge.stolenRuns
    ensures id in s.bridge.table.streams && !s.bridge.table.closed && FirstResult(LinesOf(s, id), id) == None
    ensures s.runs[id].consumers[t].ask == B.ForNext ==> s.runs[id].delivered == Sent(LinesOf(s, id), id)
  {
    InvReachable(s);
    assert RunInv(s, id) && T.RunOk(s.bridge, id);
    B.InOrderThenTheEnd(true, s.runs[id]);
    B.NoLostWakeUp(s.runs[id], t);
    assert s.runs[id].pushed + [] == s.runs[id].pushed && s.runs[id].delivered + [] == s.runs[id].delivered;
  }

  /** Whoever holds something for a stream can write it: the stream is there, and no signal of the
      same goroutine is still owed. */
  lemma WritersAreNeverStuck(s: Sys, b: T.Step)
    requires Reachable(s) && T.Enabled(s.bridge, b) && Write(s.bridge, b).Some?
    ensures Enabled(s, Bridge(b))
  {
    InvReachable(s);
    var id := Write(s.bridge, b).value.0;
    if b != T.DoPush {
      HeldRun(s, id);
    }
    assert RunInv(s, id);
  }

  // ---- a session -------------------------------------------------------------------------------------

  lemma {:induction false} RunSnoc(s: Sys, steps: seq<Step>, s': Sys, step: Step)
    requires Run(s, steps, s') && Enabled(s', step)
    ensures Run(s, steps + [step], Apply(s', step))
    decreases |steps|
  {
    if steps == [] {
      assert [step][1..] == [];
    } else {
      assert (steps + [step])[0] == steps[0] && (steps + [step])[1..] == steps[1..] + [step];
      RunSnoc(Apply(s, steps[0]), steps[1..], s', step);
    }
  }

  lemma Reach(s: Sys, step: Step) returns (s': Sys)
    requires Reachable(s) && Enabled(s, step)
    ensures Reachable(s') && s' == Apply(s, step)
  {
    var steps :| Run(INIT, steps, s);
    RunSnoc(INIT, steps, s, step);
    assert Run(INIT, steps + [step], Apply(s, step));
    s' := Apply(s, step);
  }

  /** A call is registered and written, the bridge answers it with an error, and the caller is told so. */
  lemma AnErrorIsTold() returns (s: Sys)
    ensures Reachable(s) && T.Stands(s.bridge, 1, T.Got(T.Response(1, false)))
    ensures s.bridge.table == T.Table(1, {}, {}, false) && s.bridge.hand == T.Free && s.runs == map[]
    ensures s.bridge.callers.Keys == {1} && s.bridge.chans.Keys == {1} && s.log == [ResultLine(1, false)]
  {
    s := AnErrorIsSent();
    s := Reach(s, Bridge(T.DoReceive(1)));
  }

  lemma AnErrorIsSent() returns (s: Sys)
    ensures Reachable(s) && s.runs == map[] && s.log == [ResultLine(1, false)]
    ensures s.bridge == T.INIT.(table := T.Table(1, {}, {}, false), chans := map[1 := T.Full(T.Response(1, false))],
                                callers := map[1 := T.Waiting])
  {
    s := ACallIsWritten();
    s := Reach(s, Bridge(T.DoResult(1, false)));
    s := Reach(s, Bridge(T.DoSend));
  }

  lemma ACallIsWritten() returns (s: Sys)
    ensures Reachable(s) && s.bridge == T.INIT.(table := T.Table(1, {1}, {}, false), chans := map[1 := T.Empty], callers := map[1 := T.Waiting])
    ensures s.runs == map[] && s.log == []
  {
    assert Run(INIT, [], INIT);
    s := Reach(INIT, Bridge(T.DoRegister(false)));
    s := Reach(s, Bridge(T.DoWritten(1)));
  }

  /** Then a run: registered and written, it gets an event the bridge sends for it. */
  lemma AnEventArrives() returns (s: Sys)
    ensures Reachable(s) && 2 in s.runs && s.runs[2].delivered == [7] && T.Stands(s.bridge, 2, T.Streaming)
    ensures s.runs[2].stream.result == None
    ensures s.bridge.table.streams == {2} && !s.bridge.table.closed
  {
    s := AnEventIsPushed();
    s := Reach(s, Ring(2, READER));
    s := Reach(s, Consume(2, B.DoAsk(5, B.ForNext)));
    s := Reach(s, Consume(2, B.DoLook(5)));
  }

  lemma AnEventIsPushed() returns (s: Sys)
    ensures Reachable(s) && s.bridge.table.streams == {2} && !s.bridge.table.closed && T.Stands(s.bridge, 2, T.Streaming)
    ensures s.runs == map[2 := B.Sys(B.Stream([7], None, false), {READER}, map[], [7], [], [])]
  {
    var s1 := ARunIsWritten();
    var s2 := Reach(s1, Bridge(T.DoEvent(2, 7)));
    s := Reach(s2, Bridge(T.DoPush));
    assert s2.runs == s1.runs && s2.runs[2] == B.INIT;
    assert s.runs == s2.runs[2 := B.Apply(B.INIT, B.DoPush(READER, 7))];
    assert [] + [7] == [7] && {} + {READER} == {READER};
  }

  lemma ARunIsWritten() returns (s: Sys)
    ensures Reachable(s) && s.bridge.table == T.Table(2, {}, {2}, false) && T.Stands(s.bridge, 2, T.Streaming)
    ensures s.bridge.hand == T.Free && s.runs == map[2 := B.INIT]
  {
    s := AnErrorIsTold();
    s := Reach(s, Bridge(T.DoRegister(true)));
    s := Reach(s, Bridge(T.DoWritten(2)));
  }

  /** At any time the transport can be shut down, and what the shutdown took can be let go. */
  lemma AShutdownEndsTheRun() returns (s: Sys)
    ensures Reachable(s) && s.bridge.table.closed && 2 in s.runs && s.runs[2].stream.result == Some(B.BridgeGone)
  {
    var s1 := AnEventArrives();
    var s2 := Reach(s1, Bridge(T.DoShutdown));
    WritersAreNeverStuck(s2, T.DoFinishRun(2));
    s := Reach(s2, Bridge(T.DoFinishRun(2)));
    assert s2.runs[2] == s1.runs[2] && s2.bridge.table.closed;
    assert s.runs[2] == B.Apply(s2.runs[2], B.DoFinish(CLOSER, B.BridgeGone));
    assert s.bridge.table.closed;
  }
}
