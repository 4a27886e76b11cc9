/**
  The incremental fold of a run's events into conversation rows: groups that grow in
  place, shared between the list of all groups and the index by call id.
*/
module ChatFold {
  import opened Basics
  import opened ChatEvents

  datatype Role = RoleThinking | RoleTool

  /** The value of one group: what a `ChatGroup` object holds at one moment. */
  datatype GroupValue = GroupValue(
    seq_: nat,
    emitted: bool,
    role: Role,
    callId: string,
    name: string,
    args: Json,
    result: Json,
    hasResult: bool,
    text: string,
    createdAt: int,
    endedAt: int,
    reportedMs: Option<int>)

  /** The value of the whole accumulator: its groups, and which group a call id names. */
  datatype Fold = Fold(groups: seq<GroupValue>, byCallId: map<string, nat>)

  function NewGroup(n: nat, role: Role, callId: string, createdAt: int): GroupValue {
    GroupValue(n, false, role, callId, "", Null, Null, false, "", createdAt, 0, None)
  }

  function WithText(g: GroupValue, ev: Event): GroupValue {
    g.(text := g.text + ev.text,
       createdAt := if g.createdAt == 0 then ev.at else g.createdAt,
       endedAt := if ev.at != 0 then ev.at else g.endedAt,
       reportedMs := if g.reportedMs == None then ev.thinkingMs else g.reportedMs)
  }

  function WithTool(g: GroupValue, ev: Event): GroupValue {
    g.(createdAt := if g.createdAt == 0 then ev.at else g.createdAt,
       name := if ev.name != "" then ev.name else g.name,
       args := if g.args == Null && ev.args.Some? then ev.args.value else g.args,
       result := if ev.result.Some? then ev.result.value else g.result,
       hasResult := g.hasResult || ev.result.Some?)
  }

  function MessageOf(g: GroupValue): Message {
    Message(g.seq_, g.createdAt,
            if g.role == RoleThinking then Thinking(g.text, Duration(g.reportedMs, g.createdAt, g.endedAt))
            else ToolCall(if g.hasResult then Some(g.result) else None, g.name, g.callId, g.args))
  }

  predicate ThinkingIsLast(a: Fold) {
    a.groups != [] && a.groups[|a.groups| - 1].role == RoleThinking
  }

  /** A group is emitted when it is complete: a thinking block when asked, a call once it has its result. */
  predicate Emits(g: GroupValue) {
    g.role == RoleTool ==> g.hasResult
  }

  function Emit(g: GroupValue): GroupValue {
    if Emits(g) then g.(emitted := true) else g
  }

  function EmitRows(g: GroupValue): seq<Message> {
    if Emits(g) then [MessageOf(g)] else []
  }

  /** What an event makes of the accumulator. */
  function AddFold(a: Fold, ev: Event): Fold
    requires WellIndexed(a)
  {
    var n := |a.groups|;
    match ev.channel
    case Thought =>
      if ThinkingIsLast(a) then a.(groups := a.groups[n - 1 := WithText(a.groups[n - 1], ev)])
      else a.(groups := a.groups + [WithText(NewGroup(n + 1, RoleThinking, "", 0), ev)])
    case Tool =>
      if ev.callId != "" && ev.callId in a.byCallId then
        var k := a.byCallId[ev.callId];
        a.(groups := a.groups[k := Emit(WithTool(a.groups[k], ev))])
      else
        Fold(CloseThinking(a.groups) + [Emit(WithTool(NewGroup(n + 1, RoleTool, ev.callId, ev.at), ev))],
             if ev.callId != "" then a.byCallId[ev.callId := n] else a.byCallId)
    case Other => a
  }

  function CloseThinking(groups: seq<GroupValue>): seq<GroupValue> {
    var n := |groups|;
    if n > 0 && groups[n - 1].role == RoleThinking then groups[n - 1 := groups[n - 1].(emitted := true)] else groups
  }

  function CloseRows(groups: seq<GroupValue>): seq<Message> {
    var n := |groups|;
    if n > 0 && groups[n - 1].role == RoleThinking && !groups[n - 1].emitted then [MessageOf(groups[n - 1])] else []
  }

  /** The rows an event completes, in seq order. */
  function AddRows(a: Fold, ev: Event): seq<Message>
    requires WellIndexed(a)
  {
    if ev.channel != Tool then []
    else if ev.callId != "" && ev.callId in a.byCallId then
      EmitRows(WithTool(a.groups[a.byCallId[ev.callId]], ev))
    else
      CloseRows(a.groups) + EmitRows(WithTool(NewGroup(|a.groups| + 1, RoleTool, ev.callId, ev.at), ev))
  }

  /** The rows still open at the end of the stream, in seq order. */
  function FlushRows(groups: seq<GroupValue>): seq<Message> {
    if groups == [] then []
    else
      FlushRows(groups[..|groups| - 1]) +
      if groups[|groups| - 1].emitted then [] else [MessageOf(groups[|groups| - 1])]
  }

  function FlushFold(a: Fold): Fold {
    a.(groups := seq(|a.groups|, k requires 0 <= k < |a.groups| => a.groups[k].(emitted := true)))
  }

  lemma {:induction false} NoneIsOpen(groups: seq<GroupValue>)
    requires forall k | 0 <= k < |groups| :: groups[k].emitted
    ensures FlushRows(groups) == []
  {
    if groups != [] {
      NoneIsOpen(groups[..|groups| - 1]);
    }
  }

  /** Flushed a second time there is nothing to write; and a flush changes nothing else. */
  lemma FlushedOnce(a: Fold)
    ensures FlushRows(FlushFold(a).groups) == [] && FlushFold(a).byCallId == a.byCallId
    ensures |FlushFold(a).groups| == |a.groups|
    ensures forall k | 0 <= k < |a.groups| :: FlushFold(a).groups[k].(emitted := a.groups[k].emitted) == a.groups[k]
  {
    NoneIsOpen(FlushFold(a).groups);
  }

  ghost predicate WellIndexed(a: Fold) {
    forall c | c in a.byCallId :: a.byCallId[c] < |a.groups|
  }

  // ---- the objects -----------------------------------------------------------------

  class ChatGroup {
    var seq_: nat
    var emitted: bool
    var role: Role
    var callId: string
    var name: string
    var args: Json
    var result: Json
    var hasResult: bool
    var text: string
    var createdAt: int
    var endedAt: int
    var reportedMs: Option<int>

    function Val(): GroupValue
      reads this
    {
      GroupValue(seq_, emitted, role, callId, name, args, result, hasResult, text, createdAt, endedAt, reportedMs)
    }

    constructor (n: nat, role: Role, callId: string, createdAt: int)
      ensures Val() == NewGroup(n, role, callId, createdAt)
    {
      this.seq_, emitted, this.role, this.callId := n, false, role, callId;
      name, args, result, hasResult, text := "", Null, Null, false, "";
      this.createdAt, endedAt, reportedMs := createdAt, 0, None;
    }

    method AppendText(ev: Event)
      modifies this
      ensures Val() == WithText(old(Val()), ev)
    {
      text := text + ev.text;
      if createdAt == 0 {
        createdAt := ev.at;
      }
      if ev.at != 0 {
        endedAt := ev.at;
      }
      if reportedMs == None {
        reportedMs := ev.thinkingMs;
      }
    }

    method MergeTool(ev: Event)
      modifies this
      ensures Val() == WithTool(old(Val()), ev)
    {
      if createdAt == 0 {
        createdAt := ev.at;
      }
      if ev.name != "" {
        name := ev.name;
      }
      if args == Null {
        if ev.args.Some? {
          args := ev.args.value;
        }
      }
      if ev.result.Some? {
        result, hasResult := ev.result.value, true;
      }
    }
  }

  ghost function Values(gs: seq<ChatGroup>): seq<GroupValue>
    reads gs
  {
    seq(|gs|, k requires 0 <= k < |gs| reads gs => gs[k].Val())
  }

  class ChatAggregator {
    var groups: seq<ChatGroup>
    var byCallId: map<string, ChatGroup>
    /** Where the group of a call id stands in `groups`. */
    ghost var at: map<string, nat>

    ghost predicate Valid()
      reads this
    {
      && (forall i, j | 0 <= i < j < |groups| :: groups[i] != groups[j])
      && at.Keys == byCallId.Keys
      && forall c | c in byCallId :: at[c] < |groups| && groups[at[c]] == byCallId[c]
    }

    ghost function Model(): Fold
      reads this, groups
    {
      Fold(Values(groups), at)
    }

    constructor ()
      ensures Valid() && groups == [] && Model() == Fold([], map[])
    {
      groups, byCallId, at := [], map[], map[];
    }

    /** Folds one event in, and returns the rows it completed. */
    method Add(ev: Event) returns (rows: seq<Message>)
      requires Valid()
      modifies this, groups
      ensures Valid() && Model() == AddFold(old(Model()), ev) && rows == AddRows(old(Model()), ev)
      ensures forall k | 0 <= k < |groups| :: groups[k] in old(groups) || fresh(groups[k])
    {
      rows := [];
      match ev.channel {
        case Thought => AddThought(ev);
        case Tool => rows := AddTool(ev);
        case Other =>
      }
    }

    method AddThought(ev: Event)
      requires Valid() && ev.channel == Thought
      modifies this, groups
      ensures Valid() && Model() == AddFold(old(Model()), ev)
      ensures forall k | 0 <= k < |groups| :: groups[k] in old(groups) || fresh(groups[k])
    {
      var n := |groups|;
      if n > 0 && groups[n - 1].role == RoleThinking {
        groups[n - 1].AppendText(ev);
        assert Values(groups) == AddFold(old(Model()), ev).groups;
        return;
      }
      StartThinking(ev);
    }

    method StartThinking(ev: Event)
      requires Valid()
      modifies this`groups
      ensures Valid() && |groups| == old(|groups|) + 1 && groups[..old(|groups|)] == old(groups)
      ensures fresh(groups[|groups| - 1])
      ensures Model() == old(Model()).(groups :=
                old(Model()).groups + [WithText(NewGroup(old(|groups|) + 1, RoleThinking, "", 0), ev)])
    {
      var g := new ChatGroup(|groups| + 1, RoleThinking, "", 0);
      g.AppendText(ev);
      AppendGroup(g);
    }

    /** A new group joins the list. */
    method AppendGroup(g: ChatGroup)
      requires Valid() && g !in groups
      modifies this`groups
      ensures Valid() && groups == old(groups) + [g]
      ensures Model() == old(Model()).(groups := old(Model().groups) + [g.Val()])
    {
      groups := groups + [g];
      assert Values(groups) == old(Values(groups)) + [g.Val()];
    }

    method AddTool(ev: Event) returns (rows: seq<Message>)
      requires Valid() && ev.channel == Tool
      modifies this, groups
      ensures Valid() && Model() == AddFold(old(Model()), ev) && rows == AddRows(old(Model()), ev)
      ensures forall k | 0 <= k < |groups| :: groups[k] in old(groups) || fresh(groups[k])
    {
      if ev.callId != "" && ev.callId in byCallId {
        rows := MergeKnown(ev);
        return;
      }
      rows := BeginTool(ev);
    }

    /** A tool event that begins a group closes the open block of thoughts first. */
    method BeginTool(ev: Event) returns (rows: seq<Message>)
      requires Valid() && ev.channel == Tool && (ev.callId == "" || ev.callId !in byCallId)
      modifies this, groups
      ensures Valid() && Model() == AddFold(old(Model()), ev) && rows == AddRows(old(Model()), ev)
      ensures forall k | 0 <= k < |groups| :: groups[k] in old(groups) || fresh(groups[k])
    {
      rows := CloseThinkingBlock();
      var own := StartTool(ev);
      rows := rows + own;
    }

    method StartTool(ev: Event) returns (rows: seq<Message>)
      requires Valid()
      modifies this
      ensures Valid() && |groups| == old(|groups|) + 1 && groups[..old(|groups|)] == old(groups)
      ensures fresh(groups[|groups| - 1])
      ensures var g := WithTool(NewGroup(old(|groups|) + 1, RoleTool, ev.callId, ev.at), ev);
              Model() == Fold(old(Model()).groups + [Emit(g)],
                              if ev.callId != "" then old(at)[ev.callId := old(|groups|)] else old(at)) &&
              rows == EmitRows(g)
    {
      var g;
      g, rows := NewTool(ev, |groups| + 1);
      AppendGroup(g);
      if ev.callId != "" {
        IndexLast(ev.callId);
      }
    }

    method NewTool(ev: Event, n: nat) returns (g: ChatGroup, rows: seq<Message>)
      ensures fresh(g)
      ensures var v := WithTool(NewGroup(n, RoleTool, ev.callId, ev.at), ev); g.Val() == Emit(v) && rows == EmitRows(v)
    {
      g := new ChatGroup(n, RoleTool, ev.callId, ev.at);
      g.MergeTool(ev);
      rows := EmitGroup(g);
    }

    /** The last group is found under its call id from now on. */
    method IndexLast(callId: string)
      requires Valid() && groups != []
      modifies this`byCallId, this`at
      ensures Valid() && at == old(at)[callId := |groups| - 1]
    {
      byCallId := byCallId[callId := groups[|groups| - 1]];
      at := at[callId := |groups| - 1];
    }

    /** An event of a call that already has its group, found through the index. */
    method MergeKnown(ev: Event) returns (rows: seq<Message>)
      requires Valid() && ev.channel == Tool && ev.callId != "" && ev.callId in byCallId
      modifies groups
      ensures Valid() && Model() == AddFold(old(Model()), ev) && rows == AddRows(old(Model()), ev)
    {
      var g := byCallId[ev.callId];
      g.MergeTool(ev);
      rows := EmitGroup(g);
      assert Values(groups) == AddFold(old(Model()), ev).groups;
    }

    /** Emits the open thinking block, which ends when the next group starts. */
    method CloseThinkingBlock() returns (rows: seq<Message>)
      requires Valid()
      modifies groups
      ensures Valid() && Model() == old(Model()).(groups := CloseThinking(old(Model()).groups))
      ensures rows == CloseRows(old(Model()).groups)
    {
      rows := [];
      var n := |groups|;
      if n > 0 && groups[n - 1].role == RoleThinking && !groups[n - 1].emitted {
        rows := EmitGroup(groups[n - 1]);
      }
      assert Values(groups) == CloseThinking(old(Values(groups)));
    }

    /** Returns a group's row once it can no longer be open. */
    method EmitGroup(g: ChatGroup) returns (rows: seq<Message>)
      modifies g
      ensures g.Val() == Emit(old(g.Val())) && rows == EmitRows(old(g.Val()))
    {
      if g.role == RoleTool && !g.hasResult {
        return [];
      }
      g.emitted := true;
      return [MessageOf(g.Val())];
    }

    method FlushGroup(i: nat) returns (rows: seq<Message>)
      requires Valid() && i < |groups|
      modifies groups
      ensures Values(groups) == old(Values(groups))[i := old(Values(groups))[i].(emitted := true)]
      ensures rows == if old(Values(groups))[i].emitted then [] else [MessageOf(old(Values(groups))[i])]
    {
      var g := groups[i];
      rows := [];
      if !g.emitted {
        g.emitted := true;
        rows := [MessageOf(g.Val())];
      }
      assert Values(groups) == old(Values(groups))[i := old(Values(groups))[i].(emitted := true)];
    }

    /** Returns the rows the stream left open, and marks them written. */
    method Flush() returns (rows: seq<Message>)
      requires Valid()
      modifies groups
      ensures Valid() && Model() == FlushFold(old(Model())) && rows == FlushRows(old(Model()).groups)
    {
      rows := [];
      ghost var was := Values(groups);
      for i := 0 to |groups|
        invariant Values(groups) == FlushedTo(was, i)
        invariant rows == FlushRows(was[..i])
      {
        var row := FlushGroup(i);
        rows := rows + row;
        assert was[..i + 1][..i] == was[..i];
        assert FlushedTo(was, i)[i := was[i].(emitted := true)] == FlushedTo(was, i + 1);
      }
      assert was[..|groups|] == was;
      assert FlushedTo(was, |was|) == FlushFold(old(Model())).groups;
    }
  }

  /** The first `n` groups are marked written. */
  function FlushedTo(groups: seq<GroupValue>, n: nat): seq<GroupValue> {
    seq(|groups|, k requires 0 <= k < |groups| => if k < n then groups[k].(emitted := true) else groups[k])
  }
}
