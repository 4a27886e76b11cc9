/** The rows written while a run streams are the conversation of the whole stream. */
module ChatTheorems {
  import opened Basics
  import opened ChatEvents
  import opened ChatFold

  /** The accumulator after a stream. */
  ghost function FoldOf(evs: seq<Event>): (a: Fold)
    ensures WellIndexed(a)
  {
    if evs == [] then Fold([], map[]) else AddFold(FoldOf(evs[..|evs| - 1]), evs[|evs| - 1])
  }

  /** Rows are written by seq: a second write of a seq replaces the first. */
  function Upsert(table: map<nat, Message>, rows: seq<Message>): map<nat, Message> {
    if rows == [] then table
    else Upsert(table, rows[..|rows| - 1])[rows[|rows| - 1].seq_ := rows[|rows| - 1]]
  }

  /** What a live run has written after a prefix of its stream. */
  ghost function Stored(evs: seq<Event>): map<nat, Message> {
    if evs == [] then map[]
    else
      var n := |evs| - 1;
      Upsert(Stored(evs[..n]), AddRows(FoldOf(evs[..n]), evs[n]))
  }

  // ---- the group of a row ------------------------------------------------------------

  /** The group that holds exactly the events `es`. */
  function GroupFrom(n: nat, opener: Event, es: seq<Event>): GroupValue {
    if opener.channel == Thought then
      GroupValue(n, false, RoleThinking, "", "", Null, Null, false, Text(es), FirstAt(es), LastAt(es), FirstMs(es))
    else
      var r := LastResult(es);
      GroupValue(n, false, RoleTool, opener.callId, LastName(es), FirstArgs(es),
                 if r.Some? then r.value else Null, r.Some?, "", FirstAt(es), 0, None)
  }

  lemma GroupFromAppend(n: nat, opener: Event, es: seq<Event>, e: Event)
    ensures GroupFrom(n, opener, es + [e]) ==
            if opener.channel == Thought then WithText(GroupFrom(n, opener, es), e) else WithTool(GroupFrom(n, opener, es), e)
  {
    assert (es + [e])[..|es|] == es;
  }

  lemma GroupFromFirst(n: nat, e: Event)
    ensures GroupFrom(n, e, [e]) ==
            if e.channel == Thought then WithText(NewGroup(n, RoleThinking, "", 0), e)
            else WithTool(NewGroup(n, RoleTool, e.callId, e.at), e)
  {
    GroupFromAppend(n, e, [], e);
    assert [] + [e] == [e];
  }

  /** When a row has been written: a thinking block once another row began, a call once it has a result. */
  ghost predicate Written(evs: seq<Event>, k: nat)
    requires k < |Openers(evs)|
  {
    var o := Openers(evs)[k];
    if evs[o].channel == Thought then k < |Openers(evs)| - 1 else LastResult(Members(evs, o)).Some?
  }

  ghost predicate GroupOk(evs: seq<Event>, g: GroupValue, k: nat) {
    && k < |Openers(evs)|
    && g.(emitted := false) == GroupFrom(k + 1, evs[Openers(evs)[k]], Members(evs, Openers(evs)[k]))
    && (g.emitted <==> Written(evs, k))
  }

  ghost predicate GroupsMatch(evs: seq<Event>, groups: seq<GroupValue>) {
    |groups| == |Openers(evs)| && forall k | 0 <= k < |groups| :: GroupOk(evs, groups[k], k)
  }

  ghost predicate CallSeen(evs: seq<Event>, c: string) {
    exists i :: 0 <= i < |evs| && evs[i].channel == Tool && evs[i].callId == c
  }

  ghost predicate IndexMatches(evs: seq<Event>, byCallId: map<string, nat>) {
    var os := Openers(evs);
    && (forall c :: c in byCallId <==> c != "" && CallSeen(evs, c))
    && (forall c | c in byCallId ::
          byCallId[c] < |os| && evs[os[byCallId[c]]].channel == Tool && evs[os[byCallId[c]]].callId == c)
  }

  // ---- thoughts and the last row --------------------------------------------------------

  ghost predicate LastRowIsThinking(evs: seq<Event>) {
    var os := Openers(evs);
    os != [] && evs[os[|os| - 1]].channel == Thought
  }

  /** What the last event adds to the openers. */
  lemma {:induction false} LastOpens(evs: seq<Event>)
    requires evs != []
    ensures var n := |evs| - 1;
            Openers(evs) == Openers(evs[..n]) + if Opens(evs, n) then [n] else []
    ensures forall k | 0 <= k < |Openers(evs[..|evs| - 1])| :: Openers(evs)[k] == Openers(evs[..|evs| - 1])[k]
  {
  }

  lemma {:induction false} LastRowSame(evs: seq<Event>)
    requires evs != [] && !Opens(evs, |evs| - 1)
    ensures Openers(evs) == Openers(evs[..|evs| - 1])
    ensures LastRowIsThinking(evs) == LastRowIsThinking(evs[..|evs| - 1])
  {
    LastOpens(evs);
    var os := Openers(evs[..|evs| - 1]);
    if os != [] {
      assert evs[..|evs| - 1][os[|os| - 1]] == evs[os[|os| - 1]];
    }
  }

  lemma {:induction false} LastRowNew(evs: seq<Event>)
    requires evs != [] && Opens(evs, |evs| - 1)
    ensures Openers(evs) != [] && Openers(evs)[|Openers(evs)| - 1] == |evs| - 1
    ensures LastRowIsThinking(evs) <==> evs[|evs| - 1].channel == Thought
  {
    LastOpens(evs);
  }

  /** Where the last row is not a thinking row, every thought lies before it. */
  lemma {:induction false} ThoughtsBeforeLastTool(evs: seq<Event>, j: nat)
    requires j < |evs| && evs[j].channel == Thought && !LastRowIsThinking(evs)
    ensures Openers(evs) != [] && j < Openers(evs)[|Openers(evs)| - 1]
    decreases |evs|, 1
  {
    var n := |evs| - 1;
    if Opens(evs, n) {
      LastRowNew(evs);
    } else {
      LastRowSame(evs);
      if evs[n].channel == Thought {
        ThoughtOpensIff(evs);
      } else {
        var before := evs[..n];
        assert before[j] == evs[j];
        ThoughtsBeforeLastTool(before, j);
      }
    }
  }

  /** A thought begins a row exactly when the row before it is not a thinking row. */
  lemma ThoughtOpensIff(evs: seq<Event>)
    requires evs != [] && evs[|evs| - 1].channel == Thought
    ensures Opens(evs, |evs| - 1) <==> !LastRowIsThinking(evs[..|evs| - 1])
    decreases |evs|, 0
  {
    if LastRowIsThinking(evs[..|evs| - 1]) {
      NoToolAfterLastRow(evs);
    } else {
      forall j: nat | j < |evs| - 1 && evs[j].channel == Thought ensures ToolBetween(evs, j, |evs| - 1) {
        ToolAfterThought(evs, j);
      }
    }
  }

  lemma NoToolAfterLastRow(evs: seq<Event>)
    requires evs != [] && LastRowIsThinking(evs[..|evs| - 1])
    ensures var os := Openers(evs[..|evs| - 1]); var o := os[|os| - 1];
            evs[o].channel == Thought && !ToolBetween(evs, o, |evs| - 1)
  {
    var n := |evs| - 1;
    var os := Openers(evs[..n]);
    var o := os[|os| - 1];
    PrefixOpens(evs, n);
    OpenerOpens(evs[..n], |os| - 1);
    assert evs[..n][o] == evs[o];
    forall k: nat | o < k < n ensures !ToolOpens(evs, k) {
      assert Opens(evs[..n], k) ==> k in os;
    }
  }

  lemma ToolAfterThought(evs: seq<Event>, j: nat)
    requires evs != [] && j < |evs| - 1 && evs[j].channel == Thought && !LastRowIsThinking(evs[..|evs| - 1])
    ensures ToolBetween(evs, j, |evs| - 1)
    decreases |evs| - 1, 2
  {
    var n := |evs| - 1;
    var os := Openers(evs[..n]);
    PrefixOpens(evs, n);
    assert evs[..n][j] == evs[j];
    ThoughtsBeforeLastTool(evs[..n], j);
    OpenerOpens(evs[..n], |os| - 1);
    assert j < os[|os| - 1] && ToolOpens(evs, os[|os| - 1]);
  }

  // ---- one event -------------------------------------------------------------------------

  /** The rows of a prefix gain the new event exactly where it belongs. */
  lemma MembersGrow(evs: seq<Event>, k: nat)
    requires evs != [] && k < |Openers(evs[..|evs| - 1])|
    ensures k < |Openers(evs)| && Openers(evs)[k] < |evs| - 1
    ensures var n := |evs| - 1; var o := Openers(evs)[k];
            && Openers(evs[..n])[k] == o && evs[..n][o] == evs[o]
            && Members(evs, o) == Members(evs[..n], o) + if Belongs(evs, n, o) then [evs[n]] else []
  {
    LastOpens(evs);
  }

  lemma {:induction false} MembersOfNew(evs: seq<Event>)
    requires evs != [] && Opens(evs, |evs| - 1)
    ensures Members(evs, |evs| - 1) == [evs[|evs| - 1]]
  {
    var n := |evs| - 1;
    assert Belongs(evs, n, n) && Members(evs[..n], n) == [];
  }

  ghost predicate Matches(evs: seq<Event>, a: Fold) {
    GroupsMatch(evs, a.groups) && IndexMatches(evs, a.byCallId)
  }

  lemma CallSeenGrows(evs: seq<Event>, c: string)
    requires evs != []
    ensures var e := evs[|evs| - 1];
            CallSeen(evs, c) <==> CallSeen(evs[..|evs| - 1], c) || (e.channel == Tool && e.callId == c)
  {
    var n := |evs| - 1;
    if CallSeen(evs[..n], c) {
      var i :| 0 <= i < n && evs[..n][i].channel == Tool && evs[..n][i].callId == c;
      assert evs[i].channel == Tool && evs[i].callId == c;
    }
    if CallSeen(evs, c) {
      var i :| 0 <= i < |evs| && evs[i].channel == Tool && evs[i].callId == c;
      assert i < n ==> evs[..n][i].channel == Tool && evs[..n][i].callId == c;
    }
  }

  /** An event that is no tool event leaves the index as it is. */
  lemma IndexKept(evs: seq<Event>, byCallId: map<string, nat>)
    requires evs != [] && evs[|evs| - 1].channel != Tool && IndexMatches(evs[..|evs| - 1], byCallId)
    ensures IndexMatches(evs, byCallId)
  {
    LastOpens(evs);
    forall c ensures CallSeen(evs, c) <==> CallSeen(evs[..|evs| - 1], c) {
      CallSeenGrows(evs, c);
    }
  }

  /** A thought that begins no row belongs to the last one. */
  lemma LastRowOnly(evs: seq<Event>, k: nat)
    requires evs != [] && evs[|evs| - 1].channel == Thought && k < |Openers(evs[..|evs| - 1])|
    ensures Openers(evs[..|evs| - 1])[k] < |evs|
    ensures Belongs(evs, |evs| - 1, Openers(evs[..|evs| - 1])[k]) <==>
            !Opens(evs, |evs| - 1) && k == |Openers(evs[..|evs| - 1])| - 1
  {
    var n, os := |evs| - 1, Openers(evs[..|evs| - 1]);
    LastOpens(evs);
    ThoughtOpensIff(evs);
    PrefixOpens(evs, n);
    OpenerOpens(evs[..n], k);
    if k < |os| - 1 {
      OpenerOpens(evs[..n], k + 1);
      assert Opens(evs, os[k + 1]) && os[k] < os[k + 1] <= n;
    } else if !Opens(evs, n) {
      forall i: nat | os[k] < i <= n ensures !Opens(evs, i) {
        assert i < n && Opens(evs[..n], i) ==> i in os;
      }
    }
  }

  // ---- one group ---------------------------------------------------------------------------

  /** A group goes on matching its row while the last event is none of its own; the block of thoughts
      before a new row is closed by it. */
  lemma GroupKept(evs: seq<Event>, g: GroupValue, k: nat)
    requires evs != [] && GroupOk(evs[..|evs| - 1], g, k)
    requires !Belongs(evs, |evs| - 1, Openers(evs[..|evs| - 1])[k])
    ensures GroupOk(evs, if g.role == RoleThinking && Opens(evs, |evs| - 1) then g.(emitted := true) else g, k)
  {
    LastOpens(evs);
    MembersGrow(evs, k);
    var was := Members(evs[..|evs| - 1], Openers(evs)[k]);
    assert was + [] == was;
  }

  lemma GroupGrows(evs: seq<Event>, g: GroupValue, k: nat)
    requires evs != [] && GroupOk(evs[..|evs| - 1], g, k)
    requires Belongs(evs, |evs| - 1, Openers(evs[..|evs| - 1])[k])
    ensures GroupOk(evs, if g.role == RoleThinking then WithText(g, evs[|evs| - 1]) else Emit(WithTool(g, evs[|evs| - 1])), k)
  {
    var n := |evs| - 1;
    LastOpens(evs);
    MembersGrow(evs, k);
    var o := Openers(evs)[k];
    GroupFromAppend(k + 1, evs[o], Members(evs[..n], o), evs[n]);
    if evs[o].channel == Thought {
      assert !Opens(evs, n);
    }
  }

  lemma GroupNew(evs: seq<Event>)
    requires evs != [] && Opens(evs, |evs| - 1)
    ensures var e := evs[|evs| - 1]; var k := |Openers(evs[..|evs| - 1])|;
            GroupOk(evs, if e.channel == Thought then WithText(NewGroup(k + 1, RoleThinking, "", 0), e)
                         else Emit(WithTool(NewGroup(k + 1, RoleTool, e.callId, e.at), e)), k)
  {
    LastOpens(evs);
    MembersOfNew(evs);
    GroupFromFirst(|Openers(evs[..|evs| - 1])| + 1, evs[|evs| - 1]);
  }

  // ---- one event ---------------------------------------------------------------------------

  lemma StepOther(evs: seq<Event>, a: Fold)
    requires evs != [] && evs[|evs| - 1].channel == Other && Matches(evs[..|evs| - 1], a)
    ensures Matches(evs, a)
  {
    LastOpens(evs);
    IndexKept(evs, a.byCallId);
    forall k | 0 <= k < |a.groups| ensures GroupOk(evs, a.groups[k], k) {
      MembersGrow(evs, k);
      GroupKept(evs, a.groups[k], k);
    }
  }

  lemma LastGroupIsThinking(evs: seq<Event>, groups: seq<GroupValue>)
    requires GroupsMatch(evs, groups)
    ensures (groups != [] && groups[|groups| - 1].role == RoleThinking) <==> LastRowIsThinking(evs)
  {
    if groups != [] {
      assert GroupOk(evs, groups[|groups| - 1], |groups| - 1);
    }
  }

  lemma AddThoughtFold(a: Fold, e: Event)
    requires WellIndexed(a) && e.channel == Thought
    ensures AddFold(a, e) == a.(groups := if ThinkingIsLast(a) then a.groups[|a.groups| - 1 := WithText(a.groups[|a.groups| - 1], e)]
                                          else a.groups + [WithText(NewGroup(|a.groups| + 1, RoleThinking, "", 0), e)])
  {
  }

  lemma IndexIsWell(evs: seq<Event>, a: Fold)
    requires Matches(evs, a)
    ensures WellIndexed(a)
  {
  }

  lemma StepThought(evs: seq<Event>, a: Fold)
    requires evs != [] && evs[|evs| - 1].channel == Thought && Matches(evs[..|evs| - 1], a)
    ensures WellIndexed(a) && Matches(evs, AddFold(a, evs[|evs| - 1]))
  {
    IndexIsWell(evs[..|evs| - 1], a);
    IndexKept(evs, a.byCallId);
    ThoughtOpensIff(evs);
    LastGroupIsThinking(evs[..|evs| - 1], a.groups);
    AddThoughtFold(a, evs[|evs| - 1]);
    if Opens(evs, |evs| - 1) {
      ThoughtBegins(evs, a.groups, AddFold(a, evs[|evs| - 1]).groups);
    } else {
      ThoughtContinues(evs, a.groups, AddFold(a, evs[|evs| - 1]).groups);
    }
  }

  lemma ThoughtBegins(evs: seq<Event>, was: seq<GroupValue>, groups: seq<GroupValue>)
    requires evs != [] && evs[|evs| - 1].channel == Thought && GroupsMatch(evs[..|evs| - 1], was) && Opens(evs, |evs| - 1)
    requires groups == was + [WithText(NewGroup(|was| + 1, RoleThinking, "", 0), evs[|evs| - 1])]
    ensures GroupsMatch(evs, groups)
  {
    LastOpens(evs);
    forall k | 0 <= k < |was| ensures GroupOk(evs, was[k], k) {
      assert GroupOk(evs[..|evs| - 1], was[k], k);
      ThoughtGroup(evs, was[k], k);
    }
    GroupNew(evs);
    GroupsAppend(evs, was, WithText(NewGroup(|was| + 1, RoleThinking, "", 0), evs[|evs| - 1]));
  }

  lemma ThoughtContinues(evs: seq<Event>, was: seq<GroupValue>, groups: seq<GroupValue>)
    requires evs != [] && evs[|evs| - 1].channel == Thought && GroupsMatch(evs[..|evs| - 1], was) && !Opens(evs, |evs| - 1)
    requires was != [] && groups == was[|was| - 1 := WithText(was[|was| - 1], evs[|evs| - 1])]
    ensures GroupsMatch(evs, groups)
  {
    LastOpens(evs);
    forall k | 0 <= k < |was| ensures GroupOk(evs, groups[k], k) {
      assert GroupOk(evs[..|evs| - 1], was[k], k);
      ThoughtGroup(evs, was[k], k);
    }
  }

  lemma ThoughtGroup(evs: seq<Event>, g: GroupValue, k: nat)
    requires evs != [] && evs[|evs| - 1].channel == Thought && GroupOk(evs[..|evs| - 1], g, k)
    ensures GroupOk(evs, if !Opens(evs, |evs| - 1) && k == |Openers(evs[..|evs| - 1])| - 1 then WithText(g, evs[|evs| - 1]) else g, k)
  {
    LastRowOnly(evs, k);
    ThinkingNotLast(evs, g, k);
    if Opens(evs, |evs| - 1) || k != |Openers(evs[..|evs| - 1])| - 1 {
      GroupKept(evs, g, k);
    } else {
      ThoughtOpensIff(evs);
      GroupGrows(evs, g, k);
    }
  }

  /** Before a thought that begins a row, a thinking row has been closed. */
  lemma ThinkingNotLast(evs: seq<Event>, g: GroupValue, k: nat)
    requires evs != [] && evs[|evs| - 1].channel == Thought && GroupOk(evs[..|evs| - 1], g, k)
    ensures g.role == RoleThinking && Opens(evs, |evs| - 1) ==> g.emitted
  {
    ThoughtOpensIff(evs);
  }

  /** Whether a tool event begins a row is what the index answers. */
  lemma ToolIsNew(evs: seq<Event>, a: Fold)
    requires evs != [] && evs[|evs| - 1].channel == Tool && Matches(evs[..|evs| - 1], a)
    ensures var c := evs[|evs| - 1].callId; Opens(evs, |evs| - 1) <==> c == "" || c !in a.byCallId
    ensures |a.groups| == |Openers(evs[..|evs| - 1])|
  {
    ToolOpensIff(evs);
  }

  lemma AddToolFold(a: Fold, e: Event)
    requires WellIndexed(a) && e.channel == Tool
    ensures AddFold(a, e).byCallId == if e.callId != "" && e.callId !in a.byCallId then a.byCallId[e.callId := |a.groups|] else a.byCallId
    ensures AddFold(a, e).groups ==
            if e.callId != "" && e.callId in a.byCallId then
              var own := a.byCallId[e.callId]; a.groups[own := Emit(WithTool(a.groups[own], e))]
            else CloseThinking(a.groups) + [Emit(WithTool(NewGroup(|a.groups| + 1, RoleTool, e.callId, e.at), e))]
  {
  }

  lemma StepTool(evs: seq<Event>, a: Fold)
    requires evs != [] && evs[|evs| - 1].channel == Tool && Matches(evs[..|evs| - 1], a)
    ensures WellIndexed(a) && Matches(evs, AddFold(a, evs[|evs| - 1]))
  {
    var e := evs[|evs| - 1];
    IndexIsWell(evs[..|evs| - 1], a);
    ToolIsNew(evs, a);
    AddToolFold(a, e);
    var a' := AddFold(a, e);
    if Opens(evs, |evs| - 1) {
      ToolBeginsGroups(evs, a.groups, a'.groups);
    } else {
      ToolContinues(evs, a.groups, a'.groups, a.byCallId, a.byCallId[e.callId]);
    }
    IndexGrows(evs, a.byCallId, a'.byCallId);
  }

  lemma ToolOpensIff(evs: seq<Event>)
    requires evs != [] && evs[|evs| - 1].channel == Tool
    ensures var e := evs[|evs| - 1];
            Opens(evs, |evs| - 1) <==> e.callId == "" || !CallSeen(evs[..|evs| - 1], e.callId)
  {
    var n, e := |evs| - 1, evs[|evs| - 1];
    forall j | 0 <= j < n ensures evs[..n][j] == evs[j] {
    }
    if CallSeen(evs[..n], e.callId) {
      var j :| 0 <= j < n && evs[..n][j].channel == Tool && evs[..n][j].callId == e.callId;
      assert evs[j].channel == Tool && evs[j].callId == e.callId;
    }
  }

  lemma IndexGrows(evs: seq<Event>, byCallId: map<string, nat>, byCallId': map<string, nat>)
    requires evs != [] && evs[|evs| - 1].channel == Tool && IndexMatches(evs[..|evs| - 1], byCallId)
    requires var c := evs[|evs| - 1].callId;
             byCallId' == if Opens(evs, |evs| - 1) && c != "" then byCallId[c := |Openers(evs[..|evs| - 1])|] else byCallId
    ensures IndexMatches(evs, byCallId')
  {
    var n, os, os' := |evs| - 1, Openers(evs[..|evs| - 1]), Openers(evs);
    LastOpens(evs);
    ToolOpensIff(evs);
    forall c ensures c in byCallId' <==> c != "" && CallSeen(evs, c) {
      CallSeenGrows(evs, c);
    }
    forall c | c in byCallId'
      ensures byCallId'[c] < |os'| && evs[os'[byCallId'[c]]].channel == Tool && evs[os'[byCallId'[c]]].callId == c
    {
      assert c in byCallId ==> os'[byCallId[c]] == os[byCallId[c]] && evs[..n][os[byCallId[c]]] == evs[os[byCallId[c]]];
      CallSeenGrows(evs, c);
    }
  }

  lemma {:induction false} GroupIsClosed(evs: seq<Event>, g: GroupValue, k: nat)
    requires GroupOk(evs, g, k) && g.role == RoleThinking && k < |Openers(evs)| - 1
    ensures g.emitted
  {
  }

  lemma ClosesTheLast(groups: seq<GroupValue>, k: nat)
    requires k < |groups| && (groups[k].role == RoleThinking && k < |groups| - 1 ==> groups[k].emitted)
    ensures CloseThinking(groups)[k] == if groups[k].role == RoleThinking then groups[k].(emitted := true) else groups[k]
  {
  }

  lemma ToolBeginsGroup(evs: seq<Event>, was: seq<GroupValue>, k: nat)
    requires evs != [] && evs[|evs| - 1].channel == Tool && Opens(evs, |evs| - 1)
    requires k < |was| == |Openers(evs[..|evs| - 1])| && GroupOk(evs[..|evs| - 1], was[k], k)
    ensures GroupOk(evs, CloseThinking(was)[k], k)
  {
    if was[k].role == RoleThinking && k < |was| - 1 {
      GroupIsClosed(evs[..|evs| - 1], was[k], k);
    }
    ClosesTheLast(was, k);
    ToolClosesGroup(evs, was[k], k);
  }

  lemma {:induction false} GroupsAppend(evs: seq<Event>, before: seq<GroupValue>, g: GroupValue)
    requires |Openers(evs)| == |before| + 1 && GroupOk(evs, g, |before|)
    requires forall k | 0 <= k < |before| :: GroupOk(evs, before[k], k)
    ensures GroupsMatch(evs, before + [g])
  {
    forall k | 0 <= k < |before| + 1 ensures GroupOk(evs, (before + [g])[k], k) {
      assert (before + [g])[k] == if k < |before| then before[k] else g;
    }
  }

  lemma ToolBeginsGroups(evs: seq<Event>, was: seq<GroupValue>, groups: seq<GroupValue>)
    requires evs != [] && evs[|evs| - 1].channel == Tool && GroupsMatch(evs[..|evs| - 1], was) && Opens(evs, |evs| - 1)
    requires var e := evs[|evs| - 1];
             groups == CloseThinking(was) + [Emit(WithTool(NewGroup(|was| + 1, RoleTool, e.callId, e.at), e))]
    ensures GroupsMatch(evs, groups)
  {
    LastOpens(evs);
    forall k | 0 <= k < |was| ensures GroupOk(evs, CloseThinking(was)[k], k) {
      assert GroupOk(evs[..|evs| - 1], was[k], k);
      ToolBeginsGroup(evs, was, k);
    }
    GroupNew(evs);
    var e := evs[|evs| - 1];
    GroupsAppend(evs, CloseThinking(was), Emit(WithTool(NewGroup(|was| + 1, RoleTool, e.callId, e.at), e)));
  }

  lemma ToolClosesGroup(evs: seq<Event>, g: GroupValue, k: nat)
    requires evs != [] && evs[|evs| - 1].channel == Tool && GroupOk(evs[..|evs| - 1], g, k) && Opens(evs, |evs| - 1)
    ensures GroupOk(evs, if g.role == RoleThinking then g.(emitted := true) else g, k)
  {
    ToolIsNotOf(evs, k);
    GroupKept(evs, g, k);
  }

  lemma ToolIsNotOf(evs: seq<Event>, k: nat)
    requires evs != [] && evs[|evs| - 1].channel == Tool && Opens(evs, |evs| - 1) && k < |Openers(evs[..|evs| - 1])|
    ensures Openers(evs[..|evs| - 1])[k] < |evs| && !Belongs(evs, |evs| - 1, Openers(evs[..|evs| - 1])[k])
  {
    MembersGrow(evs, k);
  }

  lemma ToolContinues(evs: seq<Event>, was: seq<GroupValue>, groups: seq<GroupValue>, byCallId: map<string, nat>, own: nat)
    requires evs != [] && evs[|evs| - 1].channel == Tool && !Opens(evs, |evs| - 1)
    requires GroupsMatch(evs[..|evs| - 1], was) && IndexMatches(evs[..|evs| - 1], byCallId)
    requires evs[|evs| - 1].callId in byCallId && own == byCallId[evs[|evs| - 1].callId]
    requires own < |was| && groups == was[own := Emit(WithTool(was[own], evs[|evs| - 1]))]
    ensures GroupsMatch(evs, groups)
  {
    LastOpens(evs);
    forall k | 0 <= k < |was| ensures GroupOk(evs, groups[k], k) {
      assert GroupOk(evs[..|evs| - 1], was[k], k);
      ToolIsOf(evs, own, k);
      if k == own {
        OwnIsTool(evs, was[k], k);
        GroupGrows(evs, was[k], k);
      } else {
        GroupKept(evs, was[k], k);
      }
    }
  }

  lemma OwnIsTool(evs: seq<Event>, g: GroupValue, k: nat)
    requires evs != [] && GroupOk(evs[..|evs| - 1], g, k) && evs[Openers(evs[..|evs| - 1])[k]].channel == Tool
    ensures g.role == RoleTool
  {
  }

  /** A tool event that begins no row belongs to the one row of its call id. */
  lemma ToolIsOf(evs: seq<Event>, own: nat, k: nat)
    requires evs != [] && evs[|evs| - 1].channel == Tool && !Opens(evs, |evs| - 1)
    requires own < |Openers(evs[..|evs| - 1])| && k < |Openers(evs[..|evs| - 1])|
    requires var o := Openers(evs[..|evs| - 1])[own]; evs[o].channel == Tool && evs[o].callId == evs[|evs| - 1].callId
    ensures Openers(evs[..|evs| - 1])[k] < |evs|
    ensures Belongs(evs, |evs| - 1, Openers(evs[..|evs| - 1])[k]) <==> k == own
  {
    MembersGrow(evs, k);
    MembersGrow(evs, own);
    var os := Openers(evs[..|evs| - 1]);
    OpenerOpens(evs[..|evs| - 1], k);
    OpenerOpens(evs[..|evs| - 1], own);
    PrefixOpens(evs, |evs| - 1);
    assert k < own ==> os[k] < os[own];
    assert own < k ==> os[own] < os[k];
  }

  /** After any stream the accumulator holds exactly the rows of the whole stream so far. */
  lemma {:induction false} FoldIsTheGrouping(evs: seq<Event>)
    ensures Matches(evs, FoldOf(evs))
  {
    if evs != [] {
      var n := |evs| - 1;
      FoldIsTheGrouping(evs[..n]);
      match evs[n].channel
      case Thought => StepThought(evs, FoldOf(evs[..n]));
      case Tool => StepTool(evs, FoldOf(evs[..n]));
      case Other => StepOther(evs, FoldOf(evs[..n]));
    }
  }
}
