/** What a live run has stored at any moment, against the conversation of the stream so far. */
module ChatConversation {
  import opened Basics
  import opened ChatEvents
  import opened ChatFold
  import opened ChatTheorems

  // ---- tables of rows --------------------------------------------------------------------

  /** A row of the conversation, and whether it is complete. */
  datatype Slot = Slot(written: bool, row: Message)

  /** Seq `q` is stored exactly if its row is complete, and then as that row. */
  predicate Holds(table: map<nat, Message>, q: nat, slot: Slot) {
    (q in table <==> slot.written) && (q in table ==> table[q] == slot.row)
  }

  /** Exactly the complete rows are stored, each under its place, none of them stale. */
  ghost predicate IsStored(table: map<nat, Message>, slots: seq<Slot>) {
    && (forall q | q in table :: 1 <= q <= |slots|)
    && (forall k: nat {:trigger slots[k]} | k < |slots| :: Holds(table, k + 1, slots[k]))
  }

  predicate SameSlot(a: Slot, b: Slot) {
    a.written == b.written && (a.written ==> a.row == b.row)
  }

  lemma StoredSame(table: map<nat, Message>, was: seq<Slot>, slots: seq<Slot>)
    requires IsStored(table, was) && |was| == |slots| && forall k: nat | k < |was| :: SameSlot(was[k], slots[k])
    ensures IsStored(table, slots)
  {
    forall k: nat | k < |slots| ensures Holds(table, k + 1, slots[k]) {
      assert SameSlot(was[k], slots[k]);
    }
  }

  /** A new row written if it is complete, or left out. */
  function Put(table: map<nat, Message>, g: GroupValue): map<nat, Message> {
    if Emits(g) then table[g.seq_ := MessageOf(g)] else table
  }

  lemma PutNew(table: map<nat, Message>, was: seq<Slot>, g: GroupValue)
    requires IsStored(table, was) && g.seq_ == |was| + 1
    ensures IsStored(Put(table, g), was + [Slot(Emits(g), MessageOf(g))])
  {
    var slots := was + [Slot(Emits(g), MessageOf(g))];
    forall k: nat | k < |slots| ensures Holds(Put(table, g), k + 1, slots[k]) {
      if k < |was| {
        assert slots[k] == was[k];
      }
    }
  }

  lemma PutKnown(table: map<nat, Message>, was: seq<Slot>, g: GroupValue, own: nat, slots: seq<Slot>)
    requires IsStored(table, was) && |slots| == |was| && own < |was| && g.seq_ == own + 1
    requires slots[own] == Slot(Emits(g), MessageOf(g)) && (was[own].written ==> Emits(g))
    requires forall k: nat | k < |was| && k != own :: SameSlot(was[k], slots[k])
    ensures IsStored(Put(table, g), slots)
  {
    forall k: nat | k < |slots| ensures Holds(Put(table, g), k + 1, slots[k]) {
      assert Holds(table, k + 1, was[k]);
      assert k != own ==> SameSlot(was[k], slots[k]);
    }
  }

  lemma {:induction false} UpsertOne(table: map<nat, Message>, m: Message)
    ensures Upsert(table, [m]) == table[m.seq_ := m]
  {
    assert [m][..0] == [];
  }

  lemma {:induction false} UpsertAppend(table: map<nat, Message>, a: seq<Message>, b: seq<Message>)
    ensures Upsert(table, a + b) == Upsert(Upsert(table, a), b)
  {
    if b == [] {
      assert a + b == a;
    } else {
      var n := |b| - 1;
      UpsertAppend(table, a, b[..n]);
      assert (a + b)[..|a + b| - 1] == a + b[..n];
    }
  }

  lemma {:induction false} PutRows(table: map<nat, Message>, g: GroupValue)
    ensures Upsert(table, EmitRows(g)) == Put(table, g) == Put(table, Emit(g))
  {
    if Emits(g) {
      UpsertOne(table, MessageOf(g));
    }
  }

  // ---- the rows of a stream --------------------------------------------------------------

  ghost function SlotOf(evs: seq<Event>, k: nat): Slot
    requires k < |Openers(evs)|
  {
    Slot(Written(evs, k), Row(evs, k))
  }

  ghost function Slots(evs: seq<Event>): seq<Slot> {
    seq(|Openers(evs)|, k requires 0 <= k < |Openers(evs)| => SlotOf(evs, k))
  }

  /** What is stored is the stream so far. */
  ghost predicate Current(evs: seq<Event>, table: map<nat, Message>) {
    IsStored(table, Slots(evs))
  }

  lemma {:induction false} GroupIsSlot(evs: seq<Event>, g: GroupValue, k: nat)
    requires GroupOk(evs, g, k)
    ensures MessageOf(g) == Row(evs, k) && g.seq_ == k + 1
    ensures g.role == RoleThinking <==> evs[Openers(evs)[k]].channel == Thought
    ensures g.role == RoleTool ==> SlotOf(evs, k) == Slot(Emits(g), MessageOf(g))
    ensures SlotOf(evs, k).written == g.emitted
  {
  }

  /** A row none of whose events is the last one reads as before. */
  lemma RowKept(evs: seq<Event>, k: nat)
    requires evs != [] && k < |Openers(evs[..|evs| - 1])|
    requires !Belongs(evs, |evs| - 1, Openers(evs[..|evs| - 1])[k])
    ensures k < |Openers(evs)| && Row(evs, k) == Row(evs[..|evs| - 1], k)
    ensures evs[Openers(evs)[k]].channel != Thought ==> (Written(evs, k) <==> Written(evs[..|evs| - 1], k))
  {
    MembersGrow(evs, k);
    var o := Openers(evs)[k];
    assert Members(evs[..|evs| - 1], o) + [] == Members(evs[..|evs| - 1], o);
  }

  /** A row the last event neither belongs to nor completes stays as it is. */
  lemma SlotKept(evs: seq<Event>, k: nat)
    requires evs != [] && k < |Openers(evs[..|evs| - 1])|
    requires !Belongs(evs, |evs| - 1, Openers(evs[..|evs| - 1])[k])
    requires evs[Openers(evs[..|evs| - 1])[k]].channel == Thought ==>
               k < |Openers(evs[..|evs| - 1])| - 1 || !Opens(evs, |evs| - 1)
    ensures k < |Openers(evs)| && SameSlot(SlotOf(evs[..|evs| - 1], k), SlotOf(evs, k))
  {
    LastOpens(evs);
    MembersGrow(evs, k);
    RowKept(evs, k);
  }

  lemma CurrentOther(evs: seq<Event>, table: map<nat, Message>)
    requires evs != [] && evs[|evs| - 1].channel == Other && Current(evs[..|evs| - 1], table)
    ensures Current(evs, table)
  {
    LastOpens(evs);
    var was, slots := Slots(evs[..|evs| - 1]), Slots(evs);
    forall k: nat | k < |was| ensures SameSlot(was[k], slots[k]) {
      MembersGrow(evs, k);
      SlotKept(evs, k);
    }
    StoredSame(table, was, slots);
  }

  lemma ThoughtSlot(evs: seq<Event>, k: nat)
    requires evs != [] && evs[|evs| - 1].channel == Thought && k < |Openers(evs[..|evs| - 1])|
    ensures k < |Openers(evs)| && SameSlot(SlotOf(evs[..|evs| - 1], k), SlotOf(evs, k))
  {
    LastOpens(evs);
    MembersGrow(evs, k);
    LastRowOnly(evs, k);
    ThoughtOpensIff(evs);
    if !Belongs(evs, |evs| - 1, Openers(evs)[k]) {
      RowKept(evs, k);
    }
  }

  /** A thought row that is the last is still open. */
  lemma NewThoughtIsOpen(evs: seq<Event>)
    requires evs != [] && evs[|evs| - 1].channel == Thought && Opens(evs, |evs| - 1)
    ensures var n := |Openers(evs[..|evs| - 1])|; |Openers(evs)| == n + 1 && !SlotOf(evs, n).written
  {
    LastRowNew(evs);
    LastOpens(evs);
  }

  lemma CurrentThought(evs: seq<Event>, table: map<nat, Message>)
    requires evs != [] && evs[|evs| - 1].channel == Thought && Current(evs[..|evs| - 1], table)
    ensures Current(evs, table)
  {
    LastOpens(evs);
    var was, slots := Slots(evs[..|evs| - 1]), Slots(evs);
    var n := |was|;
    forall k: nat | k < n ensures SameSlot(was[k], slots[..n][k]) {
      ThoughtSlot(evs, k);
    }
    StoredSame(table, was, slots[..n]);
    if Opens(evs, |evs| - 1) {
      NewThoughtIsOpen(evs);
      StoredWithOpen(table, slots[..n], slots[n]);
      assert slots == slots[..n] + [slots[n]];
    } else {
      assert slots == slots[..n];
    }
  }

  lemma StoredWithOpen(table: map<nat, Message>, was: seq<Slot>, slot: Slot)
    requires IsStored(table, was) && !slot.written
    ensures IsStored(table, was + [slot])
  {
    var slots := was + [slot];
    assert |was| + 1 !in table;
    forall k: nat | k < |slots| ensures Holds(table, k + 1, slots[k]) {
      if k < |was| {
        assert slots[k] == was[k];
      }
    }
  }

  lemma CurrentTool(evs: seq<Event>, table: map<nat, Message>)
    requires evs != [] && evs[|evs| - 1].channel == Tool && Current(evs[..|evs| - 1], table)
    ensures Current(evs, Upsert(table, AddRows(FoldOf(evs[..|evs| - 1]), evs[|evs| - 1])))
  {
    var a := FoldOf(evs[..|evs| - 1]);
    FoldIsTheGrouping(evs[..|evs| - 1]);
    ToolIsNew(evs, a);
    if Opens(evs, |evs| - 1) {
      CurrentToolNew(evs, a, table);
    } else {
      CurrentToolKnown(evs, a, table);
    }
  }

  // ---- a tool row begins ----------------------------------------------------------------------

  /** The open block of thoughts, when there is one, is written as the new row begins. */
  function Close(table: map<nat, Message>, groups: seq<GroupValue>): map<nat, Message> {
    if groups != [] && groups[|groups| - 1].role == RoleThinking then
      table[|groups| := MessageOf(groups[|groups| - 1])]
    else table
  }

  predicate ClosedSlot(was: Slot, g: GroupValue, isLast: bool, slot: Slot) {
    if isLast && g.role == RoleThinking then slot == Slot(true, MessageOf(g)) else SameSlot(was, slot)
  }

  lemma CloseStored(table: map<nat, Message>, was: seq<Slot>, groups: seq<GroupValue>, slots: seq<Slot>)
    requires IsStored(table, was) && |slots| == |was| == |groups|
    requires forall k: nat | k < |was| :: ClosedSlot(was[k], groups[k], k == |groups| - 1, slots[k])
    ensures IsStored(Close(table, groups), slots)
  {
    forall k: nat | k < |slots| ensures Holds(Close(table, groups), k + 1, slots[k]) {
      assert Holds(table, k + 1, was[k]);
      assert ClosedSlot(was[k], groups[k], k == |groups| - 1, slots[k]);
    }
  }

  lemma {:induction false} CloseRowsClose(table: map<nat, Message>, groups: seq<GroupValue>)
    requires groups != [] && groups[|groups| - 1].role == RoleThinking ==>
               !groups[|groups| - 1].emitted && groups[|groups| - 1].seq_ == |groups|
    ensures Upsert(table, CloseRows(groups)) == Close(table, groups)
  {
    if groups != [] && groups[|groups| - 1].role == RoleThinking {
      UpsertOne(table, MessageOf(groups[|groups| - 1]));
    }
  }

  lemma LastThoughtIsOpen(evs: seq<Event>, groups: seq<GroupValue>)
    requires GroupsMatch(evs, groups) && groups != [] && groups[|groups| - 1].role == RoleThinking
    ensures !groups[|groups| - 1].emitted && groups[|groups| - 1].seq_ == |groups|
  {
    assert GroupOk(evs, groups[|groups| - 1], |groups| - 1);
  }

  lemma SlotClosed(evs: seq<Event>, g: GroupValue, k: nat)
    requires evs != [] && evs[|evs| - 1].channel == Tool && Opens(evs, |evs| - 1)
    requires GroupOk(evs[..|evs| - 1], g, k)
    ensures k < |Openers(evs)|
    ensures ClosedSlot(SlotOf(evs[..|evs| - 1], k), g, k == |Openers(evs[..|evs| - 1])| - 1, SlotOf(evs, k))
  {
    LastOpens(evs);
    MembersGrow(evs, k);
    ToolIsNotOf(evs, k);
    GroupIsSlot(evs[..|evs| - 1], g, k);
    if k == |Openers(evs[..|evs| - 1])| - 1 && g.role == RoleThinking {
      RowKept(evs, k);
    } else {
      SlotKept(evs, k);
    }
  }

  lemma ClosedIsCurrent(evs: seq<Event>, groups: seq<GroupValue>, table: map<nat, Message>)
    requires evs != [] && evs[|evs| - 1].channel == Tool && Opens(evs, |evs| - 1)
    requires GroupsMatch(evs[..|evs| - 1], groups) && Current(evs[..|evs| - 1], table)
    ensures |Slots(evs)| == |groups| + 1
    ensures IsStored(Close(table, groups), Slots(evs)[..|groups|])
  {
    LastOpens(evs);
    var was, slots := Slots(evs[..|evs| - 1]), Slots(evs)[..|groups|];
    forall k: nat | k < |was| ensures ClosedSlot(was[k], groups[k], k == |groups| - 1, slots[k]) {
      assert GroupOk(evs[..|evs| - 1], groups[k], k);
      SlotClosed(evs, groups[k], k);
    }
    CloseStored(table, was, groups, slots);
  }

  /** The group of a tool event that begins a row. */
  function NewTool(e: Event, n: nat): GroupValue {
    Emit(WithTool(NewGroup(n + 1, RoleTool, e.callId, e.at), e))
  }

  lemma {:induction false} UpsertNewTool(table: map<nat, Message>, a: Fold, e: Event)
    requires WellIndexed(a) && e.channel == Tool && (e.callId == "" || e.callId !in a.byCallId)
    requires a.groups != [] && a.groups[|a.groups| - 1].role == RoleThinking ==>
               !a.groups[|a.groups| - 1].emitted && a.groups[|a.groups| - 1].seq_ == |a.groups|
    ensures Upsert(table, AddRows(a, e)) == Put(Close(table, a.groups), NewTool(e, |a.groups|))
  {
    var g := WithTool(NewGroup(|a.groups| + 1, RoleTool, e.callId, e.at), e);
    UpsertAppend(table, CloseRows(a.groups), EmitRows(g));
    CloseRowsClose(table, a.groups);
    PutRows(Close(table, a.groups), g);
  }

  lemma CurrentToolNew(evs: seq<Event>, a: Fold, table: map<nat, Message>)
    requires evs != [] && evs[|evs| - 1].channel == Tool && Current(evs[..|evs| - 1], table)
    requires GroupsMatch(evs[..|evs| - 1], a.groups) && WellIndexed(a) && Opens(evs, |evs| - 1)
    requires evs[|evs| - 1].callId == "" || evs[|evs| - 1].callId !in a.byCallId
    ensures Current(evs, Upsert(table, AddRows(a, evs[|evs| - 1])))
  {
    var e, n := evs[|evs| - 1], |a.groups|;
    if a.groups != [] && a.groups[n - 1].role == RoleThinking {
      LastThoughtIsOpen(evs[..|evs| - 1], a.groups);
    }
    UpsertNewTool(table, a, e);
    CurrentToolBegins(evs, a.groups, table);
  }

  lemma CurrentToolBegins(evs: seq<Event>, groups: seq<GroupValue>, table: map<nat, Message>)
    requires evs != [] && evs[|evs| - 1].channel == Tool && Current(evs[..|evs| - 1], table) && Opens(evs, |evs| - 1)
    requires GroupsMatch(evs[..|evs| - 1], groups)
    ensures Current(evs, Put(Close(table, groups), NewTool(evs[|evs| - 1], |groups|)))
  {
    ClosedIsCurrent(evs, groups, table);
    NewToolIsOk(evs);
    PutNewTool(evs, Close(table, groups), NewTool(evs[|evs| - 1], |groups|), |groups|);
  }

  lemma NewToolIsOk(evs: seq<Event>)
    requires evs != [] && evs[|evs| - 1].channel == Tool && Opens(evs, |evs| - 1)
    ensures var n, g := |Openers(evs[..|evs| - 1])|, NewTool(evs[|evs| - 1], |Openers(evs[..|evs| - 1])|);
            |Openers(evs)| == n + 1 && GroupOk(evs, g, n) && g.role == RoleTool
  {
    LastOpens(evs);
    GroupNew(evs);
  }

  lemma {:induction false} PutNewTool(evs: seq<Event>, table: map<nat, Message>, g: GroupValue, n: nat)
    requires |Openers(evs)| == n + 1 && GroupOk(evs, g, n) && g.role == RoleTool && IsStored(table, Slots(evs)[..n])
    ensures Current(evs, Put(table, g))
  {
    GroupIsSlot(evs, g, n);
    NewToolSlot(evs, g, n);
    PutNew(table, Slots(evs)[..n], g);
  }

  lemma {:induction false} NewToolSlot(evs: seq<Event>, g: GroupValue, n: nat)
    requires |Openers(evs)| == n + 1 && GroupOk(evs, g, n) && g.role == RoleTool
    ensures Slots(evs) == Slots(evs)[..n] + [Slot(Emits(g), MessageOf(g))]
  {
    GroupIsSlot(evs, g, n);
  }

  // ---- a tool row continues -------------------------------------------------------------------

  /** A call that has its result keeps having one. */
  lemma ResultStays(evs: seq<Event>, k: nat)
    requires evs != [] && k < |Openers(evs[..|evs| - 1])| && !Opens(evs, |evs| - 1)
    ensures k < |Openers(evs)|
    ensures evs[Openers(evs)[k]].channel != Thought && Written(evs[..|evs| - 1], k) ==> Written(evs, k)
  {
    MembersGrow(evs, k);
    var n, o := |evs| - 1, Openers(evs)[k];
    var was := Members(evs[..n], o);
    assert was + [] == was && (was + [evs[n]])[..|was|] == was;
  }

  lemma CurrentToolKnown(evs: seq<Event>, a: Fold, table: map<nat, Message>)
    requires evs != [] && evs[|evs| - 1].channel == Tool && Current(evs[..|evs| - 1], table)
    requires Matches(evs[..|evs| - 1], a) && WellIndexed(a) && !Opens(evs, |evs| - 1)
    requires evs[|evs| - 1].callId != "" && evs[|evs| - 1].callId in a.byCallId
    ensures Current(evs, Upsert(table, AddRows(a, evs[|evs| - 1])))
  {
    var e := evs[|evs| - 1];
    var own := a.byCallId[e.callId];
    var g := WithTool(a.groups[own], e);
    PutRows(table, g);
    assert GroupOk(evs[..|evs| - 1], a.groups[own], own);
    ToolIsOf(evs, own, own);
    OwnIsTool(evs, a.groups[own], own);
    GroupGrows(evs, a.groups[own], own);
    CurrentToolContinues(evs, Emit(g), own, table);
  }

  lemma CurrentToolContinues(evs: seq<Event>, g: GroupValue, own: nat, table: map<nat, Message>)
    requires evs != [] && evs[|evs| - 1].channel == Tool && Current(evs[..|evs| - 1], table) && !Opens(evs, |evs| - 1)
    requires own < |Openers(evs[..|evs| - 1])| && GroupOk(evs, g, own) && g.role == RoleTool
    requires var o := Openers(evs[..|evs| - 1])[own]; evs[o].channel == Tool && evs[o].callId == evs[|evs| - 1].callId
    ensures Current(evs, Put(table, g))
  {
    LastOpens(evs);
    GroupIsSlot(evs, g, own);
    ResultStays(evs, own);
    var was, slots := Slots(evs[..|evs| - 1]), Slots(evs);
    forall k: nat | k < |was| && k != own ensures SameSlot(was[k], slots[k]) {
      ToolIsOf(evs, own, k);
      SlotKept(evs, k);
    }
    PutKnown(table, was, g, own, slots);
  }

  /** After every prefix of the stream, what is stored is exactly the complete rows, none of them stale. */
  lemma {:induction false} StoredIsCurrent(evs: seq<Event>)
    ensures Current(evs, Stored(evs))
  {
    if evs != [] {
      var n := |evs| - 1;
      StoredIsCurrent(evs[..n]);
      match evs[n].channel
      case Thought => CurrentThought(evs, Stored(evs[..n]));
      case Tool => CurrentTool(evs, Stored(evs[..n]));
      case Other => CurrentOther(evs, Stored(evs[..n]));
    }
  }

  lemma {:induction false} StoredRow(evs: seq<Event>, table: map<nat, Message>, q: nat)
    requires Current(evs, table) && q in table
    ensures 1 <= q <= |Openers(evs)| && Written(evs, q - 1) && table[q] == Row(evs, q - 1)
  {
    assert Slots(evs)[q - 1] == SlotOf(evs, q - 1);
  }

  lemma {:induction false} WrittenRow(evs: seq<Event>, table: map<nat, Message>, k: nat)
    requires Current(evs, table) && k < |Openers(evs)| && Written(evs, k)
    ensures k + 1 in table && table[k + 1] == Row(evs, k)
  {
    assert Slots(evs)[k] == SlotOf(evs, k);
  }

  lemma ThinkingRowStays(evs: seq<Event>, k: nat)
    requires evs != [] && k < |Openers(evs[..|evs| - 1])| && Written(evs[..|evs| - 1], k)
    requires evs[Openers(evs[..|evs| - 1])[k]].channel == Thought
    ensures k < |Openers(evs)| && Written(evs, k) && Row(evs, k) == Row(evs[..|evs| - 1], k)
  {
    MembersGrow(evs, k);
    LastOpens(evs);
    if evs[|evs| - 1].channel == Thought {
      LastRowOnly(evs, k);
    }
    RowKept(evs, k);
  }

  lemma StaysAsStored(evs: seq<Event>, was: map<nat, Message>, now: map<nat, Message>, q: nat)
    requires evs != [] && Current(evs[..|evs| - 1], was) && Current(evs, now) && q in was && was[q].body.Thinking?
    ensures q in now && now[q] == was[q]
  {
    StoredRow(evs[..|evs| - 1], was, q);
    MembersGrow(evs, q - 1);
    ThinkingRowStays(evs, q - 1);
    WrittenRow(evs, now, q - 1);
  }

  /** A thinking row, once written, is never written again with other words. */
  lemma {:induction false} ThinkingRowsAreFinal(evs: seq<Event>, q: nat)
    requires evs != [] && q in Stored(evs[..|evs| - 1]) && Stored(evs[..|evs| - 1])[q].body.Thinking?
    ensures q in Stored(evs) && Stored(evs)[q] == Stored(evs[..|evs| - 1])[q]
  {
    StoredIsCurrent(evs);
    StoredIsCurrent(evs[..|evs| - 1]);
    StaysAsStored(evs, Stored(evs[..|evs| - 1]), Stored(evs), q);
  }

  // ---- the end of the stream --------------------------------------------------------------

  /** The rows once the first `n` are written whatever they are. */
  function Flushed(slots: seq<Slot>, n: nat): seq<Slot> {
    seq(|slots|, k requires 0 <= k < |slots| => Slot(k < n || slots[k].written, slots[k].row))
  }

  lemma FlushOne(table: map<nat, Message>, slots: seq<Slot>, n: nat, g: GroupValue)
    requires n < |slots| && IsStored(table, Flushed(slots, n))
    requires g.seq_ == n + 1 && g.emitted == slots[n].written && MessageOf(g) == slots[n].row
    ensures IsStored(if g.emitted then table else table[g.seq_ := MessageOf(g)], Flushed(slots, n + 1))
  {
    var table' := if g.emitted then table else table[g.seq_ := MessageOf(g)];
    var was, now := Flushed(slots, n), Flushed(slots, n + 1);
    forall k: nat | k < |now| ensures Holds(table', k + 1, now[k]) {
      assert Holds(table, k + 1, was[k]);
    }
  }

  lemma {:induction false} FlushAppend(table: map<nat, Message>, groups: seq<GroupValue>, n: nat)
    requires 0 < n <= |groups|
    ensures var before := Upsert(table, FlushRows(groups[..n - 1])); var g := groups[n - 1];
            Upsert(table, FlushRows(groups[..n])) == if g.emitted then before else before[g.seq_ := MessageOf(g)]
  {
    assert groups[..n][..n - 1] == groups[..n - 1];
    var rows := FlushRows(groups[..n - 1]);
    if groups[n - 1].emitted {
      assert rows + [] == rows;
    } else {
      UpsertAppend(table, rows, [MessageOf(groups[n - 1])]);
      UpsertOne(Upsert(table, rows), MessageOf(groups[n - 1]));
    }
  }

  predicate GroupFits(g: GroupValue, k: nat, slot: Slot) {
    g.seq_ == k + 1 && g.emitted == slot.written && MessageOf(g) == slot.row
  }

  lemma {:induction false} FlushCompletes(slots: seq<Slot>, groups: seq<GroupValue>, table: map<nat, Message>, n: nat)
    requires IsStored(table, slots) && n <= |groups| == |slots|
    requires forall k: nat | k < |groups| :: GroupFits(groups[k], k, slots[k])
    ensures IsStored(Upsert(table, FlushRows(groups[..n])), Flushed(slots, n))
  {
    if n == 0 {
      assert groups[..0] == [] && Flushed(slots, 0) == slots;
    } else {
      FlushCompletes(slots, groups, table, n - 1);
      assert GroupFits(groups[n - 1], n - 1, slots[n - 1]);
      FlushOne(Upsert(table, FlushRows(groups[..n - 1])), slots, n - 1, groups[n - 1]);
      FlushAppend(table, groups, n);
    }
  }

  /** The rows of a conversation, each under its seq: `rows[k]` under `k + 1`, and nothing else. */
  ghost predicate IsConversation(table: map<nat, Message>, rows: seq<Message>) {
    IsStored(table, seq(|rows|, k requires 0 <= k < |rows| => Slot(true, rows[k])))
  }

  lemma RowOfConversation(table: map<nat, Message>, rows: seq<Message>, q: nat)
    requires IsConversation(table, rows)
    ensures q in table <==> 1 <= q <= |rows|
    ensures q in table ==> table[q] == rows[q - 1]
  {
    if 1 <= q <= |rows| {
      var slots := seq(|rows|, k requires 0 <= k < |rows| => Slot(true, rows[k]));
      assert slots[q - 1] == Slot(true, rows[q - 1]);
    }
  }

  /** Streaming refines the batch: all rows written while the run streamed, and those written at its
      end, are the conversation of the whole stream, one row for each seq from 1 on. */
  lemma {:induction false} StreamingIsBatch(evs: seq<Event>)
    ensures IsConversation(Upsert(Stored(evs), FlushRows(FoldOf(evs).groups)), Batch(evs))
  {
    var groups, slots, rows := FoldOf(evs).groups, Slots(evs), Batch(evs);
    FoldIsTheGrouping(evs);
    StoredIsCurrent(evs);
    forall k: nat | k < |groups| ensures GroupFits(groups[k], k, slots[k]) {
      assert GroupOk(evs, groups[k], k);
      GroupIsSlot(evs, groups[k], k);
    }
    FlushCompletes(slots, groups, Stored(evs), |groups|);
    assert groups[..|groups|] == groups;
    AllWritten(evs);
  }

  lemma {:induction false} AllWritten(evs: seq<Event>)
    ensures var rows := Batch(evs);
            Flushed(Slots(evs), |Openers(evs)|) == seq(|rows|, k requires 0 <= k < |rows| => Slot(true, rows[k]))
  {
    var rows := Batch(evs);
    forall k: nat | k < |rows| ensures Flushed(Slots(evs), |Openers(evs)|)[k] == Slot(true, rows[k]) {
      assert rows[k] == Row(evs, k);
    }
  }

  // ---- nothing said is lost -----------------------------------------------------------------

  function Said(m: Message): string {
    match m.body
    case Thinking(content, _) => content
    case ToolCall(_, _, _, _) => ""
  }

  function AllSaid(rows: seq<Message>): string {
    if rows == [] then "" else AllSaid(rows[..|rows| - 1]) + Said(rows[|rows| - 1])
  }

  function AllThoughts(evs: seq<Event>): string {
    if evs == [] then ""
    else AllThoughts(evs[..|evs| - 1]) + if evs[|evs| - 1].channel == Thought then evs[|evs| - 1].text else ""
  }

  lemma {:induction false} SameSaid(a: seq<Message>, b: seq<Message>)
    requires |a| == |b| && forall k | 0 <= k < |a| :: Said(a[k]) == Said(b[k])
    ensures AllSaid(a) == AllSaid(b)
  {
    if a != [] {
      SameSaid(a[..|a| - 1], b[..|b| - 1]);
    }
  }

  /** The last event adds its text to what the rows of a prefix say, when it is a thought. */
  lemma SaidGrows(evs: seq<Event>, k: nat)
    requires evs != [] && k < |Openers(evs[..|evs| - 1])|
    ensures k < |Openers(evs)|
    ensures var e, was := evs[|evs| - 1], Row(evs[..|evs| - 1], k);
            Said(Row(evs, k)) ==
            if e.channel == Thought && !Opens(evs, |evs| - 1) && k == |Openers(evs[..|evs| - 1])| - 1 then Said(was) + e.text
            else Said(was)
  {
    var n := |evs| - 1;
    LastOpens(evs);
    MembersGrow(evs, k);
    var o := Openers(evs)[k];
    var was := Members(evs[..n], o);
    if Belongs(evs, n, o) {
      assert (was + [evs[n]])[..|was|] == was;
    } else {
      assert was + [] == was;
    }
    if evs[n].channel == Thought {
      LastRowOnly(evs, k);
    }
  }

  lemma {:induction false} SaidFirst(evs: seq<Event>)
    requires evs != [] && Opens(evs, |evs| - 1)
    ensures |Openers(evs)| > 0
    ensures Said(Row(evs, |Openers(evs)| - 1)) == if evs[|evs| - 1].channel == Thought then evs[|evs| - 1].text else ""
  {
    LastOpens(evs);
    MembersOfNew(evs);
    TextOfOne(evs[|evs| - 1]);
  }

  lemma TextOfOne(e: Event)
    ensures Text([e]) == e.text
  {
    assert [e][..0] == [];
    assert "" + e.text == e.text;
  }

  /** The thinking rows, read in order, say exactly what the thoughts said. */
  lemma {:induction false} ThoughtsAreConserved(evs: seq<Event>)
    ensures AllSaid(Batch(evs)) == AllThoughts(evs)
  {
    if evs != [] {
      var n, e := |evs| - 1, evs[|evs| - 1];
      var was, rows := Batch(evs[..n]), Batch(evs);
      ThoughtsAreConserved(evs[..n]);
      LastOpens(evs);
      forall k: nat | k < |was| ensures Said(rows[k]) == Said(Row(evs, k)) && Said(was[k]) == Said(Row(evs[..n], k)) {
      }
      if Opens(evs, n) {
        ConservedNew(evs);
      } else {
        ConservedOld(evs);
      }
    }
  }

  lemma ConservedNew(evs: seq<Event>)
    requires evs != [] && Opens(evs, |evs| - 1)
    ensures AllSaid(Batch(evs)) ==
            AllSaid(Batch(evs[..|evs| - 1])) + if evs[|evs| - 1].channel == Thought then evs[|evs| - 1].text else ""
  {
    var was, rows := Batch(evs[..|evs| - 1]), Batch(evs);
    LastOpens(evs);
    SaidFirst(evs);
    assert |rows| == |was| + 1;
    forall k: nat | k < |was| ensures Said(rows[..|was|][k]) == Said(was[k]) {
      SaidGrows(evs, k);
    }
    SameSaid(rows[..|was|], was);
  }

  lemma ConservedOld(evs: seq<Event>)
    requires evs != [] && !Opens(evs, |evs| - 1)
    ensures AllSaid(Batch(evs)) ==
            AllSaid(Batch(evs[..|evs| - 1])) + if evs[|evs| - 1].channel == Thought then evs[|evs| - 1].text else ""
  {
    var was, rows := Batch(evs[..|evs| - 1]), Batch(evs);
    LastOpens(evs);
    if evs[|evs| - 1].channel == Thought {
      ThoughtOpensIff(evs);
      forall k: nat | k < |was|
        ensures Said(rows[k]) == if k == |was| - 1 then Said(was[k]) + evs[|evs| - 1].text else Said(was[k])
      {
        SaidGrows(evs, k);
      }
      LastSaysMore(was, rows, evs[|evs| - 1].text);
    } else {
      forall k: nat | k < |was| ensures Said(rows[k]) == Said(was[k]) {
        SaidGrows(evs, k);
      }
      SameSaid(rows, was);
      assert AllSaid(was) + "" == AllSaid(was);
    }
  }

  lemma {:induction false} LastSaysMore(was: seq<Message>, rows: seq<Message>, more: string)
    requires |was| == |rows| > 0
    requires forall k | 0 <= k < |was| :: Said(rows[k]) == if k == |was| - 1 then Said(was[k]) + more else Said(was[k])
    ensures AllSaid(rows) == AllSaid(was) + more
  {
    var last := |was| - 1;
    SameSaid(rows[..last], was[..last]);
  }

  /** The tool events of one call id, in stream order. */
  function EventsOf(evs: seq<Event>, c: string): seq<Event> {
    if evs == [] then []
    else
      var e := evs[|evs| - 1];
      EventsOf(evs[..|evs| - 1], c) + if e.channel == Tool && e.callId == c then [e] else []
  }

  lemma {:induction false} NoEventsOf(evs: seq<Event>, c: string)
    requires forall j | 0 <= j < |evs| :: !(evs[j].channel == Tool && evs[j].callId == c)
    ensures EventsOf(evs, c) == []
  {
    if evs != [] {
      NoEventsOf(evs[..|evs| - 1], c);
    }
  }

  lemma {:induction false} MembersAreTheCall(evs: seq<Event>, o: nat)
    requires o < |evs| && ToolOpens(evs, o) && evs[o].callId != ""
    ensures Members(evs, o) == EventsOf(evs, evs[o].callId)
  {
    var n := |evs| - 1;
    if o < n {
      PrefixOpens(evs, n);
      MembersAreTheCall(evs[..n], o);
    } else {
      MembersOfNew(evs);
      NoEventsOf(evs[..n], evs[o].callId);
    }
  }

  ghost predicate IsRowOfCall(evs: seq<Event>, k: nat, c: string) {
    k < |Batch(evs)| && Batch(evs)[k].body.ToolCall? && Batch(evs)[k].body.callId == c
  }

  /** Every call id that was seen has exactly one row, made of all its events: its last result, its
      last name, its first arguments. */
  lemma OneRowPerCall(evs: seq<Event>, c: string) returns (k: nat)
    requires c != "" && CallSeen(evs, c)
    ensures IsRowOfCall(evs, k, c) && forall l: nat | IsRowOfCall(evs, l, c) :: l == k
    ensures var es := EventsOf(evs, c);
            Batch(evs)[k].body == ToolCall(LastResult(es), LastName(es), c, FirstArgs(es))
  {
    FoldIsTheGrouping(evs);
    var os := Openers(evs);
    k := FoldOf(evs).byCallId[c];
    OpenerOpens(evs, k);
    MembersAreTheCall(evs, os[k]);
    assert Batch(evs)[k] == Row(evs, k);
    forall l: nat | IsRowOfCall(evs, l, c) ensures l == k {
      assert Batch(evs)[l] == Row(evs, l);
      OpenerOpens(evs, l);
      assert ToolOpens(evs, os[l]) && ToolOpens(evs, os[k]);
    }
  }
}
