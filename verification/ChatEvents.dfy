/**
  A run's provider events, and the conversation rows they amount to - defined over the
  whole stream at once, with no state carried from one event to the next.
*/
module ChatEvents {
  import opened Basics

  /** A decoded JSON value; `Null` is both JSON's null and a Go nil. */
  datatype Json = Null | Value(text: string)

  datatype Channel = Thought | Tool | Other

  /** `at` is the event's time in nanoseconds, 0 when the provider gave none; `args` and `result`
      are the payload's fields when present, `thinkingMs` its numeric duration when present. */
  datatype Event = Event(
    channel: Channel,
    text: string,
    callId: string,
    name: string,
    args: Option<Json>,
    result: Option<Json>,
    thinkingMs: Option<int>,
    at: int)

  datatype Body =
    | Thinking(content: string, durationMs: Option<int>)
    | ToolCall(result: Option<Json>, name: string, callId: string, args: Json)

  datatype Message = Message(seq_: nat, createdAt: int, body: Body)

  // ---- which event begins a row, and which row an event belongs to ------------------

  /** A tool event begins a row unless an earlier one carried its (non-empty) call id. */
  ghost predicate ToolOpens(evs: seq<Event>, i: nat)
    requires i < |evs|
  {
    evs[i].channel == Tool &&
    (evs[i].callId == "" || forall j | 0 <= j < i :: !(evs[j].channel == Tool && evs[j].callId == evs[i].callId))
  }

  /** A tool row begins strictly between two events. */
  ghost predicate ToolBetween(evs: seq<Event>, j: nat, i: nat)
    requires i <= |evs|
  {
    exists k | j < k < i :: ToolOpens(evs, k)
  }

  /** A thought begins a row unless an earlier thought reaches it with no tool row begun in between. */
  ghost predicate ThoughtOpens(evs: seq<Event>, i: nat)
    requires i < |evs|
  {
    evs[i].channel == Thought &&
    forall j: nat {:trigger ToolBetween(evs, j, i)} | j < i && evs[j].channel == Thought :: ToolBetween(evs, j, i)
  }

  ghost predicate Opens(evs: seq<Event>, i: nat)
    requires i < |evs|
  {
    ToolOpens(evs, i) || ThoughtOpens(evs, i)
  }

  /** Event `i` is part of the row that event `o` begins. */
  ghost predicate Belongs(evs: seq<Event>, i: nat, o: nat)
    requires o <= i < |evs|
  {
    && Opens(evs, o)
    && evs[i].channel == evs[o].channel
    && (evs[o].channel == Tool ==> i == o || (evs[o].callId != "" && evs[i].callId == evs[o].callId))
    && (evs[o].channel == Thought ==> forall k | o < k <= i :: !Opens(evs, k))
  }

  /** The events that begin a row, in stream order: row `k+1` is begun by `Openers(evs)[k]`. */
  ghost function Openers(evs: seq<Event>): (os: seq<nat>)
    ensures forall k | 0 <= k < |os| :: os[k] < |evs|
    ensures forall k, l | 0 <= k < l < |os| :: os[k] < os[l]
    ensures forall i: nat {:trigger i in os} | i < |evs| && Opens(evs, i) :: i in os
  {
    if evs == [] then []
    else
      var n := |evs| - 1;
      PrefixOpens(evs, n);
      Openers(evs[..n]) + if Opens(evs, n) then [n] else []
  }

  lemma {:induction false} OpenerOpens(evs: seq<Event>, k: nat)
    requires k < |Openers(evs)|
    ensures Opens(evs, Openers(evs)[k])
  {
    var n := |evs| - 1;
    PrefixOpens(evs, n);
    if k < |Openers(evs[..n])| {
      OpenerOpens(evs[..n], k);
    }
  }

  /** Whether an event begins a row is settled by the events up to it. */
  lemma PrefixOpens(evs: seq<Event>, n: nat)
    requires n <= |evs|
    ensures forall i: nat | i < n :: ToolOpens(evs[..n], i) <==> ToolOpens(evs, i)
    ensures forall i: nat | i < n :: Opens(evs[..n], i) <==> Opens(evs, i)
  {
    forall i: nat | i < n ensures ThoughtOpens(evs[..n], i) <==> ThoughtOpens(evs, i) {
      forall j: nat | j < i ensures ToolBetween(evs[..n], j, i) <==> ToolBetween(evs, j, i) {
        assert forall k: nat | k < i :: ToolOpens(evs[..n], k) <==> ToolOpens(evs, k);
      }
    }
  }

  /** The events of the row `o` begins, in stream order. */
  ghost function Members(evs: seq<Event>, o: nat): seq<Event> {
    if |evs| <= o then []
    else
      var n := |evs| - 1;
      Members(evs[..n], o) + if Belongs(evs, n, o) then [evs[n]] else []
  }

  // ---- what a row says ----------------------------------------------------------------

  function Text(es: seq<Event>): string {
    if es == [] then "" else Text(es[..|es| - 1]) + es[|es| - 1].text
  }

  function LastName(es: seq<Event>): string {
    if es == [] then ""
    else if es[|es| - 1].name != "" then es[|es| - 1].name
    else LastName(es[..|es| - 1])
  }

  function LastResult(es: seq<Event>): Option<Json> {
    if es == [] then None
    else if es[|es| - 1].result != None then es[|es| - 1].result
    else LastResult(es[..|es| - 1])
  }

  /** The first arguments that are not null. */
  function FirstArgs(es: seq<Event>): Json {
    if es == [] then Null
    else
      var before := FirstArgs(es[..|es| - 1]);
      if before != Null then before else if es[|es| - 1].args.Some? then es[|es| - 1].args.value else Null
  }

  /** `r` is the last result among the events, if there is any. */
  lemma {:induction false} LastResultIsLast(es: seq<Event>)
    ensures var r := LastResult(es);
            if r == None then forall i | 0 <= i < |es| :: es[i].result == None
            else exists i | 0 <= i < |es| :: es[i].result == r && forall j | i < j < |es| :: es[j].result == None
  {
    if es != [] && es[|es| - 1].result == None {
      LastResultIsLast(es[..|es| - 1]);
    }
  }

  lemma {:induction false} LastNameIsLast(es: seq<Event>)
    ensures var r := LastName(es);
            if r == "" then forall i | 0 <= i < |es| :: es[i].name == ""
            else exists i | 0 <= i < |es| :: es[i].name == r && forall j | i < j < |es| :: es[j].name == ""
  {
    if es != [] && es[|es| - 1].name == "" {
      LastNameIsLast(es[..|es| - 1]);
    }
  }

  predicate NoArgs(e: Event) {
    e.args.None? || e.args == Some(Null)
  }

  lemma {:induction false} FirstArgsAreFirst(es: seq<Event>)
    ensures var r := FirstArgs(es);
            if r == Null then forall i | 0 <= i < |es| :: NoArgs(es[i])
            else exists i | 0 <= i < |es| :: es[i].args == Some(r) && forall j | 0 <= j < i :: NoArgs(es[j])
  {
    if es != [] {
      var n := |es| - 1;
      FirstArgsAreFirst(es[..n]);
      if FirstArgs(es[..n]) != Null {
        var i :| 0 <= i < n && es[..n][i].args == Some(FirstArgs(es[..n])) && forall j | 0 <= j < i :: NoArgs(es[..n][j]);
        assert es[i].args == Some(FirstArgs(es));
        forall j | 0 <= j < i ensures NoArgs(es[j]) {
          assert es[..n][j] == es[j];
        }
      } else {
        forall j | 0 <= j < n ensures NoArgs(es[j]) {
          assert es[..n][j] == es[j];
        }
        assert FirstArgs(es) != Null ==> es[n].args == Some(FirstArgs(es));
      }
    }
  }

  function FirstMs(es: seq<Event>): Option<int> {
    if es == [] then None
    else if FirstMs(es[..|es| - 1]).Some? then FirstMs(es[..|es| - 1])
    else es[|es| - 1].thinkingMs
  }

  function FirstAt(es: seq<Event>): int {
    if es == [] then 0
    else if FirstAt(es[..|es| - 1]) != 0 then FirstAt(es[..|es| - 1])
    else es[|es| - 1].at
  }

  function LastAt(es: seq<Event>): int {
    if es == [] then 0
    else if es[|es| - 1].at != 0 then es[|es| - 1].at
    else LastAt(es[..|es| - 1])
  }

  /** The duration a provider reports for a block of thoughts is the first it gives. */
  lemma {:induction false} FirstMsIsFirst(es: seq<Event>)
    ensures if FirstMs(es) == None then forall i | 0 <= i < |es| :: es[i].thinkingMs == None
            else exists i | 0 <= i < |es| :: es[i].thinkingMs == FirstMs(es) && forall j | 0 <= j < i :: es[j].thinkingMs == None
  {
    if es != [] {
      var n := |es| - 1;
      FirstMsIsFirst(es[..n]);
      assert forall i | 0 <= i < n :: es[..n][i] == es[i];
      if FirstMs(es[..n]).Some? {
        var i :| 0 <= i < n && es[..n][i].thinkingMs == FirstMs(es[..n]) && forall j | 0 <= j < i :: es[..n][j].thinkingMs == None;
        assert es[i].thinkingMs == FirstMs(es);
      } else if FirstMs(es).Some? {
        assert es[n].thinkingMs == FirstMs(es);
      }
    }
  }

  /** A row begins at the first time its events know and ends at the last. */
  lemma {:induction false} FirstAtIsFirst(es: seq<Event>)
    ensures if FirstAt(es) == 0 then forall i | 0 <= i < |es| :: es[i].at == 0
            else exists i | 0 <= i < |es| :: es[i].at == FirstAt(es) && forall j | 0 <= j < i :: es[j].at == 0
  {
    if es != [] {
      var n := |es| - 1;
      FirstAtIsFirst(es[..n]);
      assert forall i | 0 <= i < n :: es[..n][i] == es[i];
      if FirstAt(es[..n]) != 0 {
        var i :| 0 <= i < n && es[..n][i].at == FirstAt(es[..n]) && forall j | 0 <= j < i :: es[..n][j].at == 0;
        assert es[i].at == FirstAt(es);
      } else if FirstAt(es) != 0 {
        assert es[n].at == FirstAt(es);
      }
    }
  }

  lemma {:induction false} LastAtIsLast(es: seq<Event>)
    ensures if LastAt(es) == 0 then forall i | 0 <= i < |es| :: es[i].at == 0
            else exists i | 0 <= i < |es| :: es[i].at == LastAt(es) && forall j | i < j < |es| :: es[j].at == 0
  {
    if es != [] && es[|es| - 1].at == 0 {
      LastAtIsLast(es[..|es| - 1]);
    }
  }

  /** The duration of a block: what was reported; else, between two known times, the whole milliseconds
      that fit, if there is one. */
  lemma DurationIs(reported: Option<int>, created: int, ended: int)
    ensures var d := Duration(reported, created, ended);
            && (reported.Some? ==> d == reported)
            && (reported == None ==>
                  && (d.Some? <==> created != 0 && ended != 0 && ended - created >= 1_000_000)
                  && (d.Some? ==> 1 <= d.value && d.value * 1_000_000 <= ended - created < (d.value + 1) * 1_000_000))
  {
    if reported == None && Duration(reported, created, ended).Some? {
      var ns := ended - created;
      assert ns == ns / 1_000_000 * 1_000_000 + ns % 1_000_000;
    }
  }

  const NANOS_PER_MILLI := 1_000_000

  /** The reported duration, or else the whole milliseconds between two known times if any. */
  function Duration(reported: Option<int>, created: int, ended: int): Option<int> {
    if reported.Some? then reported
    else if created == 0 || ended == 0 || ended - created < NANOS_PER_MILLI then None
    else Some((ended - created) / NANOS_PER_MILLI)
  }

  function RowBody(opener: Event, es: seq<Event>): Body {
    if opener.channel == Thought then Thinking(Text(es), Duration(FirstMs(es), FirstAt(es), LastAt(es)))
    else ToolCall(LastResult(es), LastName(es), opener.callId, FirstArgs(es))
  }

  ghost function Row(evs: seq<Event>, k: nat): Message
    requires k < |Openers(evs)|
  {
    var o := Openers(evs)[k];
    var es := Members(evs, o);
    Message(k + 1, FirstAt(es), RowBody(evs[o], es))
  }

  /** The conversation of a whole stream: one row per opener, numbered from 1. */
  ghost function Batch(evs: seq<Event>): seq<Message> {
    seq(|Openers(evs)|, k requires 0 <= k < |Openers(evs)| => Row(evs, k))
  }

  /** A thinking row has the duration its provider first reported or, if none was, the whole milliseconds
      between the first and the last time its events know, if there is one. */
  lemma {:induction false} ThinkingRowLasts(evs: seq<Event>, k: nat)
    requires k < |Openers(evs)| && evs[Openers(evs)[k]].channel == Thought
    ensures var row, es := Row(evs, k), Members(evs, Openers(evs)[k]);
            && row.seq_ == k + 1 && row.createdAt == FirstAt(es) && row.body.Thinking? && row.body.content == Text(es)
            && (FirstMs(es).Some? ==> row.body.durationMs == FirstMs(es))
            && (FirstMs(es) == None ==>
                  && (row.body.durationMs.Some? <==> FirstAt(es) != 0 && LastAt(es) != 0 && LastAt(es) - FirstAt(es) >= 1_000_000)
                  && (row.body.durationMs.Some? ==>
                        var ms := row.body.durationMs.value;
                        ms * 1_000_000 <= LastAt(es) - FirstAt(es) < (ms + 1) * 1_000_000))
  {
    var es := Members(evs, Openers(evs)[k]);
    DurationIs(FirstMs(es), FirstAt(es), LastAt(es));
  }

  // ---- which events share a row -----------------------------------------------------------

  ghost predicate ShareARow(evs: seq<Event>, i: nat, j: nat)
    requires i < |evs| && j < |evs|
  {
    exists o: nat :: o <= i && o <= j && Belongs(evs, i, o) && Belongs(evs, j, o)
  }

  lemma {:induction false} OwnOpener(evs: seq<Event>, i: nat) returns (o: nat)
    requires i < |evs| && evs[i].channel == Thought
    ensures o <= i && Opens(evs, o) && evs[o].channel == Thought && forall k | o < k <= i :: !Opens(evs, k)
    decreases i
  {
    if Opens(evs, i) {
      o := i;
    } else {
      var j: nat :| j < i && evs[j].channel == Thought && !ToolBetween(evs, j, i);
      o := OwnOpener(evs, j);
      NothingOpens(evs, j, i);
    }
  }

  /** Between two thoughts that no tool row separates no row begins. */
  lemma NothingOpens(evs: seq<Event>, j: nat, i: nat)
    requires j < i < |evs| && evs[j].channel == Thought && evs[i].channel == Thought && !ToolBetween(evs, j, i)
    ensures forall k | j < k <= i :: !Opens(evs, k)
  {
    forall k | j < k <= i ensures !Opens(evs, k) {
      assert !ToolBetween(evs, j, k);
      if k < i {
        assert !ToolOpens(evs, k);
      }
    }
  }

  /** Two thoughts are in one row if and only if no tool row begins between them. */
  lemma ThoughtsShareARow(evs: seq<Event>, i: nat, j: nat)
    requires i < j < |evs| && evs[i].channel == Thought && evs[j].channel == Thought
    ensures ShareARow(evs, i, j) <==> !ToolBetween(evs, i, j)
  {
    if ShareARow(evs, i, j) {
      var o: nat :| o <= i && o <= j && Belongs(evs, i, o) && Belongs(evs, j, o);
      forall k | i < k < j ensures !ToolOpens(evs, k) {
        assert !Opens(evs, k);
      }
    }
    if !ToolBetween(evs, i, j) {
      var o := OwnOpener(evs, i);
      NothingOpens(evs, i, j);
      assert Belongs(evs, i, o) && Belongs(evs, j, o);
    }
  }

  lemma {:induction false} FirstOfCall(evs: seq<Event>, i: nat) returns (o: nat)
    requires i < |evs| && evs[i].channel == Tool && evs[i].callId != ""
    ensures o <= i && ToolOpens(evs, o) && evs[o].callId == evs[i].callId
    decreases i
  {
    if j: nat :| j < i && evs[j].channel == Tool && evs[j].callId == evs[i].callId {
      o := FirstOfCall(evs, j);
    } else {
      o := i;
    }
  }

  /** Two tool events are in one row if and only if they carry the same, non-empty call id. */
  lemma CallsShareARow(evs: seq<Event>, i: nat, j: nat)
    requires i < j < |evs| && evs[i].channel == Tool && evs[j].channel == Tool
    ensures ShareARow(evs, i, j) <==> evs[i].callId != "" && evs[i].callId == evs[j].callId
  {
    if evs[i].callId != "" && evs[i].callId == evs[j].callId {
      var o := FirstOfCall(evs, i);
      assert Belongs(evs, i, o) && Belongs(evs, j, o);
    }
  }
}
