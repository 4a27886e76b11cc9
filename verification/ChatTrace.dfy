/** The two ways a run's conversation is derived: at once from its stored stream, and live as it streams. */
module ChatTrace {
  import opened Basics
  import opened ChatEvents
  import opened ChatFold
  import opened ChatTheorems
  import opened ChatConversation

  method WriteRows(table: map<nat, Message>, rows: seq<Message>) returns (table': map<nat, Message>)
    ensures table' == Upsert(table, rows)
  {
    table' := table;
    for i := 0 to |rows|
      invariant table' == Upsert(table, rows[..i])
    {
      assert rows[..i + 1][..i] == rows[..i];
      table' := table'[rows[i].seq_ := rows[i]];
    }
    assert rows[..|rows|] == rows;
  }

  /** The rows of a table in seq order. */
  method InSeqOrder(table: map<nat, Message>, ghost rows: seq<Message>) returns (out: seq<Message>)
    requires IsConversation(table, rows)
    ensures out == rows
  {
    out := [];
    var rest := table.Keys;
    forall q: nat ensures q in rest <==> 1 <= q <= |rows| {
      RowOfConversation(table, rows, q);
    }
    while rest != {}
      invariant |out| <= |rows| && out == rows[..|out|]
      invariant rest <= table.Keys && forall q: nat :: q in rest <==> |out| < q <= |rows|
      decreases rest
    {
      assert |out| < |rows| by {
        var some :| some in rest;
      }
      LeastExists(rest, |out| + 1);
      var q :| q in rest && forall r | r in rest :: q <= r;
      RowOfConversation(table, rows, q);
      assert q == |out| + 1;
      out := out + [table[q]];
      rest := rest - {q};
    }
    assert |out| < |rows| ==> |rows| in rest;
  }

  lemma {:induction false} OneMore(evs: seq<Event>, ev: Event)
    ensures FoldOf(evs + [ev]) == AddFold(FoldOf(evs), ev)
    ensures Stored(evs + [ev]) == Upsert(Stored(evs), AddRows(FoldOf(evs), ev))
  {
    assert (evs + [ev])[..|evs|] == evs;
  }

  /** Feeds one event and writes the rows it completed. */
  method Feed(agg: ChatAggregator, table: map<nat, Message>, ghost evs: seq<Event>, ev: Event)
    returns (table': map<nat, Message>)
    requires UpToDate(agg, table, evs)
    modifies agg, agg.groups
    ensures UpToDate(agg, table', evs + [ev])
    ensures forall k | 0 <= k < |agg.groups| :: agg.groups[k] in old(agg.groups) || fresh(agg.groups[k])
  {
    OneMore(evs, ev);
    var rows := agg.Add(ev);
    table' := WriteRows(table, rows);
  }

  /** A finished run holds the conversation of everything it saw. */
  ghost predicate Finished(rows: map<nat, Message>, seen: seq<Event>) {
    IsConversation(rows, Batch(seen))
  }

  /** Writes what the stream left open. */
  method FeedEnd(agg: ChatAggregator, table: map<nat, Message>, ghost evs: seq<Event>) returns (table': map<nat, Message>)
    requires UpToDate(agg, table, evs)
    modifies agg.groups
    ensures Finished(table', evs)
  {
    StreamingIsBatch(evs);
    var rows := agg.Flush();
    table' := WriteRows(table, rows);
  }

  /** A whole stream, folded at once. */
  method AggregateChatMessages(events: seq<Event>) returns (out: seq<Message>)
    ensures out == Batch(events)
  {
    var agg := new ChatAggregator();
    var bySeq: map<nat, Message> := map[];
    for i := 0 to |events|
      invariant fresh(agg) && forall k | 0 <= k < |agg.groups| :: fresh(agg.groups[k])
      invariant UpToDate(agg, bySeq, events[..i])
    {
      assert events[..i] + [events[i]] == events[..i + 1];
      bySeq := Feed(agg, bySeq, events[..i], events[i]);
    }
    assert events[..|events|] == events;
    bySeq := FeedEnd(agg, bySeq, events);
    out := InSeqOrder(bySeq, Batch(events));
  }

  // ---- the live trace ---------------------------------------------------------------------

  const FLUSH_SIZE := 64

  datatype RawEvent = RawEvent(seq_: nat, event: Event)

  /** The raw stream as it is to be stored: every event under its position. */
  function Numbered(evs: seq<Event>): seq<RawEvent> {
    seq(|evs|, i requires 0 <= i < |evs| => RawEvent(i, evs[i]))
  }

  /** The aggregator and the stored rows are up to date with the events seen. */
  ghost predicate UpToDate(agg: ChatAggregator, rows: map<nat, Message>, seen: seq<Event>)
    reads agg, agg.groups
  {
    agg.Valid() && agg.Model() == FoldOf(seen) && rows == Stored(seen)
  }

  /** The raw stream is stored or buffered, whole and in order, when it is kept at all. */
  ghost predicate RawKept(keepsEvents: bool, nextSeq: nat, all: seq<RawEvent>, seen: seq<Event>) {
    && all == (if keepsEvents then Numbered(seen) else [])
    && nextSeq == (if keepsEvents then |seen| else 0)
  }

  lemma RawGrows(nextSeq: nat, all: seq<RawEvent>, seen: seq<Event>, ev: Event)
    requires RawKept(true, nextSeq, all, seen)
    ensures RawKept(true, nextSeq + 1, all + [RawEvent(nextSeq, ev)], seen + [ev])
  {
  }

  /**
    One recorded run. `storedRows` and `storedEvents` are the store's conversation and raw
    stream of this run; `seen` is every event emitted so far, with the time it was given.
  */
  class LlmTrace {
    var active: bool
    var keepsEvents: bool
    var nextSeq: nat
    var buf: seq<RawEvent>
    var aggregator: ChatAggregator
    var storedRows: map<nat, Message>
    var storedEvents: seq<RawEvent>
    ghost var seen: seq<Event>

    /** The raw side has taken in `events`. */
    ghost predicate Buffered(events: seq<Event>)
      reads this
    {
      |buf| < FLUSH_SIZE && RawKept(keepsEvents, nextSeq, storedEvents + buf, events)
    }

    ghost predicate Valid()
      reads this, aggregator, aggregator.groups
    {
      && Buffered(seen)
      && (if active then UpToDate(aggregator, storedRows, seen) else Finished(storedRows, seen) && buf == [])
    }

    constructor (keepsEvents: bool)
      ensures Valid() && active && seen == [] && this.keepsEvents == keepsEvents
      ensures fresh(aggregator) && aggregator.groups == []
    {
      active, this.keepsEvents, nextSeq, buf := true, keepsEvents, 0, [];
      aggregator := new ChatAggregator();
      storedRows, storedEvents, seen := map[], [], [];
    }

    /** Records one event, at `now` when the provider gave no time. A closed trace ignores it. */
    method Emit(ev: Event, now: int)
      requires Valid()
      modifies this, aggregator, aggregator.groups
      ensures Valid() && active == old(active) && keepsEvents == old(keepsEvents) && aggregator == old(aggregator)
      ensures seen == if old(active) then old(seen) + [if ev.at == 0 then ev.(at := now) else ev] else old(seen)
      ensures !old(active) ==> storedRows == old(storedRows) && storedEvents == old(storedEvents)
      ensures forall k | 0 <= k < |aggregator.groups| :: aggregator.groups[k] in old(aggregator.groups) || fresh(aggregator.groups[k])
    {
      if active {
        EmitStamped(if ev.at == 0 then ev.(at := now) else ev);
      }
    }

    method EmitStamped(ev: Event)
      requires Valid() && active
      modifies this`buf, this`nextSeq, this`storedEvents, this`storedRows, this`seen, aggregator, aggregator.groups
      ensures Valid() && seen == old(seen) + [ev]
      ensures forall k | 0 <= k < |aggregator.groups| :: aggregator.groups[k] in old(aggregator.groups) || fresh(aggregator.groups[k])
    {
      BufferEvent(ev);
      EmitMessages(ev);
    }

    /** Buffers a raw event, if they are kept; a full buffer is stored. */
    method BufferEvent(ev: Event)
      requires Buffered(seen)
      modifies this`buf, this`nextSeq, this`storedEvents
      ensures Buffered(seen + [ev])
    {
      if !keepsEvents {
        return;
      }
      RawGrows(nextSeq, storedEvents + buf, seen, ev);
      assert storedEvents + (buf + [RawEvent(nextSeq, ev)]) == (storedEvents + buf) + [RawEvent(nextSeq, ev)];
      buf := buf + [RawEvent(nextSeq, ev)];
      nextSeq := nextSeq + 1;
      if |buf| >= FLUSH_SIZE {
        Flush();
        assert storedEvents + buf == storedEvents;
      }
    }

    /** Folds the event in and writes the rows it completed. */
    method EmitMessages(ev: Event)
      requires active && Buffered(seen + [ev]) && UpToDate(aggregator, storedRows, seen)
      modifies this`storedRows, this`seen, aggregator, aggregator.groups
      ensures seen == old(seen) + [ev] && Valid()
      ensures forall k | 0 <= k < |aggregator.groups| :: aggregator.groups[k] in old(aggregator.groups) || fresh(aggregator.groups[k])
    {
      var rows := Feed(aggregator, storedRows, seen, ev);
      storedRows := rows;
      seen := seen + [ev];
    }

    method Flush()
      modifies this`buf, this`storedEvents
      ensures buf == [] && storedEvents == old(storedEvents) + old(buf) && storedEvents + buf == storedEvents
    {
      storedEvents := storedEvents + buf;
      buf := [];
    }

    /** Closes the trace: what the stream left open is written, and nothing is left in the buffer. */
    method Finish()
      requires Valid()
      modifies this, aggregator.groups
      ensures Valid() && !active && seen == old(seen) && keepsEvents == old(keepsEvents)
      ensures Finished(storedRows, seen)
      ensures RawKept(keepsEvents, nextSeq, storedEvents, seen)
    {
      if active {
        Flush();
        FinishMessages();
      }
      assert buf == [] && storedEvents + buf == storedEvents;
    }

    /** Writes what the stream left open, and closes. */
    method FinishMessages()
      requires UpToDate(aggregator, storedRows, seen)
      modifies this`storedRows, this`active, aggregator.groups
      ensures !active && Finished(storedRows, seen)
    {
      var rows := FeedEnd(aggregator, storedRows, seen);
      storedRows, active := rows, false;
    }
  }
}
