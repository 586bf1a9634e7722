/**
 The event-stream poller (apps/server/src/sse.ts:89-120) against a growing log.

 A poll is two pieces of code with a query between them. While it waits, the log
 may grow, the timer may fire again and the client may go away.
 */
module EventStream {

  datatype Option<T> = None | Some(value: T)

  /** A stored event: its sequence number, and the rest. */
  datatype Item = Item(sequence: nat, content: nat)

  const PAGE := 100

  ghost predicate Ordered(log: seq<Item>) {
    && (forall i :: 0 <= i < |log| ==> log[i].sequence >= 1)
    && (forall i, j :: 0 <= i < j < |log| ==> log[i].sequence < log[j].sequence)
  }

  function After(log: seq<Item>, cursor: nat): seq<Item> {
    if log == [] then [] else (if log[0].sequence > cursor then [log[0]] else []) + After(log[1..], cursor)
  }

  /** `eventsAfter` (packages/application/src/ports.ts:88-92) */
  function EventsAfter(log: seq<Item>, cursor: nat, limit: nat): seq<Item> {
    var items := After(log, cursor);
    if |items| <= limit then items else items[..limit]
  }

  // ---------- one connection ----------

  datatype Connection = Connection(cursor: nat, polling: bool, destroyed: bool, written: seq<Item>) {
    predicate Starts() { !polling && !destroyed }

    /** Up to the query. */
    function Begin(): Connection { if Starts() then this.(polling := true) else this }

    /** After the query; `None` when it failed. */
    function Resume(answer: Option<seq<Item>>): Connection {
      match answer
      case None => this.(polling := false)
      case Some(items) =>
        Connection(if items == [] then cursor else items[|items| - 1].sequence, false, destroyed, written + items)
    }
  }

  class EventStream {
    var cursor: nat
    var polling: bool
    var destroyed: bool
    var written: seq<Item>

    function State(): Connection
      reads this
    {
      Connection(cursor, polling, destroyed, written)
    }

    constructor (start: nat)
      ensures State() == Connection(start, false, false, [])
    {
      cursor, polling, destroyed, written := start, false, false, [];
    }

    /** The query to make, unless a poll is under way or the client is gone. */
    method BeginPoll() returns (query: Option<nat>)
      modifies this
      ensures State() == old(State()).Begin()
      ensures query == if old(State()).Starts() then Some(old(cursor)) else None
    {
      if polling || destroyed {
        return None;
      }
      polling := true;
      return Some(cursor);
    }

    method ResumePoll(answer: Option<seq<Item>>)
      modifies this
      ensures State() == old(State()).Resume(answer)
    {
      match answer {
        case None =>
        case Some(events) =>
          for i := 0 to |events|
            invariant written == old(written) + events[..i]
            invariant cursor == if i == 0 then old(cursor) else events[i - 1].sequence
            invariant destroyed == old(destroyed)
          {
            written := written + [events[i]];
            cursor := events[i].sequence;
          }
          assert events[..|events|] == events;
      }
      polling := false;
    }
  }

  // ---------- a connection and a log ----------

  /** What the suspended poll waits for: nothing, the query it made, or its answer. */
  datatype Query = Idle | Asked | Answered(answer: Option<seq<Item>>)

  datatype World = World(log: seq<Item>, connection: Connection, query: Query)

  ghost predicate Appends(w: World, v: World) {
    exists more :: v == w.(log := w.log + more) && Ordered(w.log + more)
  }

  /** The timer fires. */
  function Tick(w: World): World {
    if w.connection.Starts() then World(w.log, w.connection.Begin(), Asked) else w
  }

  /** The store answers with the log of this moment, or fails. */
  function Answer(w: World): World {
    if w.query.Asked? then w.(query := Answered(Some(EventsAfter(w.log, w.connection.cursor, PAGE)))) else w
  }

  function Reject(w: World): World { if w.query.Asked? then w.(query := Answered(None)) else w }

  /** The poll goes on. */
  function Resume(w: World): World {
    if w.query.Answered? then World(w.log, w.connection.Resume(w.query.answer), Idle) else w
  }

  function Close(w: World): World { w.(connection := w.connection.(destroyed := true)) }

  ghost predicate Next(w: World, v: World) {
    Appends(w, v) || v == Tick(w) || v == Answer(w) || v == Reject(w) || v == Resume(w) || v == Close(w)
  }

  /** A connection from the cursor `start` on, with any interleaving. */
  ghost predicate Trace(worlds: seq<World>, start: nat) {
    && worlds != [] && Ordered(worlds[0].log)
    && worlds[0].connection == Connection(start, false, false, []) && worlds[0].query == Idle
    && forall i :: 0 <= i < |worlds| - 1 ==> Next(worlds[i], worlds[i + 1])
  }

  // ---------- slices of an ordered log ----------

  /** The events with `low < sequence <= high`. */
  function Between(log: seq<Item>, low: nat, high: nat): seq<Item> {
    if log == [] then []
    else (if low < log[0].sequence <= high then [log[0]] else []) + Between(log[1..], low, high)
  }

  lemma {:induction false} BetweenAppend(log: seq<Item>, more: seq<Item>, low: nat, high: nat)
    ensures Between(log + more, low, high) == Between(log, low, high) + Between(more, low, high)
  {
    if log == [] {
      assert log + more == more;
    } else {
      assert (log + more)[1..] == log[1..] + more;
      BetweenAppend(log[1..], more, low, high);
    }
  }

  lemma {:induction false} AfterAppend(log: seq<Item>, more: seq<Item>, cursor: nat)
    ensures After(log + more, cursor) == After(log, cursor) + After(more, cursor)
  {
    if log == [] {
      assert log + more == more;
    } else {
      assert (log + more)[1..] == log[1..] + more;
      AfterAppend(log[1..], more, cursor);
    }
  }

  lemma {:induction false} NoneBetween(log: seq<Item>, low: nat, high: nat)
    requires forall i :: 0 <= i < |log| ==> !(low < log[i].sequence <= high)
    ensures Between(log, low, high) == []
  {
    if log != [] {
      NoneBetween(log[1..], low, high);
    }
  }

  lemma OrderedTail(log: seq<Item>)
    requires Ordered(log) && log != []
    ensures Ordered(log[1..]) && forall i :: 0 <= i < |log[1..]| ==> log[0].sequence < log[1..][i].sequence
  {
  }

  /** Consecutive slices join without gap or repeat. */
  lemma {:induction false} SlicesJoin(log: seq<Item>, low: nat, middle: nat, high: nat)
    requires Ordered(log) && low <= middle <= high
    ensures Between(log, low, middle) + Between(log, middle, high) == Between(log, low, high)
  {
    if log != [] {
      OrderedTail(log);
      SlicesJoin(log[1..], low, middle, high);
      if log[0].sequence > middle {
        NoneBetween(log[1..], low, middle);
        assert Between(log, low, middle) == [];
      }
    }
  }

  /** The first `n` events after a cursor are the slice up to the last of them. */
  lemma {:induction false} PageIsSlice(log: seq<Item>, cursor: nat, n: nat)
    requires Ordered(log) && 0 < n <= |After(log, cursor)|
    ensures var last := After(log, cursor)[n - 1].sequence;
      last > cursor && After(log, cursor)[..n] == Between(log, cursor, last)
        && exists i :: 0 <= i < |log| && log[i].sequence == last
  {
    var items := After(log, cursor);
    OrderedTail(log);
    var rest := After(log[1..], cursor);
    if log[0].sequence > cursor {
      assert items == [log[0]] + rest;
      if n == 1 {
        NoneBetween(log[1..], cursor, log[0].sequence);
        assert items[..1] == [log[0]];
      } else {
        PageIsSlice(log[1..], cursor, n - 1);
        var last := rest[n - 2].sequence;
        var i :| 0 <= i < |log[1..]| && log[1..][i].sequence == last;
        assert log[i + 1].sequence == last && log[0].sequence < last;
        assert items[..n] == [log[0]] + rest[..n - 1];
      }
    } else {
      assert items == rest;
      PageIsSlice(log[1..], cursor, n);
      var last := rest[n - 1].sequence;
      var i :| 0 <= i < |log[1..]| && log[1..][i].sequence == last;
      assert log[i + 1].sequence == last;
    }
  }

  // ---------- where a connection starts ----------

  /** What `Number` makes of a cursor text: a whole number that is not negative, or something else. */
  datatype Reading = Whole(n: nat) | Unusable

  /** The query's `after`, else the `last-event-id` header, else zero; what is not usable is refused. */
  function StartCursor(after: Option<Reading>, header: Option<Reading>): Reading {
    match after
    case Some(reading) => reading
    case None =>
      match header
      case Some(reading) => reading
      case None => Whole(0)
  }

  /** The header that a client sends when it reconnects: the identifier last written to it. */
  function LastId(c: Connection): Option<Reading> {
    if c.written == [] then None else Some(Whole(c.written[|c.written| - 1].sequence))
  }

  // ---------- the invariant ----------

  ghost predicate InLog(log: seq<Item>, sequence: nat) { exists i :: 0 <= i < |log| && log[i].sequence == sequence }

  ghost predicate Faithful(w: World, start: nat) {
    && Ordered(w.log) && start <= w.connection.cursor
    && (w.connection.cursor == start || InLog(w.log, w.connection.cursor))
    && w.connection.written == Between(w.log, start, w.connection.cursor)
    && (LastId(w.connection).Some? ==> LastId(w.connection) == Some(Whole(w.connection.cursor)))
    && (w.connection.polling <==> !w.query.Idle?)
    && (w.query.Answered? && w.query.answer.Some? ==> w.query.answer.value <= After(w.log, w.connection.cursor))
  }

  lemma AppendKeeps(w: World, more: seq<Item>, start: nat)
    requires Faithful(w, start) && Ordered(w.log + more)
    ensures Faithful(w.(log := w.log + more), start)
  {
    var c, log := w.connection.cursor, w.log + more;
    assert forall i :: 0 <= i < |w.log| ==> log[i] == w.log[i];
    BetweenAppend(w.log, more, start, c);
    if c == start {
      NoneBetween(more, start, c);
    } else {
      var i :| 0 <= i < |w.log| && w.log[i].sequence == c;
      assert log[i].sequence == c;
      assert forall k :: 0 <= k < |more| ==> log[|w.log| + k] == more[k];
      NoneBetween(more, start, c);
    }
    AfterAppend(w.log, more, c);
  }

  lemma ResumeKeeps(w: World, start: nat)
    requires Faithful(w, start)
    ensures Faithful(Resume(w), start)
  {
    if w.query.Answered? && w.query.answer.Some? {
      if w.query.answer.value == [] {
        assert w.connection.written + [] == w.connection.written;
      } else {
        PageKeeps(w, start, w.query.answer.value);
      }
    }
  }

  lemma PageKeeps(w: World, start: nat, items: seq<Item>)
    requires Faithful(w, start) && w.query == Answered(Some(items)) && items != []
    ensures Faithful(Resume(w), start)
  {
    var c, last := w.connection.cursor, items[|items| - 1].sequence;
    assert items == After(w.log, c)[..|items|];
    PageIsSlice(w.log, c, |items|);
    SlicesJoin(w.log, start, c, last);
    var written := w.connection.written + items;
    assert written[|written| - 1] == items[|items| - 1];
  }

  lemma NextKeeps(w: World, v: World, start: nat)
    requires Faithful(w, start) && Next(w, v)
    ensures Faithful(v, start)
  {
    if Appends(w, v) {
      var more :| v == w.(log := w.log + more) && Ordered(w.log + more);
      AppendKeeps(w, more, start);
    } else if v == Resume(w) {
      ResumeKeeps(w, start);
    }
  }

  /**
   However appends, timer ticks, failures and disconnection interleave with a
   suspended poll, the stream has written exactly the events after its start cursor
   up to its current one, once each and in order.
   */
  lemma {:induction false} StreamIsExact(worlds: seq<World>, start: nat, i: nat)
    requires Trace(worlds, start) && i < |worlds|
    ensures Faithful(worlds[i], start)
    ensures worlds[i].connection.written == Between(worlds[i].log, start, worlds[i].connection.cursor)
  {
    if i == 0 {
      NoneBetween(worlds[0].log, start, start);
    } else {
      StreamIsExact(worlds, start, i - 1);
      assert Next(worlds[i - 1], worlds[i - 1 + 1]);
      NextKeeps(worlds[i - 1], worlds[i], start);
    }
  }

  /** Along a trace the log only grows. */
  lemma {:induction false} LogGrows(worlds: seq<World>, start: nat, i: nat, j: nat)
    requires Trace(worlds, start) && i <= j < |worlds|
    ensures worlds[i].log <= worlds[j].log
    decreases j
  {
    if i < j {
      LogGrows(worlds, start, i, j - 1);
      assert Next(worlds[j - 1], worlds[j - 1 + 1]);
    }
  }

  /** What the log has between two cursors, whichever comes first. */
  function Gap(log: seq<Item>, a: nat, b: nat): seq<Item> { if a <= b then Between(log, a, b) else Between(log, b, a) }

  /** Two connections have together written exactly the log from the first one's start cursor on. */
  ghost predicate Seamless(w: World, v: World, start: nat) {
    w.connection.written + v.connection.written == Between(v.log, start, v.connection.cursor)
  }

  /** What was written stays the same slice of any longer log. */
  lemma WrittenSlice(w: World, log: seq<Item>, start: nat)
    requires Faithful(w, start) && w.log <= log && Ordered(log)
    ensures w.connection.written == Between(log, start, w.connection.cursor)
  {
    var more := log[|w.log|..];
    assert log == w.log + more;
    AppendKeeps(w, more, start);
  }

  /** Two slices make one exactly when nothing lies between the end of the first and the start of the second. */
  lemma SlicesMeet(log: seq<Item>, start: nat, c: nat, again: nat, end: nat)
    requires Ordered(log) && start <= c && start <= end && again <= end
    ensures Between(log, start, c) + Between(log, again, end) == Between(log, start, end) <==> Gap(log, c, again) == []
  {
    if c <= again {
      SlicesJoin(log, start, c, again);
      SlicesJoin(log, start, again, end);
      MiddleEmpty(Between(log, start, c), Gap(log, c, again), Between(log, again, end));
    } else if start <= again {
      SlicesJoin(log, start, again, c);
      SlicesJoin(log, start, again, end);
      MiddleEmpty(Between(log, start, again), Gap(log, c, again), Between(log, again, end));
    } else {
      SlicesJoin(log, again, start, c);
      SlicesJoin(log, again, start, end);
    }
  }

  lemma MiddleEmpty(a: seq<Item>, middle: seq<Item>, b: seq<Item>)
    ensures a + middle + b == a + b <==> middle == []
  {
    assert |a + middle + b| == |a + b| + |middle|;
    if middle == [] {
      assert a + middle == a;
    }
  }

  /**
   A second connection that starts at `again`, and has come as far as the first one's
   start, continues the first one with no gap and no repeat if and only if the log has
   nothing between `again` and the cursor at which the first one ended.
   */
  lemma ReconnectionContinues(first: seq<World>, start: nat, i: nat, second: seq<World>, again: nat, j: nat)
    requires Trace(first, start) && i < |first|
    requires Trace(second, again) && j < |second| && first[i].log <= second[0].log
    requires start <= second[j].connection.cursor
    ensures Seamless(first[i], second[j], start) <==> Gap(second[j].log, first[i].connection.cursor, again) == []
  {
    StreamIsExact(first, start, i);
    StreamIsExact(second, again, j);
    LogGrows(second, again, 0, j);
    WrittenSlice(first[i], second[j].log, start);
    SlicesMeet(second[j].log, start, first[i].connection.cursor, again, second[j].connection.cursor);
  }

  /**
   A client that reconnects to the URL of its first connection, with the identifier last
   written to it as header: nothing is lost or repeated if and only if the URL has no
   `after`, or nothing was written before.
   */
  lemma AutomaticReconnection(after: Option<Reading>, first: seq<World>, start: nat, i: nat, second: seq<World>,
                              again: nat, j: nat)
    requires StartCursor(after, None) == Whole(start) && Trace(first, start) && i < |first|
    requires StartCursor(after, LastId(first[i].connection)) == Whole(again) && Trace(second, again) && j < |second|
    requires first[i].log <= second[0].log
    ensures Seamless(first[i], second[j], start) <==> after.None? || first[i].connection.written == []
  {
    StreamIsExact(first, start, i);
    StreamIsExact(second, again, j);
    LogGrows(second, again, 0, j);
    var log, c := second[j].log, first[i].connection.cursor;
    WrittenSlice(first[i], log, start);
    ReconnectionContinues(first, start, i, second, again, j);
    NoneBetween(log, c, c);
  }

  const EVENT := Item(1, 0)
  const FRESH := World([EVENT], Connection(0, false, false, []), Idle)
  const STREAMED := [FRESH, Tick(FRESH), Answer(Tick(FRESH)), Resume(Answer(Tick(FRESH)))]

  /**
   The reconnection of `?after=0` after one event: the header says 1, the stream starts at
   0 and writes the event again.
   */
  lemma ReconnectionRepeats()
    ensures Trace(STREAMED, 0) && LastId(STREAMED[3].connection) == Some(Whole(1))
    ensures StartCursor(Some(Whole(0)), None) == StartCursor(Some(Whole(0)), LastId(STREAMED[3].connection)) == Whole(0)
    ensures STREAMED[3].connection.written + STREAMED[3].connection.written == [EVENT, EVENT]
    ensures Between([EVENT], 0, 1) == [EVENT]
  {
    assert After([EVENT], 0) == [EVENT];
    assert EventsAfter([EVENT], 0, PAGE) == [EVENT];
    assert STREAMED[3].connection.written == [EVENT];
  }

  /** What comes after the first `n` events after a cursor is the rest of them. */
  lemma {:induction false} BacklogRest(log: seq<Item>, cursor: nat, n: nat)
    requires Ordered(log) && 0 < n <= |After(log, cursor)|
    ensures After(log, After(log, cursor)[n - 1].sequence) == After(log, cursor)[n..]
  {
    var items, rest := After(log, cursor), After(log[1..], cursor);
    OrderedTail(log);
    if log[0].sequence > cursor {
      assert items == [log[0]] + rest;
      if n == 1 {
        AllAfter(log[1..], log[0].sequence);
        AllAfter(log[1..], cursor);
      } else {
        BacklogRest(log[1..], cursor, n - 1);
        PageIsSlice(log[1..], cursor, n - 1);
      }
    } else {
      assert items == rest;
      BacklogRest(log[1..], cursor, n);
      PageIsSlice(log[1..], cursor, n);
    }
  }

  lemma {:induction false} AllAfter(log: seq<Item>, cursor: nat)
    requires forall i :: 0 <= i < |log| ==> log[i].sequence > cursor
    ensures After(log, cursor) == log
  {
    if log != [] {
      AllAfter(log[1..], cursor);
      assert log == [log[0]] + log[1..];
    }
  }

  /**
   A poll that nothing interrupts writes the whole backlog, or a full page of it, and
   leaves the rest for the next one.
   */
  lemma PollAdvances(w: World, start: nat)
    requires Faithful(w, start) && w.connection.Starts()
    ensures var v := Resume(Answer(Tick(w)));
      var backlog := After(w.log, w.connection.cursor);
      var n := if |backlog| <= PAGE then |backlog| else PAGE;
      && v.query == Idle && v.connection.Starts()
      && v.connection.written == w.connection.written + backlog[..n]
      && After(v.log, v.connection.cursor) == backlog[n..]
  {
    var backlog := After(w.log, w.connection.cursor);
    var n := if |backlog| <= PAGE then |backlog| else PAGE;
    assert EventsAfter(w.log, w.connection.cursor, PAGE) == backlog[..n];
    if n > 0 {
      BacklogRest(w.log, w.connection.cursor, n);
    }
  }
}
