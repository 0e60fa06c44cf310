/** Framing does not depend on how the stream was cut into chunks. */
module ControlPipeResults {
  import opened Options
  import opened ControlPipe

  /** The values of the newline-terminated packets of `bytes`, up to the first that does not parse,
      and whether all of them do. */
  function Framed(parse: Parser, bytes: seq<Byte>): (seq<Value>, bool)
    decreases |bytes|
  {
    var n := IndexOf(bytes);
    if n == |bytes| then ([], true)
    else
      var value := parse(bytes[..n]);
      if value.None? then ([], false)
      else
        var rest := Framed(parse, bytes[n + 1..]);
        ([value.value] + rest.0, rest.1)
  }

  /** What follows the last newline. */
  function Tail(bytes: seq<Byte>): seq<Byte>
    decreases |bytes|
  {
    var n := IndexOf(bytes);
    if n == |bytes| then bytes else Tail(bytes[n + 1..])
  }

  lemma {:induction false} FirstNewlineStays(a: seq<Byte>, b: seq<Byte>)
    requires IndexOf(a) < |a|
    ensures IndexOf(a + b) == IndexOf(a)
  {
    var m := IndexOf(a);
    assert (a + b)[m] == a[m];
    assert forall i :: 0 <= i < m ==> (a + b)[i] == a[i];
  }

  /** The first packet of `a + b` is that of `a`; what follows it is what follows it in `a`, then `b`. */
  lemma {:induction false} FirstPacketStays(a: seq<Byte>, b: seq<Byte>)
    requires IndexOf(a) < |a|
    ensures var n := IndexOf(a);
            IndexOf(a + b) == n < |a + b| && (a + b)[..n] == a[..n] && (a + b)[n + 1..] == a[n + 1..] + b
  {
    FirstNewlineStays(a, b);
  }

  lemma {:induction false} TailAppend(a: seq<Byte>, b: seq<Byte>)
    ensures Tail(a + b) == Tail(Tail(a) + b)
    decreases |a|
  {
    var n := IndexOf(a);
    if n < |a| {
      FirstPacketStays(a, b);
      TailAppend(a[n + 1..], b);
    }
  }

  /** `more` framed after `first`. */
  function Then(first: (seq<Value>, bool), more: (seq<Value>, bool)): (seq<Value>, bool) {
    if first.1 then (first.0 + more.0, more.1) else first
  }

  lemma {:induction false} ThenCons(value: Value, first: (seq<Value>, bool), more: (seq<Value>, bool))
    ensures Then(([value] + first.0, first.1), more) == ([value] + Then(first, more).0, Then(first, more).1)
  {
    assert [value] + first.0 + more.0 == [value] + (first.0 + more.0);
  }

  lemma {:induction false} FramedUnfolds(parse: Parser, bytes: seq<Byte>)
    requires IndexOf(bytes) < |bytes|
    ensures var n := IndexOf(bytes);
            var rest := Framed(parse, bytes[n + 1..]);
            Framed(parse, bytes) == if parse(bytes[..n]).None? then ([], false)
                                    else ([parse(bytes[..n]).value] + rest.0, rest.1)
  {
  }

  lemma {:induction false} FramedAppend(parse: Parser, a: seq<Byte>, b: seq<Byte>, tail: seq<Byte>)
    requires tail == Tail(a)
    ensures Framed(parse, a + b) == Then(Framed(parse, a), Framed(parse, tail + b))
    decreases |a|
  {
    var n := IndexOf(a);
    var more := Framed(parse, tail + b);
    if n < |a| {
      FirstPacketStays(a, b);
      var value := parse(a[..n]);
      FramedUnfolds(parse, a);
      FramedUnfolds(parse, a + b);
      if value.Some? {
        FramedAppend(parse, a[n + 1..], b, tail);
        ThenCons(value.value, Framed(parse, a[n + 1..]), more);
      }
    } else {
      assert [] + more.0 == more.0;
    }
  }

  /** Everything the pipe has passed on or holds. */
  function Passed(p: Pipe): seq<Value> {
    p.delivered + p.queue
  }

  lemma {:induction false} Shift(passed: seq<Value>, value: Value, rest: seq<Value>)
    ensures passed + [value] + rest == passed + ([value] + rest)
  {
  }

  lemma {:induction false} TakeFrames(parse: Parser, p: Pipe)
    requires !p.failed && (p.waiting ==> p.queue == []) && IndexOf(p.tail) < |p.tail|
    ensures var q := Take(parse, p);
            && (q.failed ==> q.delivered == p.delivered && q == Closed(q))
            && (!q.failed ==>
                  && (q.waiting ==> q.queue == []) && q.tail == p.tail[IndexOf(p.tail) + 1..]
                  && parse(p.tail[..IndexOf(p.tail)]).Some?
                  && Passed(q) == Passed(p) + [parse(p.tail[..IndexOf(p.tail)]).value])
  {
    var n := IndexOf(p.tail);
    var value := parse(p.tail[..n]);
    if value.Some? {
      assert p.delivered + (p.queue + [value.value]) == Passed(p) + [value.value];
    }
  }

  lemma {:induction false} DrainFrames(parse: Parser, p: Pipe)
    requires !p.failed && (p.waiting ==> p.queue == [])
    ensures var q := Drain(parse, p);
            && q.delivered <= Passed(p) + Framed(parse, p.tail).0
            && (!q.failed ==>
                  && Framed(parse, p.tail).1 && q.tail == Tail(p.tail)
                  && Passed(q) == Passed(p) + Framed(parse, p.tail).0)
            && (q.waiting ==> q.queue == [])
    decreases |p.tail|
  {
    var n := IndexOf(p.tail);
    if n < |p.tail| {
      TakeFrames(parse, p);
      var q := Take(parse, p);
      if !q.failed {
        DrainFrames(parse, q);
        Shift(Passed(p), parse(p.tail[..n]).value, Framed(parse, q.tail).0);
      }
    }
  }

  // Runs.

  datatype Event = Chunk(bytes: seq<Byte>) | ReadCall(aborted: bool) | CloseCall

  function Step(parse: Parser, p: Pipe, e: Event): Pipe {
    match e
    case Chunk(bytes) => Data(parse, p, bytes)
    case ReadCall(aborted) => Read(p, aborted).0
    case CloseCall => Close(p)
  }

  function Run(parse: Parser, events: seq<Event>): Pipe {
    if events == [] then Pipe(false, [], [], false, [])
    else Step(parse, Run(parse, events[..|events| - 1]), events[|events| - 1])
  }

  /** All the bytes of the stream so far. */
  function Stream(events: seq<Event>): seq<Byte> {
    if events == [] then []
    else
      var last := events[|events| - 1];
      Stream(events[..|events| - 1]) + if last.Chunk? then last.bytes else []
  }

  ghost predicate Follows(parse: Parser, p: Pipe, bytes: seq<Byte>) {
    && Orderly(p)
    && p.delivered <= Framed(parse, bytes).0
    && (!p.failed ==>
          && Framed(parse, bytes).1 && p.tail == Tail(bytes)
          && Passed(p) == Framed(parse, bytes).0)
  }

  lemma {:induction false} TailHasNoNewline(bytes: seq<Byte>)
    ensures forall i :: 0 <= i < |Tail(bytes)| ==> Tail(bytes)[i] != NEWLINE
    decreases |bytes|
  {
    var n := IndexOf(bytes);
    if n < |bytes| {
      TailHasNoNewline(bytes[n + 1..]);
    }
  }

  lemma {:induction false} DrainStaysShort(parse: Parser, p: Pipe)
    requires !p.failed && |p.queue| <= QUEUE_MAX
    ensures var q := Drain(parse, p);
            && |q.queue| <= QUEUE_MAX && |q.tail| <= |p.tail|
            && (q.failed ==> q == Closed(q))
    decreases |p.tail|
  {
    if IndexOf(p.tail) < |p.tail| {
      var q := Take(parse, p);
      if !q.failed {
        DrainStaysShort(parse, q);
      }
    }
  }

  lemma {:induction false} DataFollows(parse: Parser, p: Pipe, bytes: seq<Byte>, chunk: seq<Byte>)
    requires Follows(parse, p, bytes)
    ensures Follows(parse, Data(parse, p, chunk), bytes + chunk)
  {
    FramedAppend(parse, bytes, chunk, Tail(bytes));
    TailAppend(bytes, chunk);
    if !p.failed && |p.tail + chunk| <= BUFFER_MAX {
      var begun := p.(tail := p.tail + chunk);
      DrainFrames(parse, begun);
      DrainStaysShort(parse, begun);
      TailHasNoNewline(begun.tail);
    }
  }

  lemma {:induction false} RunFollows(parse: Parser, events: seq<Event>)
    ensures Follows(parse, Run(parse, events), Stream(events))
  {
    if events != [] {
      var init := events[..|events| - 1];
      RunFollows(parse, init);
      var p := Run(parse, init);
      match events[|events| - 1] {
        case Chunk(bytes) => DataFollows(parse, p, Stream(init), bytes);
        case ReadCall(aborted) => ReadFollows(parse, p, aborted, Stream(init));
        case CloseCall => assert Stream(events) == Stream(init);
      }
    }
  }

  lemma {:induction false} ReadFollows(parse: Parser, p: Pipe, aborted: bool, bytes: seq<Byte>)
    requires Follows(parse, p, bytes)
    ensures Follows(parse, Read(p, aborted).0, bytes + [])
  {
    assert bytes + [] == bytes;
    if !p.failed && !aborted && p.queue != [] {
      assert p.delivered + [p.queue[0]] + p.queue[1..] == p.delivered + p.queue;
    }
  }

  // Main results.

  /** While the pipe is open: what readers got, then what is queued, is the sequence of packets of the
      whole stream, each once and in order; what is buffered is the unterminated rest. */
  lemma PacketsOfTheStream(parse: Parser, events: seq<Event>)
    requires !Run(parse, events).failed
    ensures Framed(parse, Stream(events)).1
    ensures Run(parse, events).delivered + Run(parse, events).queue == Framed(parse, Stream(events)).0
    ensures Run(parse, events).tail == Tail(Stream(events))
  {
    RunFollows(parse, events);
  }

  /** However the same stream is cut, and whenever it is read, the readers see the same values. */
  lemma ChunkingDoesNotMatter(parse: Parser, one: seq<Event>, other: seq<Event>)
    requires Stream(one) == Stream(other) && !Run(parse, one).failed && !Run(parse, other).failed
    ensures Run(parse, one).delivered + Run(parse, one).queue == Run(parse, other).delivered + Run(parse, other).queue
    ensures Run(parse, one).tail == Run(parse, other).tail
  {
    RunFollows(parse, one);
    RunFollows(parse, other);
  }

  /** Open or closed, readers only ever got a prefix of the packets of the stream. */
  lemma ReadersGetAPrefix(parse: Parser, events: seq<Event>)
    ensures Run(parse, events).delivered <= Framed(parse, Stream(events)).0
    ensures Orderly(Run(parse, events))
  {
    RunFollows(parse, events);
  }

  /** After `close` the pipe stays closed, and nothing more is delivered. */
  lemma {:induction false} NothingAfterClose(parse: Parser, events: seq<Event>, more: seq<Event>)
    requires Run(parse, events).failed
    ensures Run(parse, events + more) == Run(parse, events)
    decreases |more|
  {
    if more == [] {
      assert events + more == events;
    } else {
      var init := more[..|more| - 1];
      NothingAfterClose(parse, events, init);
      assert (events + more)[..|events + more| - 1] == events + init;
    }
  }

  // What a chunk does, and what a reader is told.

  /** What the waiting reader takes of the values that have come in. */
  function Handed(p: Pipe, values: seq<Value>): seq<Value> {
    if p.waiting && values != [] then p.delivered + [values[0]] else p.delivered
  }

  function Left(p: Pipe, values: seq<Value>): seq<Value> {
    if p.waiting && values != [] then values[1..] else values
  }

  /** The pipe after the packets of `bytes` have come in, `rest` being what no newline ends yet. A packet that does
      not parse, or a ninth value that nobody reads, closes it; the waiting reader has its value all the same. */
  function Received(p: Pipe, framed: (seq<Value>, bool), rest: seq<Byte>): Pipe {
    if !framed.1 || |p.queue| + |Left(p, framed.0)| > 8
    then Pipe(true, [], [], false, Handed(p, framed.0))
    else Pipe(false, rest, p.queue + Left(p, framed.0), p.waiting && framed.0 == [], Handed(p, framed.0))
  }

  /** The first of the values that come in, and what it leaves for the others. */
  lemma {:induction false} AcceptReceives(p: Pipe, value: Value, values: seq<Value>, ok: bool, rest: seq<Byte>)
    requires !p.failed && (p.waiting ==> p.queue == []) && |p.queue| <= 8
    ensures var q := Accept(p, value);
            if q.failed then Received(p, ([value] + values, ok), rest) == q
            else
              && Received(p, ([value] + values, ok), rest) == Received(q, (values, ok), rest)
              && (q.waiting ==> q.queue == []) && |q.queue| <= 8
  {
    assert ([value] + values)[1..] == values;
    assert p.queue + [value] + values == p.queue + ([value] + values);
  }

  lemma {:induction false} DrainTakes(parse: Parser, p: Pipe)
    requires !p.failed && IndexOf(p.tail) < |p.tail|
    ensures var n := IndexOf(p.tail);
            Drain(parse, p) ==
            if parse(p.tail[..n]).None? then Closed(p)
            else Drain(parse, Accept(p.(tail := p.tail[n + 1..]), parse(p.tail[..n]).value))
    ensures Tail(p.tail) == Tail(p.tail[IndexOf(p.tail) + 1..])
  {
  }

  lemma {:induction false} DrainReceives(parse: Parser, p: Pipe)
    requires !p.failed && (p.waiting ==> p.queue == []) && |p.queue| <= 8
    ensures Drain(parse, p) == Received(p, Framed(parse, p.tail), Tail(p.tail))
    decreases |p.tail|, 1
  {
    var n := IndexOf(p.tail);
    if n == |p.tail| {
      assert p.queue + [] == p.queue;
    } else {
      DrainTakes(parse, p);
      FramedUnfolds(parse, p.tail);
      var value, more := parse(p.tail[..n]), p.tail[n + 1..];
      if value.Some? {
        PacketReceives(parse, p, value.value, more);
      }
    }
  }

  /** The packets behind one that has been parsed. */
  lemma {:induction false} PacketReceives(parse: Parser, p: Pipe, value: Value, more: seq<Byte>)
    requires !p.failed && (p.waiting ==> p.queue == []) && |p.queue| <= 8 && |more| < |p.tail|
    ensures var framed := Framed(parse, more);
            Drain(parse, Accept(p.(tail := more), value))
            == Received(p, ([value] + framed.0, framed.1), Tail(more))
    decreases |p.tail|, 0
  {
    var framed, shorter := Framed(parse, more), p.(tail := more);
    var q := Accept(shorter, value);
    AcceptReceives(shorter, value, framed.0, framed.1, Tail(more));
    if !q.failed {
      DrainReceives(parse, q);
    }
  }

  /** A chunk closes an open pipe exactly when the unread bytes are more than a mebibyte, one of the packets it
      completes does not parse, or the queue would grow beyond eight; otherwise its packets are handed over and
      queued in order, and the rest is kept. */
  lemma {:induction false} ChunkIsReceived(parse: Parser, events: seq<Event>, chunk: seq<Byte>)
    ensures var p, q := Run(parse, events), Step(parse, Run(parse, events), Chunk(chunk));
            q == if p.failed then p
                 else if |Tail(Stream(events)) + chunk| > 1048576 then Pipe(true, [], [], false, p.delivered)
                 else Received(p, Framed(parse, Tail(Stream(events)) + chunk), Tail(Stream(events) + chunk))
  {
    var p := Run(parse, events);
    RunFollows(parse, events);
    TailAppend(Stream(events), chunk);
    if !p.failed && |p.tail + chunk| <= 1048576 {
      DrainReceives(parse, p.(tail := p.tail + chunk));
    }
  }

  /** A reader is refused exactly when the pipe is closed or the call aborted. Otherwise it gets the first packet of
      the stream that nobody has read; if there is none it waits for it, unless another reader waits already. */
  lemma {:induction false} ReaderIsTold(parse: Parser, events: seq<Event>, aborted: bool)
    ensures var p := Run(parse, events);
            var packets := Framed(parse, Stream(events)).0;
            var (q, reply) := Read(p, aborted);
            if p.failed || aborted then reply == Refused && q == p
            else if |p.delivered| < |packets| then
              && reply == Delivered(packets[|p.delivered|]) && q.delivered == p.delivered + [packets[|p.delivered|]]
              && q.queue == p.queue[1..] && q.tail == p.tail && !q.failed && q.waiting == p.waiting
            else if p.waiting then reply == Concurrent && q == p
            else reply == Waits && q == p.(waiting := true)
  {
    RunFollows(parse, events);
  }

  /** `close` takes everything away but what has been read. */
  lemma {:induction false} CloseTakesAll(parse: Parser, events: seq<Event>)
    ensures var p := Run(parse, events);
            Step(parse, p, CloseCall) == Pipe(true, [], [], false, p.delivered)
  {
    RunFollows(parse, events);
  }
}
