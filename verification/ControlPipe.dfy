/** packages/harness-pi/src/private-control-pipe.ts: newline framing of a byte stream that arrives in
    arbitrary chunks. */
module ControlPipe {
  import opened Options

  type Byte = x: int | 0 <= x < 256
  type Value = string

  const NEWLINE: Byte := 10
  const BUFFER_MAX := 1024 * 1024
  const QUEUE_MAX := 8

  /** UTF-8 decoding and JSON parsing of one packet; `None` when either throws. */
  type Parser = seq<Byte> -> Option<Value>

  function IndexFrom(bytes: seq<Byte>, from: nat): (n: nat)
    requires from <= |bytes|
    ensures from <= n <= |bytes|
    ensures n < |bytes| ==> bytes[n] == NEWLINE
    ensures forall i :: from <= i < n ==> bytes[i] != NEWLINE
    decreases |bytes| - from
  {
    if from == |bytes| || bytes[from] == NEWLINE then from else IndexFrom(bytes, from + 1)
  }

  /** Where the first newline is, or the length of `bytes`. */
  function IndexOf(bytes: seq<Byte>): (n: nat)
    ensures n <= |bytes|
    ensures n < |bytes| ==> bytes[n] == NEWLINE
    ensures forall i :: 0 <= i < n ==> bytes[i] != NEWLINE
  {
    IndexFrom(bytes, 0)
  }

  /** The pipe as its readers see it. `delivered` lists the values handed to them, in order. */
  datatype Pipe = Pipe(failed: bool, tail: seq<Byte>, queue: seq<Value>, waiting: bool, delivered: seq<Value>)

  function Closed(p: Pipe): Pipe {
    Pipe(true, [], [], false, p.delivered)
  }

  /** `close`. */
  function Close(p: Pipe): Pipe {
    if p.failed then p else Closed(p)
  }

  function Accept(p: Pipe, value: Value): Pipe {
    if p.waiting then p.(waiting := false, delivered := p.delivered + [value])
    else if |p.queue| + 1 > QUEUE_MAX then Closed(p)
    else p.(queue := p.queue + [value])
  }

  /** One packet of the data handler's loop. */
  function Take(parse: Parser, p: Pipe): (q: Pipe)
    requires IndexOf(p.tail) < |p.tail|
    ensures !q.failed ==> |q.tail| < |p.tail| || p.failed
  {
    var n := IndexOf(p.tail);
    var value := parse(p.tail[..n]);
    if value.None? then Closed(p) else Accept(p.(tail := p.tail[n + 1..]), value.value)
  }

  /** The data handler's loop: packet after packet, until none is complete or one closes the pipe. */
  function Drain(parse: Parser, p: Pipe): Pipe
    decreases |p.tail|
  {
    if p.failed || IndexOf(p.tail) == |p.tail| then p else Drain(parse, Take(parse, p))
  }

  function Data(parse: Parser, p: Pipe, chunk: seq<Byte>): Pipe {
    if p.failed then p
    else if |p.tail + chunk| > BUFFER_MAX then Closed(p)
    else Drain(parse, p.(tail := p.tail + chunk))
  }

  datatype Reply = Refused | Concurrent | Delivered(value: Value) | Waits

  function Read(p: Pipe, aborted: bool): (Pipe, Reply) {
    if p.failed || aborted then (p, Refused)
    else if p.queue != []
    then (p.(queue := p.queue[1..], delivered := p.delivered + [p.queue[0]]), Delivered(p.queue[0]))
    else if p.waiting then (p, Concurrent)
    else (p.(waiting := true), Waits)
  }

  class PrivateControlPipe {
    const parse: Parser
    /** The buffer is the part of `store` from `start` on; what precedes it are packets already read. */
    var store: array<Byte>
    var start: nat
    var queue: seq<Value>
    var waiter: bool
    var failed: bool
    ghost var delivered: seq<Value>

    ghost predicate Valid()
      reads this, store
    {
      && start <= store.Length
      && Scrubbed(store[..start])
      && (failed ==> start == store.Length && queue == [] && !waiter)
      && Orderly(State())
    }

    ghost function State(): Pipe
      requires start <= store.Length
      reads this, store
    {
      Pipe(failed, store[start..], queue, waiter, delivered)
    }

    constructor (parse: Parser)
      ensures Valid() && fresh(store) && this.parse == parse && State() == Pipe(false, [], [], false, [])
    {
      this.parse := parse;
      store := new Byte[0];
      start, queue, waiter, failed, delivered := 0, [], false, false, [];
    }

    /** The handler of a chunk of the stream. */
    method OnData(chunk: seq<Byte>)
      requires Valid()
      modifies this, store
      ensures Valid() && (store == old(store) || fresh(store))
      ensures State() == Data(parse, old(State()), chunk)
    {
      if failed {
        return;
      }
      if |store[start..] + chunk| > BUFFER_MAX {
        CloseNow();
        return;
      }
      Concat(chunk);
      DrainNow();
    }

    /** The buffer between two packets. */
    ghost predicate Draining()
      reads this, store
    {
      && start <= store.Length && Scrubbed(store[..start])
      && (waiter ==> queue == []) && |queue| <= QUEUE_MAX && |store[start..]| <= BUFFER_MAX
      && (failed ==> start == store.Length && queue == [] && !waiter)
    }

    method DrainNow()
      requires Draining()
      modifies this, store
      ensures Valid() && (store == old(store) || fresh(store))
      ensures State() == Drain(parse, old(State()))
    {
      ghost var begun := State();
      while !failed && IndexOf(store[start..]) < |store[start..]|
        invariant Draining() && (store == old(store) || fresh(store))
        invariant Drain(parse, State()) == Drain(parse, begun)
        decreases |store[start..]|, !failed
      {
        TakePacket(IndexOf(store[start..]));
      }
    }

    /** Parses the packet up to `newline`, wipes it, and hands its value over. */
    method TakePacket(newline: nat)
      requires Draining() && !failed && newline == IndexOf(store[start..]) < |store[start..]|
      modifies this, store
      ensures Draining() && (store == old(store) || fresh(store))
      ensures State() == Take(parse, old(State()))
    {
      var value := parse(store[start..][..newline]);
      if value.None? {
        CloseNow();
        return;
      }
      Consume(newline);
      if waiter {
        waiter := false;
        delivered := delivered + [value.value];
      } else {
        queue := queue + [value.value];
        if |queue| > QUEUE_MAX {
          CloseNow();
        }
      }
    }

    /** A new buffer holds what was left and the chunk. */
    method Concat(chunk: seq<Byte>)
      requires start <= store.Length
      modifies this`store, this`start
      ensures fresh(store) && start == 0 && store[..] == old(store[start..]) + chunk
    {
      var bytes := store[start..] + chunk;
      store := new Byte[|bytes|](i requires 0 <= i < |bytes| => bytes[i]);
      start := 0;
    }

    /** The packet is wiped in place; the buffer goes on behind its newline. */
    method Consume(newline: nat)
      requires start + newline < store.Length && store[start + newline] == NEWLINE && Scrubbed(store[..start])
      modifies this`start, store
      ensures store == old(store) && start == old(start) + newline + 1 <= store.Length
      ensures store[start..] == old(store[start..])[newline + 1..]
      ensures Scrubbed(store[..start])
    {
      forall i | start <= i < start + newline {
        store[i] := 0;
      }
      start := start + newline + 1;
    }

    method CloseNow()
      requires start <= store.Length
      modifies this, store
      ensures !old(failed) ==> Valid() && fresh(store) && State() == Closed(old(State()))
      ensures old(failed) ==> unchanged(this) && unchanged(store)
      ensures !old(failed) ==> forall i :: old(start) <= i < old(store).Length ==> old(store)[i] == 0
    {
      if failed {
        return;
      }
      failed := true;
      forall i | start <= i < store.Length {
        store[i] := 0;
      }
      store := new Byte[0];
      start, queue, waiter := 0, [], false;
    }

    method ReadNext(aborted: bool) returns (reply: Reply)
      requires Valid()
      modifies this
      ensures Valid() && store == old(store)
      ensures (State(), reply) == Read(old(State()), aborted)
    {
      if failed || aborted {
        return Refused;
      }
      if |queue| > 0 {
        reply := Delivered(queue[0]);
        delivered := delivered + [queue[0]];
        queue := queue[1..];
        return;
      }
      if waiter {
        return Concurrent;
      }
      waiter := true;
      return Waits;
    }
  }

  /** Nothing is left of a packet but the newline after it. */
  predicate Scrubbed(bytes: seq<Byte>) {
    forall i :: 0 <= i < |bytes| ==> bytes[i] == 0 || bytes[i] == NEWLINE
  }

  /** Between two calls: no complete packet in the buffer, a waiter only without a queue, a short queue. */
  predicate Orderly(p: Pipe) {
    && (forall i :: 0 <= i < |p.tail| ==> p.tail[i] != NEWLINE)
    && (p.waiting ==> p.queue == []) && |p.queue| <= QUEUE_MAX && |p.tail| <= BUFFER_MAX
    && (p.failed ==> p.tail == [] && p.queue == [] && !p.waiting)
  }
}
