/** Reading a request body under a measured limit (backend/finrisk/request_boundary.py and
    backend/finrisk/upload_boundary.py share this loop). */
module BodyReading {

  type Byte = x: int | 0 <= x < 256

  /** What `receive` yields: a disconnect, or a chunk that may announce more. */
  datatype Message = Disconnect | Chunk(body: seq<Byte>, more: bool)

  /** Where the reading loop stands. */
  datatype Reading =
    | Open(buffered: seq<Byte>)
    | Whole(body: seq<Byte>)
    | TooLarge
    | Gone

  /** One message. */
  function Feed(buffered: seq<Byte>, message: Message, limit: nat): Reading {
    match message
    case Disconnect => Gone
    case Chunk(chunk, more) =>
      if |buffered| + |chunk| > limit then TooLarge
      else if more then Open(buffered + chunk)
      else Whole(buffered + chunk)
  }

  /** All of a message stream, from an open buffer on. */
  function Read(buffered: seq<Byte>, messages: seq<Message>, limit: nat): Reading
    decreases |messages|
  {
    if messages == [] then Open(buffered)
    else match Feed(buffered, messages[0], limit)
      case Open(more) => Read(more, messages[1..], limit)
      case done => done
  }

  method ReadBody(messages: seq<Message>, limit: nat) returns (r: Reading)
    ensures r == Read([], messages, limit)
  {
    var buffered: seq<Byte> := [];
    for i := 0 to |messages|
      invariant Read([], messages, limit) == Read(buffered, messages[i..], limit)
    {
      assert messages[i..][1..] == messages[i + 1..];
      match messages[i]
      case Disconnect =>
        return Gone;
      case Chunk(chunk, more) =>
        if |buffered| + |chunk| > limit {
          return TooLarge;
        }
        buffered := buffered + chunk;
        if !more {
          return Whole(buffered);
        }
    }
    r := Open(buffered);
  }

  // ----- what the loop computes

  /** The chunks put together. */
  function Body(messages: seq<Message>): seq<Byte> {
    if messages == [] then []
    else (if messages[0].Chunk? then messages[0].body else []) + Body(messages[1..])
  }

  /** Only chunks that announce more. */
  predicate Continues(messages: seq<Message>) {
    forall i | 0 <= i < |messages| :: messages[i].Chunk? && messages[i].more
  }

  /** Chunks, all but the last announcing more. */
  predicate Complete(messages: seq<Message>) {
    messages != [] && Continues(messages[..|messages| - 1]) && messages[|messages| - 1].Chunk? && !messages[|messages| - 1].more
  }

  lemma {:induction false} BodyConcat(a: seq<Message>, b: seq<Message>)
    ensures Body(a + b) == Body(a) + Body(b)
  {
    if a == [] {
      assert a + b == b;
    } else {
      assert (a + b)[1..] == a[1..] + b;
      BodyConcat(a[1..], b);
    }
  }

  lemma BodySnoc(messages: seq<Message>, m: Message)
    ensures Body(messages + [m]) == Body(messages) + if m.Chunk? then m.body else []
  {
    BodyConcat(messages, [m]);
    assert [m][1..] == [];
  }

  /** While all chunks announce more and fit, the buffer is their concatenation. */
  lemma {:induction false} ReadsOn(buffered: seq<Byte>, front: seq<Message>, rest: seq<Message>, limit: nat)
    requires Continues(front) && |buffered| + |Body(front)| <= limit
    ensures Read(buffered, front + rest, limit) == Read(buffered + Body(front), rest, limit)
    decreases |front|
  {
    if front == [] {
      assert front + rest == rest && buffered + Body(front) == buffered;
    } else {
      var m, tail := front[0], front[1..];
      assert (front + rest)[0] == m && (front + rest)[1..] == tail + rest;
      assert m.Chunk? && m.more;
      ReadsOn(buffered + m.body, tail, rest, limit);
      assert buffered + m.body + Body(tail) == buffered + Body(front);
    }
  }

  /** A complete body is handed over whole when it fits, and refused when it does not, whatever follows. */
  lemma CompleteBodies(messages: seq<Message>, rest: seq<Message>, limit: nat)
    requires Complete(messages)
    ensures Read([], messages + rest, limit) == if |Body(messages)| <= limit then Whole(Body(messages)) else TooLarge
  {
    var last := |messages| - 1;
    var front, m := messages[..last], messages[last];
    assert messages == front + [m];
    assert messages + rest == front + ([m] + rest);
    BodySnoc(front, m);
    if |Body(front)| <= limit {
      ReadsOn([], front, [m] + rest, limit);
      assert [] + Body(front) == Body(front);
      assert ([m] + rest)[0] == m;
    } else {
      Overflows([], front, [m] + rest, limit);
    }
  }

  /** As soon as the chunks exceed the limit the loop stops. */
  lemma {:induction false} Overflows(buffered: seq<Byte>, front: seq<Message>, rest: seq<Message>, limit: nat)
    requires Continues(front) && |buffered| + |Body(front)| > limit && |buffered| <= limit
    ensures Read(buffered, front + rest, limit) == TooLarge
    decreases |front|
  {
    if front != [] {
      var m, tail := front[0], front[1..];
      assert (front + rest)[0] == m && (front + rest)[1..] == tail + rest;
      assert m.Chunk? && m.more;
      if |buffered| + |m.body| <= limit {
        Overflows(buffered + m.body, tail, rest, limit);
      }
    }
  }

  /** A disconnect before the end of a body that fits ends the reading without one. */
  lemma DisconnectEndsReading(front: seq<Message>, rest: seq<Message>, limit: nat)
    requires Continues(front) && |Body(front)| <= limit
    ensures Read([], front + ([Disconnect] + rest), limit) == Gone
  {
    ReadsOn([], front, [Disconnect] + rest, limit);
    assert ([Disconnect] + rest)[0] == Disconnect;
  }

  lemma LongerBody(m: Message, rest: seq<Message>)
    requires m.Chunk? && m.more && Complete(rest)
    ensures Complete([m] + rest) && Body([m] + rest) == m.body + Body(rest)
  {
    var all := [m] + rest;
    assert all[1..] == rest;
    assert all[..|all| - 1] == [m] + rest[..|rest| - 1];
  }

  /** Conversely, a body is only ever handed over when a complete prefix that fits was received, as exactly its chunks. */
  lemma {:induction false} OnlyWholeBodies(buffered: seq<Byte>, messages: seq<Message>, limit: nat) returns (n: nat)
    requires Read(buffered, messages, limit).Whole?
    ensures n <= |messages| && Complete(messages[..n])
    ensures Read(buffered, messages, limit).body == buffered + Body(messages[..n])
    ensures |buffered| + |Body(messages[..n])| <= limit
    decreases |messages|
  {
    var m, rest := messages[0], messages[1..];
    if m.more {
      var k := OnlyWholeBodies(buffered + m.body, rest, limit);
      n := k + 1;
      assert messages[..n] == [m] + rest[..k];
      LongerBody(m, rest[..k]);
      assert buffered + m.body + Body(rest[..k]) == buffered + (m.body + Body(rest[..k]));
    } else {
      n := 1;
      assert messages[..1] == [m] && [m][1..] == [];
    }
  }

  /** What the application receives: the whole body the first time, then the connection's own messages. */
  function BoundedMessage(body: seq<Byte>, delivered: bool, next: Message): Message {
    if delivered then next else Chunk(body, false)
  }

  /** `bounded_receive`, with the flag it closes over. */
  class BoundedReceive {
    const body: seq<Byte>
    var delivered: bool

    constructor (body: seq<Byte>)
      ensures this.body == body && !delivered
    {
      this.body := body;
      delivered := false;
    }

    method Receive(next: Message) returns (m: Message, forwarded: bool)
      modifies this
      ensures delivered
      ensures forwarded == old(delivered)
      ensures m == BoundedMessage(body, old(delivered), next)
    {
      if !delivered {
        delivered := true;
        return Chunk(body, false), false;
      }
      return next, true;
    }
  }
}
