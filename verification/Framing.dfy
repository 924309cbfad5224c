// How the client cuts the byte stream of its socket into messages.
//
// client/src/network/connection.cpp: Connection::socketReadyRead
// shared/src/traintastic/network/message.hpp: Message::Header

module Framing {

  type Byte = b: int | 0 <= b < 256

  // Command, flags, a request id of two bytes and a data size of four.
  const HEADER_SIZE := 8

  function Number(b0: int, b1: int, b2: int, b3: int): int {
    b0 + 256 * b1 + 65536 * b2 + 16777216 * b3
  }

  // The data size is kept with its lowest byte first.
  function DataSize(header: seq<Byte>): (size: nat)
    requires HEADER_SIZE <= |header|
    ensures size < 0x1_0000_0000
  {
    Number(header[4], header[5], header[6], header[7])
  }

  // The four bytes before the data are the digits of their number, lowest first.
  lemma LowestFirst(header: seq<Byte>)
    requires HEADER_SIZE <= |header|
    ensures var n := DataSize(header);
      && header[4] == n % 256 && header[5] == n / 256 % 256
      && header[6] == n / 65536 % 256 && header[7] == n / 16777216
  {
    var b0: int, b1: int, b2: int, b3: int := header[4], header[5], header[6], header[7];
    Digits(b0, b1 + 256 * (b2 + 256 * b3));
    Digits(b1, b2 + 256 * b3);
    Digits(b2, b3);
    ByTwo(DataSize(header));
  }

  lemma Digits(low: Byte, high: nat)
    ensures (low + 256 * high) % 256 == low && (low + 256 * high) / 256 == high
  {
  }

  lemma ByTwo(n: nat)
    ensures n / 65536 == n / 256 / 256 && n / 16777216 == n / 256 / 256 / 256
  {
  }

  // A whole message: the header and as many bytes as it says.
  predicate IsMessage(s: seq<Byte>) {
    HEADER_SIZE <= |s| && |s| == HEADER_SIZE + DataSize(s)
  }

  predicate StartsWithMessage(s: seq<Byte>) {
    HEADER_SIZE <= |s| && HEADER_SIZE + DataSize(s) <= |s|
  }

  datatype Parsed = Parsed(messages: seq<seq<Byte>>, rest: seq<Byte>)

  // The messages at the beginning of a byte stream, and the bytes after them.
  function Parse(s: seq<Byte>): Parsed
    decreases |s|
  {
    if StartsWithMessage(s) then
      var n := HEADER_SIZE + DataSize(s);
      var later := Parse(s[n..]);
      Parsed([s[..n]] + later.messages, later.rest)
    else
      Parsed([], s)
  }

  function Concat(ms: seq<seq<Byte>>): seq<Byte> {
    if ms == [] then [] else ms[0] + Concat(ms[1..])
  }

  // ---- what a parse is ----

  // Nothing is lost or made up, every message is whole, and what is left is not one.
  lemma {:induction false} ParseIsExact(s: seq<Byte>)
    ensures Concat(Parse(s).messages) + Parse(s).rest == s
    ensures forall i :: 0 <= i < |Parse(s).messages| ==> IsMessage(Parse(s).messages[i])
    ensures !StartsWithMessage(Parse(s).rest)
    decreases |s|
  {
    hide DataSize;
    if StartsWithMessage(s) {
      var n := HEADER_SIZE + DataSize(s);
      var m, later := s[..n], Parse(s[n..]);
      ParseIsExact(s[n..]);
      SameSize(m, s);
      ConcatMore(m, later.messages, later.rest);
      assert s == m + s[n..];
    }
  }

  // The data size is read from the header alone.
  lemma SameSize(a: seq<Byte>, b: seq<Byte>)
    requires HEADER_SIZE <= |a| <= |b| && a == b[..|a|]
    ensures DataSize(a) == DataSize(b)
  {
  }

  lemma ConcatMore(m: seq<Byte>, ms: seq<seq<Byte>>, s: seq<Byte>)
    ensures Concat([m] + ms) + s == m + (Concat(ms) + s)
  {
    assert ([m] + ms)[1..] == ms;
  }

  // A message at the beginning of a stream is cut off, whatever follows it.
  lemma ParseMessage(m: seq<Byte>, s: seq<Byte>)
    requires IsMessage(m)
    ensures Parse(m + s) == Parsed([m] + Parse(s).messages, Parse(s).rest)
  {
    hide DataSize;
    SameSize(m, m + s);
    assert (m + s)[..|m|] == m && (m + s)[|m|..] == s;
  }

  // Parsing undoes serialisation: the stream of any messages is cut into these messages.
  lemma {:induction false} ParseUndoesConcat(ms: seq<seq<Byte>>, s: seq<Byte>)
    requires forall i :: 0 <= i < |ms| ==> IsMessage(ms[i])
    ensures Parse(Concat(ms) + s) == Parsed(ms + Parse(s).messages, Parse(s).rest)
    decreases |ms|
  {
    hide Parse, StartsWithMessage, DataSize;
    if ms == [] {
      assert [] + s == s;
    } else {
      assert Concat(ms) + s == ms[0] + (Concat(ms[1..]) + s);
      ParseMessage(ms[0], Concat(ms[1..]) + s);
      ParseUndoesConcat(ms[1..], s);
      assert ms == [ms[0]] + ms[1..];
    }
  }

  // A stream may be cut anywhere: parsing the part that came first, and then what it left
  // together with the rest of the stream, gives the same.
  lemma ParseInTwo(a: seq<Byte>, b: seq<Byte>)
    ensures var first := Parse(a);
      var second := Parse(first.rest + b);
      Parse(a + b) == Parsed(first.messages + second.messages, second.rest)
  {
    var first := Parse(a);
    ParseIsExact(a);
    assert a + b == Concat(first.messages) + (first.rest + b);
    ParseUndoesConcat(first.messages, first.rest + b);
  }

  // ---- chunks ----

  // The messages handed on while the chunks come in one by one, and the bytes kept.
  function ParseChunks(kept: seq<Byte>, chunks: seq<seq<Byte>>): Parsed
    decreases |chunks|
  {
    if chunks == [] then Parsed([], kept)
    else
      var first := Parse(kept + chunks[0]);
      var later := ParseChunks(first.rest, chunks[1..]);
      Parsed(first.messages + later.messages, later.rest)
  }

  lemma ParsePartial(s: seq<Byte>)
    requires !StartsWithMessage(s)
    ensures Parse(s) == Parsed([], s)
  {
  }

  // How a stream is split into chunks makes no difference.
  lemma {:induction false} ChunksDoNotMatter(kept: seq<Byte>, chunks: seq<seq<Byte>>)
    requires !StartsWithMessage(kept)
    ensures ParseChunks(kept, chunks) == Parse(kept + Concat(chunks))
    decreases |chunks|
  {
    hide Parse, StartsWithMessage;
    if chunks == [] {
      assert kept + [] == kept;
      ParsePartial(kept);
    } else {
      var first := Parse(kept + chunks[0]);
      ParseIsExact(kept + chunks[0]);
      ChunksDoNotMatter(first.rest, chunks[1..]);
      ParseInTwo(kept + chunks[0], Concat(chunks[1..]));
      assert kept + Concat(chunks) == kept + chunks[0] + Concat(chunks[1..]);
    }
  }

  // Messages that are sent one after the other come out as they went in, however the
  // stream was split.
  lemma MessagesArrive(ms: seq<seq<Byte>>, chunks: seq<seq<Byte>>)
    requires forall i :: 0 <= i < |ms| ==> IsMessage(ms[i])
    requires Concat(chunks) == Concat(ms)
    ensures ParseChunks([], chunks) == Parsed(ms, [])
  {
    ChunksDoNotMatter([], chunks);
    assert [] + Concat(chunks) == Concat(ms) + [];
    ParseUndoesConcat(ms, []);
    assert Parse([]) == Parsed([], []);
  }

  // ---- writing a message ----

  function SizeBytes(n: nat): (bytes: seq<Byte>)
    requires n < 0x1_0000_0000
    ensures |bytes| == 4
  {
    [n % 256, n / 256 % 256, n / 65536 % 256, n / 16777216]
  }

  // start: command, flags and request id.
  function Serialize(start: seq<Byte>, data: seq<Byte>): (m: seq<Byte>)
    requires |start| == 4 && |data| < 0x1_0000_0000
  {
    start + SizeBytes(|data|) + data
  }

  lemma SerializeIsMessage(start: seq<Byte>, data: seq<Byte>)
    requires |start| == 4 && |data| < 0x1_0000_0000
    ensures IsMessage(Serialize(start, data))
    ensures Serialize(start, data)[HEADER_SIZE..] == data
  {
    var m, n := Serialize(start, data), |data|;
    assert m[4] == n % 256 && m[5] == n / 256 % 256 && m[6] == n / 65536 % 256 && m[7] == n / 16777216;
    SizeBytesSum(n);
  }

  lemma SizeBytesSum(n: nat)
    ensures n % 256 + 256 * (n / 256 % 256) + 65536 * (n / 65536 % 256) + 16777216 * (n / 16777216) == n
  {
    assert n / 65536 == n / 256 / 256;
    assert n / 16777216 == n / 65536 / 256;
  }

  // ---- the read buffer ----

  class ReadBuffer {
    const header: array<Byte>
    var message: array?<Byte>        // the message whose data is being read
    var offset: nat                  // how much of the header, or else of the data, is there
    var processed: seq<seq<Byte>>    // messages handed to processMessage

    ghost predicate Valid()
      reads this, header, message
    {
      && header.Length == HEADER_SIZE
      && (message == null ==> offset < HEADER_SIZE)
      && (message != null ==>
            && message != header
            && HEADER_SIZE + offset < message.Length
            && message.Length == HEADER_SIZE + DataSize(message[..]))
    }

    // The bytes of a message that is not complete yet.
    ghost function Buffered(): seq<Byte>
      requires Valid()
      reads this, header, message
    {
      if message == null then header[..offset] else message[..HEADER_SIZE + offset]
    }

    constructor ()
      ensures Valid() && fresh(header)
      ensures Buffered() == [] && processed == []
    {
      header := new Byte[HEADER_SIZE](_ => 0);
      message := null;
      offset := 0;
      processed := [];
    }

    // The bytes kept never hold a whole message.
    lemma BufferedIsPartial()
      requires Valid()
      ensures !StartsWithMessage(Buffered())
    {
      if message != null {
        SameSize(message[..HEADER_SIZE + offset], message[..]);
      }
    }

    // QIODevice::read: at least one and at most as many bytes as are wanted or available.
    static method Read(available: seq<Byte>, target: array<Byte>, at: nat, wanted: nat) returns (n: nat)
      requires 0 < wanted && at + wanted <= target.Length
      requires available != []
      modifies target
      ensures 1 <= n <= wanted && n <= |available|
      ensures target[..] == old(target[..at]) + available[..n] + old(target[at + n..])
    {
      n :| 1 <= n <= wanted && n <= |available|;
      forall i | 0 <= i < n {
        target[at + i] := available[i];
      }
    }

    // A message with this header, its data still to be read.
    method NewMessage()
      requires header.Length == HEADER_SIZE && DataSize(header[..]) != 0
      modifies this`message
      ensures message != null && fresh(message)
      ensures message.Length == HEADER_SIZE + DataSize(header[..])
      ensures message[..HEADER_SIZE] == header[..]
    {
      var m := new Byte[HEADER_SIZE + DataSize(header[..])](_ => 0);
      forall i | 0 <= i < HEADER_SIZE {
        m[i] := header[i];
      }
      message := m;
    }

    method ReadHeader(available: seq<Byte>) returns (left: seq<Byte>)
      requires Valid() && message == null && available != []
      modifies this, header
      ensures Valid() && (message != null ==> fresh(message))
      ensures |left| < |available|
      ensures SameStream(old(processed), old(Buffered()), available, processed, Buffered(), left)
    {
      hide SameStream, DataSize;
      ghost var kept, handed := Buffered(), processed;
      var n := Read(available, header, offset, HEADER_SIZE - offset);
      left := available[n..];
      ghost var more := kept + available[..n];
      assert header[..offset + n] == more;
      KeptMore(handed, kept, available, n);
      offset := offset + n;
      if offset == HEADER_SIZE {
        assert header[..] == header[..offset] == more;
        if DataSize(header[..]) != 0 {
          NewMessage();
          SameSize(message[..HEADER_SIZE], message[..]);
        } else {
          HandedOn(handed, more, left);
          SameStreamTwice(handed, kept, available, handed, more, left, handed + [more], [], left);
          processed := processed + [header[..]];
        }
        offset := 0;
      }
    }

    method ReadData(available: seq<Byte>) returns (left: seq<Byte>)
      requires Valid() && message != null && available != []
      modifies this, message
      ensures Valid() && (message != null ==> message == old(message))
      ensures |left| < |available|
      ensures SameStream(old(processed), old(Buffered()), available, processed, Buffered(), left)
    {
      hide SameStream, DataSize;
      ghost var kept, handed, whole := Buffered(), processed, message[..];
      var n := Read(available, message, HEADER_SIZE + offset, message.Length - HEADER_SIZE - offset);
      left := available[n..];
      SameSize(whole[..HEADER_SIZE], whole);
      assert message[..HEADER_SIZE] == whole[..HEADER_SIZE];
      SameSize(message[..HEADER_SIZE], message[..]);
      ghost var more := kept + available[..n];
      assert message[..HEADER_SIZE + offset + n] == more;
      KeptMore(handed, kept, available, n);
      offset := offset + n;
      if HEADER_SIZE + offset == message.Length {
        assert message[..] == message[..HEADER_SIZE + offset] == more;
        HandedOn(handed, more, left);
        SameStreamTwice(handed, kept, available, handed, more, left, handed + [more], [], left);
        processed := processed + [message[..]];
        message := null;
        offset := 0;
      }
    }

    // Whatever the socket gives at a time, the messages that were handed on and the bytes
    // that are kept are those of the whole stream.
    method SocketReadyRead(arrived: seq<Byte>)
      requires Valid()
      modifies this, header, message
      ensures Valid() && (message != null ==> message == old(message) || fresh(message))
      ensures var parsed := Parse(old(Buffered()) + arrived);
        processed == old(processed) + parsed.messages && Buffered() == parsed.rest
    {
      var available := arrived;
      hide DataSize, SameStream, StartsWithMessage;
      SameStreamStarts(processed, Buffered(), arrived);
      while available != []
        invariant Valid() && (message != null ==> message == old(message) || fresh(message))
        invariant SameStream(old(processed), old(Buffered()), arrived, processed, Buffered(), available)
        decreases |available|
      {
        ghost var handed, kept, left := processed, Buffered(), available;
        if message == null {
          available := ReadHeader(available);
        } else {
          available := ReadData(available);
        }
        SameStreamTwice(old(processed), old(Buffered()), arrived, handed, kept, left, processed, Buffered(), available);
      }
      BufferedIsPartial();
      StreamEnds(old(processed), old(Buffered()), arrived, processed, Buffered());
    }
  }

  // Handing on what is left leads to the same messages in both states.
  ghost predicate SameStream(before: seq<seq<Byte>>, kept0: seq<Byte>, left0: seq<Byte>,
                             after: seq<seq<Byte>>, kept: seq<Byte>, left: seq<Byte>) {
    && before + Parse(kept0 + left0).messages == after + Parse(kept + left).messages
    && Parse(kept0 + left0).rest == Parse(kept + left).rest
  }

  lemma SameStreamStarts(processed: seq<seq<Byte>>, kept: seq<Byte>, left: seq<Byte>)
    ensures SameStream(processed, kept, left, processed, kept, left)
  {
  }

  lemma SameStreamTwice(p0: seq<seq<Byte>>, kept0: seq<Byte>, left0: seq<Byte>,
                        p1: seq<seq<Byte>>, kept1: seq<Byte>, left1: seq<Byte>,
                        p2: seq<seq<Byte>>, kept2: seq<Byte>, left2: seq<Byte>)
    requires SameStream(p0, kept0, left0, p1, kept1, left1)
    requires SameStream(p1, kept1, left1, p2, kept2, left2)
    ensures SameStream(p0, kept0, left0, p2, kept2, left2)
  {
  }

  // Some bytes more are kept.
  lemma KeptMore(processed: seq<seq<Byte>>, kept: seq<Byte>, available: seq<Byte>, n: nat)
    requires n <= |available|
    ensures SameStream(processed, kept, available, processed, kept + available[..n], available[n..])
  {
    assert kept + available == kept + available[..n] + available[n..];
  }

  // The bytes that are kept are a message, which is handed on.
  lemma HandedOn(processed: seq<seq<Byte>>, m: seq<Byte>, left: seq<Byte>)
    requires IsMessage(m)
    ensures SameStream(processed, m, left, processed + [m], [], left)
  {
    ParseMessage(m, left);
    assert [] + left == left;
    assert processed + ([m] + Parse(left).messages) == processed + [m] + Parse(left).messages;
  }

  lemma StreamEnds(before: seq<seq<Byte>>, kept0: seq<Byte>, left0: seq<Byte>, after: seq<seq<Byte>>, kept: seq<Byte>)
    requires SameStream(before, kept0, left0, after, kept, [])
    requires !StartsWithMessage(kept)
    ensures after == before + Parse(kept0 + left0).messages && kept == Parse(kept0 + left0).rest
  {
    assert kept + [] == kept;
  }
}
