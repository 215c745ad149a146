/** V2GTP framing: the incremental packet reader, the header writer, and what they agree on. */
module Framing {
  import opened Common

  const HEADER_SIZE := 8
  const BUFFER_SIZE := 2048
  const RESPONSE_BUFFER_SIZE := 16384
  const PROTOCOL_VERSION: uint8 := 0x01
  const INVERSE_PROTOCOL_VERSION: uint8 := 0xFE

  // -------------------------------------------------------------------- headers

  function BigEndian16(x: uint16): (r: seq<uint8>)
    ensures |r| == 2
  {
    [ToUint8(x / 0x100), ToUint8(x)]
  }

  function BigEndian32(x: uint32): (r: seq<uint8>)
    ensures |r| == 4
  {
    [ToUint8(x / 0x100 / 0x100 / 0x100), ToUint8(x / 0x100 / 0x100), ToUint8(x / 0x100), ToUint8(x)]
  }

  function Read16(b: seq<uint8>): uint16
    requires |b| == 2
  {
    var high: int, low: int := b[0], b[1];
    high * 0x100 + low
  }

  function Read32(b: seq<uint8>): uint32
    requires |b| == 4
  {
    var b0: int, b1: int, b2: int, b3: int := b[0], b[1], b[2], b[3];
    b0 * 0x100_0000 + b1 * 0x1_0000 + b2 * 0x100 + b3
  }

  /** What a complete header says: nothing valid, more than fits, or the length of the whole packet. */
  datatype Header = Malformed | TooLong | Fits(total: nat)

  function HeaderOf(b: seq<uint8>): (h: Header)
    requires |b| >= HEADER_SIZE
    ensures h.Fits? ==> HEADER_SIZE <= h.total <= BUFFER_SIZE
  {
    var payload := Read32(b[4..8]);
    if b[0] != PROTOCOL_VERSION || b[1] != INVERSE_PROTOCOL_VERSION then Malformed
    else if payload > 0xFFFF_FFFF - HEADER_SIZE then Malformed
    else if payload + HEADER_SIZE > BUFFER_SIZE then TooLong
    else Fits(payload + HEADER_SIZE)
  }

  /** The header of a payload; the size is narrowed to 32 bits. */
  function HeaderBytes(payloadType: uint16, size: nat): (r: seq<uint8>)
    ensures |r| == HEADER_SIZE
  {
    [PROTOCOL_VERSION, INVERSE_PROTOCOL_VERSION] + BigEndian16(payloadType) + BigEndian32(size % 0x1_0000_0000)
  }

  function PacketBytes(payloadType: uint16, payload: seq<uint8>): seq<uint8> {
    HeaderBytes(payloadType, |payload|) + payload
  }

  // --------------------------------------------------------- whole-stream parsing

  /** What the reader makes of the bytes of a stream: a packet, or a header it drops. */
  datatype Item = Packet(bytes: seq<uint8>) | Dropped(header: seq<uint8>)

  datatype Parsed = Parsed(items: seq<Item>, rest: seq<uint8>)

  /** The items of a stream, and the bytes that do not make one yet. */
  function Parse(s: seq<uint8>): (r: Parsed)
    ensures |r.rest| <= |s|
    ensures r.items == [] ==> r.rest == s
  {
    if |s| < HEADER_SIZE then Parsed([], s)
    else
      match HeaderOf(s)
      case Fits(total) =>
        if |s| < total then Parsed([], s)
        else
          var r := Parse(s[total..]);
          Parsed([Packet(s[..total])] + r.items, r.rest)
      case _ =>
        var r := Parse(s[HEADER_SIZE..]);
        Parsed([Dropped(s[..HEADER_SIZE])] + r.items, r.rest)
  }

  lemma HeaderFromStart(s: seq<uint8>, t: seq<uint8>)
    requires |s| >= HEADER_SIZE
    ensures HeaderOf(s + t) == HeaderOf(s)
  {
    assert (s + t)[4..8] == s[4..8];
  }

  /** The bytes of the first item, or none if the stream holds no item yet. */
  function FirstLength(s: seq<uint8>): (n: nat)
    ensures n <= |s|
  {
    if |s| < HEADER_SIZE then 0
    else
      match HeaderOf(s)
      case Fits(total) => if |s| < total then 0 else total
      case _ => HEADER_SIZE
  }

  lemma ParseFirst(s: seq<uint8>)
    ensures var n := FirstLength(s);
      if n == 0 then Parse(s) == Parsed([], s)
      else
        var first := if HeaderOf(s).Fits? then Packet(s[..n]) else Dropped(s[..n]);
        Parse(s) == Parsed([first] + Parse(s[n..]).items, Parse(s[n..]).rest)
  {
    hide HeaderOf;
  }

  /** Parsing the rest of a stream together with what follows continues the parse. */
  lemma {:induction false} ParseContinues(s: seq<uint8>, t: seq<uint8>)
    ensures Parse(s + t).items == Parse(s).items + Parse(Parse(s).rest + t).items
    ensures Parse(s + t).rest == Parse(Parse(s).rest + t).rest
    decreases |s|
  {
    hide HeaderOf, Parse;
    var n := FirstLength(s);
    ParseFirst(s);
    if n > 0 {
      HeaderFromStart(s, t);
      ParseFirst(s + t);
      assert FirstLength(s + t) == n && (s + t)[..n] == s[..n] && (s + t)[n..] == s[n..] + t;
      ParseContinues(s[n..], t);
    }
  }

  // ------------------------------------------------------------------ connection

  /** The transport: the bytes the EV sends and has not been read for. */
  class Connection {
    var stream: seq<uint8>

    constructor (sent: seq<uint8>)
      ensures stream == sent
    {
      stream := sent;
    }

    /** Up to `len` bytes into the buffer; `ready` is what has arrived. It would block exactly
        when it gives fewer bytes than asked for. */
    method Read(buffer: array<uint8>, pos: nat, len: nat, ready: nat) returns (wouldBlock: bool, n: nat)
      requires pos + len <= buffer.Length
      modifies this, buffer
      ensures n <= len && n <= |old(stream)| && wouldBlock == (n < len)
      ensures len <= ready && len <= |old(stream)| ==> n == len
      ensures len <= ready && |old(stream)| <= len ==> n == |old(stream)|
      ensures stream == old(stream)[n..]
      ensures buffer[..] == old(buffer[..pos]) + old(stream)[..n] + old(buffer[pos + n..])
    {
      n := len;
      if ready < n { n := ready; }
      if |stream| < n { n := |stream|; }
      wouldBlock := n < len;
      ghost var before := buffer[..];
      ghost var sent := stream;
      for k := 0 to n
        invariant buffer[..] == before[..pos] + sent[..k] + before[pos + k..]
        invariant stream == sent
      {
        buffer[pos + k] := stream[k];
      }
      stream := stream[n..];
    }
  }

  // ---------------------------------------------------------------------- packet

  datatype PacketState = Empty | HeaderRead | Complete | InvalidHeader | PayloadTooLong

  class SdpPacket {
    var state: PacketState
    var buffer: array<uint8>
    var bytesRead: nat
    var length: nat

    /** The bytes read so far. */
    ghost function Seen(): seq<uint8>
      reads this, buffer
      requires bytesRead <= buffer.Length
    {
      buffer[..bytesRead]
    }

    ghost predicate Valid()
      reads this, buffer
    {
      && buffer.Length == BUFFER_SIZE
      && bytesRead <= BUFFER_SIZE
      && (state == Empty <==> bytesRead < HEADER_SIZE)
      && (state != Empty ==>
            && (state == InvalidHeader <==> HeaderOf(Seen()) == Malformed)
            && (state == PayloadTooLong <==> HeaderOf(Seen()) == TooLong)
            && (state == HeaderRead || state == Complete <==> HeaderOf(Seen()) == Fits(length))
            && (state == HeaderRead ==> bytesRead < length)
            && (state == Complete ==> bytesRead == length)
            && (state == InvalidHeader || state == PayloadTooLong ==> bytesRead == HEADER_SIZE))
    }

    constructor ()
      ensures Valid() && fresh(buffer) && state == Empty && Seen() == []
    {
      state := Empty;
      buffer := new uint8[BUFFER_SIZE];
      bytesRead := 0;
      length := 0;
    }

    /** `packet = {}`. */
    method Reset()
      requires Valid()
      modifies this, buffer
      ensures Valid() && buffer == old(buffer) && state == Empty && Seen() == []
    {
      state := Empty;
      bytesRead := 0;
      length := 0;
    }

    function RemainingBytesToRead(): (n: nat)
      reads this, buffer
      requires Valid()
      ensures bytesRead + n <= BUFFER_SIZE
      ensures n == 0 <==> state != Empty && state != HeaderRead
      ensures state == Empty ==> bytesRead + n == HEADER_SIZE
      ensures state == HeaderRead ==> bytesRead + n == length
    {
      match state
      case Empty => HEADER_SIZE - bytesRead
      case HeaderRead => length - bytesRead
      case _ => 0
    }

    /** Eight bytes have been read. */
    method ParseHeader()
      requires buffer.Length == BUFFER_SIZE && bytesRead == HEADER_SIZE && state == Empty
      modifies this`state, this`length
      ensures state == match HeaderOf(Seen()) {
                case Malformed => InvalidHeader
                case TooLong => PayloadTooLong
                case Fits(_) => HeaderRead }
      ensures HeaderOf(Seen()).Fits? ==> HeaderOf(Seen()) == Fits(length)
    {
      assert buffer[4..8] == Seen()[4..8];
      if buffer[0] != PROTOCOL_VERSION || buffer[1] != INVERSE_PROTOCOL_VERSION {
        state := InvalidHeader;
        return;
      }
      var payload := Read32(buffer[4..8]);
      if payload > 0xFFFF_FFFF - HEADER_SIZE {
        state := InvalidHeader;
        return;
      }
      length := payload + HEADER_SIZE;
      if length > BUFFER_SIZE {
        state := PayloadTooLong;
        return;
      }
      state := HeaderRead;
    }

    /** The buffer has been filled by further bytes, no more than were asked for. */
    method UpdateReadBytes(len: nat)
      requires buffer.Length == BUFFER_SIZE
      requires state == Empty ==> bytesRead + len <= HEADER_SIZE
      requires state == HeaderRead ==> HEADER_SIZE <= bytesRead && bytesRead + len <= length <= BUFFER_SIZE
      requires state == HeaderRead ==> HeaderOf(buffer[..bytesRead]) == Fits(length)
      requires state == Empty || state == HeaderRead
      modifies this`state, this`bytesRead, this`length
      ensures Valid() && bytesRead == old(bytesRead) + len
      ensures old(state) == HeaderRead ==> length == old(length) && (state == HeaderRead || state == Complete)
    {
      if state == HeaderRead {
        HeaderFromStart(Seen(), buffer[bytesRead..bytesRead + len]);
        assert Seen() + buffer[bytesRead..bytesRead + len] == buffer[..bytesRead + len];
      }
      bytesRead := bytesRead + len;
      if state == Empty && bytesRead == HEADER_SIZE {
        ParseHeader();
      }
      if state == HeaderRead && bytesRead == length {
        state := Complete;
      }
    }
  }

  // --------------------------------------------------------------------- reading

  /** One read of what the packet still needs; the bytes given are appended to those seen. */
  method ReadMore(connection: Connection, packet: SdpPacket, ready: nat) returns (wouldBlock: bool, ghost given: seq<uint8>)
    requires packet.Valid() && (packet.state == Empty || packet.state == HeaderRead)
    modifies connection, packet, packet.buffer
    ensures packet.Valid() && packet.buffer == old(packet.buffer)
    ensures old(connection.stream) == given + connection.stream
    ensures packet.Seen() == old(packet.Seen()) + given
    ensures wouldBlock <==> |given| < old(packet.RemainingBytesToRead())
    ensures !wouldBlock ==> given != []
    ensures wouldBlock ==> packet.state == Empty || packet.state == HeaderRead
    ensures old(packet.state) == HeaderRead && !wouldBlock ==> packet.state == Complete
    ensures ready >= BUFFER_SIZE && wouldBlock ==> connection.stream == []
  {
    var asked := packet.RemainingBytesToRead();
    ghost var seen, sent := packet.Seen(), connection.stream;
    var n: nat;
    wouldBlock, n := connection.Read(packet.buffer, packet.bytesRead, asked, ready);
    given := sent[..n];
    assert packet.buffer[..packet.bytesRead] == seen;
    assert packet.buffer[..packet.bytesRead + n] == seen + given;
    packet.UpdateReadBytes(n);
  }

  /** What a call of the reader leaves: an incomplete packet, a complete one, or a dropped header. */
  predicate Outcome(before: seq<uint8>, given: seq<uint8>, blocked: bool, complete: bool, seen: seq<uint8>) {
    Parse(before + given) ==
      if complete then Parsed([Packet(seen)], [])
      else if blocked then Parsed([], seen)
      else Parsed([Dropped(before + given)], seen)
  }

  /** `read_single_sdp_packet`: `ready` bytes have arrived at the first read, `more` at the second. */
  method ReadSinglePacket(connection: Connection, packet: SdpPacket, ready: nat, more: nat)
    returns (wouldBlock: bool, ghost given: seq<uint8>)
    requires packet.Valid() && (packet.state == Empty || packet.state == HeaderRead)
    modifies connection, packet, packet.buffer
    ensures packet.Valid() && packet.buffer == old(packet.buffer)
    ensures packet.state == Empty || packet.state == HeaderRead || packet.state == Complete
    ensures old(connection.stream) == given + connection.stream
    ensures Outcome(old(packet.Seen()), given, wouldBlock, packet.state == Complete, packet.Seen())
    ensures packet.state == Complete ==> !wouldBlock
    ensures packet.state == HeaderRead ==> wouldBlock
    ensures !wouldBlock ==> given != []
    ensures ready >= BUFFER_SIZE && more >= BUFFER_SIZE && wouldBlock ==> connection.stream == []
  {
    hide HeaderOf, Parse;
    ghost var before := packet.Seen();
    wouldBlock, given := ReadMore(connection, packet, ready);
    if wouldBlock {
      ParsePartial(packet.Seen());
      return;
    }
    if packet.state == Complete {
      ParseComplete(packet.Seen());
      return;
    }
    if packet.state != HeaderRead {
      ParseDropped(packet.Seen());
      packet.Reset();
      return;
    }
    ghost var rest: seq<uint8>;
    wouldBlock, rest := ReadMore(connection, packet, more);
    assert before + given + rest == before + (given + rest);
    given := given + rest;
    if wouldBlock {
      ParsePartial(packet.Seen());
      return;
    }
    ParseComplete(packet.Seen());
  }

  lemma ParseComplete(s: seq<uint8>)
    requires |s| >= HEADER_SIZE && HeaderOf(s) == Fits(|s|)
    ensures Parse(s) == Parsed([Packet(s)], [])
  {
    assert s[..|s|] == s && s[|s|..] == [];
  }

  lemma ParsePartial(s: seq<uint8>)
    requires |s| < HEADER_SIZE || (HeaderOf(s).Fits? && |s| < HeaderOf(s).total)
    ensures Parse(s) == Parsed([], s)
  {
  }

  lemma ParseDropped(s: seq<uint8>)
    requires |s| == HEADER_SIZE && !HeaderOf(s).Fits?
    ensures Parse(s) == Parsed([Dropped(s)], [])
  {
    assert s[..8] == s && s[8..] == [];
  }

  // --------------------------------------------------------------------- polling

  function PacketsOf(items: seq<Item>): seq<seq<uint8>> {
    if items == [] then []
    else
      var last := items[|items| - 1];
      PacketsOf(items[..|items| - 1]) + if last.Packet? then [last.bytes] else []
  }

  lemma PacketsAdded(items: seq<Item>, i: Item)
    ensures PacketsOf(items + [i]) == PacketsOf(items) + if i.Packet? then [i.bytes] else []
  {
    assert (items + [i])[..|items|] == items;
  }

  lemma NoPackets()
    ensures PacketsOf([]) == []
  {
  }

  lemma NothingParsed()
    ensures Parse([]) == Parsed([], [])
  {
  }

  /** The part of a session that turns bytes into packets. */
  class Receiver {
    const packet: SdpPacket
    var newData: bool
    ghost var consumed: seq<uint8>
    ghost var items: seq<Item>

    /** The packet in progress is what parsing left of the bytes read so far. */
    ghost predicate Valid()
      reads this, packet, packet.buffer
    {
      && packet.Valid() && (packet.state == Empty || packet.state == HeaderRead)
      && Parse(consumed) == Parsed(items, packet.Seen())
    }

    constructor ()
      ensures Valid() && fresh(packet) && fresh(packet.buffer) && !newData && consumed == [] && items == []
    {
      packet := new SdpPacket();
      newData := false;
      consumed, items := [], [];
    }

    /** The connection reports new data. */
    method NewData()
      requires Valid()
      modifies this`newData
      ensures Valid() && newData
    {
      newData := true;
    }

    /** The reading part of `poll`: the bytes of the packet it completes, if any. */
    method Poll(connection: Connection, ready: nat, more: nat) returns (got: Option<seq<uint8>>, ghost given: seq<uint8>)
      requires Valid()
      modifies this, packet, packet.buffer, connection
      ensures Valid() && packet.buffer == old(packet.buffer)
      ensures old(connection.stream) == given + connection.stream && consumed == old(consumed) + given
      ensures !old(newData) ==> got == None && given == [] && items == old(items) && !newData
      ensures old(newData) && !newData ==> got == None && items == old(items)
      ensures newData ==> old(newData) && given != []
      ensures newData ==> |items| == |old(items)| + 1 && items[..|old(items)|] == old(items)
      ensures PacketsOf(items) == PacketsOf(old(items)) + if got.Some? then [got.value] else []
      ensures newData ==> got == var i := items[|old(items)|]; if i.Packet? then Some(i.bytes) else None
      ensures ready >= BUFFER_SIZE && more >= BUFFER_SIZE && old(newData) && !newData ==> connection.stream == []
    {
      hide PacketsOf, Parse, HeaderOf;
      got, given := None, [];
      if newData {
        ghost var seen := packet.Seen();
        var wouldBlock: bool;
        wouldBlock, given := ReadSinglePacket(connection, packet, ready, more);
        ParseContinues(consumed, given);
        consumed := consumed + given;
        ghost var added := Parse(seen + given).items;
        assert items + [] == items;
        items := items + added;
        if wouldBlock {
          newData := false;
        } else {
          PacketsAdded(old(items), added[0]);
        }
      }
      if packet.state == Complete {
        got := Some(packet.buffer[..packet.bytesRead]);
        packet.Reset();
      }
    }
  }

  /** Any number of polls, however the bytes arrive: the packets are those of the bytes read. */
  method PollSlices(receiver: Receiver, connection: Connection, slices: seq<(nat, nat)>)
    returns (packets: seq<seq<uint8>>, ghost given: seq<uint8>)
    requires receiver.Valid()
    modifies receiver, receiver.packet, receiver.packet.buffer, connection
    ensures receiver.Valid() && receiver.packet.buffer == old(receiver.packet.buffer)
    ensures old(connection.stream) == given + connection.stream && receiver.consumed == old(receiver.consumed) + given
    ensures PacketsOf(Parse(receiver.consumed).items) == PacketsOf(Parse(old(receiver.consumed)).items) + packets
    ensures receiver.packet.Seen() == Parse(receiver.consumed).rest
  {
    hide PacketsOf, Parse;
    packets, given := [], [];
    for k := 0 to |slices|
      invariant receiver.Valid() && receiver.packet.buffer == old(receiver.packet.buffer)
      invariant receiver.consumed == old(receiver.consumed) + given
      invariant old(connection.stream) == given + connection.stream
      invariant PacketsOf(receiver.items) == PacketsOf(old(receiver.items)) + packets
    {
      receiver.NewData();
      ghost var bytes;
      var got;
      got, bytes := receiver.Poll(connection, slices[k].0, slices[k].1);
      given := given + bytes;
      if got.Some? {
        packets := packets + [got.value];
      }
    }
  }

  /** With everything arrived, polling until it would block reads all that is left of the stream. */
  method PollAll(receiver: Receiver, connection: Connection) returns (packets: seq<seq<uint8>>)
    requires receiver.Valid()
    modifies receiver, receiver.packet, receiver.packet.buffer, connection
    ensures receiver.Valid() && connection.stream == []
    ensures receiver.consumed == old(receiver.consumed + connection.stream)
    ensures PacketsOf(Parse(receiver.consumed).items) == PacketsOf(Parse(old(receiver.consumed)).items) + packets
  {
    hide PacketsOf, Parse;
    packets := [];
    receiver.NewData();
    while receiver.newData
      invariant receiver.Valid() && receiver.packet.buffer == old(receiver.packet.buffer)
      invariant old(receiver.consumed + connection.stream) == receiver.consumed + connection.stream
      invariant PacketsOf(receiver.items) == PacketsOf(old(receiver.items)) + packets
      invariant !receiver.newData ==> connection.stream == []
      decreases receiver.newData, |connection.stream|
    {
      ghost var given;
      var got;
      got, given := receiver.Poll(connection, BUFFER_SIZE, BUFFER_SIZE);
      if got.Some? {
        packets := packets + [got.value];
      }
    }
  }

  // ---------------------------------------------------------------------- writing

  datatype Message = Message(payloadType: uint16, payload: seq<uint8>)

  /** Messages that fit the reader's buffer, one after another. */
  function Stream(messages: seq<Message>): seq<uint8> {
    if messages == [] then [] else PacketBytes(messages[0].payloadType, messages[0].payload) + Stream(messages[1..])
  }

  function Packets(messages: seq<Message>): seq<Item> {
    seq(|messages|, i requires 0 <= i < |messages| => Packet(PacketBytes(messages[i].payloadType, messages[i].payload)))
  }

  lemma BigEndianRoundTrip(x: uint32, t: uint16)
    ensures Read32(BigEndian32(x)) == x && Read16(BigEndian16(t)) == t
  {
  }

  /** What the reader makes of a header written for a payload of `size` bytes. */
  lemma {:induction false} WrittenHeader(t: uint16, size: nat, more: seq<uint8>)
    ensures Read16(HeaderBytes(t, size)[2..4]) == t
    ensures HeaderOf(HeaderBytes(t, size) + more) ==
            var n := size % 0x1_0000_0000;
            if n <= BUFFER_SIZE - HEADER_SIZE then Fits(n + HEADER_SIZE)
            else if n <= 0xFFFF_FFFF - HEADER_SIZE then TooLong
            else Malformed
  {
    var b := HeaderBytes(t, size);
    BigEndianRoundTrip(size % 0x1_0000_0000, t);
    assert b[2..4] == BigEndian16(t);
    assert (b + more)[4..8] == BigEndian32(size % 0x1_0000_0000);
  }

  /** A size that fits the response buffer never wraps. */
  lemma ResponseNeverWraps(size: nat)
    requires size <= RESPONSE_BUFFER_SIZE - HEADER_SIZE
    ensures size % 0x1_0000_0000 == size && size + HEADER_SIZE <= RESPONSE_BUFFER_SIZE
  {
  }

  /** Every payload fits the buffer of the reader. */
  predicate Readable(messages: seq<Message>) {
    forall m <- messages :: |m.payload| <= BUFFER_SIZE - HEADER_SIZE
  }

  /** A stream of messages of up to 2040 bytes parses to exactly these messages. */
  lemma {:induction false} StreamParses(messages: seq<Message>)
    requires Readable(messages)
    ensures Parse(Stream(messages)) == Parsed(Packets(messages), [])
  {
    hide HeaderOf, HeaderBytes, Parse;
    if messages == [] {
      NothingParsed();
    } else {
      var first := PacketBytes(messages[0].payloadType, messages[0].payload);
      WrittenHeader(messages[0].payloadType, |messages[0].payload|, messages[0].payload);
      ParseComplete(first);
      ParseContinues(first, Stream(messages[1..]));
      assert [] + Stream(messages[1..]) == Stream(messages[1..]);
      StreamParses(messages[1..]);
      assert Packets(messages) == [Packet(first)] + Packets(messages[1..]);
    }
  }

  /** The bytes of each message. */
  function Written(messages: seq<Message>): seq<seq<uint8>> {
    seq(|messages|, i requires 0 <= i < |messages| => PacketBytes(messages[i].payloadType, messages[i].payload))
  }

  lemma {:induction false} PacketsOfMessages(messages: seq<Message>)
    ensures PacketsOf(Packets(messages)) == Written(messages)
  {
    hide PacketBytes;
    if messages != [] {
      var n := |messages| - 1;
      PacketsOfMessages(messages[..n]);
      assert Packets(messages)[..n] == Packets(messages[..n]);
      assert Written(messages) == Written(messages[..n]) + [PacketBytes(messages[n].payloadType, messages[n].payload)];
    }
  }

  /** A stream that arrives in any slices, and then completely, is delivered whole; if it consists of
      messages that fit, the packets are these messages, in order. */
  method ReadStream(connection: Connection, slices: seq<(nat, nat)>) returns (packets: seq<seq<uint8>>)
    modifies connection
    ensures connection.stream == []
    ensures packets == PacketsOf(Parse(old(connection.stream)).items)
    ensures forall messages | Readable(messages) && old(connection.stream) == Stream(messages) :: packets == Written(messages)
  {
    hide PacketsOf, Parse, Stream, Packets, Written;
    var receiver := new Receiver();
    var first, given := PollSlices(receiver, connection, slices);
    var last := PollAll(receiver, connection);
    packets := first + last;
    assert receiver.consumed == old(connection.stream);
    assert PacketsOf(Parse([]).items) == [] by {
      NothingParsed();
      NoPackets();
    }
    forall messages | Readable(messages) && old(connection.stream) == Stream(messages)
      ensures packets == Written(messages)
    {
      StreamParses(messages);
      PacketsOfMessages(messages);
    }
  }

  /** However much of a stream has been read, its items are the first items of the stream. */
  lemma {:induction false} PrefixParses(read: seq<uint8>, unread: seq<uint8>)
    ensures Parse(read).items <= Parse(read + unread).items
  {
    ParseContinues(read, unread);
  }

  /** `setup_response_header`: writes the eight bytes before a payload, returns the bytes to send. */
  method SetupResponseHeader(buffer: array<uint8>, payloadType: uint16, size: nat) returns (total: nat)
    requires buffer.Length >= HEADER_SIZE
    modifies buffer
    ensures total == size + HEADER_SIZE
    ensures buffer[..] == HeaderBytes(payloadType, size) + old(buffer[HEADER_SIZE..])
  {
    var big := size % 0x1_0000_0000;
    buffer[0] := PROTOCOL_VERSION;
    buffer[1] := INVERSE_PROTOCOL_VERSION;
    var t, n := BigEndian16(payloadType), BigEndian32(big);
    buffer[2], buffer[3] := t[0], t[1];
    buffer[4], buffer[5], buffer[6], buffer[7] := n[0], n[1], n[2], n[3];
    total := size + HEADER_SIZE;
  }

  /** A response goes through the reader: complete if it fits the buffer of the reader, and
      otherwise its header is dropped as too long. */
  lemma {:induction false} ResponseRoundTrip(t: uint16, payload: seq<uint8>)
    requires |payload| <= RESPONSE_BUFFER_SIZE - HEADER_SIZE
    ensures var p, s := Parse(PacketBytes(t, payload)), PacketBytes(t, payload);
      if |payload| <= BUFFER_SIZE - HEADER_SIZE then
        p == Parsed([Packet(s)], []) && Read16(s[2..4]) == t && s[HEADER_SIZE..] == payload
      else
        HeaderOf(s) == TooLong && p.items != [] && p.items[0] == Dropped(s[..HEADER_SIZE])
  {
    var s := PacketBytes(t, payload);
    ResponseNeverWraps(|payload|);
    WrittenHeader(t, |payload|, payload);
    assert s[2..4] == HeaderBytes(t, |payload|)[2..4];
    if |payload| <= BUFFER_SIZE - HEADER_SIZE {
      ParseComplete(s);
    }
  }
}
