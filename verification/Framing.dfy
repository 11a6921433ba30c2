/** Length-prefixed packets over a byte stream that arrives in arbitrary pieces. */
module Framing {
  import opened Options

  type Byte = b: int | 0 <= b < 256

  const MAX_PACKET: nat := 8 * 1024 * 1024

  // An unsigned 32-bit number, most significant byte first.
  function Pack(n: nat): (r: seq<Byte>)
    requires n < 0x1_0000_0000
    ensures |r| == 4
  {
    var high := n / 0x100 / 0x100;
    [high / 0x100, high % 0x100, n / 0x100 % 0x100, n % 0x100]
  }

  function Unpack(b: seq<Byte>): (n: nat)
    requires |b| == 4
    ensures n < 0x1_0000_0000
  {
    ((Shift(b[0]) + b[1]) * 0x100 + b[2]) * 0x100 + b[3]
  }

  function Shift(b: int): int {
    b * 0x100
  }

  lemma PackThenUnpack(n: nat)
    requires n < 0x1_0000_0000
    ensures Unpack(Pack(n)) == n
  {
  }

  /** The most significant byte comes first, and every four bytes are the prefix of one length. */
  lemma UnpackThenPack(b: seq<Byte>)
    requires |b| == 4
    ensures Unpack(b) == b[0] as int * 0x100_0000 + b[1] as int * 0x1_0000 + b[2] as int * 0x100 + b[3]
    ensures Pack(Unpack(b)) == b
  {
    var n := Unpack(b);
    assert n / 0x100 == (Shift(b[0]) + b[1]) * 0x100 + b[2];
    assert n / 0x100 / 0x100 == Shift(b[0]) + b[1];
  }

  function Frame(payload: seq<Byte>): seq<Byte>
    requires |payload| < 0x1_0000_0000
  {
    Pack(|payload|) + payload
  }

  // ----- What a stream of packets means -----

  datatype End = Disconnected | BadPacket

  datatype Parsed<T> = Parsed(texts: seq<T>, end: End)

  // The packets up to the first that is too large, cut off or not readable, and how that ends the connection.
  function Parse<T>(stream: seq<Byte>, inflate: seq<Byte> -> Option<T>): Parsed<T>
    decreases |stream|
  {
    if |stream| < 4 then Parsed([], Disconnected)
    else
      var size := Unpack(stream[..4]);
      if size > MAX_PACKET || |stream| < 4 + size then Parsed([], Disconnected)
      else
        match inflate(stream[4..4 + size])
        case None => Parsed([], BadPacket)
        case Some(text) =>
          var rest := Parse(stream[4 + size..], inflate);
          Parsed([text] + rest.texts, rest.end)
  }

  function Frames(payloads: seq<seq<Byte>>): seq<Byte>
    requires forall p :: p in payloads ==> |p| <= MAX_PACKET
  {
    if payloads == [] then [] else Frame(payloads[0]) + Frames(payloads[1..])
  }

  // A packet that is cut off: fewer bytes than its length needs, or than the length itself.
  predicate CutOff(tail: seq<Byte>) {
    |tail| < 4 || |tail| < 4 + Unpack(tail[..4])
  }

  lemma ParseFrame<T>(payload: seq<Byte>, rest: seq<Byte>, inflate: seq<Byte> -> Option<T>)
    requires |payload| <= MAX_PACKET
    ensures var stream := Frame(payload) + rest;
            && |stream| >= 4 + |payload| && Unpack(stream[..4]) == |payload|
            && stream[4..4 + |payload|] == payload && stream[4 + |payload|..] == rest
  {
    PackThenUnpack(|payload|);
    assert (Frame(payload) + rest)[..4] == Pack(|payload|);
  }

  /** Packets that were sent come out again, all of them and in order, whatever cut-off tail follows. */
  lemma {:induction false} ParseFrames<T>(texts: seq<T>, deflate: T -> seq<Byte>, inflate: seq<Byte> -> Option<T>,
                                          tail: seq<Byte>)
    requires forall t :: t in texts ==> |deflate(t)| <= MAX_PACKET && inflate(deflate(t)) == Some(t)
    requires CutOff(tail)
    ensures Parse(Frames(Deflated(texts, deflate)) + tail, inflate) == Parsed(texts, Disconnected)
  {
    if texts == [] {
      assert Frames([]) + tail == tail;
    } else {
      var payload, more := deflate(texts[0]), Deflated(texts[1..], deflate);
      ParseFrames(texts[1..], deflate, inflate, tail);
      ParseOne(payload, Frames(more) + tail, texts[0], texts[1..], inflate);
      OneMoreFrame(payload, more, tail);
      assert [texts[0]] + texts[1..] == texts;
    }
  }

  lemma ParseOne<T>(payload: seq<Byte>, rest: seq<Byte>, text: T, texts: seq<T>, inflate: seq<Byte> -> Option<T>)
    requires |payload| <= MAX_PACKET && inflate(payload) == Some(text) &&
             Parse(rest, inflate) == Parsed(texts, Disconnected)
    ensures Parse(Frame(payload) + rest, inflate) == Parsed([text] + texts, Disconnected)
  {
    ParseFrame(payload, rest, inflate);
  }

  function Deflated<T>(texts: seq<T>, deflate: T -> seq<Byte>): (r: seq<seq<Byte>>)
    requires forall t :: t in texts ==> |deflate(t)| <= MAX_PACKET
    ensures forall p :: p in r ==> |p| <= MAX_PACKET
  {
    if texts == [] then [] else [deflate(texts[0])] + Deflated(texts[1..], deflate)
  }

  // Why the reader stops at `rest`.
  predicate Stuck<T>(rest: seq<Byte>, inflate: seq<Byte> -> Option<T>, end: End) {
    match end
    case Disconnected => CutOff(rest) || Unpack(rest[..4]) > MAX_PACKET
    case BadPacket =>
      !CutOff(rest) && Unpack(rest[..4]) <= MAX_PACKET && inflate(rest[4..4 + Unpack(rest[..4])]) == None
  }

  ghost predicate Inflates<T>(payloads: seq<seq<Byte>>, texts: seq<T>, inflate: seq<Byte> -> Option<T>) {
    |payloads| == |texts| && forall i :: 0 <= i < |texts| ==> inflate(payloads[i]) == Some(texts[i])
  }

  /** And nothing else comes out: what is delivered are the whole packets at the front of the stream, and the reader
      stops only where no readable packet begins. */
  lemma {:induction false} ParseExplained<T>(stream: seq<Byte>, inflate: seq<Byte> -> Option<T>)
    returns (payloads: seq<seq<Byte>>, rest: seq<Byte>)
    ensures forall p :: p in payloads ==> |p| <= MAX_PACKET
    ensures stream == Frames(payloads) + rest
    ensures Inflates(payloads, Parse(stream, inflate).texts, inflate)
    ensures Stuck(rest, inflate, Parse(stream, inflate).end)
    decreases |stream|
  {
    payloads, rest := [], stream;
    if !CutOff(stream) && Unpack(stream[..4]) <= MAX_PACKET {
      var size := Unpack(stream[..4]);
      var payload, after := stream[4..4 + size], stream[4 + size..];
      if inflate(payload).Some? {
        var more;
        more, rest := ParseExplained(after, inflate);
        payloads := [payload] + more;
        FrameAtFront(stream, size);
        OneMoreFrame(payload, more, rest);
      }
    }
  }

  lemma FrameAtFront(stream: seq<Byte>, size: nat)
    requires |stream| >= 4 + size && size == Unpack(stream[..4])
    ensures Frame(stream[4..4 + size]) + stream[4 + size..] == stream
  {
    UnpackThenPack(stream[..4]);
  }

  lemma OneMoreFrame(payload: seq<Byte>, more: seq<seq<Byte>>, rest: seq<Byte>)
    requires |payload| <= MAX_PACKET && forall p :: p in more ==> |p| <= MAX_PACKET
    ensures (forall p :: p in [payload] + more ==> |p| <= MAX_PACKET)
    ensures Frames([payload] + more) + rest == Frame(payload) + (Frames(more) + rest)
  {
    assert ([payload] + more)[1..] == more;
  }

  // ----- Reading from a socket -----

  lemma Splits(whole: seq<Byte>, front: seq<Byte>, rest: seq<Byte>)
    requires whole == front + rest
    ensures whole[..|front|] == front && whole[|front|..] == rest
  {
  }

  lemma Joins(a: seq<Byte>, b: seq<Byte>, c: seq<Byte>)
    ensures a + (b + c) == (a + b) + c
  {
  }

  class Socket {
    const stream: seq<Byte>
    // How the network happens to cut the stream into pieces.
    const piece: nat -> nat
    var pos: nat

    constructor (stream: seq<Byte>, piece: nat -> nat)
      ensures this.stream == stream && this.piece == piece && pos == 0
    {
      this.stream, this.piece, pos := stream, piece, 0;
    }

    function Left(): seq<Byte>
      reads this
      requires pos <= |stream|
    {
      stream[pos..]
    }

    // At most `max` bytes; none only at the end of the stream.
    method Recv(max: nat) returns (data: seq<Byte>)
      requires max > 0 && pos <= |stream|
      modifies this
      ensures pos <= |stream| && |data| <= max && old(Left()) == data + Left()
      ensures data == [] <==> old(Left()) == []
    {
      var n := piece(pos);
      n := if n == 0 then 1 else if n > max then max else n;
      if n > |stream| - pos {
        n := |stream| - pos;
      }
      data := stream[pos..pos + n];
      pos := pos + n;
    }

    // Exactly `size` bytes, however they are cut, or None when the stream ends before.
    method RecvExact(size: nat) returns (data: Option<seq<Byte>>)
      requires pos <= |stream|
      modifies this
      ensures pos <= |stream|
      ensures if size <= |old(Left())| then data == Some(old(Left())[..size]) && Left() == old(Left())[size..]
              else data == None
    {
      var buffer: seq<Byte>, left: nat := [], size;
      while left > 0
        invariant pos <= |stream| && left + |buffer| == size && old(Left()) == buffer + Left()
      {
        var piece := Recv(left);
        if piece == [] {
          return None;
        }
        Joins(buffer, piece, Left());
        buffer, left := buffer + piece, left - |piece|;
      }
      Splits(old(Left()), buffer, Left());
      return Some(buffer);
    }
  }

  // The site's side of a reply: its length, then that many bytes.
  method ReadReply(sock: Socket) returns (reply: Option<seq<Byte>>)
    requires sock.pos <= |sock.stream|
    modifies sock
    ensures sock.pos <= |sock.stream|
    ensures forall payload: seq<Byte> :: |payload| < 0x1_0000_0000 && Frame(payload) <= old(sock.Left()) ==>
              reply == Some(payload)
  {
    ghost var stream := sock.Left();
    var head := sock.RecvExact(4);
    if head.None? {
      return None;
    }
    reply := sock.RecvExact(Unpack(head.value));
    forall payload: seq<Byte> | |payload| < 0x1_0000_0000 && Frame(payload) <= stream ensures reply == Some(payload) {
      FrameInFront(payload, stream);
    }
  }

  lemma FrameInFront(payload: seq<Byte>, stream: seq<Byte>)
    requires |payload| < 0x1_0000_0000 && Frame(payload) <= stream
    ensures Unpack(stream[..4]) == |payload| && stream[4..][..|payload|] == payload
  {
    PackThenUnpack(|payload|);
    assert stream[..4] == Frame(payload)[..4] == Pack(|payload|);
    assert stream[4..][..|payload|] == Frame(payload)[4..] == payload;
  }

  lemma NextRound<T>(before: seq<T>, now: seq<T>, was: Parsed<T>, rest: Parsed<T>, stop: Option<End>)
    ensures stop.None? && before <= now && was == Parsed(now[|before|..] + rest.texts, rest.end) ==>
              Parsed(before + was.texts, was.end) == Parsed(now + rest.texts, rest.end)
  {
    if stop.None? && before <= now {
      assert before + now[|before|..] == now;
    }
  }

  // The receiving end of a connection that does not go through a proxy.
  class PacketHandler<T(0)> {
    const request: Socket
    const inflate: seq<Byte> -> Option<T>
    const deflate: T -> seq<Byte>
    var gotPacket: bool
    var delivered: seq<T>
    var sent: seq<Byte>

    constructor (request: Socket, inflate: seq<Byte> -> Option<T>, deflate: T -> seq<Byte>)
      ensures this.request == request && this.inflate == inflate && this.deflate == deflate
      ensures delivered == [] && sent == [] && !gotPacket
    {
      this.request, this.inflate, this.deflate, delivered, sent, gotPacket := request, inflate, deflate, [], [], false;
    }

    // A packet whose length does not fit its prefix is not sent.
    method Send(text: T) returns (ok: bool)
      modifies this`sent
      ensures ok == (|deflate(text)| < 0x1_0000_0000)
      ensures sent == old(sent) + if ok then Frame(deflate(text)) else []
    {
      var compressed := deflate(text);
      ok := |compressed| < 0x1_0000_0000;
      if ok {
        sent := sent + (Pack(|compressed|) + compressed);
      }
    }

    method ReadSize() returns (size: Option<nat>)
      requires request.pos <= |request.stream|
      modifies request
      ensures request.pos <= |request.stream|
      ensures var s := old(request.Left());
              if |s| < 4 then size == None else size == Some(Unpack(s[..4])) && request.Left() == s[4..]
    {
      var buffer: seq<Byte> := [];
      while |buffer| < 4
        invariant request.pos <= |request.stream| && |buffer| <= 4 && old(request.Left()) == buffer + request.Left()
        decreases 4 - |buffer|
      {
        var recv := request.Recv(4 - |buffer|);
        if recv == [] {
          return None;
        }
        Joins(buffer, recv, request.Left());
        buffer := buffer + recv;
      }
      Splits(old(request.Left()), buffer, request.Left());
      return Some(Unpack(buffer));
    }

    // One packet of the given size; None when it was delivered.
    method ReadSizedPacket(size: nat) returns (end: Option<End>)
      requires request.pos <= |request.stream|
      modifies request, this`gotPacket, this`delivered
      ensures request.pos <= |request.stream|
      ensures var s := old(request.Left());
              if size > MAX_PACKET || |s| < size then end == Some(Disconnected) && delivered == old(delivered)
              else match inflate(s[..size])
                case None => end == Some(BadPacket) && delivered == old(delivered)
                case Some(text) => end == None && delivered == old(delivered) + [text] && request.Left() == s[size..]
    {
      if size > MAX_PACKET {
        return Some(Disconnected);
      }
      var buffer: seq<Byte>, remainder: nat := [], size;
      while remainder > 0
        invariant request.pos <= |request.stream| && remainder + |buffer| == size && delivered == old(delivered)
        invariant old(request.Left()) == buffer + request.Left()
      {
        var data := request.Recv(remainder);
        if data == [] {
          assert |old(request.Left())| == |buffer| < size;
          return Some(Disconnected);
        }
        Joins(buffer, data, request.Left());
        remainder := remainder - |data|;
        buffer := buffer + data;
      }
      Splits(old(request.Left()), buffer, request.Left());
      match inflate(buffer)
      case None => return Some(BadPacket);
      case Some(text) =>
        gotPacket := true;
        delivered := delivered + [text];
        return None;
    }

    /** Reads until the connection ends: exactly the packets of the stream are delivered, however it was cut. */
    method Handle() returns (end: End)
      requires request.pos == 0 && delivered == []
      modifies request, this`gotPacket, this`delivered
      ensures Parsed(delivered, end) == Parse(request.stream, inflate)
    {
      ghost var all := Parse(request.stream, inflate);
      assert request.Left() == request.stream;
      while true
        invariant request.pos <= |request.stream|
        invariant var rest := Parse(request.Left(), inflate); all == Parsed(delivered + rest.texts, rest.end)
        decreases |request.Left()|
      {
        ghost var before, was := delivered, Parse(request.Left(), inflate);
        var stop := Round();
        NextRound(before, delivered, was, Parse(request.Left(), inflate), stop);
        if stop.Some? {
          return stop.value;
        }
      }
    }

    method Round() returns (stop: Option<End>)
      requires request.pos <= |request.stream|
      modifies request, this`gotPacket, this`delivered
      ensures request.pos <= |request.stream|
      ensures match stop
              case Some(end) => delivered == old(delivered) && old(Parse(request.Left(), inflate)) == Parsed([], end)
              case None =>
                && |request.Left()| < |old(request.Left())| && old(delivered) <= delivered
                && var rest := Parse(request.Left(), inflate);
                   old(Parse(request.Left(), inflate)) == Parsed(delivered[|old(delivered)|..] + rest.texts, rest.end)
    {
      ghost var left := request.Left();
      var size := ReadSize();
      if size.None? {
        return Some(Disconnected);
      }
      stop := ReadSizedPacket(size.value);
      if |left| >= 4 + size.value {
        assert left[4..][..size.value] == left[4..4 + size.value];
        assert left[4..][size.value..] == left[4 + size.value..];
      }
    }
  }
}
