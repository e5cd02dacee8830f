/** Framing packets and putting them together again from arbitrary fragments. */
module CNProtocol {
  import opened PacketCipher

  const CN_PACKET_BUFFER_SIZE := 8192

  datatype Packet = Packet(kind: nat, body: Bytes)

  // ---- 32-bit integers, low byte first

  function Byte(n: nat): bv8
    requires n < 0x100
  {
    n as bv8
  }

  function Value(b: bv8): (n: nat)
    ensures n < 0x100
  {
    b as nat
  }

  function U32(n: nat): (b: Bytes)
    requires n < 0x1_0000_0000
    ensures |b| == 4
  {
    [Byte(n % 0x100), Byte(n / 0x100 % 0x100), Byte(n / 0x1_0000 % 0x100), Byte(n / 0x100_0000)]
  }

  function FromU32(b: Bytes): (n: nat)
    requires |b| >= 4
    ensures n < 0x1_0000_0000
  {
    Value(b[0]) + 0x100 * Value(b[1]) + 0x1_0000 * Value(b[2]) + 0x100_0000 * Value(b[3])
  }

  function FromI32(b: Bytes): (n: int)
    requires |b| >= 4
    ensures -0x8000_0000 <= n < 0x8000_0000
  {
    if FromU32(b) < 0x8000_0000 then FromU32(b) else FromU32(b) - 0x1_0000_0000
  }

  lemma ByteRoundTrip(n: nat)
    requires n < 0x100
    ensures Value(Byte(n)) == n
  {
    hide Byte;
    assert Byte(n) == n as bv8 by { ByteIs(n); }
    RawRoundTrip(n);
  }

  lemma ByteIs(n: nat)
    requires n < 0x100
    ensures Byte(n) == n as bv8
  {
  }

  lemma RawRoundTrip(n: nat)
    requires n < 0x100
    ensures Value(n as bv8) == n
  {
  }

  lemma Digits(n: nat)
    requires n < 0x1_0000_0000
    ensures n == n % 0x100 + 0x100 * (n / 0x100 % 0x100) + 0x1_0000 * (n / 0x1_0000 % 0x100)
              + 0x100_0000 * (n / 0x100_0000)
    ensures n / 0x100_0000 < 0x100
  {
  }

  /** An integer is read back from the front of what it was written to. */
  lemma U32RoundTrip(n: nat, rest: Bytes)
    requires n < 0x1_0000_0000
    ensures FromU32(U32(n) + rest) == n
    ensures n < 0x8000_0000 ==> FromI32(U32(n) + rest) == n
  {
    hide Byte, Value;
    Digits(n);
    ByteRoundTrip(n % 0x100);
    ByteRoundTrip(n / 0x100 % 0x100);
    ByteRoundTrip(n / 0x1_0000 % 0x100);
    ByteRoundTrip(n / 0x100_0000);
    var b := U32(n) + rest;
    assert b[0] == U32(n)[0] && b[1] == U32(n)[1] && b[2] == U32(n)[2] && b[3] == U32(n)[3];
  }

  function Power(i: nat): (p: nat)
    ensures p > 0
  {
    if i == 0 then 1 else 0x100 * Power(i - 1)
  }

  /** The low byte comes first. */
  lemma LowByteFirst(n: nat, i: nat)
    requires n < 0x1_0000_0000 && i < 4
    ensures Value(U32(n)[i]) == n / Power(i) % 0x100
  {
    hide Byte, Value;
    Digits(n);
    ByteRoundTrip(n % 0x100);
    ByteRoundTrip(n / 0x100 % 0x100);
    ByteRoundTrip(n / 0x1_0000 % 0x100);
    ByteRoundTrip(n / 0x100_0000);
    assert Power(1) == 0x100 * Power(0) && Power(2) == 0x100 * Power(1) && Power(3) == 0x100 * Power(2);
  }

  // Only the first four bytes count.
  lemma FirstFour(a: Bytes, b: Bytes)
    requires |a| >= 4 && |b| >= 4 && a[..4] == b[..4]
    ensures FromU32(a) == FromU32(b) && FromI32(a) == FromI32(b)
  {
  }

  // ---- sending

  // The frame must fit in the buffer of the sender, and of the receiver.
  predicate Sendable(p: Packet) {
    p.kind < 0x1_0000_0000 && |p.body| + 8 <= CN_PACKET_BUFFER_SIZE
  }

  function Plain(p: Packet): Bytes
    requires Sendable(p)
  {
    U32(p.kind) + p.body
  }

  function Sealed(p: Packet, key: Bytes): (e: Bytes)
    requires Sendable(p) && |key| == KEY_LENGTH
    ensures |e| == |p.body| + 4
  {
    Encrypted(Plain(p), key)
  }

  function Framed(p: Packet, key: Bytes): Bytes
    requires Sendable(p) && |key| == KEY_LENGTH
  {
    U32(|p.body| + 4) + Sealed(p, key)
  }

  /** A frame is the length of what follows, then the bytes of type and body, each at its place in the
      cipher and xored with its key byte. */
  lemma FramedAt(p: Packet, key: Bytes, j: nat)
    requires Sendable(p) && |key| == KEY_LENGTH && j < |p.body| + 4
    ensures |Framed(p, key)| == |p.body| + 8 && Framed(p, key)[..4] == U32(|p.body| + 4)
    ensures var s := Source(|p.body| + 4, j);
            Framed(p, key)[4 + j] == (if s < 4 then U32(p.kind)[s] else p.body[s - 4]) ^ key[s % 8]
  {
    hide U32, Encrypted;
    EncryptedAt(Plain(p), key, j);
  }

  // The framing part of sendPacket; `sent` is what goes to the socket.
  method SendPacket(buf: Bytes, kind: nat, key: Bytes) returns (sent: Bytes)
    requires Sendable(Packet(kind, buf)) && |key| == KEY_LENGTH
    ensures sent == Framed(Packet(kind, buf), key)
  {
    hide U32, Encrypted;
    var fullpkt := new bv8[CN_PACKET_BUFFER_SIZE](_ => 0);
    var bodysize := |buf| + 4;
    CopyInto(fullpkt, 0, U32(bodysize));
    CopyInto(fullpkt, 4, U32(kind));
    CopyInto(fullpkt, 8, buf);
    assert fullpkt[..4] == U32(bodysize);
    assert fullpkt[4..4 + bodysize] == Plain(Packet(kind, buf));
    var _ := EncryptData(fullpkt, 4, key, bodysize);
    sent := fullpkt[..bodysize + 4];
    assert fullpkt[..][..bodysize + 4] == fullpkt[..bodysize + 4];
  }

  method CopyInto(a: array<bv8>, off: nat, bytes: Bytes)
    requires off + |bytes| <= a.Length
    modifies a
    ensures forall i | 0 <= i < a.Length :: a[i] == if off <= i < off + |bytes| then bytes[i - off] else old(a[i])
  {
    for i := 0 to |bytes|
      invariant forall k | 0 <= k < a.Length :: a[k] == if off <= k < off + i then bytes[k - off] else old(a[k])
    {
      a[off + i] := bytes[i];
    }
  }

  // ---- receiving

  // What one call of recv gives: that many bytes (none when the other side has closed), nothing
  // for now, or an error.
  datatype Recv = Got(n: nat) | WouldBlock | Failed

  // What parsePacket is given: a packet, or the rest of a frame too short to hold a packet type, with the
  // size that its subtraction of four from an unsigned number comes to.
  datatype Handed = Whole(p: Packet) | Runt(kind: nat, pktSize: nat)

  function Wholes(ps: seq<Packet>): (h: seq<Handed>)
    ensures |h| == |ps| && forall i | 0 <= i < |ps| :: h[i] == Whole(ps[i])
  {
    seq(|ps|, i requires 0 <= i < |ps| => Whole(ps[i]))
  }

  // The receiving state of a socket; `wire` is what the other side has sent or will send and has
  // not been received yet, and `handled` is what parsePacket was given.
  datatype Reader = Reader(readSize: int, buffer: Bytes, index: int, active: bool, alive: bool,
                           wire: Bytes, handled: seq<Handed>)

  function Fresh(wire: Bytes): Reader {
    Reader(0, seq(CN_PACKET_BUFFER_SIZE, _ => 0), 0, false, true, wire, [])
  }

  predicate InBounds(r: Reader) {
    && |r.buffer| == CN_PACKET_BUFFER_SIZE
    && r.alive && 0 <= r.index <= CN_PACKET_BUFFER_SIZE && -0x8000_0000 <= r.readSize <= CN_PACKET_BUFFER_SIZE
    && (r.active ==> r.index <= r.readSize || r.index == 0) && (!r.active ==> r.readSize == 0 && r.index == 0)
  }

  // recv never gives more than was asked for or has been sent.
  predicate CanGive(c: Recv, want: int, wire: Bytes) {
    c.Got? ==> c.n <= want && c.n <= |wire|
  }

  // n bytes from the wire land in the buffer at `at`.
  function Take(r: Reader, at: int, n: nat): (r': Reader)
    requires 0 <= at && at + n <= |r.buffer| && n <= |r.wire|
    ensures |r'.buffer| == |r.buffer|
  {
    r.(buffer := r.buffer[..at] + r.wire[..n] + r.buffer[at + n..], wire := r.wire[n..])
  }

  function Killed(r: Reader): Reader {
    r.(alive := false)
  }

  predicate HeaderOk(r: Reader, header: Recv) {
    r.readSize > 0 || CanGive(header, 4, r.wire)
  }

  // The first part of step: look for a length.
  function ReadHeader(r: Reader, header: Recv): (r': Reader)
    requires InBounds(r) && HeaderOk(r, header)
    ensures r'.alive ==> InBounds(r')
  {
    if r.readSize > 0 then r
    else match header
      case Got(n) =>
        var r1 := Take(r, 0, n);
        if n < 4 then Killed(r1)
        else
          var r2 := r1.(readSize := FromI32(r.wire));
          if r2.readSize > CN_PACKET_BUFFER_SIZE then Killed(r2) else r2.(active := true)
      case WouldBlock => r
      case Failed => Killed(r)
  }

  predicate BodyDue(r: Reader) {
    r.readSize > 0 && r.index < r.readSize
  }

  predicate BodyOk(r: Reader, body: Recv) {
    BodyDue(r) ==> CanGive(body, r.readSize - r.index, r.wire)
  }

  // The second part: read on towards the end of the packet.
  function ReadBody(r: Reader, body: Recv): (r': Reader)
    requires InBounds(r) && BodyOk(r, body)
    ensures r'.alive ==> InBounds(r')
  {
    if !BodyDue(r) then r
    else match body
      case Got(n) => if n == 0 then Killed(r) else Take(r, r.index, n).(index := r.index + n)
      case WouldBlock => r
      case Failed => Killed(r)
  }

  // What is made of a complete frame of this size; the buffer goes on behind it.
  function Parsed(buffer: Bytes, size: int): Handed
    requires |buffer| >= 4 && -0x8000_0000 <= size <= |buffer|
  {
    if size >= 4 then Whole(Packet(FromU32(buffer), buffer[4..size]))
    else Runt(FromU32(buffer), size - 4 + 0x1_0000_0000_0000_0000)
  }

  // The third part: a complete packet is decrypted and handed on.  A negative size decrypts nothing.
  function Finish(r: Reader, key: Bytes): (r': Reader)
    requires InBounds(r) && |key| == KEY_LENGTH
    ensures InBounds(r')
  {
    if !(r.active && r.index >= r.readSize) then r
    else
      var size := if r.readSize < 0 then 0 else r.readSize;
      var buffer := Decrypted(r.buffer[..size], key) + r.buffer[size..];
      r.(buffer := buffer, handled := r.handled + [Parsed(buffer, r.readSize)],
         readSize := 0, index := 0, active := false)
  }

  predicate Possible(r: Reader, header: Recv, body: Recv) {
    InBounds(r) && HeaderOk(r, header) && (ReadHeader(r, header).alive ==> BodyOk(ReadHeader(r, header), body))
  }

  function StepOf(r: Reader, key: Bytes, header: Recv, body: Recv): (r': Reader)
    requires Possible(r, header, body) && |key| == KEY_LENGTH
    ensures r'.alive ==> InBounds(r')
  {
    var r1 := ReadHeader(r, header);
    if !r1.alive then r1
    else
      var r2 := ReadBody(r1, body);
      if !r2.alive then r2 else Finish(r2, key)
  }

  // ---- every fragmentation gives back what was sent

  function Stream(ps: seq<Packet>, key: Bytes): Bytes
    requires |key| == KEY_LENGTH && forall p | p in ps :: Sendable(p)
  {
    if |ps| == 0 then [] else Framed(ps[0], key) + Stream(ps[1..], key)
  }

  // `todo` is still to be delivered, the first of it perhaps in part received.
  ghost predicate Tracks(r: Reader, key: Bytes, todo: seq<Packet>)
    requires |key| == KEY_LENGTH
  {
    && InBounds(r) && (forall p | p in todo :: Sendable(p))
    && if r.active then
         |todo| > 0 &&
         var e := Sealed(todo[0], key);
         && r.readSize == |e| && r.index < r.readSize
         && r.buffer[..r.index] == e[..r.index] && r.wire == e[r.index..] + Stream(todo[1..], key)
       else r.wire == Stream(todo, key)
  }

  // A step in which nothing goes wrong; the length comes in one piece or not at all.
  predicate Benign(r: Reader, header: Recv, body: Recv) {
    && InBounds(r)
    && (header == Got(4) || header == WouldBlock) && HeaderOk(r, header)
    && (body == WouldBlock || (body.Got? && body.n >= 1))
  }

  lemma HeaderTracks(r: Reader, key: Bytes, todo: seq<Packet>, header: Recv)
    requires |key| == KEY_LENGTH && Tracks(r, key, todo)
    requires (header == Got(4) || header == WouldBlock) && HeaderOk(r, header)
    ensures var r' := ReadHeader(r, header);
            r'.alive && Tracks(r', key, todo) && r'.handled == r.handled && (r'.active ==> |todo| > 0)
  {
    hide Sealed, FromI32, FromU32, U32;
    if !r.active && header.Got? {
      assert |todo| > 0;
      var e := Sealed(todo[0], key);
      var rest := e + Stream(todo[1..], key);
      assert r.wire == U32(|e|) + rest;
      U32RoundTrip(|e|, rest);
      assert r.wire[4..] == rest && e[0..] == e;
    }
  }

  lemma Unsealed(p: Packet, key: Bytes)
    requires Sendable(p) && |key| == KEY_LENGTH
    ensures var plain := Decrypted(Sealed(p, key), key);
            FromU32(plain) == p.kind && plain[4..] == p.body
  {
    CipherRoundTrip(Plain(p), key);
    U32RoundTrip(p.kind, p.body);
    assert Plain(p)[4..] == p.body;
  }

  lemma BodyTracks(r: Reader, key: Bytes, todo: seq<Packet>, body: Recv)
    requires |key| == KEY_LENGTH && Tracks(r, key, todo) && BodyOk(r, body)
        && (body == WouldBlock || (body.Got? && body.n >= 1))
    ensures var r' := Finish(ReadBody(r, body), key);
            ReadBody(r, body).alive && r'.alive &&
            if r.active && body.Got? && r.index + body.n == r.readSize
            then Tracks(r', key, todo[1..]) && r'.handled == r.handled + [Whole(todo[0])]
            else Tracks(r', key, todo) && r'.handled == r.handled
  {
    hide Sealed, Plain, FromU32, Decrypted, Stream;
    if r.active && body.Got? {
      var e := Sealed(todo[0], key);
      var rest := Stream(todo[1..], key);
      var n := body.n;
      var r1 := ReadBody(r, body);
      Arrived(e, rest, r.buffer, r.index, n);
      if r1.index == r1.readSize {
        assert r1.buffer[..r1.readSize] == e && r1.wire == rest;
        Unsealed(todo[0], key);
        ParsedWhole(Decrypted(e, key), r1.buffer[r1.readSize..], r1.readSize);
      }
    }
  }

  lemma ParsedWhole(plain: Bytes, tail: Bytes, size: nat)
    requires |plain| == size >= 4
    ensures Parsed(plain + tail, size) == Whole(Packet(FromU32(plain), plain[4..]))
  {
    hide FromU32;
    assert (plain + tail)[..4] == plain[..4] && (plain + tail)[4..size] == plain[4..];
    FirstFour(plain + tail, plain);
  }

  lemma Arrived(e: Bytes, rest: Bytes, buffer: Bytes, i: nat, n: nat)
    requires i + n <= |e| && |e| <= |buffer| && buffer[..i] == e[..i]
    ensures var wire := e[i..] + rest;
            && (buffer[..i] + wire[..n] + buffer[i + n..])[..i + n] == e[..i + n]
            && wire[n..] == e[i + n..] + rest
            && e[..|e|] == e && e[|e|..] + rest == rest
  {
  }

  function Run(r: Reader, key: Bytes, choices: seq<(Recv, Recv)>): Reader
    requires |key| == KEY_LENGTH && Smooth(r, key, choices)
    decreases |choices|
  {
    if |choices| == 0 then r
    else Run(StepOf(r, key, choices[0].0, choices[0].1), key, choices[1..])
  }

  // A run in which recv gives what it can and nothing goes wrong.
  predicate Smooth(r: Reader, key: Bytes, choices: seq<(Recv, Recv)>)
    requires |key| == KEY_LENGTH
    decreases |choices|
  {
    |choices| == 0 ||
    (&& Benign(r, choices[0].0, choices[0].1) && Possible(r, choices[0].0, choices[0].1)
     && Smooth(StepOf(r, key, choices[0].0, choices[0].1), key, choices[1..]))
  }

  lemma OneHanded(handled: seq<Handed>, todo: seq<Packet>)
    requires |todo| > 0
    ensures handled + [Whole(todo[0])] + Wholes(todo[1..]) == handled + Wholes(todo)
  {
  }

  lemma StepTracks(r: Reader, key: Bytes, todo: seq<Packet>, header: Recv, body: Recv) returns (left: seq<Packet>)
    requires |key| == KEY_LENGTH && Tracks(r, key, todo) && Benign(r, header, body) && Possible(r, header, body)
    ensures var r' := StepOf(r, key, header, body);
            r'.alive && Tracks(r', key, left) && r'.handled + Wholes(left) == r.handled + Wholes(todo)
  {
    hide Tracks, ReadHeader, ReadBody, Finish, BodyOk, BodyDue, HeaderOk, InBounds, Wholes;
    HeaderTracks(r, key, todo, header);
    var r1 := ReadHeader(r, header);
    BodyTracks(r1, key, todo, body);
    if r1.active && body.Got? && r1.index + body.n == r1.readSize {
      left := todo[1..];
      OneHanded(r.handled, todo);
    } else {
      left := todo;
    }
  }

  lemma {:induction false} RunTracks(r: Reader, key: Bytes, todo: seq<Packet>, choices: seq<(Recv, Recv)>)
    returns (left: seq<Packet>)
    requires |key| == KEY_LENGTH && Tracks(r, key, todo) && Smooth(r, key, choices)
    ensures var r' := Run(r, key, choices);
            Tracks(r', key, left) && r'.handled + Wholes(left) == r.handled + Wholes(todo)
    decreases |choices|
  {
    if |choices| == 0 {
      left := todo;
    } else {
      var next := StepTracks(r, key, todo, choices[0].0, choices[0].1);
      left := RunTracks(StepOf(r, key, choices[0].0, choices[0].1), key, next, choices[1..]);
    }
  }

  /** Whatever the fragments, the handler is given the packets that were sent, in order and once
      each; when nothing is left on the wire it has been given them all. */
  lemma Delivered(sent: seq<Packet>, key: Bytes, choices: seq<(Recv, Recv)>)
    requires |key| == KEY_LENGTH && (forall p | p in sent :: Sendable(p))
    requires Smooth(Fresh(Stream(sent, key)), key, choices)
    ensures var r := Run(Fresh(Stream(sent, key)), key, choices);
            && r.alive && 0 <= r.index <= r.readSize <= CN_PACKET_BUFFER_SIZE
            && r.handled <= Wholes(sent)
            && (r.wire == [] ==> r.handled == Wholes(sent))
  {
    var left := RunTracks(Fresh(Stream(sent, key)), key, sent, choices);
    var r := Run(Fresh(Stream(sent, key)), key, choices);
    assert r.handled + Wholes(left) == Wholes(sent);
    if |left| > 0 {
      StillComing(r, key, left);
    }
  }

  lemma StillComing(r: Reader, key: Bytes, left: seq<Packet>)
    requires |key| == KEY_LENGTH && Tracks(r, key, left) && |left| > 0
    ensures |r.wire| > 0
  {
  }

  // What a benign step takes off the wire.
  function Taken(r: Reader, header: Recv, body: Recv): nat
    requires InBounds(r) && HeaderOk(r, header)
  {
    (if r.readSize <= 0 && header.Got? then 4 else 0)
    + (if BodyDue(ReadHeader(r, header)) && body.Got? then body.n else 0)
  }

  /** Every byte received brings the end nearer. */
  lemma StepProgress(r: Reader, key: Bytes, header: Recv, body: Recv)
    requires |key| == KEY_LENGTH && Benign(r, header, body) && Possible(r, header, body)
        && StepOf(r, key, header, body).alive
    ensures |StepOf(r, key, header, body).wire| == |r.wire| - Taken(r, header, body)
  {
  }

  /** A step drops the connection if and only if less than a whole length comes, or one that is too large,
      or nothing more when a body is due, or recv fails. */
  lemma StepDrops(r: Reader, key: Bytes, header: Recv, body: Recv)
    requires |key| == KEY_LENGTH && Possible(r, header, body)
    ensures var size := if r.readSize <= 0 && header == Got(4) then FromI32(r.wire) else r.readSize;
            var short := header.Failed? || (header.Got? && header.n < 4);
            var refused := r.readSize <= 0 && (short || size > CN_PACKET_BUFFER_SIZE);
            !StepOf(r, key, header, body).alive <==>
              refused || (0 < size && r.index < size && (body.Failed? || body == Got(0)))
  {
    hide FromI32, Decrypted;
  }

  // No packet handed on is longer than the buffer, and the size of a runt is the size of no packet.
  predicate Sized(h: Handed) {
    match h
    case Whole(p) => |p.body| + 4 <= CN_PACKET_BUFFER_SIZE
    case Runt(_, pktSize) => CN_PACKET_BUFFER_SIZE < pktSize < 0x1_0000_0000_0000_0000
  }

  /** Whatever comes over the wire, a frame too short for a packet type is never taken for a packet. */
  lemma StepSized(r: Reader, key: Bytes, header: Recv, body: Recv)
    requires |key| == KEY_LENGTH && Possible(r, header, body)
    requires forall h | h in r.handled :: Sized(h)
    ensures var r' := StepOf(r, key, header, body);
            && (r'.alive ==> InBounds(r'))
            && |r.handled| <= |r'.handled| <= |r.handled| + 1 && forall h | h in r'.handled :: Sized(h)
  {
    hide ReadHeader, ReadBody, Finish, Sized;
    var r1 := ReadHeader(r, header);
    HeaderHands(r, header);
    if r1.alive {
      BodyHands(r1, body);
      var r2 := ReadBody(r1, body);
      if r2.alive {
        FinishSized(r2, key);
      }
    }
  }

  lemma HeaderHands(r: Reader, header: Recv)
    requires InBounds(r) && HeaderOk(r, header)
    ensures ReadHeader(r, header).handled == r.handled
  {
  }

  lemma BodyHands(r: Reader, body: Recv)
    requires InBounds(r) && BodyOk(r, body)
    ensures ReadBody(r, body).handled == r.handled
  {
  }

  lemma FinishSized(r: Reader, key: Bytes)
    requires |key| == KEY_LENGTH && InBounds(r) && forall h | h in r.handled :: Sized(h)
    ensures var r' := Finish(r, key);
            |r.handled| <= |r'.handled| <= |r.handled| + 1 && forall h | h in r'.handled :: Sized(h)
  {
    hide Decrypted, FromU32;
  }

  // ---- the socket

  class CNSocket {
    const EKey: Bytes
    const readBuffer: array<bv8>
    var readSize: int
    var readBufferIndex: int
    var activelyReading: bool
    var alive: bool
    var wire: Bytes
    var handled: seq<Handed>

    constructor (key: Bytes, wire: Bytes)
      requires |key| == KEY_LENGTH
      ensures View() == Fresh(wire) && EKey == key && fresh(readBuffer)
    {
      EKey := key;
      readBuffer := new bv8[CN_PACKET_BUFFER_SIZE](_ => 0);
      readSize, readBufferIndex, activelyReading, alive := 0, 0, false, true;
      this.wire, handled := wire, [];
      new;
      assert readBuffer[..] == seq(CN_PACKET_BUFFER_SIZE, _ => 0);
    }

    function View(): Reader
      reads this, readBuffer
    {
      Reader(readSize, readBuffer[..], readBufferIndex, activelyReading, alive, wire, handled)
    }

    // recv into the buffer at `at`; bytes that were received are gone from the wire
    method Receive(at: nat, n: nat)
      requires at + n <= readBuffer.Length && n <= |wire|
      modifies `wire, readBuffer
      ensures View() == Take(old(View()), at, n)
    {
      CopyInto(readBuffer, at, wire[..n]);
      wire := wire[n..];
      assert readBuffer[..] == old(readBuffer[..])[..at] + old(wire)[..n] + old(readBuffer[..])[at + n..];
    }

    method Decipher(size: nat)
      requires |EKey| == KEY_LENGTH && size <= readBuffer.Length
      modifies readBuffer
      ensures readBuffer[..] == Decrypted(old(readBuffer[..size]), EKey) + old(readBuffer[size..])
    {
      hide Decrypted;
      var _ := DecryptData(readBuffer, 0, EKey, size);
      assert old(readBuffer[..0]) == [] && old(readBuffer[0..size]) == old(readBuffer[..size]);
    }

    method Step(header: Recv, body: Recv)
      requires |EKey| == KEY_LENGTH && Possible(View(), header, body)
      modifies this, readBuffer
      ensures View() == StepOf(old(View()), EKey, header, body)
    {
      hide Decrypted, FromU32, FromI32;
      if readSize <= 0 {
        match header
        case Got(n) =>
          Receive(0, n);
          if n < 4 {
            alive := false;
            return;
          }
          assert readBuffer[..][..4] == old(wire)[..4];
          FirstFour(readBuffer[..], old(wire));
          readSize := FromI32(readBuffer[..]);
          if readSize > CN_PACKET_BUFFER_SIZE {
            alive := false;
            return;
          }
          activelyReading := true;
        case WouldBlock =>
        case Failed =>
          alive := false;
          return;
      }
      assert View() == ReadHeader(old(View()), header);
      if readSize > 0 && readBufferIndex < readSize {
        match body
        case Got(n) =>
          if n == 0 {
            alive := false;
            return;
          }
          Receive(readBufferIndex, n);
          readBufferIndex := readBufferIndex + n;
        case WouldBlock =>
        case Failed =>
          alive := false;
          return;
      }
      assert View() == ReadBody(ReadHeader(old(View()), header), body);
      if activelyReading && readBufferIndex >= readSize {
        ghost var before := View();
        Decipher(if readSize < 0 then 0 else readSize);
        handled := handled + [Parsed(readBuffer[..], readSize)];
        readSize := 0;
        readBufferIndex := 0;
        activelyReading := false;
        assert View() == Finish(before, EKey);
      }
    }
  }
}
