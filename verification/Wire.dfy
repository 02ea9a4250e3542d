/** Length-prefixed frames: the byte format, the buffered writer whose first
    error sticks, and the reader. */
module Wire {

  type Byte = x: int | 0 <= x < 256

  const MAX_FRAME_BYTES: nat := 16 * 1024 * 1024

  // ---------------------------------------------------------------- the format

  /** The low 32 bits, most significant byte first. */
  function BigEndian(n: nat): (bytes: seq<Byte>)
    ensures |bytes| == 4
  {
    [n / 0x100 / 0x100 / 0x100 % 0x100, n / 0x100 / 0x100 % 0x100, n / 0x100 % 0x100, n % 0x100]
  }

  function FromBigEndian(bytes: seq<Byte>): nat
    requires |bytes| == 4
  {
    (bytes[0] as int) * 0x100_0000 + (bytes[1] as int) * 0x1_0000 + (bytes[2] as int) * 0x100 + bytes[3] as int
  }

  /** The first byte counts most: it is what whole multiples of 2^24 there are, and
      dropping the last byte divides by 256. */
  lemma FirstByteCountsMost(bytes: seq<Byte>)
    requires |bytes| == 4
    ensures FromBigEndian(bytes) == FromBigEndian([0, bytes[0], bytes[1], bytes[2]]) * 0x100 + bytes[3] as int
    ensures FromBigEndian([0, 0, 0, bytes[3]]) == bytes[3] as int
  {}

  lemma BigEndianRoundTrip(n: nat)
    requires n < 0x1_0000_0000
    ensures FromBigEndian(BigEndian(n)) == n
  {
    var a := n / 0x100;
    var b := a / 0x100;
    var c := b / 0x100;
    assert n == a * 0x100 + n % 0x100;
    assert a == b * 0x100 + a % 0x100;
    assert b == c * 0x100 + b % 0x100;
    assert c < 0x100;
  }

  function Frame(payload: seq<Byte>): seq<Byte> {
    BigEndian(|payload|) + payload
  }

  /** A payload both ends accept. */
  predicate Framable(payload: seq<Byte>) {
    1 <= |payload| <= 0x100_0000
  }

  datatype Read = Got(payload: seq<Byte>, rest: seq<Byte>) | EndOfStream | BadLength(length: nat)

  /** One frame off the front of a byte stream. */
  function Decode(bytes: seq<Byte>): Read {
    if |bytes| < 4 then EndOfStream
    else
      var length := FromBigEndian(bytes[..4]);
      if length == 0 || length > MAX_FRAME_BYTES then BadLength(length)
      else if |bytes| < 4 + length then EndOfStream
      else Got(bytes[4..4 + length], bytes[4 + length..])
  }

  /** A written frame is read back if and only if its payload has 1 to 16 MiB;
      the writer would let an empty payload through. */
  lemma DecodeFrame(payload: seq<Byte>, rest: seq<Byte>)
    requires |payload| < 0x1_0000_0000
    ensures Decode(Frame(payload) + rest) == Got(payload, rest) <==> Framable(payload)
    ensures !Framable(payload) ==> Decode(Frame(payload) + rest) == BadLength(|payload|)
  {
    var bytes := Frame(payload) + rest;
    BigEndianRoundTrip(|payload|);
    assert bytes[..4] == BigEndian(|payload|);
    assert bytes[4..] == payload + rest;
    if Framable(payload) {
      assert bytes[4..4 + |payload|] == payload;
      assert bytes[4 + |payload|..] == rest;
    }
  }

  /** A frame cut short is never mistaken for a frame. */
  lemma DecodeCut(payload: seq<Byte>, cut: seq<Byte>)
    requires Framable(payload) && cut < Frame(payload)
    ensures Decode(cut) == EndOfStream
  {
    if |cut| >= 4 {
      assert cut[..4] == Frame(payload)[..4] == BigEndian(|payload|);
      BigEndianRoundTrip(|payload|);
    }
  }

  /** A payload the writer accepts; it does not refuse the empty one. */
  predicate Fits(payload: seq<Byte>) {
    |payload| <= MAX_FRAME_BYTES
  }

  function Stream(payloads: seq<seq<Byte>>): seq<Byte> {
    if payloads == [] then [] else Frame(payloads[0]) + Stream(payloads[1..])
  }

  lemma {:induction false} StreamSnoc(payloads: seq<seq<Byte>>, p: seq<Byte>)
    ensures Stream(payloads + [p]) == Stream(payloads) + Frame(p)
  {
    if payloads != [] {
      assert (payloads + [p])[1..] == payloads[1..] + [p];
      StreamSnoc(payloads[1..], p);
    }
  }

  // ---------------------------------------------------------------- the reader

  /** Everything a reader gets before its first error. */
  function ReadAll(bytes: seq<Byte>): seq<seq<Byte>>
    decreases |bytes|
  {
    match Decode(bytes)
    case Got(payload, rest) => [payload] + ReadAll(rest)
    case _ => []
  }

  /** What follows the last frame read. */
  function Leftover(bytes: seq<Byte>): seq<Byte>
    decreases |bytes|
  {
    match Decode(bytes)
    case Got(_, rest) => Leftover(rest)
    case _ => bytes
  }

  /** Whole frames followed by at most one cut frame read back as exactly the
      payloads, in order, with the cut frame left over. */
  lemma {:induction false} ReadAllInvertsStream(payloads: seq<seq<Byte>>, cut: seq<Byte>)
    requires forall p :: p in payloads ==> Framable(p)
    requires Decode(cut).EndOfStream?
    ensures ReadAll(Stream(payloads) + cut) == payloads
    ensures Leftover(Stream(payloads) + cut) == cut
  {
    if payloads == [] {
      assert Stream(payloads) + cut == cut;
    } else {
      var rest := Stream(payloads[1..]) + cut;
      assert Stream(payloads) + cut == Frame(payloads[0]) + rest;
      assert payloads[0] in payloads;
      DecodeFrame(payloads[0], rest);
      ReadAllInvertsStream(payloads[1..], cut);
    }
  }

  /** What a writer's wire holds, healthy or failed, reads back as the payloads
      it sent, plus the last one if its frame got out whole before the failure. */
  lemma WireReadsBack(sent: seq<seq<Byte>>, tail: seq<Byte>, last: seq<Byte>)
    requires forall p :: p in sent ==> Framable(p)
    requires Framable(last) && tail <= Frame(last)
    ensures ReadAll(Stream(sent) + tail) == sent + if tail == Frame(last) then [last] else []
  {
    if tail == Frame(last) {
      StreamSnoc(sent, last);
      assert Stream(sent) + tail == Stream(sent + [last]) + [];
      ReadAllInvertsStream(sent + [last], []);
    } else {
      DecodeCut(last, tail);
      ReadAllInvertsStream(sent, tail);
    }
  }

  class Reader {
    var data: seq<Byte>

    constructor (data: seq<Byte>)
      ensures this.data == data
    {
      this.data := data;
    }

    /** `io.ReadFull`: the next `n` bytes, or an error at the end of the stream. */
    method ReadFull(n: nat) returns (ok: bool, bytes: seq<Byte>)
      modifies this
      ensures ok <==> n <= |old(data)|
      ensures ok ==> |bytes| == n && old(data) == bytes + data
    {
      if |data| < n {
        data := [];
        return false, [];
      }
      ok, bytes := true, data[..n];
      data := data[n..];
    }

    method ReadFrame() returns (ok: bool, payload: seq<Byte>)
      modifies this
      ensures ok <==> Decode(old(data)).Got?
      ensures ok ==> Decode(old(data)) == Got(payload, data)
    {
      var before := data;
      var header;
      ok, header := ReadFull(4);
      if !ok {
        return false, [];
      }
      assert before[..4] == header && before[4..] == data;
      var length := FromBigEndian(header);
      if length == 0 || length > MAX_FRAME_BYTES {
        return false, [];
      }
      ok, payload := ReadFull(length);
      if !ok {
        return false, [];
      }
      assert before[4..] == payload + data;
    }

    method ReadFrames() returns (payloads: seq<seq<Byte>>)
      modifies this
      ensures payloads == ReadAll(old(data))
    {
      payloads := [];
      var ok, payload := true, [];
      while ok
        invariant ok ==> payloads + ReadAll(data) == ReadAll(old(data))
        invariant !ok ==> payloads == ReadAll(old(data))
        decreases ok, |data|
      {
        ghost var before := data;
        ok, payload := ReadFrame();
        if ok {
          payloads := payloads + [payload];
        }
      }
    }
  }

  // ---------------------------------------------------------------- the writer

  lemma Cut(before: seq<Byte>, wire: seq<Byte>, buffered: seq<Byte>, frame: seq<Byte>)
    requires before <= wire && wire + buffered <= before + frame
    ensures wire[|before|..] <= frame && wire == before + wire[|before|..]
  {
    assert (wire + buffered)[|before|..] <= frame;
    assert (wire + buffered)[|before|..] == wire[|before|..] + buffered;
  }

  /** A buffered writer over a socket that may take only part of what it is
      given. The first failure sticks: nothing is written after it. */
  class Writer {
    var buffered: seq<Byte>
    var wire: seq<Byte>
    var failed: bool
    /** How many more bytes the socket takes before it fails. */
    var room: nat
    /** Payloads whose frame was flushed completely, and what came after them. */
    ghost var sent: seq<seq<Byte>>
    ghost var tail: seq<Byte>

    /** Whole frames, then nothing while healthy, or a prefix of one frame. */
    ghost predicate Valid()
      reads this
    {
      && (forall p :: p in sent ==> Fits(p))
      && wire == Stream(sent) + tail
      && (!failed ==> buffered == [] && tail == [])
      && (failed ==> exists p :: Fits(p) && tail <= Frame(p))
    }

    constructor (room: nat)
      ensures Valid() && wire == [] && sent == [] && !failed && this.room == room
    {
      buffered, wire, failed, this.room := [], [], false, room;
      sent, tail := [], [];
    }

    /** Hands some of the buffered bytes to the socket, or all of them. */
    method Push(all: bool) returns (ok: bool)
      modifies `buffered, `wire, `failed, `room
      ensures ok == !failed
      ensures old(failed) ==> failed && wire == old(wire) && room == old(room)
      ensures !old(failed) ==>
                && wire + buffered == old(wire) + old(buffered) && old(wire) <= wire
                && room + |wire| == old(room) + |old(wire)|
                && (failed ==> room == 0 && buffered != []) && (ok && all ==> buffered == [])
    {
      if failed {
        return false;
      }
      var n: nat := |buffered|;
      if !all {
        n := *;
        n := if n > |buffered| then |buffered| else n;
      }
      var taken := if n > room then room else n;
      wire, buffered, room := wire + buffered[..taken], buffered[taken..], room - taken;
      failed := taken < n;
      ok := !failed;
    }

    method Write(bytes: seq<Byte>) returns (ok: bool)
      modifies `buffered, `wire, `failed, `room
      ensures ok == !failed
      ensures old(failed) ==> failed && wire == old(wire) && room == old(room)
      ensures !old(failed) ==>
                && wire + buffered == old(wire) + old(buffered) + bytes && old(wire) <= wire
                && room + |wire| == old(room) + |old(wire)| && (failed ==> room == 0 && buffered != [])
    {
      if failed {
        return false;
      }
      buffered := buffered + bytes;
      ok := Push(false);
    }

    /** Frames and flushes one payload. The wire gains the whole frame or, once,
        a prefix of it; after a failure it gains nothing any more. A payload
        above the limit is refused before a byte is written. */
    method Send(payload: seq<Byte>) returns (ok: bool)
      requires Valid()
      modifies this
      ensures Valid()
      ensures ok <==> !old(failed) && |payload| <= 0x100_0000 && 4 + |payload| <= old(room)
      ensures ok ==> wire == old(wire) + Frame(payload) && sent == old(sent) + [payload] && !failed
      ensures !ok ==> sent == old(sent)
      ensures old(failed) || |payload| > 0x100_0000 ==> wire == old(wire) && failed == old(failed)
      ensures !ok && !old(failed) && |payload| <= 0x100_0000 ==> failed && wire == old(wire) + Frame(payload)[..old(room)]
    {
      if |payload| > MAX_FRAME_BYTES {
        return false;
      }
      var before := wire;
      var broken := failed;
      ok := Write(BigEndian(|payload|));
      assert !broken ==> before + BigEndian(|payload|) + payload == before + Frame(payload);
      if ok {
        assert wire + buffered == before + BigEndian(|payload|);
        ok := Write(payload);
      }
      if ok {
        ok := Push(true);
      }
      if ok {
        StreamSnoc(sent, payload);
        assert wire == before + Frame(payload) && before == Stream(sent);
        sent := sent + [payload];
      } else if !broken {
        tail := wire[|before|..];
        Cut(before, wire, buffered, Frame(payload));
        assert wire[|before|..] == Frame(payload)[..|wire| - |before|];
        assert before == Stream(sent);
      }
    }
  }
}
