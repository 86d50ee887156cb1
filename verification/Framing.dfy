/** Wire framing `u8 msg_type | u32be len | payload` (tmite-proto/src/frame.rs)
    and reading it off a byte stream (tmite-core/src/stream_io.rs). */
module Framing {
  import opened Prelude

  const MAX_CONTROL_FRAME := 4096

  datatype FrameError = TooLarge(len: nat) | InvalidHeader | Closed

  datatype Parsed = Parsed(msgType: byte, payload: seq<byte>)

  function Be32(n: nat): (b: seq<byte>)
    requires n < 0x1_0000_0000
    ensures |b| == 4 && FromBe32(b) == n
  {
    var m := n / 0x100;
    var k := m / 0x100;
    [k / 0x100, k % 0x100, m % 0x100, n % 0x100]
  }

  function FromBe32(b: seq<byte>): (n: nat)
    requires |b| == 4
    ensures n < 0x1_0000_0000
  {
    b[0] as int * 0x100_0000 + b[1] as int * 0x1_0000 + b[2] as int * 0x100 + b[3]
  }

  lemma Be32Inverse(b: seq<byte>)
    requires |b| == 4
    ensures Be32(FromBe32(b)) == b
  {
    var k := b[0] as int * 0x100 + b[1] as int;
    var m := k * 0x100 + b[2] as int;
    LastByte(b[0] as int, b[1]);
    LastByte(k, b[2]);
    LastByte(m, b[3]);
    assert FromBe32(b) == m * 0x100 + b[3] as int;
  }

  lemma LastByte(q: nat, r: byte)
    ensures (q * 0x100 + r as int) / 0x100 == q && (q * 0x100 + r as int) % 0x100 == r as int
  {
  }

  function FrameBytes(msgType: byte, payload: seq<byte>): Result<seq<byte>, FrameError> {
    if |payload| > MAX_CONTROL_FRAME then Err(TooLarge(|payload|))
    else Ok([msgType] + Be32(|payload|) + payload)
  }

  /** `frame_bytes`: the vector is grown by pushes. */
  method BuildFrame(msgType: byte, payload: seq<byte>) returns (r: Result<seq<byte>, FrameError>)
    ensures r == FrameBytes(msgType, payload)
  {
    if |payload| > MAX_CONTROL_FRAME {
      return Err(TooLarge(|payload|));
    }
    var out: seq<byte> := [msgType];
    out := out + Be32(|payload|);
    out := out + payload;
    return Ok(out);
  }

  function ParseFrame(buf: seq<byte>): Result<Parsed, FrameError> {
    if |buf| < 5 then Err(InvalidHeader)
    else
      var len := FromBe32(buf[1..5]);
      if len > MAX_CONTROL_FRAME then Err(TooLarge(len))
      else if |buf| != 5 + len then Err(InvalidHeader)
      else Ok(Parsed(buf[0], buf[5..]))
  }

  /** Framing is a bijection between (type, payload) pairs and the byte
      strings that parse: neither side accepts or produces anything else. */
  lemma FramingIsBijection(b: seq<byte>, t: byte, p: seq<byte>)
    ensures ParseFrame(b) == Ok(Parsed(t, p)) <==> FrameBytes(t, p) == Ok(b)
  {
    if FrameBytes(t, p) == Ok(b) {
      assert b[1..5] == Be32(|p|);
      assert b[5..] == p;
    }
    if ParseFrame(b) == Ok(Parsed(t, p)) {
      Be32Inverse(b[1..5]);
      assert b == [b[0]] + b[1..5] + b[5..];
    }
  }

  /** The layout on the wire: the type byte, the length with its most
      significant byte first, the payload. A payload is framed exactly when it
      has at most 4096 bytes. */
  lemma HeaderIsBigEndian(t: byte, p: seq<byte>)
    ensures FrameBytes(t, p).Ok? <==> |p| <= 4096
    ensures FrameBytes(t, p).Ok? ==>
              var b := FrameBytes(t, p).value;
              && |b| == 5 + |p| && b[0] == t && b[5..] == p
              && |p| == ((b[1] as int * 256 + b[2] as int) * 256 + b[3] as int) * 256 + b[4] as int
  {
    if FrameBytes(t, p).Ok? {
      var b := FrameBytes(t, p).value;
      assert b[1..5] == Be32(|p|);
      assert b[1] == Be32(|p|)[0] && b[2] == Be32(|p|)[1] && b[3] == Be32(|p|)[2] && b[4] == Be32(|p|)[3];
    }
  }

  /** No frame is a proper prefix of another. */
  lemma FramesArePrefixFree(a: seq<byte>, b: seq<byte>)
    requires ParseFrame(a).Ok? && ParseFrame(b).Ok? && a <= b
    ensures a == b
  {
    assert a[1..5] == b[1..5];
  }

  // ---- Reading frames off a stream ----

  /** `read_frame` on the bytes a stream still delivers before it ends: the
      result, and what is left to read. */
  function TakeFrame(q: seq<byte>): (Result<Parsed, FrameError>, seq<byte>) {
    if |q| < 5 then (Err(Closed), [])
    else
      var len := FromBe32(q[1..5]);
      if len > MAX_CONTROL_FRAME then (Err(TooLarge(len)), q[5..])
      else if |q| < 5 + len then (Err(Closed), [])
      else (Ok(Parsed(q[0], q[5..5 + len])), q[5 + len..])
  }

  /** The receiving half of a stream; `pending` is what has not been read. */
  class RecvStream {
    var pending: seq<byte>

    constructor (pending: seq<byte>)
      ensures this.pending == pending
    {
      this.pending := pending;
    }

    /** One transport read: any non-empty chunk that fits, or nothing at the end. */
    method Read(max: nat) returns (chunk: seq<byte>)
      requires max > 0
      modifies this
      ensures |chunk| <= max && old(pending) == chunk + pending
      ensures chunk == [] <==> old(pending) == []
    {
      if pending == [] {
        return [];
      }
      var n :| 1 <= n <= max && n <= |pending|;
      chunk := pending[..n];
      pending := pending[n..];
    }

    /** `read_exact`: fills the buffer from however many chunks it takes. */
    method ReadExact(buf: array<byte>) returns (ok: bool)
      modifies this, buf
      ensures ok <==> |old(pending)| >= buf.Length
      ensures ok ==> buf[..] == old(pending)[..buf.Length] && pending == old(pending)[buf.Length..]
      ensures !ok ==> pending == []
    {
      var have := 0;
      while have < buf.Length
        invariant 0 <= have <= buf.Length && have <= |old(pending)|
        invariant buf[..have] == old(pending)[..have]
        invariant pending == old(pending)[have..]
      {
        var chunk := Read(buf.Length - have);
        if chunk == [] {
          return false;
        }
        assert old(pending) == old(pending)[..have] + (chunk + pending);
        var start := have;
        for i := 0 to |chunk|
          invariant pending == old(pending)[start + |chunk|..]
          invariant buf[..start + i] == old(pending)[..start + i]
        {
          buf[start + i] := chunk[i];
          assert buf[..start + i + 1] == buf[..start + i] + [chunk[i]];
        }
        have := have + |chunk|;
      }
      assert buf[..] == buf[..have];
      return true;
    }

    /** `read_frame` up to payload decoding, whatever the chunking. */
    method ReadFrame() returns (r: Result<Parsed, FrameError>)
      modifies this
      ensures (r, pending) == TakeFrame(old(pending))
    {
      var header := new byte[5];
      var ok := ReadExact(header);
      if !ok {
        return Err(Closed);
      }
      assert header[1..5] == old(pending)[1..5];
      var len := FromBe32(header[1..5]);
      if len > MAX_CONTROL_FRAME {
        return Err(TooLarge(len));
      }
      var payload := new byte[len];
      var msgType := header[0];
      ok := ReadExact(payload);
      if !ok {
        return Err(Closed);
      }
      assert old(pending)[5..][..len] == old(pending)[5..5 + len];
      assert old(pending)[5..][len..] == old(pending)[5 + len..];
      return Ok(Parsed(msgType, payload[..]));
    }
  }

  /** A read succeeds exactly when the stream begins with that frame, and
      takes that frame and nothing else. */
  lemma TakeFrameIffFramed(q: seq<byte>, t: byte, p: seq<byte>, rest: seq<byte>)
    ensures TakeFrame(q) == (Ok(Parsed(t, p)), rest) <==>
            FrameBytes(t, p).Ok? && q == FrameBytes(t, p).value + rest
  {
    if FrameBytes(t, p).Ok? && q == FrameBytes(t, p).value + rest {
      assert q[1..5] == Be32(|p|);
      assert q[5..5 + |p|] == p;
      assert q[5 + |p|..] == rest;
    }
    if TakeFrame(q) == (Ok(Parsed(t, p)), rest) {
      Be32Inverse(q[1..5]);
      assert q == [q[0]] + q[1..5] + q[5..5 + |p|] + q[5 + |p|..];
    }
  }

  /** A stream cut inside a frame yields no frame. */
  lemma CutFrameIsNotRead(f: seq<byte>, q: seq<byte>)
    requires ParseFrame(f).Ok? && q < f
    ensures TakeFrame(q) == (Err(Closed), [])
  {
    if |q| >= 5 {
      assert q[1..5] == f[1..5];
    }
  }

  function Concat(frames: seq<Parsed>): Result<seq<byte>, FrameError> {
    if frames == [] then Ok([]) else
    match FrameBytes(frames[0].msgType, frames[0].payload)
    case Err(e) => Err(e)
    case Ok(head) =>
      match Concat(frames[1..])
      case Err(e) => Err(e)
      case Ok(tail) => Ok(head + tail)
  }

  function TakeFrames(q: seq<byte>, n: nat): (Result<seq<Parsed>, FrameError>, seq<byte>) {
    if n == 0 then (Ok([]), q) else
    match TakeFrame(q)
    case (Err(e), rest) => (Err(e), rest)
    case (Ok(f), rest) =>
      match TakeFrames(rest, n - 1)
      case (Err(e), rest') => (Err(e), rest')
      case (Ok(fs), rest') => (Ok([f] + fs), rest')
  }

  /** Reading `n` frames succeeds exactly when the stream is those frames
      back to back followed by the bytes that are left: the framing is
      self-delimiting and an opaque byte pipe after it stays untouched. */
  lemma {:induction false} FramesSelfDelimit(q: seq<byte>, frames: seq<Parsed>, rest: seq<byte>)
    ensures TakeFrames(q, |frames|) == (Ok(frames), rest) <==>
            Concat(frames).Ok? && q == Concat(frames).value + rest
    decreases frames
  {
    hide FrameBytes, TakeFrame;
    if frames == [] {
      assert [] + rest == rest;
    } else {
      var f, fs := frames[0], frames[1..];
      if TakeFrames(q, |frames|) == (Ok(frames), rest) {
        var (r, q') := TakeFrame(q);
        assert r.value == f && TakeFrames(q', |fs|) == (Ok(fs), rest) by {
          assert frames == [r.value] + TakeFrames(q', |fs|).0.value;
        }
        TakeFrameIffFramed(q, f.msgType, f.payload, q');
        FramesSelfDelimit(q', fs, rest);
        assert q == FrameBytes(f.msgType, f.payload).value + Concat(fs).value + rest;
      }
      if Concat(frames).Ok? && q == Concat(frames).value + rest {
        var head := FrameBytes(f.msgType, f.payload).value;
        var tail := Concat(fs).value;
        assert q == head + (tail + rest);
        TakeFrameIffFramed(q, f.msgType, f.payload, tail + rest);
        FramesSelfDelimit(tail + rest, fs, rest);
        assert [f] + fs == frames;
      }
    }
  }
}
