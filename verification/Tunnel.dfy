/** One forwarded TCP connection end to end: local application, client
    (tmite-core/src/client/connect.rs), one or two streams, daemon
    (tmite-core/src/daemon/main_ep.rs) and targets, at the level of bytes. */
module Tunnel {
  import opened Prelude
  import opened Framing
  import D = DataPlane

  const BUF := 8192

  /** A reliable ordered byte channel: what is in flight, and whether the
      writer has finished. */
  datatype Chan = Chan(q: seq<byte>, fin: bool)

  const IDLE := Chan([], false)

  // ---- The copy loop ----

  datatype PumpEnd = Running | EndedOk | EndedErr

  /** `pump` between two reads or writes: the unwritten rest of its buffer and
      the bytes it has read so far (`pump_counted`). */
  datatype Pump = Pump(buf: seq<byte>, end: PumpEnd, count: nat)

  const START := Pump([], Running, 0)

  predicate CanRead(p: Pump, src: Chan, n: nat) {
    p.end.Running? && p.buf == [] && 1 <= n <= BUF && n <= |src.q|
  }

  predicate CanWrite(p: Pump, n: nat) {
    p.end.Running? && 1 <= n <= |p.buf|
  }

  /** A read of zero bytes: nothing in flight and the writer has finished. */
  predicate AtEof(p: Pump, src: Chan) {
    p.end.Running? && p.buf == [] && src == Chan([], true)
  }

  function Read(p: Pump, src: Chan, n: nat): (Pump, Chan)
    requires CanRead(p, src, n)
  {
    (Pump(src.q[..n], Running, p.count + n), src.(q := src.q[n..]))
  }

  /** Part of a `write_all`: `n` more bytes are accepted. */
  function Write(p: Pump, n: nat): (Pump, seq<byte>)
    requires CanWrite(p, n)
  {
    (p.(buf := p.buf[n..]), p.buf[..n])
  }

  /** `pump_counted` run alone to its end, on a source that delivers `input`
      in chunks of any size and then ends or fails, and a sink that may fail. */
  method PumpCounted(input: seq<byte>, readFails: bool, writeFailsAfter: Option<nat>)
    returns (output: seq<byte>, ok: bool, counter: nat)
    ensures output <= input && |output| <= counter <= |output| + BUF && counter <= |input|
    ensures ok ==> output == input && counter == |input| && !readFails
    ensures !readFails && writeFailsAfter.None? ==> ok
    ensures !ok && writeFailsAfter.None? ==> output == input
  {
    var src := Chan(input, true);
    var p := START;
    output := [];
    while true
      invariant p.end.Running? && p.buf == []
      invariant input == output + src.q && p.count == |output|
      invariant writeFailsAfter.Some? ==> |output| <= writeFailsAfter.value
      decreases |src.q|
    {
      if src.q == [] {
        return output, !readFails, p.count;
      }
      assert CanRead(p, src, 1);
      var n :| CanRead(p, src, n);
      var (p1, src1) := Read(p, src, n);
      assert src.q == p1.buf + src1.q;
      if writeFailsAfter.Some? && |output| + n > writeFailsAfter.value {
        var m := writeFailsAfter.value - |output|;
        assert output + p1.buf[..m] <= input;
        return output + p1.buf[..m], false, p1.count;
      }
      output := output + p1.buf;
      p, src := p1.(buf := []), src1;
    }
  }

  // ---- Frames on the stream ----

  datatype Codec = Codec(encode: D.DataFrame -> seq<byte>, decode: seq<byte> -> Option<D.DataFrame>)

  datatype Cfg = Cfg(codec: Codec, target: string)

  function ForwardFrame(cfg: Cfg): Result<seq<byte>, FrameError> {
    FrameBytes(D.TYPE_FORWARD, cfg.codec.encode(D.Forward(cfg.target)))
  }

  function OkBytes(cfg: Cfg): Result<seq<byte>, FrameError> {
    FrameBytes(D.TYPE_OK, cfg.codec.encode(D.OkFrame))
  }

  function DenyBytes(cfg: Cfg, reason: D.DenyReason): Result<seq<byte>, FrameError> {
    FrameBytes(D.TYPE_DENY, cfg.codec.encode(D.Deny(reason)))
  }

  /** The payload decoder inverts the encoder, and the two fixed frames of a
      forward fit the frame limit. */
  ghost predicate ValidCfg(cfg: Cfg) {
    && (forall f :: cfg.codec.decode(cfg.codec.encode(f)) == Some(f))
    && ForwardFrame(cfg).Ok? && OkBytes(cfg).Ok?
  }

  /** What a reader gets from the front of a stream: the decoded frame, or
      `None` for an incomplete, oversized or undecodable one. */
  function NextFrame(cfg: Cfg, q: seq<byte>): Option<(byte, D.DataFrame, seq<byte>)> {
    var (r, rest) := TakeFrame(q);
    if r.Err? || cfg.codec.decode(r.value.payload).None? then None
    else Some((r.value.msgType, cfg.codec.decode(r.value.payload).value, rest))
  }

  // ---- One stream: the daemon's handler and the target it dials ----

  datatype ServerPc = Waiting | Asked | Connected | Relaying | Over

  /** `taken`: the daemon has read the first frame; `answered`: the client has
      read the reply. `got` is what the target received, `wrote` what it wrote,
      and `given` what the client took from this stream after the reply. */
  datatype Leg = Leg(
    c2s: Chan, s2c: Chan, pc: ServerPc, taken: bool, answered: bool,
    up: Pump, down: Pump,
    got: seq<byte>, gotFin: bool, wrote: seq<byte>, out: Chan, given: seq<byte>)

  const NEW_LEG := Leg(IDLE, IDLE, Waiting, false, false, START, START, [], false, [], IDLE, [])

  datatype LegAction =
    | SRead
    | SDeny(reason: D.DenyReason, n: nat)
    | SDial
    | SOk(n: nat)
    | SGone
    | TWrite(bs: seq<byte>)
    | TClose
    | UpRead(n: nat) | UpWrite(n: nat) | UpEof | UpFail
    | DownRead(n: nat) | DownWrite(n: nat) | DownEof | DownFail

  predicate LegEnabled(cfg: Cfg, l: Leg, a: LegAction) {
    match a
    case SRead => l.pc.Waiting? && NextFrame(cfg, l.c2s.q).Some?
    case SDeny(reason, n) => l.pc.Asked? && DenyBytes(cfg, reason).Ok? && n <= |DenyBytes(cfg, reason).value|
    case SDial => l.pc.Asked?
    case SOk(n) => l.pc.Connected? && OkBytes(cfg).Ok? && n <= |OkBytes(cfg).value|
    case SGone => l.pc.Waiting? || l.pc.Asked? || l.pc.Connected?
    case TWrite(_) => (l.pc.Connected? || l.pc.Relaying?) && !l.out.fin
    case TClose => l.pc.Connected? || l.pc.Relaying?
    case UpRead(n) => l.pc.Relaying? && CanRead(l.up, l.c2s, n)
    case UpWrite(n) => l.pc.Relaying? && CanWrite(l.up, n)
    case UpEof => l.pc.Relaying? && AtEof(l.up, l.c2s)
    case UpFail => l.pc.Relaying? && l.up.end.Running?
    case DownRead(n) => l.pc.Relaying? && CanRead(l.down, l.out, n)
    case DownWrite(n) => l.pc.Relaying? && CanWrite(l.down, n)
    case DownEof => l.pc.Relaying? && AtEof(l.down, l.out)
    case DownFail => l.pc.Relaying? && l.down.end.Running?
  }

  function LegStep(cfg: Cfg, l: Leg, a: LegAction): Leg
    requires LegEnabled(cfg, l, a)
  {
    match a
    case SRead =>
      var (t, f, rest) := NextFrame(cfg, l.c2s.q).value;
      l.(c2s := l.c2s.(q := rest), taken := true,
         pc := if D.Classify(t, f) == D.Ask(true, cfg.target) then Asked else Over)
    case SDeny(reason, n) => l.(s2c := Chan(l.s2c.q + DenyBytes(cfg, reason).value[..n], true), pc := Over)
    case SDial => l.(pc := Connected)
    case SOk(n) =>
      l.(s2c := l.s2c.(q := l.s2c.q + OkBytes(cfg).value[..n]),
         pc := if n == |OkBytes(cfg).value| then Relaying else Over)
    case SGone => l.(pc := Over)
    case TWrite(bs) => l.(wrote := l.wrote + bs, out := l.out.(q := l.out.q + bs))
    case TClose => l.(out := l.out.(fin := true))
    case UpRead(n) =>
      var (p, src) := Read(l.up, l.c2s, n);
      l.(up := p, c2s := src)
    case UpWrite(n) =>
      var (p, bs) := Write(l.up, n);
      l.(up := p, got := l.got + bs)
    case UpEof => l.(up := l.up.(end := EndedOk), gotFin := true)
    case UpFail => l.(up := l.up.(end := EndedErr), gotFin := true)
    case DownRead(n) =>
      var (p, src) := Read(l.down, l.out, n);
      l.(down := p, out := src)
    case DownWrite(n) =>
      var (p, bs) := Write(l.down, n);
      l.(down := p, s2c := l.s2c.(q := l.s2c.q + bs))
    case DownEof => l.(down := l.down.(end := EndedOk), s2c := l.s2c.(fin := true))
    case DownFail => l.(down := l.down.(end := EndedErr), s2c := l.s2c.(fin := true))
  }

  // ---- The client: up to two attempts, then the relay ----

  datatype ClientPc = Trying(attempt: nat) | Sending(attempt: nat) | Awaiting(attempt: nat) | InRelay | Ended

  /** `legs` are the streams opened so far; the last one is the current one.
      `toApp` is what the local application received, `appWrote` what it wrote. */
  datatype World = World(
    appWrote: seq<byte>, app: Chan, toApp: seq<byte>, toAppFin: bool,
    pc: ClientPc, legs: seq<Leg>, down: Pump, up: Pump)

  const INIT := World([], IDLE, [], false, Trying(0), [], START, START)

  datatype Action =
    | AppWrite(bs: seq<byte>)
    | AppClose
    | NoSession
    | OpenFails
    | Open
    | SendForward(n: nat)
    | GetReply
    | ReplyFails
    | ReplyTimesOut
    | Drop(k: nat)
    | OnLeg(k: nat, a: LegAction)
    | CDownRead(n: nat) | CDownWrite(n: nat) | CDownEof | CDownFail
    | CUpRead(n: nat) | CUpWrite(n: nat) | CUpEof | CUpFail

  function Last(w: World): Leg
    requires w.legs != []
  {
    w.legs[|w.legs| - 1]
  }

  function SetLast(w: World, l: Leg): World
    requires w.legs != []
  {
    w.(legs := w.legs[|w.legs| - 1 := l])
  }

  /** A connection-level failure: the first attempt is retried once. */
  function Retry(attempt: nat): ClientPc {
    if attempt == 0 then Trying(1) else Ended
  }

  predicate Enabled(cfg: Cfg, w: World, a: Action) {
    match a
    case AppWrite(_) => !w.app.fin
    case AppClose => true
    case NoSession => w.pc.Trying?
    case OpenFails => w.pc.Trying?
    case Open => w.pc.Trying?
    case SendForward(n) => w.pc.Sending? && w.legs != [] && ForwardFrame(cfg).Ok? && n <= |ForwardFrame(cfg).value|
    case GetReply => w.pc.Awaiting? && w.legs != [] && NextFrame(cfg, Last(w).s2c.q).Some?
    case ReplyFails => w.pc.Awaiting?
    case ReplyTimesOut => w.pc.Awaiting?
    case Drop(k) =>
      k < |w.legs| && (k < |w.legs| - 1 || w.pc.Trying? || w.pc.Ended?)
    case OnLeg(k, la) => k < |w.legs| && LegEnabled(cfg, w.legs[k], la)
    case CDownRead(n) => w.pc.InRelay? && w.legs != [] && CanRead(w.down, w.app, n)
    case CDownWrite(n) => w.pc.InRelay? && w.legs != [] && CanWrite(w.down, n)
    case CDownEof => w.pc.InRelay? && w.legs != [] && AtEof(w.down, w.app)
    case CDownFail => w.pc.InRelay? && w.legs != [] && w.down.end.Running?
    case CUpRead(n) => w.pc.InRelay? && w.legs != [] && CanRead(w.up, Last(w).s2c, n)
    case CUpWrite(n) => w.pc.InRelay? && w.legs != [] && CanWrite(w.up, n)
    case CUpEof => w.pc.InRelay? && w.legs != [] && AtEof(w.up, Last(w).s2c)
    case CUpFail => w.pc.InRelay? && w.legs != [] && w.up.end.Running?
  }

  function Step(cfg: Cfg, w: World, a: Action): World
    requires Enabled(cfg, w, a)
  {
    match a
    case AppWrite(bs) => w.(appWrote := w.appWrote + bs, app := w.app.(q := w.app.q + bs))
    case AppClose => w.(app := w.app.(fin := true))
    case NoSession => w.(pc := Ended)
    case OpenFails => w.(pc := Retry(w.pc.attempt))
    case Open => w.(pc := Sending(w.pc.attempt), legs := w.legs + [NEW_LEG])
    case SendForward(n) =>
      var l := Last(w);
      SetLast(w, l.(c2s := l.c2s.(q := l.c2s.q + ForwardFrame(cfg).value[..n])))
      .(pc := if n == |ForwardFrame(cfg).value| then Awaiting(w.pc.attempt) else Retry(w.pc.attempt))
    case GetReply =>
      var (t, f, rest) := NextFrame(cfg, Last(w).s2c.q).value;
      if f == D.OkFrame then
        SetLast(w, Last(w).(s2c := Last(w).s2c.(q := rest), answered := true)).(pc := InRelay)
      else w.(pc := Ended)
    case ReplyFails => w.(pc := Retry(w.pc.attempt))
    case ReplyTimesOut => w.(pc := Ended)
    case Drop(k) => w.(legs := w.legs[k := w.legs[k].(c2s := w.legs[k].c2s.(fin := true))])
    case OnLeg(k, la) => w.(legs := w.legs[k := LegStep(cfg, w.legs[k], la)])
    case CDownRead(n) =>
      var (p, src) := Read(w.down, w.app, n);
      w.(down := p, app := src)
    case CDownWrite(n) =>
      var (p, bs) := Write(w.down, n);
      SetLast(w, Last(w).(c2s := Last(w).c2s.(q := Last(w).c2s.q + bs))).(down := p)
    case CDownEof => SetLast(w, Last(w).(c2s := Last(w).c2s.(fin := true))).(down := w.down.(end := EndedOk))
    case CDownFail => SetLast(w, Last(w).(c2s := Last(w).c2s.(fin := true))).(down := w.down.(end := EndedErr))
    case CUpRead(n) =>
      var (p, src) := Read(w.up, Last(w).s2c, n);
      SetLast(w, Last(w).(s2c := src, given := Last(w).given + p.buf)).(up := p)
    case CUpWrite(n) =>
      var (p, bs) := Write(w.up, n);
      w.(up := p, toApp := w.toApp + bs)
    case CUpEof => w.(up := w.up.(end := EndedOk), toAppFin := true)
    case CUpFail => w.(up := w.up.(end := EndedErr), toAppFin := true)
  }

  function Exec(cfg: Cfg, acts: seq<Action>): Option<World> {
    if acts == [] then Some(INIT) else
    var before := Exec(cfg, acts[..|acts| - 1]);
    if before.Some? && Enabled(cfg, before.value, acts[|acts| - 1]) then Some(Step(cfg, before.value, acts[|acts| - 1])) else None
  }
}
