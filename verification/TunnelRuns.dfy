/** The tunnel is the identity on bytes. */
module TunnelRuns {
  import opened Prelude
  import opened Framing
  import opened Tunnel
  import D = DataPlane

  // ---- Frames ----

  /** A frame at the front of a stream is read back, and nothing behind it. */
  lemma FrameAtFront(cfg: Cfg, t: byte, f: D.DataFrame, rest: seq<byte>)
    requires cfg.codec.decode(cfg.codec.encode(f)) == Some(f) && FrameBytes(t, cfg.codec.encode(f)).Ok?
    ensures NextFrame(cfg, FrameBytes(t, cfg.codec.encode(f)).value + rest) == Some((t, f, rest))
  {
    var p := cfg.codec.encode(f);
    TakeFrameIffFramed(FrameBytes(t, p).value + rest, t, p, rest);
  }

  /** A frame that is cut short is not read at all. */
  lemma CutFrameAtFront(cfg: Cfg, t: byte, f: D.DataFrame, q: seq<byte>)
    requires FrameBytes(t, cfg.codec.encode(f)).Ok? && q < FrameBytes(t, cfg.codec.encode(f)).value
    ensures NextFrame(cfg, q).None?
  {
    var p := cfg.codec.encode(f);
    FramingIsBijection(FrameBytes(t, p).value, t, p);
    CutFrameIsNotRead(FrameBytes(t, p).value, q);
  }

  // ---- One stream ----

  /** Application bytes in flight behind an unread FORWARD frame. */
  function UpBody(cfg: Cfg, l: Leg): seq<byte>
    requires ForwardFrame(cfg).Ok?
  {
    var f := ForwardFrame(cfg).value;
    if l.taken then l.c2s.q else if |f| <= |l.c2s.q| then l.c2s.q[|f|..] else []
  }

  /** Target bytes in flight behind an unread OK frame. */
  function DownBody(cfg: Cfg, l: Leg): seq<byte>
    requires OkBytes(cfg).Ok?
  {
    var f := OkBytes(cfg).value;
    if l.answered then l.s2c.q
    else if l.pc.Relaying? && |f| <= |l.s2c.q| then l.s2c.q[|f|..]
    else []
  }

  /** All application bytes that this stream has swallowed, in order. */
  function UpFlow(cfg: Cfg, l: Leg): seq<byte>
    requires ForwardFrame(cfg).Ok?
  {
    l.got + l.up.buf + UpBody(cfg, l)
  }

  ghost predicate Denies(cfg: Cfg, reason: D.DenyReason, q: seq<byte>) {
    DenyBytes(cfg, reason).Ok? && q <= DenyBytes(cfg, reason).value
  }

  /** Up to the reply, the streams carry control frames and nothing else. */
  ghost predicate Control(cfg: Cfg, l: Leg)
    requires ValidCfg(cfg)
  {
    var f, ok := ForwardFrame(cfg).value, OkBytes(cfg).value;
    && (!l.taken ==> l.c2s.q <= f || f <= l.c2s.q)
    && (l.taken ==> !l.pc.Waiting?)
    && (!l.taken ==> l.pc.Waiting? || l.pc.Over?)
    && (l.answered ==> l.pc.Relaying?)
    && (l.pc.Relaying? && !l.answered ==> ok <= l.s2c.q)
    && (l.pc.Waiting? || l.pc.Asked? || l.pc.Connected? ==> l.s2c == IDLE)
    && (l.pc.Over? ==> l.s2c.q == [] || l.s2c.q < ok || exists reason :: Denies(cfg, reason, l.s2c.q))
  }

  ghost predicate PumpOk(p: Pump, src: Chan) {
    && |p.buf| <= BUF
    && (p.end.EndedOk? ==> p.buf == [] && src == Chan([], true))
  }

  ghost predicate LegInv(cfg: Cfg, l: Leg)
    requires ValidCfg(cfg)
  {
    && Control(cfg, l)
    && PumpOk(l.up, l.c2s) && PumpOk(l.down, l.out)
    && (!l.pc.Relaying? ==> l.up == START && l.down == START && l.got == [] && !l.gotFin && l.given == [])
    && l.wrote == l.given + DownBody(cfg, l) + l.down.buf + l.out.q
    && (l.pc.Relaying? && l.s2c.fin ==> !l.down.end.Running?)
    && (!l.answered ==> l.given == [])
    && (l.gotFin <==> !l.up.end.Running?)
  }

  lemma PumpMoves(out: seq<byte>, p: Pump, src: Chan, n: nat)
    ensures CanRead(p, src, n) ==>
              var (p', src') := Read(p, src, n);
              out + p'.buf + src'.q == out + p.buf + src.q && |p'.buf| <= BUF
    ensures CanWrite(p, n) ==>
              var (p', bs) := Write(p, n);
              (out + bs) + p'.buf == out + p.buf && |p'.buf| <= |p.buf|
  {
    if CanRead(p, src, n) {
      assert out + src.q[..n] + src.q[n..] == out + src.q;
      assert out + p.buf == out;
    }
    if CanWrite(p, n) {
      assert out + p.buf[..n] + p.buf[n..] == out + p.buf;
    }
  }

  lemma DownBodyFrame(cfg: Cfg, l: Leg, l': Leg)
    requires OkBytes(cfg).Ok? && l'.answered == l.answered && l'.s2c.q == l.s2c.q && l'.pc == l.pc
    ensures DownBody(cfg, l') == DownBody(cfg, l)
  {
  }

  /** Steps of the handshake. */
  lemma ControlStepKeepsLeg(cfg: Cfg, l: Leg, a: LegAction)
    requires ValidCfg(cfg) && LegInv(cfg, l) && LegEnabled(cfg, l, a)
    requires a.SRead? || a.SDeny? || a.SDial? || a.SOk? || a.SGone?
    ensures var l' := LegStep(cfg, l, a);
            LegInv(cfg, l') && UpFlow(cfg, l') == UpFlow(cfg, l) && l'.given == l.given
  {
    hide FrameBytes, NextFrame;
    var l' := LegStep(cfg, l, a);
    match a
    case SRead =>
      var f := ForwardFrame(cfg).value;
      if l.c2s.q < f {
        CutFrameAtFront(cfg, D.TYPE_FORWARD, D.Forward(cfg.target), l.c2s.q);
        assert false;
      } else {
        assert l.c2s.q == f + l.c2s.q[|f|..];
        FrameAtFront(cfg, D.TYPE_FORWARD, D.Forward(cfg.target), l.c2s.q[|f|..]);
      }
    case SDeny(reason, n) => assert Denies(cfg, reason, l'.s2c.q);
    case SDial =>
    case SOk(n) =>
      var ok := OkBytes(cfg).value;
      assert l'.s2c.q == ok[..n];
      if n == |ok| { assert l'.s2c.q == ok && l'.s2c.q[|ok|..] == []; }
    case SGone =>
  }

  lemma TargetStepKeepsLeg(cfg: Cfg, l: Leg, a: LegAction)
    requires ValidCfg(cfg) && LegInv(cfg, l) && LegEnabled(cfg, l, a) && (a.TWrite? || a.TClose?)
    ensures var l' := LegStep(cfg, l, a);
            LegInv(cfg, l') && UpFlow(cfg, l') == UpFlow(cfg, l) && l'.given == l.given
  {
    hide FrameBytes, NextFrame;
    if a.TWrite? {
      assert l.given + DownBody(cfg, l) + l.down.buf + (l.out.q + a.bs) == l.wrote + a.bs;
    }
  }

  lemma UpStepKeepsLeg(cfg: Cfg, l: Leg, a: LegAction)
    requires ValidCfg(cfg) && LegInv(cfg, l) && LegEnabled(cfg, l, a) && (a.UpRead? || a.UpWrite? || a.UpEof? || a.UpFail?)
    ensures var l' := LegStep(cfg, l, a);
            LegInv(cfg, l') && UpFlow(cfg, l') == UpFlow(cfg, l) && l'.given == l.given
  {
    hide FrameBytes, NextFrame, Denies, ForwardFrame, OkBytes, DenyBytes, DownBody;
    var l' := LegStep(cfg, l, a);
    assert l.taken;
    if a.UpRead? || a.UpWrite? {
      PumpMoves(l.got, l.up, l.c2s, a.n);
    }
    assert DownBody(cfg, l') == DownBody(cfg, l) by { DownBodyFrame(cfg, l, l'); }
  }

  /** The reply stream grows behind what the client has not read. */
  lemma DownBodyGrows(cfg: Cfg, l: Leg, l': Leg, bs: seq<byte>)
    requires ValidCfg(cfg) && Control(cfg, l) && l.pc.Relaying?
    requires l'.answered == l.answered && l'.pc == l.pc && l'.s2c.q == l.s2c.q + bs
    ensures DownBody(cfg, l') == DownBody(cfg, l) + bs
  {
    hide FrameBytes, Denies, ForwardFrame, DenyBytes;
  }

  lemma DownKeepsControl(cfg: Cfg, l: Leg, l': Leg)
    requires ValidCfg(cfg) && Control(cfg, l) && l.pc.Relaying? && l'.pc == l.pc
    requires l'.c2s == l.c2s && l'.taken == l.taken && l'.answered == l.answered && l.s2c.q <= l'.s2c.q
    ensures Control(cfg, l')
  {
    hide FrameBytes, Denies, DenyBytes;
  }

  lemma DownReadKeepsLeg(cfg: Cfg, l: Leg, n: nat)
    requires ValidCfg(cfg) && LegInv(cfg, l) && LegEnabled(cfg, l, DownRead(n))
    ensures LegInv(cfg, LegStep(cfg, l, DownRead(n)))
  {
    hide NextFrame, Control, DownBody, ForwardFrame, OkBytes, DenyBytes;
    var l' := LegStep(cfg, l, DownRead(n));
    PumpMoves(l.given + DownBody(cfg, l), l.down, l.out, n);
    DownKeepsControl(cfg, l, l');
    DownBodyFrame(cfg, l, l');
  }

  lemma DownWriteKeepsLeg(cfg: Cfg, l: Leg, n: nat)
    requires ValidCfg(cfg) && LegInv(cfg, l) && LegEnabled(cfg, l, DownWrite(n))
    ensures LegInv(cfg, LegStep(cfg, l, DownWrite(n)))
  {
    hide NextFrame, Control, DownBody, ForwardFrame, OkBytes, DenyBytes;
    var l' := LegStep(cfg, l, DownWrite(n));
    PumpMoves(l.given + DownBody(cfg, l), l.down, l.out, n);
    DownKeepsControl(cfg, l, l');
    DownBodyGrows(cfg, l, l', l.down.buf[..n]);
    assert l.given + (DownBody(cfg, l) + l.down.buf[..n]) == (l.given + DownBody(cfg, l)) + l.down.buf[..n];
  }

  lemma DownEndKeepsLeg(cfg: Cfg, l: Leg, a: LegAction)
    requires ValidCfg(cfg) && LegInv(cfg, l) && LegEnabled(cfg, l, a) && (a.DownEof? || a.DownFail?)
    ensures LegInv(cfg, LegStep(cfg, l, a))
  {
    hide NextFrame, Control, DownBody, ForwardFrame, OkBytes, DenyBytes;
    var l' := LegStep(cfg, l, a);
    DownKeepsControl(cfg, l, l');
    DownBodyFrame(cfg, l, l');
  }

  lemma DownStepKeepsLeg(cfg: Cfg, l: Leg, a: LegAction)
    requires ValidCfg(cfg) && LegInv(cfg, l) && LegEnabled(cfg, l, a) && (a.DownRead? || a.DownWrite? || a.DownEof? || a.DownFail?)
    ensures var l' := LegStep(cfg, l, a);
            LegInv(cfg, l') && UpFlow(cfg, l') == UpFlow(cfg, l) && l'.given == l.given
  {
    hide LegInv, NextFrame, ForwardFrame, OkBytes, DenyBytes;
    match a
    case DownRead(n) => DownReadKeepsLeg(cfg, l, n);
    case DownWrite(n) => DownWriteKeepsLeg(cfg, l, n);
    case _ => DownEndKeepsLeg(cfg, l, a);
  }

  /** Nothing the daemon or a target does creates, loses or reorders bytes. */
  lemma LegStepKeepsLeg(cfg: Cfg, l: Leg, a: LegAction)
    requires ValidCfg(cfg) && LegInv(cfg, l) && LegEnabled(cfg, l, a)
    ensures var l' := LegStep(cfg, l, a);
            LegInv(cfg, l') && UpFlow(cfg, l') == UpFlow(cfg, l) && l'.given == l.given
  {
    if a.SRead? || a.SDeny? || a.SDial? || a.SOk? || a.SGone? {
      ControlStepKeepsLeg(cfg, l, a);
    } else if a.TWrite? || a.TClose? {
      TargetStepKeepsLeg(cfg, l, a);
    } else if a.UpRead? || a.UpWrite? || a.UpEof? || a.UpFail? {
      UpStepKeepsLeg(cfg, l, a);
    } else {
      DownStepKeepsLeg(cfg, l, a);
    }
  }

  // ---- The whole connection ----

  /** A stream that carried no application byte in either direction. */
  ghost predicate Unused(cfg: Cfg, l: Leg)
    requires ValidCfg(cfg)
  {
    UpFlow(cfg, l) == [] && !l.answered
  }

  ghost predicate Legs(cfg: Cfg, w: World)
    requires ValidCfg(cfg)
  {
    && (forall k :: 0 <= k < |w.legs| ==> LegInv(cfg, w.legs[k]))
    && (forall k :: 0 <= k < |w.legs| && !(w.pc.InRelay? && k == |w.legs| - 1) ==> Unused(cfg, w.legs[k]))
  }

  /** Every byte the application wrote is in exactly one place, in order:
      received by the target, in the daemon's buffer, on the stream, in the
      client's buffer, or still unread. The same the other way round. */
  ghost predicate Conserved(cfg: Cfg, w: World)
    requires ValidCfg(cfg) && w.legs != []
  {
    var l := Last(w);
    && l.answered
    && w.appWrote == UpFlow(cfg, l) + w.down.buf + w.app.q
    && l.given == w.toApp + w.up.buf
    && w.down.count == |UpFlow(cfg, l)| + |w.down.buf|
    && w.up.count == |l.given|
    && (l.c2s.fin ==> !w.down.end.Running?)
  }

  ghost predicate Untouched(w: World) {
    w.down == START && w.up == START && w.toApp == [] && !w.toAppFin && w.app.q == w.appWrote
  }

  ghost predicate Inv(cfg: Cfg, w: World)
    requires ValidCfg(cfg)
  {
    && Legs(cfg, w)
    && PumpOk(w.down, w.app)
    && |w.up.buf| <= BUF
    && (w.toAppFin <==> !w.up.end.Running?)
    && (w.pc.Sending? || w.pc.Awaiting? || w.pc.InRelay? ==> w.legs != [])
    && (w.pc.Sending? ==> Last(w).c2s == IDLE && !Last(w).taken)
    && (w.pc.Awaiting? ==> !Last(w).c2s.fin)
    && (if w.pc.InRelay? then Conserved(cfg, w) else Untouched(w))
    && (w.up.end.EndedOk? ==> w.pc.InRelay? && w.up.buf == [] && Last(w).s2c == Chan([], true))
  }

  lemma AppStepKeepsInv(cfg: Cfg, w: World, a: Action)
    requires ValidCfg(cfg) && Inv(cfg, w) && Enabled(cfg, w, a) && (a.AppWrite? || a.AppClose?)
    ensures Inv(cfg, Step(cfg, w, a))
  {
    hide LegInv, UpFlow, FrameBytes, NextFrame, LegEnabled, LegStep;
    if a.AppWrite? && w.pc.InRelay? {
      assert UpFlow(cfg, Last(w)) + w.down.buf + (w.app.q + a.bs) == w.appWrote + a.bs;
    }
  }

  lemma NewLegOk(cfg: Cfg)
    requires ValidCfg(cfg)
    ensures LegInv(cfg, NEW_LEG) && Unused(cfg, NEW_LEG)
  {
    hide FrameBytes;
    assert |ForwardFrame(cfg).value| >= 5 by { FrameLongEnough(D.TYPE_FORWARD, cfg.codec.encode(D.Forward(cfg.target))); }
  }

  lemma FrameLongEnough(t: byte, p: seq<byte>)
    requires FrameBytes(t, p).Ok?
    ensures |FrameBytes(t, p).value| >= 5
  {
  }

  lemma TryStepKeepsInv(cfg: Cfg, w: World, a: Action)
    requires ValidCfg(cfg) && Inv(cfg, w) && Enabled(cfg, w, a)
    requires a.NoSession? || a.OpenFails? || a.Open? || a.ReplyFails? || a.ReplyTimesOut?
    ensures Inv(cfg, Step(cfg, w, a))
  {
    hide LegInv, Unused, FrameBytes, NextFrame, LegEnabled, LegStep, Conserved;
    NewLegOk(cfg);
  }

  lemma SendKeepsInv(cfg: Cfg, w: World, n: nat)
    requires ValidCfg(cfg) && Inv(cfg, w) && Enabled(cfg, w, SendForward(n))
    ensures Inv(cfg, Step(cfg, w, SendForward(n)))
  {
    hide FrameBytes, NextFrame, LegEnabled, LegStep, Conserved, Denies;
    var f := ForwardFrame(cfg).value;
    var l, l' := Last(w), Last(Step(cfg, w, SendForward(n)));
    assert l'.c2s.q == f[..n] && l'.c2s.q <= f;
    assert LegInv(cfg, l) && Unused(cfg, l);
    DownBodyFrame(cfg, l, l');
    assert UpBody(cfg, l') == [];
    assert LegInv(cfg, l') && Unused(cfg, l');
  }

  lemma ReplyKeepsInv(cfg: Cfg, w: World)
    requires ValidCfg(cfg) && Inv(cfg, w) && Enabled(cfg, w, GetReply)
    ensures Inv(cfg, Step(cfg, w, GetReply))
  {
    hide FrameBytes, NextFrame, LegEnabled, LegStep;
    var l := Last(w);
    var ok := OkBytes(cfg).value;
    assert LegInv(cfg, l) && Unused(cfg, l);
    var (t, f, rest) := NextFrame(cfg, l.s2c.q).value;
    if f == D.OkFrame {
      OnlyRelayingLegSaysOk(cfg, l);
      assert l.s2c.q == ok + l.s2c.q[|ok|..];
      FrameAtFront(cfg, D.TYPE_OK, D.OkFrame, l.s2c.q[|ok|..]);
      var l' := Last(Step(cfg, w, GetReply));
      assert DownBody(cfg, l') == DownBody(cfg, l);
      assert LegInv(cfg, l');
      assert UpFlow(cfg, l') == [];
      assert w.appWrote == [] + [] + w.app.q;
    }
  }

  /** The client reads an OK only from a handler that has dialed and relays. */
  lemma OnlyRelayingLegSaysOk(cfg: Cfg, l: Leg)
    requires ValidCfg(cfg) && Control(cfg, l) && !l.answered
    requires NextFrame(cfg, l.s2c.q).Some? && NextFrame(cfg, l.s2c.q).value.1 == D.OkFrame
    ensures l.pc.Relaying?
  {
    hide FrameBytes, NextFrame;
    var ok := OkBytes(cfg).value;
    if !l.pc.Relaying? {
      if l.s2c.q == [] || l.s2c.q < ok {
        NoFrameInPart(cfg, l.s2c.q);
      } else {
        var reason :| Denies(cfg, reason, l.s2c.q);
        var deny := DenyBytes(cfg, reason).value;
        if l.s2c.q == deny {
          assert deny + [] == deny;
          FrameAtFront(cfg, D.TYPE_DENY, D.Deny(reason), []);
        } else {
          CutFrameAtFront(cfg, D.TYPE_DENY, D.Deny(reason), l.s2c.q);
        }
      }
      assert false;
    }
  }

  lemma NoFrameInPart(cfg: Cfg, q: seq<byte>)
    requires ValidCfg(cfg) && (q == [] || q < OkBytes(cfg).value)
    ensures NextFrame(cfg, q).None?
  {
    if q != [] { CutFrameAtFront(cfg, D.TYPE_OK, D.OkFrame, q); }
  }

  lemma FinKeepsLeg(cfg: Cfg, l: Leg, l': Leg)
    requires ValidCfg(cfg) && LegInv(cfg, l) && l' == l.(c2s := l.c2s.(fin := true))
    ensures LegInv(cfg, l') && UpFlow(cfg, l') == UpFlow(cfg, l)
  {
    hide FrameBytes, Denies, ForwardFrame, OkBytes, DenyBytes;
    DownBodyFrame(cfg, l, l');
  }

  lemma DropKeepsInv(cfg: Cfg, w: World, k: nat)
    requires ValidCfg(cfg) && Inv(cfg, w) && Enabled(cfg, w, Drop(k))
    ensures Inv(cfg, Step(cfg, w, Drop(k)))
  {
    hide LegInv, UpFlow, FrameBytes, NextFrame, LegEnabled, LegStep, ForwardFrame, OkBytes, DenyBytes;
    FinKeepsLeg(cfg, w.legs[k], Step(cfg, w, Drop(k)).legs[k]);
  }

  lemma LegStepKeepsInv(cfg: Cfg, w: World, k: nat, la: LegAction)
    requires ValidCfg(cfg) && Inv(cfg, w) && Enabled(cfg, w, OnLeg(k, la))
    ensures Inv(cfg, Step(cfg, w, OnLeg(k, la)))
  {
    hide LegInv, UpFlow, FrameBytes, NextFrame, LegEnabled, LegStep, ForwardFrame, OkBytes, DenyBytes;
    var l := w.legs[k];
    LegStepKeepsLeg(cfg, l, la);
    LegStepFacts(cfg, l, la);
  }

  lemma LegStepFacts(cfg: Cfg, l: Leg, la: LegAction)
    requires ValidCfg(cfg) && LegInv(cfg, l) && LegEnabled(cfg, l, la)
    ensures var l' := LegStep(cfg, l, la);
            && l'.answered == l.answered && l'.c2s.fin == l.c2s.fin
            && (l.c2s == IDLE && !l.taken ==> l'.c2s == IDLE && !l'.taken)
            && (l.answered && l.s2c == Chan([], true) ==> l'.s2c == l.s2c)
  {
    hide FrameBytes;
    if la.SRead? && l.c2s == IDLE {
      NoFrameInPart(cfg, []);
    }
  }

  lemma DownReadWrite(cfg: Cfg, w: World, a: Action)
    requires ValidCfg(cfg) && Inv(cfg, w) && Enabled(cfg, w, a) && (a.CDownRead? || a.CDownWrite?)
    ensures Inv(cfg, Step(cfg, w, a))
  {
    hide FrameBytes, NextFrame, LegEnabled, LegStep, Denies, ForwardFrame, OkBytes, DenyBytes;
    var w' := Step(cfg, w, a);
    var l, l' := Last(w), Last(w');
    assert LegInv(cfg, l) && l.taken;
    PumpMoves(UpFlow(cfg, l), w.down, w.app, a.n);
    if a.CDownWrite? {
      DownBodyFrame(cfg, l, l');
      assert UpFlow(cfg, l') == UpFlow(cfg, l) + w.down.buf[..a.n];
      assert LegInv(cfg, l');
    }
  }

  lemma DownEnds(cfg: Cfg, w: World, a: Action)
    requires ValidCfg(cfg) && Inv(cfg, w) && Enabled(cfg, w, a) && (a.CDownEof? || a.CDownFail?)
    ensures Inv(cfg, Step(cfg, w, a))
  {
    hide LegInv, UpFlow, FrameBytes, NextFrame, LegEnabled, LegStep, ForwardFrame, OkBytes, DenyBytes;
    FinKeepsLeg(cfg, Last(w), Last(Step(cfg, w, a)));
  }

  lemma UpReadWrite(cfg: Cfg, w: World, a: Action)
    requires ValidCfg(cfg) && Inv(cfg, w) && Enabled(cfg, w, a) && (a.CUpRead? || a.CUpWrite?)
    ensures Inv(cfg, Step(cfg, w, a))
  {
    hide LegInv, UpFlow, FrameBytes, NextFrame, LegEnabled, LegStep, ForwardFrame, OkBytes, DenyBytes;
    var w' := Step(cfg, w, a);
    var l, l' := Last(w), Last(w');
    PumpMoves(w.toApp, w.up, l.s2c, a.n);
    if a.CUpRead? {
      assert l.s2c.q == w'.up.buf + l'.s2c.q;
      GivenKeepsLeg(cfg, l, l', a.n);
    }
  }

  /** The client takes `n` bytes from the reply stream. */
  lemma GivenKeepsLeg(cfg: Cfg, l: Leg, l': Leg, n: nat)
    requires ValidCfg(cfg) && LegInv(cfg, l) && l.answered && n <= |l.s2c.q|
    requires l' == l.(s2c := l.s2c.(q := l.s2c.q[n..]), given := l.given + l.s2c.q[..n])
    ensures LegInv(cfg, l') && UpFlow(cfg, l') == UpFlow(cfg, l)
  {
    hide FrameBytes, Denies, ForwardFrame, OkBytes, DenyBytes;
    assert l.s2c.q == l.s2c.q[..n] + l.s2c.q[n..];
    assert l'.given + l'.s2c.q == l.given + l.s2c.q;
  }

  lemma UpEnds(cfg: Cfg, w: World, a: Action)
    requires ValidCfg(cfg) && Inv(cfg, w) && Enabled(cfg, w, a) && (a.CUpEof? || a.CUpFail?)
    ensures Inv(cfg, Step(cfg, w, a))
  {
    hide LegInv, UpFlow, FrameBytes, NextFrame, LegEnabled, LegStep;
  }

  lemma StepKeepsInv(cfg: Cfg, w: World, a: Action)
    requires ValidCfg(cfg) && Inv(cfg, w) && Enabled(cfg, w, a)
    ensures Inv(cfg, Step(cfg, w, a))
  {
    hide Inv, Step, Enabled;
    match a
    case AppWrite(_) => AppStepKeepsInv(cfg, w, a);
    case AppClose => AppStepKeepsInv(cfg, w, a);
    case SendForward(n) => SendKeepsInv(cfg, w, n);
    case GetReply => ReplyKeepsInv(cfg, w);
    case Drop(k) => DropKeepsInv(cfg, w, k);
    case OnLeg(k, la) => LegStepKeepsInv(cfg, w, k, la);
    case CDownRead(_) => DownReadWrite(cfg, w, a);
    case CDownWrite(_) => DownReadWrite(cfg, w, a);
    case CDownEof => DownEnds(cfg, w, a);
    case CDownFail => DownEnds(cfg, w, a);
    case CUpRead(_) => UpReadWrite(cfg, w, a);
    case CUpWrite(_) => UpReadWrite(cfg, w, a);
    case CUpEof => UpEnds(cfg, w, a);
    case CUpFail => UpEnds(cfg, w, a);
    case _ => TryStepKeepsInv(cfg, w, a);
  }

  lemma {:induction false} RunsKeepInv(cfg: Cfg, acts: seq<Action>)
    requires ValidCfg(cfg) && Exec(cfg, acts).Some?
    ensures Inv(cfg, Exec(cfg, acts).value)
  {
    hide Step, Enabled, ForwardFrame, OkBytes;
    if acts != [] {
      RunsKeepInv(cfg, acts[..|acts| - 1]);
      StepKeepsInv(cfg, Exec(cfg, acts[..|acts| - 1]).value, acts[|acts| - 1]);
    }
  }

  // ---- What the two applications may rely on ----

  /** In every run, with any chunking, failures at any point and either
      attempt: what a target received is a prefix of what the application
      wrote, only the relaying stream's target received anything, and what the
      application received is a prefix of what that target wrote. No control
      byte leaks into either, and no pump holds more than its buffer. */
  lemma TunnelIsTransparent(cfg: Cfg, acts: seq<Action>)
    requires ValidCfg(cfg) && Exec(cfg, acts).Some?
    ensures var w := Exec(cfg, acts).value;
            && (forall k :: 0 <= k < |w.legs| ==> w.legs[k].got <= w.appWrote)
            && (forall k :: 0 <= k < |w.legs| && w.legs[k].got != [] ==> w.pc.InRelay? && k == |w.legs| - 1)
            && (w.toApp != [] ==> w.pc.InRelay?)
            && (w.pc.InRelay? ==> w.legs != [] && w.toApp <= Last(w).wrote)
            && |w.down.buf| <= BUF && |w.up.buf| <= BUF
            && (forall k :: 0 <= k < |w.legs| ==> |w.legs[k].up.buf| <= BUF && |w.legs[k].down.buf| <= BUF)
  {
    hide Exec, ForwardFrame, OkBytes, Control, DownBody, UpBody;
    RunsKeepInv(cfg, acts);
    var w := Exec(cfg, acts).value;
    forall k | 0 <= k < |w.legs|
      ensures w.legs[k].got <= w.appWrote && (w.legs[k].got != [] ==> w.pc.InRelay? && k == |w.legs| - 1)
    {
      assert LegInv(cfg, w.legs[k]);
      if !(w.pc.InRelay? && k == |w.legs| - 1) { assert Unused(cfg, w.legs[k]); }
    }
  }

  /** Where a direction's bytes are when they are not yet delivered: in the
      writer's channel, in the two buffers, or on the stream. */
  predicate NothingLeft(first: Chan, near: Pump, stream: Chan, far: Pump) {
    first.q == [] && near.buf == [] && stream.q == [] && far.buf == []
  }

  /** The exact condition, in every run and so also at the end of a stream: a
      receiver has everything that was written if and only if neither channel
      and neither copy loop of that direction holds a byte. */
  lemma DeliveredIffNothingLeft(cfg: Cfg, acts: seq<Action>)
    requires ValidCfg(cfg) && Exec(cfg, acts).Some? && Exec(cfg, acts).value.pc.InRelay?
    ensures var w := Exec(cfg, acts).value;
            && w.legs != []
            && (Last(w).got == w.appWrote <==> NothingLeft(w.app, w.down, Last(w).c2s, Last(w).up))
            && (w.toApp == Last(w).wrote <==> NothingLeft(Last(w).out, Last(w).down, Last(w).s2c, w.up))
  {
    hide Exec, ForwardFrame, OkBytes, Denies, DenyBytes;
    RunsKeepInv(cfg, acts);
    var w := Exec(cfg, acts).value;
    var l := Last(w);
    assert LegInv(cfg, l);
    assert w.appWrote == l.got + l.up.buf + l.c2s.q + w.down.buf + w.app.q;
    assert l.wrote == w.toApp + w.up.buf + l.s2c.q + l.down.buf + l.out.q;
  }

  /** If the two copy loops of a direction both end without an error, the
      receiver has everything the sender wrote by the time it sees the end. */
  lemma CleanEndDeliversAll(cfg: Cfg, acts: seq<Action>)
    requires ValidCfg(cfg) && Exec(cfg, acts).Some? && Exec(cfg, acts).value.pc.InRelay?
    ensures var w := Exec(cfg, acts).value;
            && w.legs != []
            && (w.down.end.EndedOk? && Last(w).up.end.EndedOk? ==> w.app.fin && Last(w).gotFin && Last(w).got == w.appWrote)
            && (w.up.end.EndedOk? && Last(w).down.end.EndedOk? ==> Last(w).out.fin && w.toAppFin && w.toApp == Last(w).wrote)
  {
    hide Exec, ForwardFrame, OkBytes;
    DeliveredIffNothingLeft(cfg, acts);
    RunsKeepInv(cfg, acts);
    var w := Exec(cfg, acts).value;
    assert LegInv(cfg, Last(w));
  }

  /** The counters count the bytes read from each side, whatever was delivered. */
  lemma CountersCountBytesRead(cfg: Cfg, acts: seq<Action>)
    requires ValidCfg(cfg) && Exec(cfg, acts).Some? && Exec(cfg, acts).value.pc.InRelay?
    ensures var w := Exec(cfg, acts).value;
            && w.legs != []
            && w.down.count + |w.app.q| == |w.appWrote| && |Last(w).got| <= w.down.count
            && w.up.count == |w.toApp| + |w.up.buf| && w.up.count <= |Last(w).wrote|
  {
    hide Exec, ForwardFrame, OkBytes;
    RunsKeepInv(cfg, acts);
    var w := Exec(cfg, acts).value;
    assert LegInv(cfg, Last(w));
  }

  /** How many streams were opened by the time the client is at `pc`. */
  predicate Attempts(pc: ClientPc, opens: nat) {
    match pc
    case Trying(attempt) => attempt <= 1 && opens <= attempt
    case Sending(attempt) => attempt <= 1 && 1 <= opens <= attempt + 1
    case Awaiting(attempt) => attempt <= 1 && 1 <= opens <= attempt + 1
    case InRelay => 1 <= opens <= 2
    case Ended => opens <= 2
  }

  /** One local connection opens at most two streams, and the second only
      after the first attempt failed. */
  lemma {:induction false} AtMostTwoStreams(cfg: Cfg, acts: seq<Action>)
    requires Exec(cfg, acts).Some?
    ensures Attempts(Exec(cfg, acts).value.pc, |Exec(cfg, acts).value.legs|)
  {
    hide Step, Enabled;
    if acts != [] {
      var front, a := acts[..|acts| - 1], acts[|acts| - 1];
      AtMostTwoStreams(cfg, front);
      var w := Exec(cfg, front).value;
      if a.NoSession? || a.OpenFails? || a.Open? || a.SendForward? || a.GetReply? || a.ReplyFails? || a.ReplyTimesOut? {
        TryCountsStreams(cfg, w, a);
      } else {
        OtherOpensNone(cfg, w, a);
      }
    }
  }

  lemma TryCountsStreams(cfg: Cfg, w: World, a: Action)
    requires Attempts(w.pc, |w.legs|) && Enabled(cfg, w, a)
    requires a.NoSession? || a.OpenFails? || a.Open? || a.SendForward? || a.GetReply? || a.ReplyFails? || a.ReplyTimesOut?
    ensures Attempts(Step(cfg, w, a).pc, |Step(cfg, w, a).legs|)
  {
    hide NextFrame, ForwardFrame, LegStep, LegEnabled;
  }

  lemma OtherOpensNone(cfg: Cfg, w: World, a: Action)
    requires Enabled(cfg, w, a)
    requires !(a.NoSession? || a.OpenFails? || a.Open? || a.SendForward? || a.GetReply? || a.ReplyFails? || a.ReplyTimesOut?)
    ensures Step(cfg, w, a).pc == w.pc && |Step(cfg, w, a).legs| == |w.legs|
  {
    hide NextFrame, ForwardFrame, LegStep, LegEnabled;
  }

  // ---- Exactly one retry, read off the actions of a run ----

  /** The connection failed under the client: no stream could be opened, the
      FORWARD was not written whole, or no reply came. */
  predicate Fails(cfg: Cfg, a: Action) {
    a.OpenFails? || a.ReplyFails? || (a.SendForward? && ForwardFrame(cfg).Ok? && a.n < |ForwardFrame(cfg).value|)
  }

  function Failures(cfg: Cfg, acts: seq<Action>): nat {
    if acts == [] then 0 else Failures(cfg, acts[..|acts| - 1]) + if Fails(cfg, acts[|acts| - 1]) then 1 else 0
  }

  /** The reply that a step reads. */
  function ReplyRead(cfg: Cfg, w: World, a: Action): Option<D.DataFrame> {
    if a.GetReply? && w.legs != [] && NextFrame(cfg, Last(w).s2c.q).Some? then Some(NextFrame(cfg, Last(w).s2c.q).value.1) else None
  }

  /** The client gave up for good: no session, no reply in time, or another
      reply than OK. */
  predicate GivesUp(cfg: Cfg, w: World, a: Action) {
    a.NoSession? || a.ReplyTimesOut? || (ReplyRead(cfg, w, a).Some? && ReplyRead(cfg, w, a).value != D.OkFrame)
  }

  predicate GaveUp(cfg: Cfg, acts: seq<Action>) {
    acts != [] && (GaveUp(cfg, acts[..|acts| - 1]) ||
                   (Exec(cfg, acts[..|acts| - 1]).Some? && GivesUp(cfg, Exec(cfg, acts[..|acts| - 1]).value, acts[|acts| - 1])))
  }

  predicate GotOk(cfg: Cfg, acts: seq<Action>) {
    acts != [] && (GotOk(cfg, acts[..|acts| - 1]) ||
                   (Exec(cfg, acts[..|acts| - 1]).Some?
                    && ReplyRead(cfg, Exec(cfg, acts[..|acts| - 1]).value, acts[|acts| - 1]) == Some(D.OkFrame)))
  }

  /** Where the client is, by what happened to it. */
  ghost predicate Standing(pc: ClientPc, failures: nat, gaveUp: bool, gotOk: bool) {
    match pc
    case Trying(attempt) => attempt == failures <= 1 && !gaveUp && !gotOk
    case Sending(attempt) => attempt == failures <= 1 && !gaveUp && !gotOk
    case Awaiting(attempt) => attempt == failures <= 1 && !gaveUp && !gotOk
    case InRelay => failures <= 1 && !gaveUp && gotOk
    case Ended => !gotOk && (if gaveUp then failures <= 1 else failures == 2)
  }

  predicate OwnStep(a: Action) {
    a.NoSession? || a.OpenFails? || a.Open? || a.SendForward? || a.GetReply? || a.ReplyFails? || a.ReplyTimesOut?
  }

  lemma StandingStep(cfg: Cfg, w: World, a: Action, failures: nat, gaveUp: bool, gotOk: bool)
    requires Standing(w.pc, failures, gaveUp, gotOk) && Enabled(cfg, w, a)
    ensures Standing(Step(cfg, w, a).pc, failures + (if Fails(cfg, a) then 1 else 0), gaveUp || GivesUp(cfg, w, a),
                     gotOk || ReplyRead(cfg, w, a) == Some(D.OkFrame))
  {
    hide NextFrame, ForwardFrame, LegStep, LegEnabled;
    if !OwnStep(a) { OtherOpensNone(cfg, w, a); }
  }

  lemma {:induction false} RunsStand(cfg: Cfg, acts: seq<Action>)
    requires Exec(cfg, acts).Some?
    ensures Standing(Exec(cfg, acts).value.pc, Failures(cfg, acts), GaveUp(cfg, acts), GotOk(cfg, acts))
  {
    hide Step, Enabled, Standing, Fails, GivesUp, ReplyRead;
    if acts == [] {
      StandingAtFirst();
    } else {
      RunsStand(cfg, acts[..|acts| - 1]);
      var front := acts[..|acts| - 1];
      StandingStep(cfg, Exec(cfg, front).value, acts[|acts| - 1], Failures(cfg, front), GaveUp(cfg, front), GotOk(cfg, front));
    }
  }

  lemma StandingAtFirst()
    ensures Standing(INIT.pc, 0, false, false)
  {
  }

  /** Over every run: the client relays exactly if it was answered OK, and it is
      through exactly if it gave up or the connection failed under it twice. In
      all other cases its attempt is the number of failures so far, so after one
      failure the second attempt is under way or can be begun. */
  lemma RetriesExactlyOnce(cfg: Cfg, acts: seq<Action>)
    requires Exec(cfg, acts).Some?
    ensures var w := Exec(cfg, acts).value;
            && (w.pc.InRelay? <==> GotOk(cfg, acts))
            && (w.pc.Ended? <==> GaveUp(cfg, acts) || Failures(cfg, acts) == 2)
            && (!w.pc.InRelay? && !w.pc.Ended? ==> w.pc.attempt == Failures(cfg, acts) <= 1)
            && (w.pc.Trying? ==> Enabled(cfg, w, Open))
            && Failures(cfg, acts) <= 2
  {
    hide Exec, Failures, GaveUp, GotOk, NextFrame, ForwardFrame, LegEnabled;
    RunsStand(cfg, acts);
  }

  // ---- Half-close ----

  ghost predicate Fins(w: World) {
    && (forall k :: 0 <= k < |w.legs| && w.legs[k].pc.Relaying? && !w.legs[k].down.end.Running? ==> w.legs[k].s2c.fin)
    && (w.pc.InRelay? && w.legs != [] && !w.down.end.Running? ==> Last(w).c2s.fin)
  }

  lemma LegKeepsFin(cfg: Cfg, l: Leg, la: LegAction)
    requires ValidCfg(cfg) && LegInv(cfg, l) && LegEnabled(cfg, l, la)
    requires l.pc.Relaying? && !l.down.end.Running? ==> l.s2c.fin
    ensures var l' := LegStep(cfg, l, la);
            (l'.pc.Relaying? && !l'.down.end.Running? ==> l'.s2c.fin) && l'.c2s.fin == l.c2s.fin
  {
    hide NextFrame, Control, UpBody, DownBody, FrameBytes;
  }

  lemma StepKeepsFins(cfg: Cfg, w: World, a: Action)
    requires ValidCfg(cfg) && Inv(cfg, w) && Enabled(cfg, w, a) && Fins(w)
    ensures Fins(Step(cfg, w, a))
  {
    hide LegInv, UpFlow, NextFrame, LegEnabled, LegStep, ForwardFrame, OkBytes, DenyBytes, Conserved, Unused;
    if a.OnLeg? {
      LegKeepsFin(cfg, w.legs[a.k], a.a);
    }
  }

  lemma {:induction false} RunsKeepFins(cfg: Cfg, acts: seq<Action>)
    requires ValidCfg(cfg) && Exec(cfg, acts).Some?
    ensures Fins(Exec(cfg, acts).value)
  {
    hide Step, Enabled, ForwardFrame, OkBytes;
    if acts != [] {
      hide Fins, Inv;
      var front := acts[..|acts| - 1];
      RunsKeepFins(cfg, front);
      RunsKeepInv(cfg, front);
      StepKeepsFins(cfg, Exec(cfg, front).value, acts[|acts| - 1]);
    }
  }

  /** Half-close is passed on exactly: each of the four receivers sees an end if
      and only if the copy loop before it has ended. */
  lemma EndsArePassedOn(cfg: Cfg, acts: seq<Action>)
    requires ValidCfg(cfg) && Exec(cfg, acts).Some? && Exec(cfg, acts).value.pc.InRelay?
    ensures var w := Exec(cfg, acts).value;
            && w.legs != [] && Last(w).pc.Relaying?
            && (Last(w).c2s.fin <==> !w.down.end.Running?)
            && (Last(w).gotFin <==> !Last(w).up.end.Running?)
            && (Last(w).s2c.fin <==> !Last(w).down.end.Running?)
            && (w.toAppFin <==> !w.up.end.Running?)
  {
    hide Exec, ForwardFrame, OkBytes, DenyBytes, Denies;
    RunsKeepInv(cfg, acts);
    RunsKeepFins(cfg, acts);
    var w := Exec(cfg, acts).value;
    assert LegInv(cfg, Last(w));
  }

  // ---- The end of a stream alone does not promise delivery ----

  ghost predicate Reachable(cfg: Cfg, w: World) {
    exists acts :: Exec(cfg, acts) == Some(w)
  }

  lemma Go(cfg: Cfg, w: World, a: Action) returns (w': World)
    requires Reachable(cfg, w) && Enabled(cfg, w, a)
    ensures w' == Step(cfg, w, a) && Reachable(cfg, w')
  {
    var acts :| Exec(cfg, acts) == Some(w);
    assert (acts + [a])[..|acts|] == acts;
    w' := Step(cfg, w, a);
    assert Exec(cfg, acts + [a]) == Some(w');
  }

  lemma Begin(cfg: Cfg) returns (w: World)
    ensures w == INIT && Reachable(cfg, w)
  {
    w := INIT;
    assert Exec(cfg, []) == Some(w);
  }

  lemma RunToForward(cfg: Cfg, bs: seq<byte>) returns (w: World)
    requires ValidCfg(cfg)
    ensures Reachable(cfg, w) && w.pc == Awaiting(0) && w.appWrote == bs && w.app == Chan(bs, true) && w.down == START
    ensures w.up == START && w.toApp == [] && !w.toAppFin
    ensures w.legs == [NEW_LEG.(c2s := Chan(ForwardFrame(cfg).value, false))]
  {
    hide Exec, Reachable, FrameBytes, NextFrame, LegStep, LegEnabled;
    w := Begin(cfg);
    w := Go(cfg, w, AppWrite(bs));
    w := Go(cfg, w, AppClose);
    w := Go(cfg, w, Open);
    var f := ForwardFrame(cfg).value;
    w := Go(cfg, w, SendForward(|f|));
    assert [] + f[..|f|] == f;
  }

  lemma RunToOk(cfg: Cfg, w: World) returns (w': World)
    requires ValidCfg(cfg) && Reachable(cfg, w)
    requires w.legs != [] && Last(w) == NEW_LEG.(c2s := Chan(ForwardFrame(cfg).value, false))
    ensures Reachable(cfg, w')
    ensures w' == SetLast(w, NEW_LEG.(pc := Relaying, taken := true, s2c := Chan(OkBytes(cfg).value, false)))
  {
    hide Exec, Reachable, FrameBytes, NextFrame;
    var k := |w.legs| - 1;
    assert w.legs[k].c2s.q == ForwardFrame(cfg).value + [];
    FrameAtFront(cfg, D.TYPE_FORWARD, D.Forward(cfg.target), []);
    w' := Go(cfg, w, OnLeg(k, SRead));
    w' := Go(cfg, w', OnLeg(k, SDial));
    var ok := OkBytes(cfg).value;
    w' := Go(cfg, w', OnLeg(k, SOk(|ok|)));
    assert [] + ok[..|ok|] == ok;
  }

  lemma RunToRelay(cfg: Cfg, w: World) returns (w': World)
    requires ValidCfg(cfg) && Reachable(cfg, w) && w.pc.Awaiting?
    requires w.legs != [] && Last(w) == NEW_LEG.(pc := Relaying, taken := true, s2c := Chan(OkBytes(cfg).value, false))
    ensures Reachable(cfg, w') && w' == SetLast(w, NEW_LEG.(pc := Relaying, taken := true, answered := true)).(pc := InRelay)
  {
    hide Exec, Reachable, FrameBytes, NextFrame, LegStep, LegEnabled;
    assert Last(w).s2c.q == OkBytes(cfg).value + [];
    FrameAtFront(cfg, D.TYPE_OK, D.OkFrame, []);
    w' := Go(cfg, w, GetReply);
  }

  /** Whatever the application writes, there is a run in which it closes its
      side, the target sees a clean end of stream, and no byte arrived: a copy
      loop that fails still finishes the stream behind it. */
  lemma EndWithoutDelivery(cfg: Cfg, bs: seq<byte>) returns (w: World)
    requires ValidCfg(cfg) && bs != []
    ensures Reachable(cfg, w) && w.pc.InRelay? && w.legs != []
    ensures w.appWrote == bs && w.app.fin && Last(w).gotFin && Last(w).up.end.EndedOk? && Last(w).got == []
  {
    hide Exec, Reachable, FrameBytes, NextFrame;
    w := RunToForward(cfg, bs);
    w := RunToOk(cfg, w);
    w := RunToRelay(cfg, w);
    hide ForwardFrame, OkBytes, DenyBytes;
    w := Go(cfg, w, CDownFail);
    w := Go(cfg, w, OnLeg(0, UpEof));
  }
}
