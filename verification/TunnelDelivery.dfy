/** A run for every pair of payloads: the first stream fails, the second one
    carries everything both ways, and every copy loop ends cleanly. */
module TunnelDelivery {
  import opened Prelude
  import opened Framing
  import opened Tunnel
  import opened TunnelRuns

  /** A relaying stream over which `got` reached the target and `given` came
      back, with `rest` still to be read from the target. */
  function Relay(got: seq<byte>, ups: nat, wrote: seq<byte>, out: Chan, given: seq<byte>, downs: nat): Leg {
    Leg(IDLE, IDLE, Relaying, true, true, Pump([], Running, ups), Pump([], Running, downs), got, false, wrote, out, given)
  }

  /** The client relays over the second stream. */
  function During(first: Leg, l: Leg, appWrote: seq<byte>, app: Chan, toApp: seq<byte>, downs: nat, ups: nat): World {
    World(appWrote, app, toApp, false, InRelay, [first, l], Pump([], Running, downs), Pump([], Running, ups))
  }

  function Chunk(rest: seq<byte>): (n: nat)
    requires rest != []
    ensures 1 <= n <= BUF && n <= |rest|
  {
    if |rest| < BUF then |rest| else BUF
  }

  // ---- From the application to the target ----

  /** One chunk goes through the client's copy loop. */
  lemma ClientCopiesUp(cfg: Cfg, first: Leg, l: Leg, sent: seq<byte>, rest: seq<byte>, downs: nat)
    requires rest != [] && l.c2s == IDLE && Reachable(cfg, During(first, l, sent, Chan(rest, true), [], downs, 0))
    ensures var n := Chunk(rest);
            Reachable(cfg, During(first, l.(c2s := Chan(rest[..n], false)), sent, Chan(rest[n..], true), [], downs + n, 0))
  {
    hide Exec, Reachable, NextFrame, ForwardFrame, LegStep, LegEnabled;
    var n := Chunk(rest);
    var w := Go(cfg, During(first, l, sent, Chan(rest, true), [], downs, 0), CDownRead(n));
    w := Go(cfg, w, CDownWrite(n));
    assert Last(w).c2s.q == rest[..n] && w.down.buf == [];
    assert w.legs == [first, Last(w)];
  }

  /** And then through the daemon's. */
  lemma DaemonCopiesUp(cfg: Cfg, first: Leg, l: Leg, bs: seq<byte>, w: World)
    requires 1 <= |bs| <= BUF && l.pc.Relaying? && l.c2s == IDLE && l.up.buf == [] && l.up.end.Running?
    requires Reachable(cfg, w) && w.legs == [first, l.(c2s := Chan(bs, false))]
    ensures Reachable(cfg, w.(legs := [first, l.(up := l.up.(count := l.up.count + |bs|), got := l.got + bs)]))
  {
    hide Exec, Reachable, NextFrame, ForwardFrame, OkBytes, DenyBytes;
    var v := Go(cfg, w, OnLeg(1, UpRead(|bs|)));
    assert bs[..|bs|] == bs && bs[|bs|..] == [];
    v := Go(cfg, v, OnLeg(1, UpWrite(|bs|)));
    assert v.legs == [first, l.(up := l.up.(count := l.up.count + |bs|), got := l.got + bs)];
  }

  lemma OneChunkUp(cfg: Cfg, first: Leg, got: seq<byte>, ups: nat, wrote: seq<byte>, sent: seq<byte>, rest: seq<byte>, downs: nat)
    requires rest != []
    requires Reachable(cfg, During(first, Relay(got, ups, wrote, Chan(wrote, true), [], 0), sent, Chan(rest, true), [], downs, 0))
    ensures var n := Chunk(rest);
            Reachable(cfg, During(first, Relay(got + rest[..n], ups + n, wrote, Chan(wrote, true), [], 0), sent, Chan(rest[n..], true), [], downs + n, 0))
  {
    hide Reachable;
    var n, l := Chunk(rest), Relay(got, ups, wrote, Chan(wrote, true), [], 0);
    ClientCopiesUp(cfg, first, l, sent, rest, downs);
    DaemonCopiesUp(cfg, first, l, rest[..n], During(first, l.(c2s := Chan(rest[..n], false)), sent, Chan(rest[n..], true), [], downs + n, 0));
  }

  lemma {:induction false} AllChunksUp(cfg: Cfg, first: Leg, got: seq<byte>, ups: nat, wrote: seq<byte>, sent: seq<byte>, rest: seq<byte>, downs: nat)
    requires Reachable(cfg, During(first, Relay(got, ups, wrote, Chan(wrote, true), [], 0), sent, Chan(rest, true), [], downs, 0))
    ensures Reachable(cfg, During(first, Relay(got + rest, ups + |rest|, wrote, Chan(wrote, true), [], 0), sent, Chan([], true), [], downs + |rest|, 0))
    decreases |rest|
  {
    hide Reachable;
    if rest == [] {
      assert got + rest == got;
    } else {
      var n := Chunk(rest);
      OneChunkUp(cfg, first, got, ups, wrote, sent, rest, downs);
      AllChunksUp(cfg, first, got + rest[..n], ups + n, wrote, sent, rest[n..], downs + n);
      assert got + rest[..n] + rest[n..] == got + rest;
    }
  }

  // ---- From the target to the application ----

  lemma DaemonCopiesDown(cfg: Cfg, first: Leg, l: Leg, w: World)
    requires l.pc.Relaying? && l.s2c == IDLE && l.down.buf == [] && l.down.end.Running? && l.out.q != []
    requires Reachable(cfg, w) && w.legs == [first, l]
    ensures var n := Chunk(l.out.q);
            Reachable(cfg, w.(legs := [first, l.(s2c := Chan(l.out.q[..n], false), out := l.out.(q := l.out.q[n..]), down := l.down.(count := l.down.count + n))]))
  {
    hide Exec, Reachable, NextFrame, ForwardFrame, OkBytes, DenyBytes;
    var n := Chunk(l.out.q);
    var v := Go(cfg, w, OnLeg(1, DownRead(n)));
    v := Go(cfg, v, OnLeg(1, DownWrite(n)));
    assert Last(v).s2c.q == l.out.q[..n] && Last(v).down.buf == [];
    assert v.legs == [first, Last(v)];
  }

  lemma ClientCopiesDown(cfg: Cfg, first: Leg, l: Leg, bs: seq<byte>, sent: seq<byte>, toApp: seq<byte>, cdowns: nat, ups: nat)
    requires 1 <= |bs| <= BUF && l.s2c == IDLE
    requires Reachable(cfg, During(first, l.(s2c := Chan(bs, false)), sent, Chan([], true), toApp, cdowns, ups))
    ensures Reachable(cfg, During(first, l.(given := l.given + bs), sent, Chan([], true), toApp + bs, cdowns, ups + |bs|))
  {
    hide Exec, Reachable, NextFrame, ForwardFrame, LegStep, LegEnabled;
    var v := Go(cfg, During(first, l.(s2c := Chan(bs, false)), sent, Chan([], true), toApp, cdowns, ups), CUpRead(|bs|));
    assert bs[..|bs|] == bs && bs[|bs|..] == [];
    v := Go(cfg, v, CUpWrite(|bs|));
    assert v.legs == [first, l.(given := l.given + bs)];
  }

  lemma OneChunkDown(cfg: Cfg, first: Leg, got: seq<byte>, ups: nat, wrote: seq<byte>, given: seq<byte>, rest: seq<byte>, downs: nat, sent: seq<byte>, cdowns: nat)
    requires rest != []
    requires Reachable(cfg, During(first, Relay(got, ups, wrote, Chan(rest, true), given, downs), sent, Chan([], true), given, cdowns, downs))
    ensures var n := Chunk(rest);
            Reachable(cfg, During(first, Relay(got, ups, wrote, Chan(rest[n..], true), given + rest[..n], downs + n), sent, Chan([], true), given + rest[..n], cdowns, downs + n))
  {
    hide Reachable;
    var n, l := Chunk(rest), Relay(got, ups, wrote, Chan(rest, true), given, downs);
    DaemonCopiesDown(cfg, first, l, During(first, l, sent, Chan([], true), given, cdowns, downs));
    ClientCopiesDown(cfg, first, Relay(got, ups, wrote, Chan(rest[n..], true), given, downs + n), rest[..n], sent, given, cdowns, downs);
  }

  lemma {:induction false} AllChunksDown(cfg: Cfg, first: Leg, got: seq<byte>, ups: nat, wrote: seq<byte>, given: seq<byte>, rest: seq<byte>, downs: nat, sent: seq<byte>, cdowns: nat)
    requires Reachable(cfg, During(first, Relay(got, ups, wrote, Chan(rest, true), given, downs), sent, Chan([], true), given, cdowns, downs))
    ensures Reachable(cfg, During(first, Relay(got, ups, wrote, Chan([], true), given + rest, downs + |rest|), sent, Chan([], true), given + rest, cdowns, downs + |rest|))
    decreases |rest|
  {
    hide Reachable;
    if rest == [] {
      assert given + rest == given;
    } else {
      var n := Chunk(rest);
      OneChunkDown(cfg, first, got, ups, wrote, given, rest, downs, sent, cdowns);
      AllChunksDown(cfg, first, got, ups, wrote, given + rest[..n], rest[n..], downs + n, sent, cdowns);
      assert given + rest[..n] + rest[n..] == given + rest;
    }
  }

  // ---- The whole run ----

  /** The first stream gets no reply; the second is answered OK. */
  lemma SecondStream(cfg: Cfg, bs: seq<byte>, rs: seq<byte>) returns (first: Leg)
    requires ValidCfg(cfg)
    ensures Reachable(cfg, During(first, Relay([], 0, rs, Chan(rs, true), [], 0), bs, Chan(bs, true), [], 0, 0))
  {
    hide Exec, Reachable, NextFrame, LegStep, LegEnabled, FrameBytes;
    var w := RunToForward(cfg, bs);
    first := w.legs[0];
    w := Go(cfg, w, ReplyFails);
    w := Go(cfg, w, Open);
    var f := ForwardFrame(cfg).value;
    w := Go(cfg, w, SendForward(|f|));
    assert [] + f[..|f|] == f;
    assert w.legs == [first, NEW_LEG.(c2s := Chan(f, false))];
    w := RunToOk(cfg, w);
    w := RunToRelay(cfg, w);
    assert w.legs == [first, NEW_LEG.(pc := Relaying, taken := true, answered := true)];
    Answering(cfg, w, rs);
  }

  /** The target writes its answer and closes. */
  lemma Answering(cfg: Cfg, w: World, rs: seq<byte>)
    requires Reachable(cfg, w) && |w.legs| == 2 && w.legs[1] == NEW_LEG.(pc := Relaying, taken := true, answered := true)
    ensures Reachable(cfg, w.(legs := [w.legs[0], Relay([], 0, rs, Chan(rs, true), [], 0)]))
  {
    hide Exec, Reachable, NextFrame, ForwardFrame, OkBytes, DenyBytes;
    var w' := Go(cfg, w, OnLeg(1, TWrite(rs)));
    w' := Go(cfg, w', OnLeg(1, TClose));
    assert [] + rs == rs;
    assert w'.legs == [w.legs[0], Relay([], 0, rs, Chan(rs, true), [], 0)];
  }

  /** The four copy loops end, each after the one before it. */
  lemma AllEnd(cfg: Cfg, w: World) returns (w': World)
    requires Reachable(cfg, w) && w.pc.InRelay? && |w.legs| == 2 && w.app == Chan([], true)
    requires w.down.buf == [] && w.down.end.Running? && w.up.buf == [] && w.up.end.Running?
    requires Last(w).pc.Relaying? && Last(w).c2s == IDLE && Last(w).s2c == IDLE && Last(w).out == Chan([], true)
    requires Last(w).up.buf == [] && Last(w).up.end.Running? && Last(w).down.buf == [] && Last(w).down.end.Running?
    ensures Reachable(cfg, w') && w'.pc.InRelay? && |w'.legs| == 2 && w'.appWrote == w.appWrote && w'.toApp == w.toApp
    ensures Last(w').got == Last(w).got && Last(w').wrote == Last(w).wrote && Last(w').gotFin && w'.toAppFin
    ensures w'.down.end.EndedOk? && Last(w').up.end.EndedOk? && w'.up.end.EndedOk? && Last(w').down.end.EndedOk?
  {
    hide Exec, Reachable, NextFrame, ForwardFrame, OkBytes, DenyBytes;
    w' := Go(cfg, w, CDownEof);
    w' := Go(cfg, w', OnLeg(1, UpEof));
    w' := Go(cfg, w', OnLeg(1, DownEof));
    w' := Go(cfg, w', CUpEof);
  }

  /** For every request and answer, however long: the first stream fails, the
      second delivers all of both, and both sides see the end. */
  lemma SecondStreamDeliversEverything(cfg: Cfg, bs: seq<byte>, rs: seq<byte>) returns (w: World)
    requires ValidCfg(cfg)
    ensures Reachable(cfg, w) && w.pc.InRelay? && |w.legs| == 2 && w.legs[0].got == []
    ensures w.appWrote == Last(w).got == bs && Last(w).gotFin && w.down.end.EndedOk? && Last(w).up.end.EndedOk?
    ensures Last(w).wrote == w.toApp == rs && w.toAppFin && w.up.end.EndedOk? && Last(w).down.end.EndedOk?
  {
    hide Exec, Reachable, NextFrame, ForwardFrame, OkBytes, DenyBytes;
    var first := SecondStream(cfg, bs, rs);
    AllChunksUp(cfg, first, [], 0, rs, bs, bs, 0);
    assert [] + bs == bs;
    AllChunksDown(cfg, first, bs, |bs|, rs, [], rs, 0, bs, |bs|);
    assert [] + rs == rs;
    w := During(first, Relay(bs, |bs|, rs, Chan([], true), rs, |rs|), bs, Chan([], true), rs, |bs|, |rs|);
    w := AllEnd(cfg, w);
    FirstGotNothing(cfg, w);
  }

  lemma FirstGotNothing(cfg: Cfg, w: World)
    requires ValidCfg(cfg) && Reachable(cfg, w) && |w.legs| == 2
    ensures w.legs[0].got == []
  {
    hide Exec;
    var acts :| Exec(cfg, acts) == Some(w);
    TunnelIsTransparent(cfg, acts);
  }
}
