/** Runs of the composed system: pairing succeeds on both sides; only the
    daemon believes it did; a denial whose reason the client does not report. */
module PairingWitness {
  import opened Prelude
  import opened PairFrames
  import opened Invites
  import opened InviteLocal
  import opened InviteLaws
  import opened PairingAgreement
  import P = PeerStore

  ghost predicate SysReachable(cfg: Cfg, s0: System, s: System) {
    exists acts :: SysExec(cfg, s0, acts) == Some(s)
  }

  lemma SysGo(cfg: Cfg, s0: System, s: System, a: SysAction) returns (s': System)
    requires SysReachable(cfg, s0, s) && SysEnabled(cfg, s, a)
    ensures s' == SysStep(cfg, s, a) && SysReachable(cfg, s0, s')
  {
    hide SysEnabled, SysStep;
    var acts :| SysExec(cfg, s0, acts) == Some(s);
    assert (acts + [a])[..|acts|] == acts;
    s' := SysStep(cfg, s, a);
    assert SysExec(cfg, s0, acts + [a]) == Some(s');
  }

  /** The daemon moves, not by reading from the client. */
  lemma DaemonGo(cfg: Cfg, s0: System, s: System, a: Action) returns (w': World)
    requires SysReachable(cfg, s0, s) && Enabled(cfg, s.w, a) && !(a.OnConn? && a.ca.GotFrame?)
    ensures w' == Step(cfg, s.w, a) && SysReachable(cfg, s0, System(w', s.client))
  {
    hide Enabled, Step, SysReachable;
    var s' := SysGo(cfg, s0, s, Daemon(a));
    w' := s'.w;
  }

  lemma LoopGo(cfg: Cfg, s0: System, inv: Invite, replies: seq<(InviteId, DecideReply)>, client: Client, la: LoopAction)
    requires SysReachable(cfg, s0, System(Solo([], inv, replies), client)) && LoopEnabled(inv, la)
    ensures SysReachable(cfg, s0, System(Solo([], LoopStep(inv, la), replies), client))
  {
    hide SysReachable, LoopEnabled, LoopStep;
    var w := DaemonGo(cfg, s0, System(Solo([], inv, replies), client), OnLoop(0, la));
    assert w == Solo([], LoopStep(inv, la), replies);
  }

  lemma ConnGo(cfg: Cfg, s0: System, log: seq<P.Action>, inv: Invite, replies: seq<(InviteId, DecideReply)>, client: Client, ca: ConnAction)
    requires SysReachable(cfg, s0, System(Solo(log, inv, replies), client)) && ConnEnabled(inv, 0, ca) && !StoreAction(ca) && !ca.GotFrame?
    ensures SysReachable(cfg, s0, System(Solo(log, ConnStep(inv, 0, ca), replies), client))
  {
    hide SysReachable, ConnEnabled, ConnStep;
    var w := DaemonGo(cfg, s0, System(Solo(log, inv, replies), client), OnConn(0, 0, ca));
    assert w == Solo(log, ConnStep(inv, 0, ca), replies);
  }

  /** The daemon reads the client's next frame. */
  lemma HearGo(cfg: Cfg, s0: System, inv: Invite, client: Client, f: PairingFrame)
    requires SysReachable(cfg, s0, System(Solo([], inv, []), client)) && client.dialed && client.id == 0 && client.c == 0
    requires client.outbox != [] && client.outbox[0] == f && ConnEnabled(inv, 0, GotFrame(MsgType(f), f))
    ensures SysReachable(cfg, s0, System(Solo([], ConnStep(inv, 0, GotFrame(MsgType(f), f)), []), client.(outbox := client.outbox[1..])))
  {
    hide SysReachable, ConnEnabled, ConnStep;
    var s := SysGo(cfg, s0, System(Solo([], inv, []), client), Daemon(OnConn(0, 0, GotFrame(MsgType(f), f))));
    assert s.w == Solo([], ConnStep(inv, 0, GotFrame(MsgType(f), f)), []);
  }

  /** A client at `pc` that dialled invite 0 and has everything delivered. */
  function Dialled(node: string, alias: Option<string>, pc: ClientPc, outbox: seq<PairingFrame>, read: nat): Client {
    Client(node, alias, [], pc, true, 0, 0, outbox, read)
  }

  lemma Created(cfg: Cfg, node: string, alias: Option<string>, name: string)
    requires cfg.maxCreates > 0
    ensures var s0 := Begin(node, alias, []);
            SysReachable(cfg, s0, System(Solo([], NewInvite(name, cfg.server), []), s0.client))
  {
    var s0 := Begin(node, alias, []);
    assert SysExec(cfg, s0, []) == Some(s0);
    hide SysReachable, SysExec;
    assert StoreNow(cfg, INIT) == P.BOOT;
    var w := DaemonGo(cfg, s0, s0, CallCreate(0, name));
    w := DaemonGo(cfg, s0, System(w, s0.client), CreateCheckName(0));
    w := DaemonGo(cfg, s0, System(w, s0.client), CreateCheckCap(0));
    w := DaemonGo(cfg, s0, System(w, s0.client), CreateInsert(0, 0));
    assert w == Solo([], NewInvite(name, cfg.server), []);
  }

  lemma Dialed(cfg: Cfg, node: string, alias: Option<string>, name: string)
    requires cfg.maxCreates > 0
    ensures var s0 := Begin(node, alias, []);
            SysReachable(cfg, s0, System(Solo([], Greeted(NewInvite(name, cfg.server), node, AcceptBi, []), []),
                                         Dialled(node, alias, AwaitWait, [Version(CODE_VERSION), PairHello("")], 0)))
  {
    hide SysReachable, SysExec;
    var s0 := Begin(node, alias, []);
    Created(cfg, node, alias, name);
    var inv := NewInvite(name, cfg.server);
    LoopGo(cfg, s0, inv, [], s0.client, EndpointUp);
    inv := LoopStep(inv, EndpointUp);
    var s := SysGo(cfg, s0, System(Solo([], inv, []), s0.client), Dial(0, 0));
    inv := Greeted(NewInvite(name, cfg.server), node, AcceptBi, []);
    assert s.w.invites[0] == inv;
    assert s == System(Solo([], inv, []), Dialled(node, alias, SayVersion, [], 0));
    s := SysGo(cfg, s0, s, Say);
    s := SysGo(cfg, s0, s, Say);
    assert s.client.outbox == [Version(CODE_VERSION), PairHello("")];
  }

  lemma Waited(cfg: Cfg, node: string, alias: Option<string>, name: string)
    requires cfg.maxCreates > 0
    ensures var s0 := Begin(node, alias, []);
            SysReachable(cfg, s0, System(Solo([], Greeted(NewInvite(name, cfg.server), node, CheckName, []), []),
                                         Dialled(node, alias, AwaitWait, [], 0)))
  {
    hide SysReachable, SysExec, Step, Enabled;
    var s0 := Begin(node, alias, []);
    Dialed(cfg, node, alias, name);
    var inv := Greeted(NewInvite(name, cfg.server), node, AcceptBi, []);
    var client := Dialled(node, alias, AwaitWait, [Version(CODE_VERSION), PairHello("")], 0);
    ConnGo(cfg, s0, [], inv, [], client, Opened);
    inv := ConnStep(inv, 0, Opened);
    HearGo(cfg, s0, inv, client, Version(CODE_VERSION));
    inv := ConnStep(inv, 0, GotFrame(TYPE_VERSION, Version(CODE_VERSION)));
    assert client.outbox[1..] == [PairHello("")];
    client := client.(outbox := [PairHello("")]);
    HearGo(cfg, s0, inv, client, PairHello(""));
    inv := ConnStep(inv, 0, GotFrame(TYPE_PAIR_HELLO, PairHello("")));
    assert client.(outbox := client.outbox[1..]) == Dialled(node, alias, AwaitWait, [], 0);
    assert inv == Greeted(NewInvite(name, cfg.server), node, CheckName, []);
  }

  /** The client knows that it has to wait. */
  lemma ToldToWait(cfg: Cfg, node: string, alias: Option<string>, name: string)
    requires cfg.maxCreates > 0
    ensures var s0 := Begin(node, alias, []);
            SysReachable(cfg, s0, System(Solo([], Greeted(NewInvite(name, cfg.server), node, Waiting, [PairWait]), []),
                                         Dialled(node, alias, AwaitVerdict, [], 1)))
  {
    hide SysReachable, SysExec;
    var s0 := Begin(node, alias, []);
    Waited(cfg, node, alias, name);
    var inv := Greeted(NewInvite(name, cfg.server), node, CheckName, []);
    var client := Dialled(node, alias, AwaitWait, [], 0);
    assert StoreNow(cfg, Solo([], inv, [])) == P.BOOT;
    var w := DaemonGo(cfg, s0, System(Solo([], inv, []), client), CheckNameFree(0, 0));
    inv := ConnStep(inv, 0, NameChecked(true));
    assert w == Solo([], inv, []);
    ConnGo(cfg, s0, [], inv, [], client, WaitSent);
    inv := ConnStep(inv, 0, WaitSent);
    assert inv.conns[0].sent == [PairWait];
    assert inv == Greeted(NewInvite(name, cfg.server), node, Waiting, [PairWait]);
    hide Step, Enabled;
    var s := SysGo(cfg, s0, System(Solo([], inv, []), client), ReadFrame);
  }

  lemma DecisionQueued(cfg: Cfg, node: string, alias: Option<string>, name: string)
    requires cfg.maxCreates > 0
    ensures var s0 := Begin(node, alias, []);
            var inv := Greeted(NewInvite(name, cfg.server), node, Waiting, [PairWait]).(cmds := [true]);
            SysReachable(cfg, s0, System(Solo([], inv, [(0, Sent)]), Dialled(node, alias, AwaitVerdict, [], 1)))
  {
    hide SysReachable, SysExec;
    var s0 := Begin(node, alias, []);
    ToldToWait(cfg, node, alias, name);
    var inv := Greeted(NewInvite(name, cfg.server), node, Waiting, [PairWait]);
    var client := Dialled(node, alias, AwaitVerdict, [], 1);
    var w := DaemonGo(cfg, s0, System(Solo([], inv, []), client), DecideLookup(0, 0, true));
    w := DaemonGo(cfg, s0, System(w, client), DecideSend(0, false));
    assert w.deciding == map[] && w.replies == [(0, Sent)] && w.invites[0].cmds == [true];
    assert w == Solo([], inv.(cmds := [true]), [(0, Sent)]);
  }

  lemma AcceptanceRead(cfg: Cfg, node: string, alias: Option<string>, name: string)
    requires cfg.maxCreates > 0
    ensures SysReachable(cfg, Begin(node, alias, []),
                         System(Solo([], AcceptedInvite(cfg, name, node), [(0, Sent)]), Dialled(node, alias, AwaitVerdict, [], 1)))
  {
    hide SysReachable, SysExec, Step, Enabled, Solo, StoreNow;
    var s0 := Begin(node, alias, []);
    DecisionQueued(cfg, node, alias, name);
    var inv := Greeted(NewInvite(name, cfg.server), node, Waiting, [PairWait]).(cmds := [true]);
    var client := Dialled(node, alias, AwaitVerdict, [], 1);
    LoopGo(cfg, s0, inv, [(0, Sent)], client, TakeCmd);
    inv := LoopStep(inv, TakeCmd);
    ConnGo(cfg, s0, [], inv, [(0, Sent)], client, Wake);
    inv := ConnStep(inv, 0, Wake);
    ConnGo(cfg, s0, [], inv, [(0, Sent)], client, ReadDecision);
    inv := ConnStep(inv, 0, ReadDecision);
    assert inv == AcceptedInvite(cfg, name, node);
  }

  lemma Recorded(cfg: Cfg, node: string, alias: Option<string>, name: string)
    requires cfg.maxCreates > 0
    ensures SysReachable(cfg, Begin(node, alias, []),
                         System(Solo([AddCall(name, node, P.Fine)], ConnStep(AcceptedInvite(cfg, name, node), 0, RecordOk(0)), [(0, Sent)]),
                                Dialled(node, alias, AwaitVerdict, [], 1)))
  {
    hide SysReachable, SysExec, LoopStep, LoopEnabled;
    var s0 := Begin(node, alias, []);
    AcceptanceRead(cfg, node, alias, name);
    var inv := AcceptedInvite(cfg, name, node);
    var w := Solo([], inv, [(0, Sent)]);
    assert StoreNow(cfg, w) == P.BOOT;
    assert RecordAction(cfg, w, 0, 0, "", P.Fine) == RecordOk(0);
    hide ConnStep, RecordAction, StoreNow, P.Perform;
    var w' := DaemonGo(cfg, s0, System(w, Dialled(node, alias, AwaitVerdict, [], 1)), Record(0, 0, "", P.Fine));
    assert w'.log == [AddCall(name, node, P.Fine)];
    assert w' == Solo([AddCall(name, node, P.Fine)], ConnStep(inv, 0, RecordOk(0)), [(0, Sent)]);
  }

  /** The peer is recorded and confirmed, and the client has yet to read it. */
  lemma Confirmed(cfg: Cfg, node: string, alias: Option<string>, name: string)
    requires cfg.maxCreates > 0
    ensures SysReachable(cfg, Begin(node, alias, []),
                         System(Solo([AddCall(name, node, P.Fine)], Verdicted(cfg, name, node, true), [(0, Sent)]),
                                Dialled(node, alias, AwaitVerdict, [], 1)))
  {
    hide SysReachable, SysExec, LoopStep, LoopEnabled, Step, Enabled, Solo;
    Recorded(cfg, node, alias, name);
    var inv := ConnStep(AcceptedInvite(cfg, name, node), 0, RecordOk(0));
    ConnGo(cfg, Begin(node, alias, []), [AddCall(name, node, P.Fine)], inv, [(0, Sent)], Dialled(node, alias, AwaitVerdict, [], 1), VerdictDone(true));
    inv := ConnStep(inv, 0, VerdictDone(true));
    assert inv.conns[0].sent == Verdicted(cfg, name, node, true).conns[0].sent;
    assert inv == Verdicted(cfg, name, node, true);
  }

  /** Pairing can succeed, for every client, alias and invite name. */
  lemma PairingCanSucceed(cfg: Cfg, node: string, alias: Option<string>, name: string) returns (s: System)
    requires cfg.maxCreates > 0
    ensures SysReachable(cfg, Begin(node, alias, []), s)
    ensures s.client.pc == Ended(Ok(if alias.Some? then alias.value else name))
  {
    hide SysReachable, SysExec, Step, Enabled;
    Confirmed(cfg, node, alias, name);
    s := System(Solo([AddCall(name, node, P.Fine)], Verdicted(cfg, name, node, true), [(0, Sent)]), Dialled(node, alias, AwaitVerdict, [], 1));
    s := SysGo(cfg, Begin(node, alias, []), s, ReadFrame);
    assert s.client.pc == Storing(cfg.server, name);
    s := SysGo(cfg, Begin(node, alias, []), s, Store("", true));
  }

  /** Agreement goes one way only: the daemon may have recorded and confirmed
      a client that then times out and stores nothing. */
  lemma RecordedButClientFailed(cfg: Cfg, node: string, alias: Option<string>, name: string) returns (s: System)
    requires cfg.maxCreates > 0
    ensures SysReachable(cfg, Begin(node, alias, []), s)
    ensures s.client.pc == Ended(Err(Timeout)) && s.client.servers == []
    ensures 0 in s.w.invites && RecordOf(s.w.invites[0].events, 0, node)
  {
    hide SysReachable, SysExec, Step, Enabled;
    Confirmed(cfg, node, alias, name);
    s := System(Solo([AddCall(name, node, P.Fine)], Verdicted(cfg, name, node, true), [(0, Sent)]), Dialled(node, alias, AwaitVerdict, [], 1));
    s := SysGo(cfg, Begin(node, alias, []), s, SysAction.Fail(Timeout));
    assert IsRecord(s.w.invites[0].events[1], 0, node);
  }

  // ---- A denial whose reason the client does not report ----

  /** Invite 0 while another client holds its slot. */
  function Held(name: string, server: string, other: string): Invite {
    NewInvite(name, server).(loop := Accepting, shared := NEW_SHARED.(pairBusy := true),
                             conns := map[1 := Conn(other, false, AcceptBi, false, [])])
  }

  function Refused(inv: Invite, node: string, pc: Pc, sent: seq<PairingFrame>): Invite {
    inv.(conns := inv.conns[0 := Conn(node, true, pc, false, sent)])
  }

  lemma RefusedAtTheDoor(cfg: Cfg, node: string, other: string, alias: Option<string>, name: string)
    requires cfg.maxCreates > 0
    ensures SysReachable(cfg, Begin(node, alias, []),
                         System(Solo([], Refused(Held(name, cfg.server, other), node, RefuseOpen, []), []), Dialled(node, alias, SayVersion, [], 0)))
  {
    hide SysReachable, SysExec;
    var s0 := Begin(node, alias, []);
    Created(cfg, node, alias, name);
    var inv := NewInvite(name, cfg.server);
    LoopGo(cfg, s0, inv, [], s0.client, EndpointUp);
    inv := LoopStep(inv, EndpointUp);
    LoopGo(cfg, s0, inv, [], s0.client, Connect(1, other));
    inv := LoopStep(inv, Connect(1, other));
    assert inv == Held(name, cfg.server, other);
    var s := SysGo(cfg, s0, System(Solo([], inv, []), s0.client), Dial(0, 0));
    assert s.w.invites[0] == Refused(inv, node, RefuseOpen, []);
    assert s == System(Solo([], Refused(inv, node, RefuseOpen, []), []), Dialled(node, alias, SayVersion, [], 0));
  }

  /** For every client: another one holds the slot, so it is sent PAIR_DENY
      Busy as its first frame, and ends with a protocol error. */
  lemma BusyEndsAsProtocolError(cfg: Cfg, node: string, other: string, alias: Option<string>, name: string) returns (s: System)
    requires cfg.maxCreates > 0
    ensures SysReachable(cfg, Begin(node, alias, []), s)
    ensures s.client.pc == Ended(Err(Protocol))
    ensures 0 in s.w.invites && 0 in s.w.invites[0].conns && s.client.id == s.client.c == 0
    ensures s.w.invites[0].conns[0].sent == [PairDeny(Busy)]
  {
    hide SysReachable, SysExec;
    var s0 := Begin(node, alias, []);
    RefusedAtTheDoor(cfg, node, other, alias, name);
    var inv := Refused(Held(name, cfg.server, other), node, RefuseOpen, []);
    s := System(Solo([], inv, []), Dialled(node, alias, SayVersion, [], 0));
    hide Step, Enabled;
    s := SysGo(cfg, s0, s, Say);
    s := SysGo(cfg, s0, s, Say);
    var client := s.client;
    assert client == Dialled(node, alias, AwaitWait, client.outbox, 0);
    ConnGo(cfg, s0, [], inv, [], client, Opened);
    inv := ConnStep(inv, 0, Opened);
    ConnGo(cfg, s0, [], inv, [], client, VerdictDone(true));
    inv := ConnStep(inv, 0, VerdictDone(true));
    assert inv.conns[0].sent == [PairDeny(Busy)];
    s := SysGo(cfg, s0, System(Solo([], inv, []), client), ReadFrame);
  }
}
