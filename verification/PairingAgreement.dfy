/** A client's pairing run (tmite-core/src/client/pair.rs) composed with the
    daemon's invites. The client's connection carries its authenticated node
    id; frames arrive in order, each with the type byte of its variant. */
module PairingAgreement {
  import opened Prelude
  import opened PairFrames
  import opened Invites
  import opened InviteLocal
  import opened InviteRuns
  import InviteLaws
  import InviteCalls
  import C = ClientStore
  import T = PeerTables

  datatype PairError = Unreachable | Timeout | Denied(reason: PairDenyReason) | Protocol | Fs

  datatype ClientPc =
    | Dialing
    | SayVersion | SayHello
    | AwaitWait
    | AwaitVerdict
    | Storing(server: string, name: string)
    | Ended(result: Result<string, PairError>)

  /** `outbox` are frames on their way to the daemon, `read` counts the frames
      taken from it, `servers` is the content of servers.toml. Once it has
      dialled, `id` and `c` are the invite and the connection to it. */
  datatype Client = Client(
    node: string, alias: Option<string>, servers: seq<C.ServerEntry>, pc: ClientPc,
    dialed: bool, id: InviteId, c: ConnId, outbox: seq<PairingFrame>, read: nat)

  datatype System = System(w: World, client: Client)

  datatype SysAction =
    | Daemon(a: Action)
    | Dial(id: InviteId, c: ConnId)
    | Say
    | ReadFrame
    | Store(now: string, saved: bool)
    | Fail(e: PairError)

  predicate OnLink(client: Client, a: Action) {
    client.dialed && a.OnConn? && a.id == client.id && a.c == client.c && a.ca.GotFrame?
  }

  /** The daemon reads on the client's connection what the client wrote. */
  predicate Delivers(client: Client, a: Action) {
    OnLink(client, a) ==> client.outbox != [] && a.ca == GotFrame(MsgType(client.outbox[0]), client.outbox[0])
  }

  predicate SysEnabled(cfg: Cfg, s: System, a: SysAction) {
    match a
    case Daemon(a) => Enabled(cfg, s.w, a) && Delivers(s.client, a)
    case Dial(id, c) => s.client.pc.Dialing? && Enabled(cfg, s.w, OnLoop(id, Connect(c, s.client.node)))
    case Say => s.client.pc.SayVersion? || s.client.pc.SayHello?
    case ReadFrame =>
      && (s.client.pc.AwaitWait? || s.client.pc.AwaitVerdict?)
      && s.client.id in s.w.invites && s.client.c in s.w.invites[s.client.id].conns
      && s.client.read < |s.w.invites[s.client.id].conns[s.client.c].sent|
    case Store(_, _) => s.client.pc.Storing?
    case Fail(e) => !s.client.pc.Ended? && !e.Denied?
  }

  /** What a frame means to the client: before PAIR_WAIT only the type byte
      counts, after it the frame must be a verdict of its own type. */
  function AfterFrame(pc: ClientPc, msgType: byte, f: PairingFrame): ClientPc {
    if pc.AwaitWait? then
      if msgType == TYPE_PAIR_WAIT then AwaitVerdict else Ended(Err(Protocol))
    else if f.PairConfirm? && msgType == TYPE_PAIR_CONFIRM then Storing(f.nodeId, f.name)
    else if f.PairDeny? && msgType == TYPE_PAIR_DENY then Ended(Err(Denied(f.reason)))
    else Ended(Err(Protocol))
  }

  function StoredName(client: Client, name: string): string {
    if client.alias.Some? then client.alias.value else name
  }

  function Stored(client: Client, now: string, saved: bool): Client
    requires client.pc.Storing?
  {
    var name := StoredName(client, client.pc.name);
    var updated := C.Upserted(client.servers, C.PairedEntry(client.servers, client.pc.server, name, now));
    if updated.None? || !saved then client.(pc := Ended(Err(Fs)))
    else client.(pc := Ended(Ok(name)), servers := updated.value)
  }

  function SysStep(cfg: Cfg, s: System, a: SysAction): System
    requires SysEnabled(cfg, s, a)
  {
    match a
    case Daemon(a) =>
      System(Step(cfg, s.w, a), if OnLink(s.client, a) then s.client.(outbox := s.client.outbox[1..]) else s.client)
    case Dial(id, c) =>
      System(Step(cfg, s.w, OnLoop(id, Connect(c, s.client.node))), s.client.(pc := SayVersion, dialed := true, id := id, c := c))
    case Say =>
      var (f, next) := if s.client.pc.SayVersion? then (Version(CODE_VERSION), SayHello) else (PairHello(""), AwaitWait);
      s.(client := s.client.(pc := next, outbox := s.client.outbox + [f]))
    case ReadFrame =>
      var f := s.w.invites[s.client.id].conns[s.client.c].sent[s.client.read];
      s.(client := s.client.(pc := AfterFrame(s.client.pc, MsgType(f), f), read := s.client.read + 1))
    case Store(now, saved) => s.(client := Stored(s.client, now, saved))
    case Fail(e) => s.(client := s.client.(pc := Ended(Err(e))))
  }

  /** A client that has not started, with any store a client can have. */
  function Begin(node: string, alias: Option<string>, past: seq<C.Op>): System {
    System(INIT, Client(node, alias, C.Exec(past), Dialing, false, 0, 0, [], 0))
  }

  function SysExec(cfg: Cfg, s: System, acts: seq<SysAction>): Option<System> {
    if acts == [] then Some(s) else
    var before := SysExec(cfg, s, acts[..|acts| - 1]);
    if before.Some? && SysEnabled(cfg, before.value, acts[|acts| - 1])
    then Some(SysStep(cfg, before.value, acts[|acts| - 1])) else None
  }

  // ---- The daemon cannot tell: its part of the run is a run of its own ----

  /** The world's own actions in a run of the composed system. */
  function DaemonPart(client: Client, acts: seq<SysAction>): seq<Action> {
    if acts == [] then [] else
    var a := acts[|acts| - 1];
    DaemonPart(client, acts[..|acts| - 1]) +
    match a
    case Daemon(b) => [b]
    case Dial(id, c) => [OnLoop(id, Connect(c, client.node))]
    case _ => []
  }

  lemma {:induction false} NodeNeverChanges(cfg: Cfg, s: System, acts: seq<SysAction>)
    requires SysExec(cfg, s, acts).Some?
    ensures SysExec(cfg, s, acts).value.client.node == s.client.node && SysExec(cfg, s, acts).value.client.alias == s.client.alias
  {
    hide Step, Enabled;
    if acts != [] {
      NodeNeverChanges(cfg, s, acts[..|acts| - 1]);
    }
  }

  lemma ExecAppend(cfg: Cfg, acts: seq<Action>, a: Action)
    requires Exec(cfg, acts).Some? && Enabled(cfg, Exec(cfg, acts).value, a)
    ensures Exec(cfg, acts + [a]) == Some(Step(cfg, Exec(cfg, acts).value, a))
  {
    hide Step, Enabled;
    assert (acts + [a])[..|acts|] == acts;
  }

  lemma {:induction false} DaemonRuns(cfg: Cfg, s: System, acts: seq<SysAction>)
    requires s.w == INIT && SysExec(cfg, s, acts).Some?
    ensures Exec(cfg, DaemonPart(s.client, acts)) == Some(SysExec(cfg, s, acts).value.w)
  {
    hide Step, Enabled;
    if acts != [] {
      var front, a := acts[..|acts| - 1], acts[|acts| - 1];
      DaemonRuns(cfg, s, front);
      NodeNeverChanges(cfg, s, front);
      match a
      case Daemon(b) => ExecAppend(cfg, DaemonPart(s.client, front), b);
      case Dial(id, c) => ExecAppend(cfg, DaemonPart(s.client, front), OnLoop(id, Connect(c, s.client.node)));
      case _ => assert DaemonPart(s.client, acts) == DaemonPart(s.client, front);
    }
  }

  // ---- A connection keeps its node id and its frames ----

  ghost predicate LinkGrows(w: World, w': World, id: InviteId, c: ConnId) {
    id in w.invites && c in w.invites[id].conns ==>
      && id in w'.invites && c in w'.invites[id].conns
      && w'.invites[id].name == w.invites[id].name
      && w'.invites[id].conns[c].node == w.invites[id].conns[c].node
      && w.invites[id].conns[c].sent <= w'.invites[id].conns[c].sent
  }

  lemma StepLinkGrows(cfg: Cfg, w: World, a: Action, id: InviteId, c: ConnId)
    requires Enabled(cfg, w, a)
    ensures LinkGrows(w, Step(cfg, w, a), id, c)
  {
    hide Step, Enabled;
    StepGrows(cfg, w, a);
  }

  // ---- The client's view of its connection ----

  ghost predicate HasLink(s: System) {
    && s.client.id in s.w.invites && s.client.c in s.w.invites[s.client.id].conns
    && s.w.invites[s.client.id].conns[s.client.c].node == s.client.node
    && s.client.read <= |Link(s).sent|
  }

  ghost function Link(s: System): Conn
    requires s.client.id in s.w.invites && s.client.c in s.w.invites[s.client.id].conns
  {
    s.w.invites[s.client.id].conns[s.client.c]
  }

  /** What the client knows came in frames from its own connection. */
  ghost predicate ClientOk(past: seq<C.Op>, s: System) {
    && (!s.client.pc.Ended? ==> s.client.servers == C.Exec(past))
    && match s.client.pc
       case Dialing => s.client.read == 0 && !s.client.dialed
       case SayVersion => HasLink(s) && s.client.read == 0
       case SayHello => HasLink(s) && s.client.read == 0
       case AwaitWait => HasLink(s) && s.client.read == 0
       case AwaitVerdict => HasLink(s) && s.client.read == 1 && Link(s).sent[0] == PairWait
       case Storing(server, name) => HasLink(s) && s.client.read == 2 && Link(s).sent[0] == PairWait && Link(s).sent[1] == PairConfirm(server, name)
       case Ended(Ok(stored)) =>
         && HasLink(s) && s.client.read == 2 && Link(s).sent[0] == PairWait
         && exists server, name, now ::
              && Link(s).sent[1] == PairConfirm(server, name)
              && stored == StoredName(s.client, name)
              && C.Upserted(C.Exec(past), C.PairedEntry(C.Exec(past), server, stored, now)) == Some(s.client.servers)
       case Ended(Err(Denied(r))) =>
         && s.client.servers == C.Exec(past)
         && HasLink(s) && s.client.read == 2 && Link(s).sent[0] == PairWait && Link(s).sent[1] == PairDeny(r)
       case Ended(Err(_)) => s.client.servers == C.Exec(past)
  }

  lemma DaemonKeepsClientOk(past: seq<C.Op>, s: System, s': System)
    requires ClientOk(past, s) && LinkGrows(s.w, s'.w, s.client.id, s.client.c)
    requires s'.client == s.client.(outbox := s'.client.outbox)
    ensures ClientOk(past, s')
  {
    if HasLink(s) {
      assert forall k :: 0 <= k < |Link(s).sent| ==> Link(s').sent[k] == Link(s).sent[k];
    }
    hide C.Exec, C.Upserted, C.PairedEntry;
  }

  lemma DialKeepsClientOk(cfg: Cfg, past: seq<C.Op>, s: System, id: InviteId, c: ConnId)
    requires ClientOk(past, s) && SysEnabled(cfg, s, Dial(id, c))
    ensures ClientOk(past, SysStep(cfg, s, Dial(id, c)))
  {
  }

  lemma ClientStepKeepsClientOk(cfg: Cfg, past: seq<C.Op>, s: System, a: SysAction)
    requires ClientOk(past, s) && SysEnabled(cfg, s, a) && !a.Daemon? && !a.Dial?
    ensures ClientOk(past, SysStep(cfg, s, a))
  {
    hide C.Exec, C.Upserted, C.PairedEntry, Step, Enabled;
  }

  lemma {:induction false} RunsKeepClientOk(cfg: Cfg, node: string, alias: Option<string>, past: seq<C.Op>, acts: seq<SysAction>)
    requires SysExec(cfg, Begin(node, alias, past), acts).Some?
    ensures ClientOk(past, SysExec(cfg, Begin(node, alias, past), acts).value)
  {
    if acts == [] {
      hide C.Exec;
    } else {
      hide Step, Enabled, ClientOk, C.Exec;
      var front, a := acts[..|acts| - 1], acts[|acts| - 1];
      RunsKeepClientOk(cfg, node, alias, past, front);
      var s := SysExec(cfg, Begin(node, alias, past), front).value;
      var s' := SysStep(cfg, s, a);
      match a
      case Daemon(b) =>
        StepLinkGrows(cfg, s.w, b, s.client.id, s.client.c);
        DaemonKeepsClientOk(past, s, s');
      case Dial(id, c) => DialKeepsClientOk(cfg, past, s, id, c);
      case _ => ClientStepKeepsClientOk(cfg, past, s, a);
    }
  }

  // ---- Agreement ----

  /** The admin's decision is a step of the joint run. */
  lemma {:induction false} InDaemonPart(client: Client, acts: seq<SysAction>, n: nat)
    requires n < |DaemonPart(client, acts)| && DaemonPart(client, acts)[n].DecideLookup?
    ensures Daemon(DaemonPart(client, acts)[n]) in acts
  {
    var front := acts[..|acts| - 1];
    if n < |DaemonPart(client, front)| {
      InDaemonPart(client, front, n);
    }
  }

  /** Somewhere in the run the admin called `decide` on the invite, with
      acceptance. */
  ghost predicate AdminAccepted(acts: seq<SysAction>, id: InviteId) {
    exists call :: Daemon(DecideLookup(call, id, true)) in acts
  }

  /** If the client's run returns Ok, then the daemon's `add_peer` answered Ok
      for exactly this client's node id under the invite's name, after the admin
      called `decide` with acceptance on that invite, and the client now finds the daemon's own node id under
      its alias or the invite's name, with the forwards it had saved before. */
  lemma Agreement(cfg: Cfg, node: string, alias: Option<string>, past: seq<C.Op>, acts: seq<SysAction>)
    requires SysExec(cfg, Begin(node, alias, past), acts).Some?
    requires var pc := SysExec(cfg, Begin(node, alias, past), acts).value.client.pc; pc.Ended? && pc.result.Ok?
    ensures var s := SysExec(cfg, Begin(node, alias, past), acts).value;
            && s.client.id in s.w.invites
            && var inv := s.w.invites[s.client.id];
            && (exists k :: 0 <= k < |inv.events| && IsRecord(inv.events[k], s.client.c, node)
                            && InLog(cfg, s.w.log, inv.name, inv.events[k]) && AcceptedBefore(inv.events, k))
            && AdminAccepted(acts, s.client.id)
            && s.client.pc.result.value == (if alias.Some? then alias.value else inv.name)
            && var known := C.GetByNode(C.Exec(past), cfg.server);
            var found := C.Get(s.client.servers, s.client.pc.result.value);
            && found == C.GetByNode(s.client.servers, cfg.server)
            && found.Some? && found.value.nodeId == cfg.server
            && found.value.forwards == (if known.Some? then known.value.forwards else [])
  {
    hide Exec, SysExec, C.Exec, InLog, AcceptedBefore, C.Upserted, C.Get, C.GetByNode;
    var s := SysExec(cfg, Begin(node, alias, past), acts).value;
    RunsKeepClientOk(cfg, node, alias, past, acts);
    NodeNeverChanges(cfg, Begin(node, alias, past), acts);
    DaemonRuns(cfg, Begin(node, alias, past), acts);
    var daemon := DaemonPart(Begin(node, alias, past).client, acts);
    var stored := s.client.pc.result.value;
    var server, name, now :|
      && Link(s).sent[1] == PairConfirm(server, name)
      && stored == StoredName(s.client, name)
      && C.Upserted(C.Exec(past), C.PairedEntry(C.Exec(past), server, stored, now)) == Some(s.client.servers);
    InviteLaws.ConfirmedIsRecorded(cfg, daemon, s.client.id, s.client.c, Link(s).sent[1]);
    var inv := s.w.invites[s.client.id];
    var k :| 0 <= k < |inv.events| && IsRecord(inv.events[k], s.client.c, node);
    InviteLaws.OneRecordingPerInvite(cfg, daemon, s.client.id, k);
    var n, _ := InviteCalls.RecordedWasAcceptedByAdmin(cfg, daemon, s.client.id, k);
    InDaemonPart(Begin(node, alias, past).client, acts, n);
    assert Daemon(DecideLookup(daemon[n].call, s.client.id, true)) in acts;
    C.UpsertIsMapUpdate(past, C.PairedEntry(C.Exec(past), server, stored, now), server);
  }

  /** The step that stored the server. */
  lemma {:induction false} StoringStep(cfg: Cfg, s0: System, acts: seq<SysAction>) returns (m: nat)
    requires s0.client.pc.Dialing? && SysExec(cfg, s0, acts).Some?
    requires SysExec(cfg, s0, acts).value.client.pc.Ended? && SysExec(cfg, s0, acts).value.client.pc.result.Ok?
    ensures m < |acts| && acts[m].Store? && SysExec(cfg, s0, acts[..m]).Some? && SysExec(cfg, s0, acts[..m]).value.client.pc.Storing?
    ensures var before, after := SysExec(cfg, s0, acts[..m]).value.client, SysExec(cfg, s0, acts).value.client;
            after.servers == Stored(before, acts[m].now, acts[m].saved).servers && Stored(before, acts[m].now, acts[m].saved).pc == after.pc
  {
    hide Step, Enabled, Stored;
    var front, a := acts[..|acts| - 1], acts[|acts| - 1];
    var s := SysExec(cfg, s0, front).value;
    if s.client.pc.Ended? {
      EndedStays(cfg, s, a);
      m := StoringStep(cfg, s0, front);
      assert front[..m] == acts[..m];
    } else {
      OnlyStoringSucceeds(cfg, s, a);
      m := |acts| - 1;
    }
  }

  lemma OnlyStoringSucceeds(cfg: Cfg, s: System, a: SysAction)
    requires SysEnabled(cfg, s, a) && !s.client.pc.Ended?
    requires SysStep(cfg, s, a).client.pc.Ended? && SysStep(cfg, s, a).client.pc.result.Ok?
    ensures a.Store? && SysStep(cfg, s, a).client == Stored(s.client, a.now, a.saved)
  {
    hide Step, Enabled, C.Upserted, C.PairedEntry;
  }

  /** The stored entry carries the time of the step that stored it. */
  lemma PairedAtTheTimeOfStoring(cfg: Cfg, node: string, alias: Option<string>, past: seq<C.Op>, acts: seq<SysAction>) returns (m: nat)
    requires SysExec(cfg, Begin(node, alias, past), acts).Some?
    requires var pc := SysExec(cfg, Begin(node, alias, past), acts).value.client.pc; pc.Ended? && pc.result.Ok?
    ensures m < |acts| && acts[m].Store?
    ensures var found := C.GetByNode(SysExec(cfg, Begin(node, alias, past), acts).value.client.servers, cfg.server);
            found.Some? && found.value.pairedAt == acts[m].now
  {
    hide Exec, SysExec, C.Exec, C.Upserted, C.Get, C.GetByNode;
    var s0 := Begin(node, alias, past);
    m := StoringStep(cfg, s0, acts);
    RunsKeepClientOk(cfg, node, alias, past, acts[..m]);
    DaemonRuns(cfg, s0, acts[..m]);
    var s := SysExec(cfg, s0, acts[..m]).value;
    InviteLaws.ConfirmedIsRecorded(cfg, DaemonPart(s0.client, acts[..m]), s.client.id, s.client.c, Link(s).sent[1]);
    C.UpsertIsMapUpdate(past, C.PairedEntry(C.Exec(past), cfg.server, StoredName(s.client, s.client.pc.name), acts[m].now), cfg.server);
  }

  /** A run that does not return Ok leaves the client's store as it was. */
  lemma FailedRunStoresNothing(cfg: Cfg, node: string, alias: Option<string>, past: seq<C.Op>, acts: seq<SysAction>)
    requires SysExec(cfg, Begin(node, alias, past), acts).Some?
    requires var pc := SysExec(cfg, Begin(node, alias, past), acts).value.client.pc; !(pc.Ended? && pc.result.Ok?)
    ensures SysExec(cfg, Begin(node, alias, past), acts).value.client.servers == C.Exec(past)
  {
    hide SysExec, C.Exec;
    RunsKeepClientOk(cfg, node, alias, past, acts);
  }

  // ---- When a recorded client succeeds ----

  /** The client timed out, lost its connection, or could not save its store. */
  ghost predicate ClientFailed(acts: seq<SysAction>) {
    exists i :: 0 <= i < |acts| && Fails(acts[i])
  }

  predicate Fails(a: SysAction) {
    a.Fail? || (a.Store? && !a.saved)
  }

  lemma FailedGrows(acts: seq<SysAction>)
    requires acts != []
    ensures ClientFailed(acts) <==> ClientFailed(acts[..|acts| - 1]) || Fails(acts[|acts| - 1])
  {
    var front := acts[..|acts| - 1];
    if i :| 0 <= i < |front| && Fails(front[i]) {
      assert Fails(acts[i]);
    }
  }

  /** The frame that ended the run is neither a wait nor a confirmation where
      one was due, or the name to store is another server's. */
  ghost predicate Turned(past: seq<C.Op>, s: System) {
    && HasLink(s)
    && (|| (s.client.read == 1 && Link(s).sent[0] != PairWait)
        || (s.client.read == 2 && !Link(s).sent[1].PairConfirm?)
        || (s.client.read == 2 && Link(s).sent[1].PairConfirm?
            && C.NameInUse(C.Exec(past), StoredName(s.client, Link(s).sent[1].name), Link(s).sent[1].nodeId)))
  }

  predicate EndedBadly(client: Client) {
    client.pc.Ended? && client.pc.result.Err?
  }

  ghost predicate Blame(past: seq<C.Op>, acts: seq<SysAction>, s: System) {
    && (ClientFailed(acts) ==> EndedBadly(s.client))
    && (EndedBadly(s.client) && !ClientFailed(acts) ==> Turned(past, s))
  }

  lemma TurnedGrows(past: seq<C.Op>, s: System, s': System)
    requires Turned(past, s) && LinkGrows(s.w, s'.w, s.client.id, s.client.c)
    requires s'.client == s.client.(outbox := s'.client.outbox)
    ensures Turned(past, s')
  {
    hide C.NameInUse, C.Exec;
    assert forall k :: 0 <= k < |Link(s).sent| ==> Link(s').sent[k] == Link(s).sent[k];
  }

  /** A step of the client's own that ends it badly, unless it fails. */
  lemma ClientStepTurns(cfg: Cfg, past: seq<C.Op>, s: System, a: SysAction)
    requires ClientOk(past, s) && SysEnabled(cfg, s, a) && !a.Daemon? && !Fails(a)
    requires !EndedBadly(s.client) && EndedBadly(SysStep(cfg, s, a).client)
    ensures Turned(past, SysStep(cfg, s, a))
  {
    hide C.NameInUse, C.Exec, C.NodeIndex, Step, Enabled;
  }

  /** Once ended, the client takes no step of its own. */
  lemma EndedStays(cfg: Cfg, s: System, a: SysAction)
    requires SysEnabled(cfg, s, a) && s.client.pc.Ended?
    ensures a.Daemon? && SysStep(cfg, s, a).client == s.client.(outbox := SysStep(cfg, s, a).client.outbox)
  {
    hide Step, Enabled;
  }

  lemma FailingEnds(cfg: Cfg, s: System, a: SysAction)
    requires SysEnabled(cfg, s, a) && Fails(a)
    ensures EndedBadly(SysStep(cfg, s, a).client)
  {
    hide Step, Enabled, C.Upserted, C.PairedEntry;
  }

  lemma DaemonLeavesClient(cfg: Cfg, s: System, a: Action)
    requires SysEnabled(cfg, s, Daemon(a))
    ensures var s' := SysStep(cfg, s, Daemon(a));
            s'.client == s.client.(outbox := s'.client.outbox) && LinkGrows(s.w, s'.w, s.client.id, s.client.c)
  {
    hide Step, LinkGrows;
    assert Enabled(cfg, s.w, a);
    StepLinkGrows(cfg, s.w, a, s.client.id, s.client.c);
  }

  lemma {:induction false} RunsKeepBlame(cfg: Cfg, node: string, alias: Option<string>, past: seq<C.Op>, acts: seq<SysAction>)
    requires SysExec(cfg, Begin(node, alias, past), acts).Some?
    ensures Blame(past, acts, SysExec(cfg, Begin(node, alias, past), acts).value)
  {
    hide SysStep, SysEnabled, ClientOk, Turned, ClientFailed, C.Exec;
    if acts == [] {
      NoFailureYet();
    } else {
      var front, a := acts[..|acts| - 1], acts[|acts| - 1];
      RunsKeepBlame(cfg, node, alias, past, front);
      RunsKeepClientOk(cfg, node, alias, past, front);
      FailedGrows(acts);
      var s := SysExec(cfg, Begin(node, alias, past), front).value;
      if s.client.pc.Ended? { EndedStays(cfg, s, a); }
      if a.Daemon? {
        DaemonLeavesClient(cfg, s, a.a);
        if Turned(past, s) { TurnedGrows(past, s, SysStep(cfg, s, a)); }
      } else if Fails(a) {
        FailingEnds(cfg, s, a);
      } else if EndedBadly(SysStep(cfg, s, a).client) {
        ClientStepTurns(cfg, past, s, a);
      }
    }
  }

  lemma NoFailureYet()
    ensures !ClientFailed([])
  {
  }

  /** Exactly when a client whose connection was recorded succeeds, once its run
      has ended: it did not time out, lose its connection or fail to save, and
      the name it stores the daemon under is not another server's. */
  lemma RecordedClientSucceedsIff(cfg: Cfg, node: string, alias: Option<string>, past: seq<C.Op>, acts: seq<SysAction>)
    requires SysExec(cfg, Begin(node, alias, past), acts).Some?
    requires var s := SysExec(cfg, Begin(node, alias, past), acts).value;
             s.client.pc.Ended? && s.client.id in s.w.invites && RecordOf(s.w.invites[s.client.id].events, s.client.c, node)
    ensures var s := SysExec(cfg, Begin(node, alias, past), acts).value;
            var stored := if alias.Some? then alias.value else s.w.invites[s.client.id].name;
            var holder := C.Get(C.Exec(past), stored);
            s.client.pc.result.Ok? <==> !ClientFailed(acts) && !(holder.Some? && holder.value.nodeId != cfg.server)
  {
    hide Exec, SysExec, C.Exec, RecordOf, ClientFailed, C.NodeIndex, C.NameInUse, C.Get;
    var s := SysExec(cfg, Begin(node, alias, past), acts).value;
    RunsKeepClientOk(cfg, node, alias, past, acts);
    RunsKeepBlame(cfg, node, alias, past, acts);
    NodeNeverChanges(cfg, Begin(node, alias, past), acts);
    DaemonRuns(cfg, Begin(node, alias, past), acts);
    var daemon := DaemonPart(Begin(node, alias, past).client, acts);
    InviteLaws.RecordedIsNeverDenied(cfg, daemon, s.client.id, s.client.c, node);
    var name := s.w.invites[s.client.id].name;
    var stored := StoredName(s.client, name);
    C.UpsertIsMapUpdate(past, C.PairedEntry(C.Exec(past), cfg.server, stored, ""), node);
    assert C.NameInUse(C.Exec(past), stored, cfg.server) <==>
           C.Get(C.Exec(past), stored).Some? && C.Get(C.Exec(past), stored).value.nodeId != cfg.server;
  }

  // ---- Denials ----

  /** A client that reports a denial was told so after PAIR_WAIT, the reason has
      its cause in the daemon's part of the run, its connection was not the one
      the invite recorded, and its store is untouched. In particular it never
      reports NameTaken. */
  lemma DenialsAreTrue(cfg: Cfg, node: string, alias: Option<string>, past: seq<C.Op>, acts: seq<SysAction>)
    requires SysExec(cfg, Begin(node, alias, past), acts).Some?
    requires var pc := SysExec(cfg, Begin(node, alias, past), acts).value.client.pc;
             pc.Ended? && pc.result.Err? && pc.result.error.Denied?
    ensures var s := SysExec(cfg, Begin(node, alias, past), acts).value;
            && s.client.id in s.w.invites && s.client.c in s.w.invites[s.client.id].conns
            && Link(s).sent == [PairWait, PairDeny(s.client.pc.result.error.reason)]
            && InviteLaws.Caused(cfg, DaemonPart(Begin(node, alias, past).client, acts), s.client.id, s.client.c, s.client.pc.result.error.reason)
            && s.client.pc.result.error.reason != NameTaken
            && !RecordOf(s.w.invites[s.client.id].events, s.client.c, node)
            && s.client.servers == C.Exec(past)
  {
    hide Exec, SysExec, C.Exec, RecordOf, InviteLaws.Caused;
    RunsKeepClientOk(cfg, node, alias, past, acts);
    DaemonRuns(cfg, Begin(node, alias, past), acts);
    var s := SysExec(cfg, Begin(node, alias, past), acts).value;
    var daemon := DaemonPart(Begin(node, alias, past).client, acts);
    InviteLaws.FramesFollowProtocol(cfg, daemon, s.client.id, s.client.c);
    assert Link(s).sent[1] == PairDeny(s.client.pc.result.error.reason);
    if RecordOf(s.w.invites[s.client.id].events, s.client.c, node) {
      InviteLaws.RecordedIsNeverDenied(cfg, daemon, s.client.id, s.client.c, node);
    }
  }

  /** A denial reaches the user with its reason if and only if PAIR_WAIT came
      first: one that is the first frame ends the run as a protocol error. */
  lemma DenialIsReportedIffAfterWait(cfg: Cfg, node: string, alias: Option<string>, past: seq<C.Op>, acts: seq<SysAction>)
    requires SysExec(cfg, Begin(node, alias, past), acts).Some?
    requires var s := SysExec(cfg, Begin(node, alias, past), acts).value;
             SysEnabled(cfg, s, ReadFrame) && Link(s).sent[s.client.read].PairDeny?
    ensures var s := SysExec(cfg, Begin(node, alias, past), acts).value;
            SysStep(cfg, s, ReadFrame).client.pc ==
              Ended(Err(if Link(s).sent[0] == PairWait then Denied(Link(s).sent[s.client.read].reason) else Protocol))
  {
    hide SysExec, C.Exec;
    RunsKeepClientOk(cfg, node, alias, past, acts);
  }

  // ---- The handshake ----

  /** What is on its way fits what the daemon reads next. */
  ghost predicate InStep(s: System) {
    if !s.client.dialed then s.client.outbox == [] && (s.client.pc.Dialing? || s.client.pc.Ended?)
    else
      && s.client.id in s.w.invites && s.client.c in s.w.invites[s.client.id].conns
      && Fits(s.client, Link(s).pc)
  }

  predicate Fits(client: Client, pc: Pc) {
    && !client.pc.Dialing?
    && match pc
       case AcceptBi => Sending(client, [Version(CODE_VERSION), PairHello("")])
       case ReadVersion => Sending(client, [Version(CODE_VERSION), PairHello("")])
       case ReadHello => !client.pc.SayVersion? && Sending(client, [PairHello("")])
       case _ => true
  }

  /** The outbox holds the part of `rest` that was already said. */
  predicate Sending(client: Client, rest: seq<PairingFrame>) {
    && client.outbox <= rest
    && (client.pc.SayVersion? ==> client.outbox == [])
    && (client.pc.SayHello? ==> |client.outbox| + 1 == |rest|)
  }

  lemma LoopKeepsPc(inv: Invite, la: LoopAction, c: ConnId)
    requires LoopEnabled(inv, la) && c in inv.conns
    ensures var inv' := LoopStep(inv, la);
            c in inv'.conns && inv'.conns[c].pc == inv.conns[c].pc
  {
  }

  lemma ConnKeepsPc(inv: Invite, c: ConnId, ca: ConnAction, d: ConnId)
    requires ConnEnabled(inv, c, ca) && d in inv.conns && d != c
    ensures var inv' := ConnStep(inv, c, ca);
            d in inv'.conns && inv'.conns[d] == inv.conns[d]
  {
  }

  /** No step but the client's own connection's moves that connection on. */
  lemma OthersKeepPc(cfg: Cfg, w: World, a: Action, id: InviteId, c: ConnId)
    requires Enabled(cfg, w, a) && id in w.invites && c in w.invites[id].conns
    requires !(Handles(a) && a.id == id && a.c == c)
    ensures var w' := Step(cfg, w, a);
            id in w'.invites && c in w'.invites[id].conns && w'.invites[id].conns[c].pc == w.invites[id].conns[c].pc
  {
    hide LoopStep, ConnStep, RecordAction, StoreNow, LoopEnabled, ConnEnabled, T.HasName;
    if Handles(a) {
      hide Step, Enabled;
      HandlerStep(cfg, w, a);
      if a.id == id { ConnKeepsPc(w.invites[id], a.c, HandlerAction(cfg, w, a), c); }
    } else if a.OnLoop? && a.id == id {
      LoopKeepsPc(w.invites[id], a.la, c);
    }
  }

  /** The client's connection moves. */
  lemma LinkFits(client: Client, inv: Invite, ca: ConnAction)
    requires client.c in inv.conns && Fits(client, inv.conns[client.c].pc) && ConnEnabled(inv, client.c, ca)
    requires ca.GotFrame? ==> client.outbox != [] && ca == GotFrame(MsgType(client.outbox[0]), client.outbox[0])
    ensures ca.GotFrame? ==> Accepted(inv.conns[client.c], ca.msgType, ca.frame)
    ensures var inv' := ConnStep(inv, client.c, ca);
            && client.c in inv'.conns
            && Fits(if ca.GotFrame? then client.(outbox := client.outbox[1..]) else client, inv'.conns[client.c].pc)
  {
  }

  lemma DaemonKeepsInStep(cfg: Cfg, s: System, a: Action)
    requires InStep(s) && SysEnabled(cfg, s, Daemon(a))
    ensures InStep(SysStep(cfg, s, Daemon(a)))
  {
    hide Fits, Step, RecordAction, StoreNow, LoopEnabled, LoopStep, ConnEnabled, ConnStep;
    if s.client.dialed {
      if Handles(a) && a.id == s.client.id && a.c == s.client.c {
        HandlerStep(cfg, s.w, a);
        LinkFits(s.client, s.w.invites[s.client.id], HandlerAction(cfg, s.w, a));
      } else {
        OthersKeepPc(cfg, s.w, a, s.client.id, s.client.c);
      }
    }
  }

  lemma ClientKeepsInStep(cfg: Cfg, s: System, a: SysAction)
    requires InStep(s) && SysEnabled(cfg, s, a) && !a.Daemon?
    ensures InStep(SysStep(cfg, s, a))
  {
    hide C.Upserted, C.PairedEntry;
  }

  lemma {:induction false} RunsKeepInStep(cfg: Cfg, node: string, alias: Option<string>, past: seq<C.Op>, acts: seq<SysAction>)
    requires SysExec(cfg, Begin(node, alias, past), acts).Some?
    ensures InStep(SysExec(cfg, Begin(node, alias, past), acts).value)
  {
    hide SysStep, SysEnabled, C.Exec;
    if acts != [] {
      hide InStep;
      var front, a := acts[..|acts| - 1], acts[|acts| - 1];
      RunsKeepInStep(cfg, node, alias, past, front);
      var s := SysExec(cfg, Begin(node, alias, past), front).value;
      if a.Daemon? {
        DaemonKeepsInStep(cfg, s, a.a);
      } else {
        ClientKeepsInStep(cfg, s, a);
      }
    }
  }

  /** The daemon never rejects the handshake of a client that runs this
      script, wherever its frames are held up. */
  lemma HandshakeIsAccepted(cfg: Cfg, node: string, alias: Option<string>, past: seq<C.Op>, acts: seq<SysAction>, a: Action)
    requires SysExec(cfg, Begin(node, alias, past), acts).Some?
    requires var s := SysExec(cfg, Begin(node, alias, past), acts).value;
             SysEnabled(cfg, s, Daemon(a)) && OnLink(s.client, a)
    ensures var s := SysExec(cfg, Begin(node, alias, past), acts).value;
            Accepted(s.w.invites[a.id].conns[a.c], a.ca.msgType, a.ca.frame)
  {
    hide SysExec, C.Exec;
    RunsKeepInStep(cfg, node, alias, past, acts);
    var s := SysExec(cfg, Begin(node, alias, past), acts).value;
    LinkFits(s.client, s.w.invites[s.client.id], a.ca);
  }
}
