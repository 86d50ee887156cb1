/** What the invites do, tied to what the admin asked for: decisions to
    `decide` calls and names to `create` calls. */
module InviteCalls {
  import opened Prelude
  import opened PairFrames
  import opened Invites
  import opened InviteLocal
  import opened InviteRuns
  import InviteLaws
  import T = PeerTables
  import P = PeerStore

  // ---- Decisions, read off the actions of a run alone ----

  /** The invite and the decision of a `decide` call that looked an invite up
      and has not sent yet. */
  function Asked(acts: seq<Action>, call: CallId): Option<(InviteId, bool)> {
    if acts == [] then None else
    var front, a := acts[..|acts| - 1], acts[|acts| - 1];
    if a.DecideLookup? && a.call == call then Some((a.id, a.accept))
    else if a.DecideSend? && a.call == call then None
    else Asked(front, call)
  }

  predicate SendsTo(acts: seq<Action>, a: Action, id: InviteId) {
    a.DecideSend? && !a.dropped && Asked(acts, a.call).Some? && Asked(acts, a.call).value.0 == id
  }

  /** The decisions that the admin's calls sent to an invite, in order. */
  function Given(acts: seq<Action>, id: InviteId): seq<bool> {
    if acts == [] then [] else
    var front, a := acts[..|acts| - 1], acts[|acts| - 1];
    if SendsTo(front, a, id) then Given(front, id) + [Asked(front, a.call).value.1] else Given(front, id)
  }

  /** The decisions that an invite acted on, in order. */
  function Decisions(events: seq<Event>): seq<bool> {
    if events == [] then [] else
    var e := events[|events| - 1];
    Decisions(events[..|events| - 1]) + if e.Decided? then [e.accept] else []
  }

  lemma DecisionsAppend(events: seq<Event>, e: Event)
    ensures Decisions(events + [e]) == Decisions(events) + if e.Decided? then [e.accept] else []
  {
    assert (events + [e])[..|events|] == events;
  }

  function Taken(inv: Invite): seq<bool> {
    Decisions(inv.events) + inv.cmds
  }

  lemma LoopKeepsTaken(inv: Invite, la: LoopAction)
    requires LoopEnabled(inv, la)
    ensures Taken(LoopStep(inv, la)) == Taken(inv)
  {
    hide Decisions;
    var inv' := LoopStep(inv, la);
    if la.TakeCmd? {
      DecisionsAppend(inv.events, Decided(inv.cmds[0]));
      assert inv.cmds == [inv.cmds[0]] + inv.cmds[1..];
    } else if la.FinishSend? && inv.shared.resultTx {
      DecisionsAppend(inv.events, Delivered(ResultOf(inv.loop.o)));
    }
    assert inv.events + [] == inv.events;
  }

  lemma ConnKeepsTaken(inv: Invite, c: ConnId, ca: ConnAction)
    requires ConnEnabled(inv, c, ca)
    ensures Taken(ConnStep(inv, c, ca)) == Taken(inv)
  {
    hide Decisions;
    if ca.RecordOk? {
      DecisionsAppend(inv.events, RecordedPeer(c, inv.conns[c].node, ca.at));
    }
  }

  /** How often a `decide` on this invite was answered Ok. */
  function Oks(replies: seq<(InviteId, DecideReply)>, id: InviteId): nat {
    if replies == [] then 0 else
    Oks(replies[..|replies| - 1], id) + if replies[|replies| - 1] == (id, Sent) then 1 else 0
  }

  lemma OksAppend(replies: seq<(InviteId, DecideReply)>, r: (InviteId, DecideReply), id: InviteId)
    ensures Oks(replies + [r], id) == Oks(replies, id) + if r == (id, Sent) then 1 else 0
  {
    assert (replies + [r])[..|replies|] == replies;
  }

  ghost predicate Pending(acts: seq<Action>, w: World) {
    forall call :: call in w.deciding ==> Asked(acts, call) == Some(w.deciding[call])
  }

  ghost predicate Acted(acts: seq<Action>, w: World, id: InviteId) {
    && (if id in w.invites then Taken(w.invites[id]) == Given(acts, id) else Given(acts, id) == [])
    && Oks(w.replies, id) == |Given(acts, id)|
  }

  /** The invite itself is not sent a decision. */
  lemma ActedQuietly(acts: seq<Action>, a: Action, w: World, w': World, id: InviteId)
    requires acts != [] && Acted(acts[..|acts| - 1], w, id) && a == acts[|acts| - 1] && !SendsTo(acts[..|acts| - 1], a, id)
    requires id in w'.invites ==> if id in w.invites then Taken(w'.invites[id]) == Taken(w.invites[id]) else Taken(w'.invites[id]) == []
    requires id in w.invites ==> id in w'.invites
    requires Oks(w'.replies, id) == Oks(w.replies, id)
    ensures Acted(acts, w', id)
  {
    hide Taken, Oks;
  }

  lemma WaitingStep(cfg: Cfg, acts: seq<Action>, w: World)
    requires acts != [] && Pending(acts[..|acts| - 1], w) && Enabled(cfg, w, acts[|acts| - 1])
    ensures Pending(acts, Step(cfg, w, acts[|acts| - 1]))
  {
    hide LoopStep, ConnStep, RecordAction, StoreNow, LoopEnabled, ConnEnabled, T.HasName;
    var front, a := acts[..|acts| - 1], acts[|acts| - 1];
    var w' := Step(cfg, w, a);
    forall call | call in w'.deciding ensures Asked(acts, call) == Some(w'.deciding[call]) {
    }
  }

  /** A decision is sent, and answered Ok. */
  lemma SendActs(cfg: Cfg, acts: seq<Action>, w: World, id: InviteId)
    requires acts != [] && acts[|acts| - 1].DecideSend? && Enabled(cfg, w, acts[|acts| - 1])
    requires Pending(acts[..|acts| - 1], w) && Acted(acts[..|acts| - 1], w, id)
    ensures Acted(acts, Step(cfg, w, acts[|acts| - 1]), id)
  {
    hide Oks, Decisions;
    var a := acts[|acts| - 1];
    var to, accept := w.deciding[a.call].0, w.deciding[a.call].1;
    OksAppend(w.replies, (to, if a.dropped then TooLate else Sent), id);
    if !a.dropped && to == id {
      assert Decisions(w.invites[id].events) + (w.invites[id].cmds + [accept]) == Taken(w.invites[id]) + [accept];
    }
  }

  lemma QuietStep(cfg: Cfg, acts: seq<Action>, w: World, id: InviteId)
    requires acts != [] && !acts[|acts| - 1].DecideSend? && Enabled(cfg, w, acts[|acts| - 1]) && Acted(acts[..|acts| - 1], w, id)
    ensures Acted(acts, Step(cfg, w, acts[|acts| - 1]), id)
  {
    hide LoopStep, ConnStep, RecordAction, StoreNow, LoopEnabled, ConnEnabled, T.HasName, Taken, Oks, Acted;
    var a := acts[|acts| - 1];
    var w' := Step(cfg, w, a);
    if Handles(a) {
      HandlerStep(cfg, w, a);
      HandlerReplies(cfg, w, a);
      hide Step, Enabled;
      ConnKeepsTaken(w.invites[a.id], a.c, HandlerAction(cfg, w, a));
    } else if a.OnLoop? {
      LoopKeepsTaken(w.invites[a.id], a.la);
    } else if a.CreateInsert? {
      NewTakesNothing(w.creating[a.call].name, cfg.server);
    } else if a.FinishRemove? {
      GoneTakesSame(w.invites[a.id]);
    } else if a.DecideLookup? && a.id !in w.entries {
      OksAppend(w.replies, (a.id, DecideReply.NotFound), id);
    }
    ActedQuietly(acts, a, w, w', id);
  }

  lemma HandlerReplies(cfg: Cfg, w: World, a: Action)
    requires Enabled(cfg, w, a) && Handles(a)
    ensures Step(cfg, w, a).replies == w.replies
  {
    hide ConnStep, RecordAction, StoreNow, ConnEnabled;
  }

  lemma NewTakesNothing(name: string, server: string)
    ensures Taken(NewInvite(name, server)) == []
  {
  }

  lemma GoneTakesSame(inv: Invite)
    ensures Taken(inv.(loop := Gone)) == Taken(inv)
  {
  }

  lemma {:induction false} RunsAct(cfg: Cfg, acts: seq<Action>, id: InviteId)
    requires Exec(cfg, acts).Some?
    ensures Pending(acts, Exec(cfg, acts).value) && Acted(acts, Exec(cfg, acts).value, id)
  {
    hide Step, Enabled;
    if acts != [] {
      hide Pending, Acted, Asked, Given;
      var front := acts[..|acts| - 1];
      RunsAct(cfg, front, id);
      WaitingStep(cfg, acts, Exec(cfg, front).value);
      if acts[|acts| - 1].DecideSend? {
        SendActs(cfg, acts, Exec(cfg, front).value, id);
      } else {
        QuietStep(cfg, acts, Exec(cfg, front).value, id);
      }
    }
  }

  /** Over every run, the decisions an invite has acted on, followed by those
      still queued, are exactly the decisions that `decide` calls sent to it, in
      order, and `decide` answered Ok exactly that often. */
  lemma InvitesActOnWhatTheAdminSaid(cfg: Cfg, acts: seq<Action>, id: InviteId)
    requires Exec(cfg, acts).Some? && id in Exec(cfg, acts).value.invites
    ensures var w := Exec(cfg, acts).value;
            && Decisions(w.invites[id].events) + w.invites[id].cmds == Given(acts, id)
            && Oks(w.replies, id) == |Given(acts, id)|
  {
    hide Exec, Given, Decisions, Oks;
    RunsAct(cfg, acts, id);
  }

  // ---- A recorded peer was accepted by the admin ----

  lemma {:induction false} AskedWasLookedUp(acts: seq<Action>, call: CallId) returns (n: nat)
    requires Asked(acts, call).Some?
    ensures n < |acts| && acts[n] == DecideLookup(call, Asked(acts, call).value.0, Asked(acts, call).value.1)
  {
    var a := acts[|acts| - 1];
    if a.DecideLookup? && a.call == call {
      n := |acts| - 1;
    } else {
      n := AskedWasLookedUp(acts[..|acts| - 1], call);
    }
  }

  predicate IsLookup(a: Action, id: InviteId, accept: bool) {
    a.DecideLookup? && a.id == id && a.accept == accept
  }

  lemma {:induction false} GivenWasLookedUp(acts: seq<Action>, id: InviteId, accept: bool) returns (n: nat)
    requires accept in Given(acts, id)
    ensures n < |acts| && IsLookup(acts[n], id, accept)
  {
    var front, a := acts[..|acts| - 1], acts[|acts| - 1];
    if accept in Given(front, id) {
      n := GivenWasLookedUp(front, id, accept);
    } else {
      n := AskedWasLookedUp(front, a.call);
    }
  }

  lemma {:induction false} DecidedIsADecision(events: seq<Event>, accept: bool)
    requires Decided(accept) in events
    ensures accept in Decisions(events)
  {
    if events[|events| - 1] != Decided(accept) {
      assert Decided(accept) in events[..|events| - 1];
      DecidedIsADecision(events[..|events| - 1], accept);
    }
  }

  /** The step that recorded a peer, and the world it was taken in. */
  lemma {:induction false} RecordingStep(cfg: Cfg, acts: seq<Action>, id: InviteId, k: nat) returns (m: nat)
    requires Exec(cfg, acts).Some? && id in Exec(cfg, acts).value.invites
    requires k < |Exec(cfg, acts).value.invites[id].events| && Exec(cfg, acts).value.invites[id].events[k].RecordedPeer?
    ensures m < |acts| && Exec(cfg, acts[..m]).Some? && Enabled(cfg, Exec(cfg, acts[..m]).value, acts[m])
    ensures acts[m].Record? && acts[m].id == id && acts[m].c == Exec(cfg, acts).value.invites[id].events[k].conn
    ensures Exec(cfg, acts).value.invites[id].events[k].at == |Exec(cfg, acts[..m]).value.log|
    ensures CallIn(cfg, Exec(cfg, acts[..m]).value, acts[m], Exec(cfg, acts).value.invites[id].events[k].node)
  {
    hide Step, Enabled, CallIn;
    var front, a := acts[..|acts| - 1], acts[|acts| - 1];
    var w := Exec(cfg, front).value;
    if id in w.invites && k < |w.invites[id].events| {
      StepGrows(cfg, w, a);
      assert Exec(cfg, acts).value.invites[id].events[k] == w.invites[id].events[k];
      m := RecordingStep(cfg, front, id, k);
      assert front[..m] == acts[..m];
    } else {
      NewRecording(cfg, w, a, id, k);
      m := |acts| - 1;
    }
  }

  lemma NewRecording(cfg: Cfg, w: World, a: Action, id: InviteId, k: nat)
    requires Enabled(cfg, w, a) && id in Step(cfg, w, a).invites
    requires k < |Step(cfg, w, a).invites[id].events| && Step(cfg, w, a).invites[id].events[k].RecordedPeer?
    requires id in w.invites ==> k >= |w.invites[id].events|
    ensures a.Record? && a.id == id && a.c == Step(cfg, w, a).invites[id].events[k].conn
    ensures Step(cfg, w, a).invites[id].events[k].at == |w.log| && CallIn(cfg, w, a, Step(cfg, w, a).invites[id].events[k].node)
  {
    hide LoopStep, ConnStep, RecordAction, StoreNow, LoopEnabled, ConnEnabled, T.HasName;
    if Handles(a) {
      HandlerStep(cfg, w, a);
      if HandlerAction(cfg, w, a).RecordOk? { OkIsAtTheEnd(cfg, w, a); }
      hide Step, Enabled, HandlerAction;
      IsConn(w.invites[a.id], a.c, HandlerAction(cfg, w, a));
      ConnKeeps(w.invites[a.id], a.c, HandlerAction(cfg, w, a));
    } else if a.OnLoop? {
      LoopKeeps(w.invites[a.id], a.la);
    }
  }

  lemma IsConn(inv: Invite, c: ConnId, ca: ConnAction)
    requires ConnEnabled(inv, c, ca)
    ensures c in inv.conns
  {
  }

  lemma OkIsAtTheEnd(cfg: Cfg, w: World, a: Action)
    requires Enabled(cfg, w, a) && Handles(a) && HandlerAction(cfg, w, a).RecordOk?
    ensures a.Record? && HandlerAction(cfg, w, a).at == |w.log| && |Step(cfg, w, a).log| == |w.log| + 1
  {
    hide StoreNow, P.Perform, T.HasName, ConnStep;
  }

  /** The recording is for the connection's own node id. */
  predicate CallIn(cfg: Cfg, w: World, a: Action, node: string) {
    && a.Record? && a.id in w.invites && a.c in w.invites[a.id].conns && w.invites[a.id].conns[a.c].node == node
    && Enabled(cfg, w, a) && |Step(cfg, w, a).log| > |w.log|
  }

  /** What the recording step puts into the store's history. */
  lemma RecordIsCalled(cfg: Cfg, w: World, a: Action, node: string)
    requires CallIn(cfg, w, a, node)
    ensures Step(cfg, w, a).log[|w.log|] == P.Call(T.AddPeer(T.Peer(w.invites[a.id].name, node, a.now, a.now)), a.io)
  {
    hide ConnStep, RecordAction, StoreNow, ConnEnabled;
  }

  /** A recorded peer is in the store's history as it was recorded: the invite's
      name, the connection's node id, and the time of the recording as both of
      its times. */
  lemma RecordedAsCalled(cfg: Cfg, acts: seq<Action>, id: InviteId, k: nat) returns (m: nat)
    requires Exec(cfg, acts).Some? && id in Exec(cfg, acts).value.invites
    requires k < |Exec(cfg, acts).value.invites[id].events| && Exec(cfg, acts).value.invites[id].events[k].RecordedPeer?
    ensures var w := Exec(cfg, acts).value;
            var e := w.invites[id].events[k];
            && m < |acts| && acts[m].Record? && acts[m].id == id && acts[m].c == e.conn && e.at < |w.log|
            && w.log[e.at] == P.Call(T.AddPeer(T.Peer(w.invites[id].name, e.node, acts[m].now, acts[m].now)), acts[m].io)
  {
    hide Exec, Step, Enabled;
    InviteLaws.OneRecordingPerInvite(cfg, acts, id, k);
    m := RecordingStep(cfg, acts, id, k);
    InviteLaws.StepIsHistory(cfg, acts, m);
    var v, w := Exec(cfg, acts[..m]).value, Exec(cfg, acts).value;
    RecordIsCalled(cfg, v, acts[m], w.invites[id].events[k].node);
  }

  lemma RecordingHandler(cfg: Cfg, acts: seq<Action>, a: Action)
    requires Exec(cfg, acts).Some? && a.Record? && Enabled(cfg, Exec(cfg, acts).value, a)
    ensures a.id in Exec(cfg, acts).value.invites
    ensures Decided(true) in Exec(cfg, acts).value.invites[a.id].events
  {
    hide Exec, StoreNow;
    InviteLaws.Reached(cfg, acts, a.id);
    var inv := Exec(cfg, acts).value.invites[a.id];
    assert ConnOk(inv, a.c, inv.conns[a.c]);
  }

  /** Every peer an invite recorded was recorded at a step `m` before which, at
      step `n`, the admin called `decide` on that invite with acceptance. */
  lemma RecordedWasAcceptedByAdmin(cfg: Cfg, acts: seq<Action>, id: InviteId, k: nat) returns (n: nat, m: nat)
    requires Exec(cfg, acts).Some? && id in Exec(cfg, acts).value.invites
    requires k < |Exec(cfg, acts).value.invites[id].events| && Exec(cfg, acts).value.invites[id].events[k].RecordedPeer?
    ensures n < m < |acts| && IsLookup(acts[n], id, true)
    ensures acts[m].Record? && acts[m].id == id && acts[m].c == Exec(cfg, acts).value.invites[id].events[k].conn
  {
    hide Exec, Enabled, Given, Decisions;
    m := RecordingStep(cfg, acts, id, k);
    RecordingHandler(cfg, acts[..m], acts[m]);
    var inv := Exec(cfg, acts[..m]).value.invites[id];
    DecidedIsADecision(inv.events, true);
    InvitesActOnWhatTheAdminSaid(cfg, acts[..m], id);
    assert true in Decisions(inv.events) + inv.cmds;
    n := GivenWasLookedUp(acts[..m], id, true);
  }

  // ---- Names ----

  /** Step `n` asked for this name, and at step `m` it was free. */
  ghost predicate AskedFor(cfg: Cfg, acts: seq<Action>, n: nat, m: nat, call: CallId, name: string) {
    && n < m < |acts| && acts[n] == CallCreate(call, name) && acts[m] == CreateCheckName(call)
    && Exec(cfg, acts[..m]).Some? && Enabled(cfg, Exec(cfg, acts[..m]).value, acts[m])
    && !T.HasName(StoreNow(cfg, Exec(cfg, acts[..m]).value).mem, name)
  }

  /** A `create` call in progress. */
  lemma {:induction false} CallInProgress(cfg: Cfg, acts: seq<Action>, call: CallId) returns (n: nat, m: nat)
    requires Exec(cfg, acts).Some? && call in Exec(cfg, acts).value.creating
    ensures var pc := Exec(cfg, acts).value.creating[call];
            && n < |acts| && acts[n] == CallCreate(call, pc.name)
            && (!pc.CheckingName? ==> AskedFor(cfg, acts, n, m, call, pc.name))
  {
    hide Step, Enabled, StoreNow, T.HasName;
    var front, a := acts[..|acts| - 1], acts[|acts| - 1];
    var w := Exec(cfg, front).value;
    CallStep(cfg, w, a, call);
    if a.CallCreate? && a.call == call {
      n, m := |acts| - 1, 0;
    } else {
      n, m := CallInProgress(cfg, front, call);
      if w.creating[call].CheckingName? { m := |acts| - 1; } else { assert front[..m] == acts[..m]; }
    }
  }

  lemma CallStep(cfg: Cfg, w: World, a: Action, call: CallId)
    requires Enabled(cfg, w, a) && call in Step(cfg, w, a).creating
    ensures var pc' := Step(cfg, w, a).creating[call];
            if a.CallCreate? && a.call == call then pc' == CheckingName(a.name)
            else && call in w.creating && pc'.name == w.creating[call].name
                 && (w.creating[call].CheckingName? && !pc'.CheckingName? ==>
                       a == CreateCheckName(call) && StoreNow(cfg, w).Up? && !T.HasName(StoreNow(cfg, w).mem, pc'.name))
                 && (!w.creating[call].CheckingName? ==> !pc'.CheckingName?)
  {
    hide LoopStep, ConnStep, RecordAction, StoreNow, LoopEnabled, ConnEnabled, T.HasName;
  }

  /** Every invite has the name that its `create` call asked for, and that name
      was free when the call checked it: a taken name gets no invite. */
  lemma {:induction false} InviteWasAskedFor(cfg: Cfg, acts: seq<Action>, id: InviteId) returns (call: CallId, n: nat, m: nat)
    requires Exec(cfg, acts).Some? && id in Exec(cfg, acts).value.invites
    ensures AskedFor(cfg, acts, n, m, call, Exec(cfg, acts).value.invites[id].name)
  {
    hide Step, Enabled, StoreNow, T.HasName;
    var front, a := acts[..|acts| - 1], acts[|acts| - 1];
    var w := Exec(cfg, front).value;
    if id in w.invites {
      StepGrows(cfg, w, a);
      call, n, m := InviteWasAskedFor(cfg, front, id);
    } else {
      NewInviteStep(cfg, w, a, id);
      call := a.call;
      n, m := CallInProgress(cfg, front, call);
    }
    assert front[..m] == acts[..m];
  }

  lemma NewInviteStep(cfg: Cfg, w: World, a: Action, id: InviteId)
    requires Enabled(cfg, w, a) && id in Step(cfg, w, a).invites && id !in w.invites
    ensures a.CreateInsert? && a.id == id && a.call in w.creating && !w.creating[a.call].CheckingName?
    ensures Step(cfg, w, a).invites[id].name == w.creating[a.call].name
  {
    hide LoopStep, ConnStep, RecordAction, StoreNow, LoopEnabled, ConnEnabled, T.HasName;
  }

  // ---- The handshake comes first ----

  /** The frames that the daemon read on a connection, read off the actions. */
  function Heard(acts: seq<Action>, id: InviteId, c: ConnId): seq<(byte, PairingFrame)> {
    if acts == [] then [] else
    var front, a := acts[..|acts| - 1], acts[|acts| - 1];
    if a.OnConn? && a.id == id && a.c == c && a.ca.GotFrame? then Heard(front, id, c) + [(a.ca.msgType, a.ca.frame)] else Heard(front, id, c)
  }

  /** VERSION 1 and then a hello, each with its own type byte. */
  predicate Introduced(heard: seq<(byte, PairingFrame)>) {
    && |heard| == 2 && heard[0] == (1, Version(1)) && heard[1].0 == 2 && heard[1].1.PairHello?
  }

  predicate HeardOk(conn: Conn, heard: seq<(byte, PairingFrame)>) {
    if conn.refused then heard == [] && (conn.pc.RefuseOpen? || conn.pc.RefuseSend? || conn.pc.Done?)
    else match conn.pc
         case AcceptBi => heard == []
         case ReadVersion => heard == []
         case ReadHello => heard == [(1, Version(1))]
         case Releasing => conn.sent != [] ==> Introduced(heard)
         case Done => conn.sent != [] ==> Introduced(heard)
         case RefuseOpen => false
         case RefuseSend => false
         case _ => Introduced(heard)
  }

  function HeardAfter(ca: ConnAction, heard: seq<(byte, PairingFrame)>): seq<(byte, PairingFrame)> {
    if ca.GotFrame? then heard + [(ca.msgType, ca.frame)] else heard
  }

  lemma ConnKeepsHeard(inv: Invite, c: ConnId, ca: ConnAction, heard: seq<(byte, PairingFrame)>)
    requires ConnEnabled(inv, c, ca) && HeardOk(inv.conns[c], heard) && ConnOk(inv, c, inv.conns[c])
    ensures c in ConnStep(inv, c, ca).conns && HeardOk(ConnStep(inv, c, ca).conns[c], HeardAfter(ca, heard))
  {
    hide RecordOf, AcceptedBefore;
  }

  lemma LoopKeepsHeard(inv: Invite, la: LoopAction, c: ConnId, heard: seq<(byte, PairingFrame)>)
    requires LoopEnabled(inv, la) && c in LoopStep(inv, la).conns
    requires if c in inv.conns then HeardOk(inv.conns[c], heard) else heard == []
    ensures HeardOk(LoopStep(inv, la).conns[c], heard)
  {
  }

  lemma {:induction false} RunsKeepHeard(cfg: Cfg, acts: seq<Action>, id: InviteId, c: ConnId)
    requires Exec(cfg, acts).Some?
    ensures var w := Exec(cfg, acts).value;
            if id in w.invites && c in w.invites[id].conns then HeardOk(w.invites[id].conns[c], Heard(acts, id, c)) else Heard(acts, id, c) == []
  {
    hide Step, Enabled, HeardOk, ConnStep, ConnEnabled, LoopStep, LoopEnabled;
    if acts != [] {
      var front, a := acts[..|acts| - 1], acts[|acts| - 1];
      RunsKeepHeard(cfg, front, id, c);
      RunsKeepInv(cfg, front);
      var w := Exec(cfg, front).value;
      HeardStep(cfg, w, a, id, c, Heard(front, id, c));
    }
  }

  lemma HeardStep(cfg: Cfg, w: World, a: Action, id: InviteId, c: ConnId, heard: seq<(byte, PairingFrame)>)
    requires Each(cfg, w) && Enabled(cfg, w, a)
    requires if id in w.invites && c in w.invites[id].conns then HeardOk(w.invites[id].conns[c], heard) else heard == []
    ensures var w' := Step(cfg, w, a);
            var heard' := if a.OnConn? && a.id == id && a.c == c then HeardAfter(a.ca, heard) else heard;
            if id in w'.invites && c in w'.invites[id].conns then HeardOk(w'.invites[id].conns[c], heard') else heard' == []
  {
    hide Step, Enabled, HeardOk, ConnStep, ConnEnabled, LoopStep, LoopEnabled, Each, Told, Slot, Conns, Records, Results, HandlerAction;
    var w' := Step(cfg, w, a);
    StepGrows(cfg, w, a);
    if Handles(a) {
      HandlerStep(cfg, w, a);
      if a.id == id {
        var ca := HandlerAction(cfg, w, a);
        IsConn(w.invites[id], a.c, ca);
        InviteLaws.OwnAction(cfg, w, a);
        if a.c == c {
          OneOf(cfg, w, id);
          LinkOk(w.invites[id], c, ca);
          ConnKeepsHeard(w.invites[id], c, ca, heard);
        } else if c in w'.invites[id].conns {
          InviteLaws.OthersSaySame(w.invites[id], a.c, ca, c);
        }
      }
    } else if a.OnLoop? && a.id == id {
      InviteLaws.LoopStepShape(cfg, w, a);
      if c in w'.invites[id].conns { LoopKeepsHeard(w.invites[id], a.la, c, heard); }
    } else if id in w'.invites && c in w'.invites[id].conns {
      InviteLaws.OtherSays(cfg, w, a, id, c);
    }
  }

  /** Nothing is sent on a handled connection, and so nobody is recorded, unless
      the client introduced itself: VERSION 1, then a hello, each under its own
      type byte, and nothing else. */
  lemma HandshakeComesFirst(cfg: Cfg, acts: seq<Action>, id: InviteId, c: ConnId)
    requires Exec(cfg, acts).Some? && id in Exec(cfg, acts).value.invites && c in Exec(cfg, acts).value.invites[id].conns
    requires !Exec(cfg, acts).value.invites[id].conns[c].refused && Exec(cfg, acts).value.invites[id].conns[c].sent != []
    ensures Introduced(Heard(acts, id, c))
  {
    hide Exec, Heard;
    RunsKeepHeard(cfg, acts, id, c);
    InviteLaws.Reached(cfg, acts, id);
    var inv := Exec(cfg, acts).value.invites[id];
    assert ConnOk(inv, c, inv.conns[c]);
  }
}
