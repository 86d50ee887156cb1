/** What the pairing protocol guarantees over every interleaving of accept
    loops, handlers, decisions, `create` calls and admin operations. */
module InviteLaws {
  import opened Prelude
  import opened PairFrames
  import opened Invites
  import opened InviteLocal
  import opened InviteRuns
  import T = PeerTables
  import P = PeerStore

  /** An invite of a reachable world satisfies the invariants. */
  lemma Reached(cfg: Cfg, acts: seq<Action>, id: InviteId)
    requires Exec(cfg, acts).Some? && id in Exec(cfg, acts).value.invites
    ensures var inv := Exec(cfg, acts).value.invites[id];
            Slot(inv) && Conns(inv) && Records(inv) && Results(inv) && Told(inv) && Finished(inv) && inv.server == cfg.server
  {
    hide Exec, Slot, Conns, Records, Results, Told;
    RunsKeepInv(cfg, acts);
  }

  lemma ReachedLogs(cfg: Cfg, acts: seq<Action>)
    requires Exec(cfg, acts).Some?
    ensures Recordings(cfg, Exec(cfg, acts).value) && Accounted(cfg, Exec(cfg, acts).value)
    ensures Manager(Exec(cfg, acts).value) && Capped(cfg, Exec(cfg, acts).value)
  {
    hide Exec, Recordings, Accounted, Manager, Capped;
    RunsKeepInv(cfg, acts);
  }

  // ---- At most one peer per invite ----

  /** One invite records at most one peer, only after the admin said yes, and
      that recording is an `add_peer` that answered Ok for this node id under
      the invite's name. */
  lemma OneRecordingPerInvite(cfg: Cfg, acts: seq<Action>, id: InviteId, k: nat)
    requires Exec(cfg, acts).Some? && id in Exec(cfg, acts).value.invites
    requires k < |Exec(cfg, acts).value.invites[id].events| && Exec(cfg, acts).value.invites[id].events[k].RecordedPeer?
    ensures var w := Exec(cfg, acts).value;
            var inv := w.invites[id];
            && (forall m :: 0 <= m < |inv.events| && inv.events[m].RecordedPeer? ==> m == k)
            && AcceptedBefore(inv.events, k)
            && InLog(cfg, w.log, inv.name, inv.events[k])
  {
    hide Exec, InLog, AcceptedBefore;
    Reached(cfg, acts, id);
    ReachedLogs(cfg, acts);
  }

  /** Only the recorded connection is ever sent PAIR_CONFIRM, and it carries the
      daemon's own node id and the invite's name. */
  lemma ConfirmedIsRecorded(cfg: Cfg, acts: seq<Action>, id: InviteId, c: ConnId, f: PairingFrame)
    requires Exec(cfg, acts).Some? && id in Exec(cfg, acts).value.invites
    requires c in Exec(cfg, acts).value.invites[id].conns && f.PairConfirm? && f in Exec(cfg, acts).value.invites[id].conns[c].sent
    ensures var inv := Exec(cfg, acts).value.invites[id];
            f == PairConfirm(cfg.server, inv.name) && RecordOf(inv.events, c, inv.conns[c].node)
  {
    hide Exec, RecordOf;
    Reached(cfg, acts, id);
    var inv := Exec(cfg, acts).value.invites[id];
    assert ConnOk(inv, c, inv.conns[c]);
  }

  /** A recorded connection is never denied: it hears PAIR_CONFIRM after
      PAIR_WAIT, or nothing when the write fails. */
  lemma RecordedIsNeverDenied(cfg: Cfg, acts: seq<Action>, id: InviteId, c: ConnId, node: string)
    requires Exec(cfg, acts).Some? && id in Exec(cfg, acts).value.invites
    requires RecordOf(Exec(cfg, acts).value.invites[id].events, c, node)
    ensures var inv := Exec(cfg, acts).value.invites[id];
            && c in inv.conns && [PairWait] <= inv.conns[c].sent <= [PairWait, PairConfirm(cfg.server, inv.name)]
  {
    hide Exec;
    Reached(cfg, acts, id);
    var inv := Exec(cfg, acts).value.invites[id];
    var k :| 0 <= k < |inv.events| && IsRecord(inv.events[k], c, node);
    assert ConnOk(inv, c, inv.conns[c]);
  }

  lemma OneConfirmPerInvite(cfg: Cfg, acts: seq<Action>, id: InviteId, c: ConnId, d: ConnId, f: PairingFrame, g: PairingFrame)
    requires Exec(cfg, acts).Some? && id in Exec(cfg, acts).value.invites
    requires c in Exec(cfg, acts).value.invites[id].conns && f.PairConfirm? && f in Exec(cfg, acts).value.invites[id].conns[c].sent
    requires d in Exec(cfg, acts).value.invites[id].conns && g.PairConfirm? && g in Exec(cfg, acts).value.invites[id].conns[d].sent
    ensures c == d
  {
    ConfirmedIsRecorded(cfg, acts, id, c, f);
    ConfirmedIsRecorded(cfg, acts, id, d, g);
    hide Exec;
    var inv := Exec(cfg, acts).value.invites[id];
    var k :| 0 <= k < |inv.events| && IsRecord(inv.events[k], c, inv.conns[c].node);
    var m :| 0 <= m < |inv.events| && IsRecord(inv.events[m], d, inv.conns[d].node);
    OneRecordingPerInvite(cfg, acts, id, k);
  }

  ghost predicate IsRecordingAt(w: World, i: InviteId, k: int, p: nat) {
    && i in w.invites && 0 <= k < |w.invites[i].events|
    && w.invites[i].events[k].RecordedPeer? && w.invites[i].events[k].at == p
  }

  /** The other way round: every `add_peer` that answered Ok is the recording
      of exactly one invite, the one whose name it carries. */
  lemma RecordingsAreAccountedFor(cfg: Cfg, acts: seq<Action>, p: nat, name: string)
    requires Exec(cfg, acts).Some? && p < |Exec(cfg, acts).value.log|
    requires P.Recorded(cfg.codec, Exec(cfg, acts).value.log, p, name)
    ensures Owned(Exec(cfg, acts).value, p, name, Exec(cfg, acts).value.log[p].op.peer.nodeId)
    ensures var w := Exec(cfg, acts).value;
            forall i, j, k, m :: IsRecordingAt(w, i, k, p) && IsRecordingAt(w, j, m, p) ==> i == j && k == m
  {
    hide Exec, InLog, Owned;
    ReachedLogs(cfg, acts);
    var w := Exec(cfg, acts).value;
    forall i, k, m | i in w.invites && 0 <= k < |w.invites[i].events| && 0 <= m < |w.invites[i].events|
                     && w.invites[i].events[k].RecordedPeer? && w.invites[i].events[m].RecordedPeer?
      ensures k == m
    {
      OneRecordingPerInvite(cfg, acts, i, k);
    }
  }

  // ---- The pair slot and the frames ----

  /** The slot is taken exactly while one handler is live, and never by two. */
  lemma SlotIsHeldByOneHandler(cfg: Cfg, acts: seq<Action>, id: InviteId)
    requires Exec(cfg, acts).Some? && id in Exec(cfg, acts).value.invites
    ensures var inv := Exec(cfg, acts).value.invites[id];
            && (inv.shared.pairBusy <==> exists c :: c in inv.conns && Live(inv.conns[c]))
            && (forall c, d :: c in inv.conns && d in inv.conns && Live(inv.conns[c]) && Live(inv.conns[d]) ==> c == d)
  {
    hide Exec;
    Reached(cfg, acts, id);
  }

  /** The frames on a handled connection are always a prefix of [Deny
      NameTaken], [Wait, Confirm] or [Wait, Deny r]; on a refused connection of
      [Deny Busy]. Whatever denial was sent has its cause in the run. */
  lemma FramesFollowProtocol(cfg: Cfg, acts: seq<Action>, id: InviteId, c: ConnId)
    requires Exec(cfg, acts).Some? && id in Exec(cfg, acts).value.invites && c in Exec(cfg, acts).value.invites[id].conns
    ensures var inv := Exec(cfg, acts).value.invites[id];
            var conn := inv.conns[c];
            if conn.refused then conn.sent <= [PairDeny(Busy)]
            else || conn.sent <= [PairDeny(NameTaken)]
                 || conn.sent <= [PairWait, PairConfirm(cfg.server, inv.name)]
                 || exists r :: r != NameTaken && conn.sent == [PairWait, PairDeny(r)]
    ensures forall r :: PairDeny(r) in Exec(cfg, acts).value.invites[id].conns[c].sent ==> Caused(cfg, acts, id, c, r)
  {
    hide Exec, RecordOf, Caused;
    forall r | PairDeny(r) in Exec(cfg, acts).value.invites[id].conns[c].sent ensures Caused(cfg, acts, id, c, r) {
      DenialHasCause(cfg, acts, id, c, r);
    }
    Reached(cfg, acts, id);
    var inv := Exec(cfg, acts).value.invites[id];
    assert ConnOk(inv, c, inv.conns[c]);
    var sent := inv.conns[c].sent;
    if !inv.conns[c].refused && |sent| == 2 && sent[1].PairDeny? {
      assert sent == [PairWait, PairDeny(sent[1].reason)];
    }
  }

  // ---- Why a client is denied ----

  /** The denial was sent, is about to be sent, or is due to a connection that
      was refused at the door. */
  predicate Said(conn: Conn, r: PairDenyReason) {
    PairDeny(r) in conn.sent || (conn.pc.Verdict? && conn.pc.frame == PairDeny(r)) || (conn.refused && r == Busy)
  }

  ghost predicate SomeLive(inv: Invite) {
    exists d :: d in inv.conns && Live(inv.conns[d])
  }

  /** Another connection than `c` was recorded. */
  ghost predicate OtherRecorded(inv: Invite, c: ConnId) {
    exists k :: 0 <= k < |inv.events| && inv.events[k].RecordedPeer? && inv.events[k].conn != c
  }

  /** Step `a` decides to deny connection `c` for a reason that is true in the
      world it is taken in: the name is in the table; the admin refused; a
      timeout strikes while the client waits; the admin accepted and `add_peer`
      for its node id under the invite's name answers an error; another handler is live when it
      connects, or another connection was recorded before it. */
  ghost predicate Cause(cfg: Cfg, w: World, a: Action, id: InviteId, c: ConnId, r: PairDenyReason) {
    && Enabled(cfg, w, a) && id in w.invites
    && var inv := w.invites[id];
    match r
    case NameTaken => a == CheckNameFree(id, c) && T.HasName(StoreNow(cfg, w).mem, inv.name)
    case AdminDenied => a == OnConn(id, c, ReadDecision) && inv.shared.decision == Some(false) && RefusedBefore(inv.events)
    case Expired => a == OnConn(id, c, PromptTimeout) && inv.conns[c].pc.Waiting?
    case ServerError =>
      && a.Record? && a.id == id && a.c == c && !inv.shared.peerRecorded && AcceptedBefore(inv.events, |inv.events|)
      && P.Perform(cfg.codec, StoreNow(cfg, w), T.AddPeer(NewPeer(inv, c, a.now)), a.io).1.Failed?
    case Busy =>
      || (a.OnLoop? && a.id == id && a.la.Connect? && a.la.c == c && SomeLive(inv))
      || (a.Record? && a.id == id && a.c == c && inv.shared.peerRecorded && OtherRecorded(inv, c))
  }

  /** Some step of the run was the cause. */
  ghost predicate Caused(cfg: Cfg, acts: seq<Action>, id: InviteId, c: ConnId, r: PairDenyReason) {
    exists n: nat :: n < |acts| && Exec(cfg, acts[..n]).Some? && Cause(cfg, Exec(cfg, acts[..n]).value, acts[n], id, c, r)
  }

  /** Which steps of a handler decide to deny. */
  lemma HandlerSays(inv: Invite, c: ConnId, ca: ConnAction, r: PairDenyReason)
    requires NewlySaid(inv, c, ca, r) && ConnOk(inv, c, inv.conns[c])
    ensures match r
            case NameTaken => ca == NameChecked(false)
            case AdminDenied => ca.ReadDecision? && inv.shared.decision == Some(false)
            case Expired => ca.PromptTimeout? && inv.conns[c].pc.Waiting?
            case ServerError => ca.RecordRefused?
            case Busy => ca.AlreadyRecorded? && inv.conns[c].pc.Recording?
  {
    hide RecordOf, AcceptedBefore;
  }

  lemma OthersSaySame(inv: Invite, c: ConnId, ca: ConnAction, d: ConnId)
    requires ConnEnabled(inv, c, ca) && d != c && d in ConnStep(inv, c, ca).conns
    ensures d in inv.conns && ConnStep(inv, c, ca).conns[d] == inv.conns[d]
  {
  }

  /** The loop denies nobody, but refuses a connection while one is live. */
  lemma LoopSays(inv: Invite, la: LoopAction, c: ConnId, r: PairDenyReason)
    requires LoopEnabled(inv, la) && c in LoopStep(inv, la).conns && Said(LoopStep(inv, la).conns[c], r)
    ensures (c in inv.conns && Said(inv.conns[c], r)) || (r == Busy && la.Connect? && la.c == c && inv.shared.pairBusy)
  {
  }

  /** A handler that finds the flag set is not the one that set it. */
  lemma RecordedByAnother(inv: Invite, c: ConnId)
    requires Records(inv) && Told(inv) && inv.shared.peerRecorded && c in inv.conns && inv.conns[c].pc.Recording?
    ensures OtherRecorded(inv, c)
  {
    var k :| 0 <= k < |inv.events| && inv.events[k].RecordedPeer?;
    assert Confirms(inv.conns[inv.events[k].conn]);
  }

  lemma AddPeerAnswers(cfg: Cfg, s: P.Store, p: T.Peer, io: P.Io)
    requires s.Up?
    ensures P.Perform(cfg.codec, s, T.AddPeer(p), io).1 == T.Done || P.Perform(cfg.codec, s, T.AddPeer(p), io).1.Failed?
  {
  }

  lemma RecordingWasAccepted(inv: Invite, c: ConnId)
    requires c in inv.conns && ConnOk(inv, c, inv.conns[c]) && inv.conns[c].pc.Recording?
    ensures AcceptedBefore(inv.events, |inv.events|)
  {
  }

  lemma DecisionWasRefused(inv: Invite)
    requires Records(inv) && inv.shared.decision == Some(false)
    ensures RefusedBefore(inv.events)
  {
  }

  /** The handler decides to deny in this very step. */
  predicate NewlySaid(inv: Invite, c: ConnId, ca: ConnAction, r: PairDenyReason) {
    ConnEnabled(inv, c, ca) && c in inv.conns && !Said(inv.conns[c], r) && Said(ConnStep(inv, c, ca).conns[c], r)
  }

  lemma HandlerCause(cfg: Cfg, w: World, a: Action, r: PairDenyReason)
    requires Each(cfg, w) && Enabled(cfg, w, a) && Handles(a) && a.id in w.invites
    requires NewlySaid(w.invites[a.id], a.c, HandlerAction(cfg, w, a), r)
    ensures Cause(cfg, w, a, a.id, a.c, r)
  {
    hide ConnStep, ConnEnabled, Said, StoreNow, T.HasName, P.Perform, OtherRecorded, RefusedBefore, Each, Local, Told;
    var inv := w.invites[a.id];
    OneOf(cfg, w, a.id);
    LinkOk(inv, a.c, HandlerAction(cfg, w, a));
    HandlerSays(inv, a.c, HandlerAction(cfg, w, a), r);
    Parts(inv);
    match r
    case AdminDenied => DecisionWasRefused(inv);
    case ServerError =>
      RecordingWasAccepted(inv, a.c);
      AddPeerAnswers(cfg, StoreNow(cfg, w), NewPeer(inv, a.c, a.now), a.io);
    case Busy => RecordedByAnother(inv, a.c);
    case _ =>
  }

  lemma Parts(inv: Invite)
    requires Local(inv)
    ensures Slot(inv) && Conns(inv) && Records(inv) && Results(inv)
  {
  }

  lemma BusyMeansLive(inv: Invite)
    requires Slot(inv) && inv.shared.pairBusy
    ensures SomeLive(inv)
  {
  }

  /** A step after which a denial is said was its cause, or it was said before. */
  lemma StepSays(cfg: Cfg, w: World, a: Action, id: InviteId, c: ConnId, r: PairDenyReason)
    requires Each(cfg, w) && Enabled(cfg, w, a)
    requires id in Step(cfg, w, a).invites && c in Step(cfg, w, a).invites[id].conns && Said(Step(cfg, w, a).invites[id].conns[c], r)
    ensures (id in w.invites && c in w.invites[id].conns && Said(w.invites[id].conns[c], r)) || Cause(cfg, w, a, id, c, r)
  {
    hide LoopStep, ConnStep, RecordAction, StoreNow, LoopEnabled, ConnEnabled, T.HasName, Said, SomeLive, OtherRecorded, Each, Local, Told;
    if Handles(a) {
      HandlerStep(cfg, w, a);
      hide Step, Enabled, Cause;
      if a.id == id {
        var ca := HandlerAction(cfg, w, a);
        IsConn(w.invites[id], a.c, ca);
        if a.c == c {
          if !Said(w.invites[id].conns[c], r) { HandlerCause(cfg, w, a, r); }
        } else {
          OthersSaySame(w.invites[id], a.c, ca, c);
        }
      }
    } else if a.OnLoop? && a.id == id {
      LoopSays(w.invites[id], a.la, c, r);
      OneOf(cfg, w, id);
      Parts(w.invites[id]);
      if w.invites[id].shared.pairBusy { BusyMeansLive(w.invites[id]); }
    } else {
      hide Cause, Enabled;
      OtherSays(cfg, w, a, id, c);
    }
  }

  lemma IsConn(inv: Invite, c: ConnId, ca: ConnAction)
    requires ConnEnabled(inv, c, ca)
    ensures c in inv.conns
  {
  }

  lemma OtherSays(cfg: Cfg, w: World, a: Action, id: InviteId, c: ConnId)
    requires Enabled(cfg, w, a) && !Handles(a) && !(a.OnLoop? && a.id == id)
    requires id in Step(cfg, w, a).invites && c in Step(cfg, w, a).invites[id].conns
    ensures id in w.invites && c in w.invites[id].conns && Step(cfg, w, a).invites[id].conns[c] == w.invites[id].conns[c]
  {
    hide LoopStep, ConnStep, RecordAction, StoreNow, LoopEnabled, ConnEnabled, T.HasName;
  }

  /** The other way round: whenever such a cause arises, the client is denied
      for that reason. */
  lemma CauseDenies(cfg: Cfg, w: World, a: Action, id: InviteId, c: ConnId, r: PairDenyReason)
    requires Each(cfg, w) && Cause(cfg, w, a, id, c, r)
    ensures var w' := Step(cfg, w, a);
            && id in w'.invites && c in w'.invites[id].conns && Said(w'.invites[id].conns[c], r)
  {
    hide StoreNow, T.HasName, P.Perform, Slot, Conns, Records, Results, OtherRecorded, RefusedBefore, AcceptedBefore, ConnStep, LoopStep, Said;
    OneOf(cfg, w, id);
    if a.OnLoop? {
      LiveMeansBusy(w.invites[id]);
      LoopStepShape(cfg, w, a);
      RefusedAtConnect(w.invites[id], a.la);
    } else {
      HandlerStep(cfg, w, a);
      HandlerDenies(w.invites[id], c, HandlerAction(cfg, w, a), r);
    }
  }

  lemma RefusedAtConnect(inv: Invite, la: LoopAction)
    requires LoopEnabled(inv, la) && la.Connect? && inv.shared.pairBusy
    ensures la.c in LoopStep(inv, la).conns && Said(LoopStep(inv, la).conns[la.c], Busy)
  {
  }

  lemma HandlerDenies(inv: Invite, c: ConnId, ca: ConnAction, r: PairDenyReason)
    requires ConnEnabled(inv, c, ca)
    requires match r
             case NameTaken => ca == NameChecked(false)
             case AdminDenied => ca.ReadDecision? && inv.shared.decision == Some(false)
             case Expired => ca.PromptTimeout?
             case ServerError => ca.RecordRefused?
             case Busy => ca.AlreadyRecorded?
    ensures c in ConnStep(inv, c, ca).conns && Said(ConnStep(inv, c, ca).conns[c], r)
  {
  }

  lemma LiveMeansBusy(inv: Invite)
    requires Slot(inv) && SomeLive(inv)
    ensures inv.shared.pairBusy
  {
  }

  /** A verdict that is written is what the client is sent. */
  lemma VerdictIsWritten(inv: Invite, c: ConnId)
    requires ConnEnabled(inv, c, VerdictDone(true))
    ensures var conn := inv.conns[c];
            ConnStep(inv, c, VerdictDone(true)).conns[c].sent ==
              conn.sent + [if conn.pc.Verdict? then conn.pc.frame else PairDeny(Busy)]
  {
  }

  /** Over every run, a denial has a step of that run as its true cause. */
  lemma {:induction false} DenialHasCause(cfg: Cfg, acts: seq<Action>, id: InviteId, c: ConnId, r: PairDenyReason)
    requires Exec(cfg, acts).Some? && id in Exec(cfg, acts).value.invites && c in Exec(cfg, acts).value.invites[id].conns
    requires Said(Exec(cfg, acts).value.invites[id].conns[c], r)
    ensures Caused(cfg, acts, id, c, r)
  {
    hide Step, Enabled, Said, Cause, Each, Recordings, Accounted, Manager, Capped;
    if acts != [] {
      var front, a := acts[..|acts| - 1], acts[|acts| - 1];
      var w := Exec(cfg, front).value;
      RunsKeepInv(cfg, front);
      StepSays(cfg, w, a, id, c, r);
      if id in w.invites && c in w.invites[id].conns && Said(w.invites[id].conns[c], r) {
        DenialHasCause(cfg, front, id, c, r);
        var n: nat :| n < |front| && Exec(cfg, front[..n]).Some? && Cause(cfg, Exec(cfg, front[..n]).value, front[n], id, c, r);
        assert front[..n] == acts[..n];
      } else {
        assert Cause(cfg, Exec(cfg, acts[..|acts| - 1]).value, acts[|acts| - 1], id, c, r);
      }
    }
  }

  /** At this position of the store's history `add_peer` was called for this
      node id under this name and answered an error. */
  ghost predicate RefusedAt(cfg: Cfg, log: seq<P.Action>, p: nat, name: string, node: string) {
    && p < |log| && log[p].Call? && log[p].op.AddPeer? && log[p].op.peer.name == name && log[p].op.peer.nodeId == node
    && P.Exec(cfg.codec, log[..p]).Up? && P.Perform(cfg.codec, P.Exec(cfg.codec, log[..p]), log[p].op, log[p].io).1.Failed?
  }

  lemma RefusedStepIsLogged(cfg: Cfg, w: World, a: Action, id: InviteId, c: ConnId)
    requires Cause(cfg, w, a, id, c, ServerError)
    ensures c in w.invites[id].conns
    ensures RefusedAt(cfg, Step(cfg, w, a).log, |w.log|, w.invites[id].name, w.invites[id].conns[c].node)
  {
    hide P.Perform, P.Exec, ConnStep, ConnEnabled;
    var log := Step(cfg, w, a).log;
    assert RecordAction(cfg, w, id, c, a.now, a.io).RecordRefused?;
    assert log[..|w.log|] == w.log;
  }

  lemma RefusedAtGrows(cfg: Cfg, log: seq<P.Action>, more: seq<P.Action>, p: nat, name: string, node: string)
    requires RefusedAt(cfg, log, p, name, node) && log <= more
    ensures RefusedAt(cfg, more, p, name, node)
  {
    hide P.Perform, P.Exec;
    assert more[..p] == log[..p] && more[p] == log[p];
  }

  /** A client that was told ServerError: the store's history has the call of
      `add_peer` for its node id under the invite's name that failed. */
  lemma ServerErrorIsLogged(cfg: Cfg, acts: seq<Action>, id: InviteId, c: ConnId)
    requires Exec(cfg, acts).Some? && id in Exec(cfg, acts).value.invites && c in Exec(cfg, acts).value.invites[id].conns
    requires PairDeny(ServerError) in Exec(cfg, acts).value.invites[id].conns[c].sent
    ensures var w := Exec(cfg, acts).value;
            exists p :: RefusedAt(cfg, w.log, p, w.invites[id].name, w.invites[id].conns[c].node)
  {
    hide Step, Enabled, Cause, RefusedAt;
    DenialHasCause(cfg, acts, id, c, ServerError);
    var n: nat :| n < |acts| && Exec(cfg, acts[..n]).Some? && Cause(cfg, Exec(cfg, acts[..n]).value, acts[n], id, c, ServerError);
    var v, w := Exec(cfg, acts[..n]).value, Exec(cfg, acts).value;
    CauseIsEnabled(cfg, v, acts[n], id, c);
    RefusedStepIsLogged(cfg, v, acts[n], id, c);
    StepIsHistory(cfg, acts, n);
    hide Exec;
    RefusedAtGrows(cfg, Step(cfg, v, acts[n]).log, w.log, |v.log|, v.invites[id].name, v.invites[id].conns[c].node);
  }

  lemma StepIsHistory(cfg: Cfg, acts: seq<Action>, n: nat)
    requires n < |acts| && Exec(cfg, acts).Some? && Exec(cfg, acts[..n]).Some? && Enabled(cfg, Exec(cfg, acts[..n]).value, acts[n])
    ensures Grows(Exec(cfg, acts[..n]).value, Exec(cfg, acts).value)
    ensures Step(cfg, Exec(cfg, acts[..n]).value, acts[n]).log <= Exec(cfg, acts).value.log
  {
    hide Step, Enabled;
    HistoryGrows(cfg, acts, n);
    HistoryGrows(cfg, acts, n + 1);
    assert acts[..n + 1][..n] == acts[..n];
  }

  lemma CauseIsEnabled(cfg: Cfg, w: World, a: Action, id: InviteId, c: ConnId)
    requires Cause(cfg, w, a, id, c, ServerError)
    ensures Enabled(cfg, w, a) && id in w.invites
  {
  }

  // ---- Names ----

  /** However many invites share a name, and although their early name checks
      run outside the recording step, two of them record it only with a
      removal of that name in between. */
  lemma SharedNameNeedsRemoval(cfg: Cfg, acts: seq<Action>, i: InviteId, j: InviteId, k: nat, m: nat)
    requires P.Inverse(cfg.codec) && Exec(cfg, acts).Some?
    requires i in Exec(cfg, acts).value.invites && j in Exec(cfg, acts).value.invites && i != j
    requires var w := Exec(cfg, acts).value;
             && w.invites[i].name == w.invites[j].name
             && k < |w.invites[i].events| && w.invites[i].events[k].RecordedPeer?
             && m < |w.invites[j].events| && w.invites[j].events[m].RecordedPeer?
    ensures var w := Exec(cfg, acts).value;
            var p, q := w.invites[i].events[k].at, w.invites[j].events[m].at;
            && p != q && p < |w.log| && q < |w.log|
            && exists r: nat :: (p < r < q || q < r < p) && P.Removed(cfg.codec, w.log, r, w.invites[i].name)
  {
    ReachedLogs(cfg, acts);
    var w := Exec(cfg, acts).value;
    var e, f := w.invites[i].events[k], w.invites[j].events[m];
    assert InLog(cfg, w.log, w.invites[i].name, e) && InLog(cfg, w.log, w.invites[i].name, f);
    hide Exec, P.Removed;
    if e.at < f.at {
      P.ReRecordingNeedsRemoval(cfg.codec, w.log, e.at, f.at, w.invites[i].name);
    } else {
      P.ReRecordingNeedsRemoval(cfg.codec, w.log, f.at, e.at, w.invites[i].name);
    }
  }

  // ---- The cap ----

  /** Pending invites plus the creates past the cap check stay below the cap
      plus the number of concurrent creates; exactly the cap when sequential. */
  lemma PendingInvitesAreCapped(cfg: Cfg, acts: seq<Action>)
    requires Exec(cfg, acts).Some?
    ensures var w := Exec(cfg, acts).value;
            |w.entries| + |PastCap(w)| <= MAX_PENDING_INVITES - 1 + cfg.maxCreates
    ensures cfg.maxCreates == 1 ==> |Exec(cfg, acts).value.entries| <= MAX_PENDING_INVITES
  {
    hide Exec, PastCap;
    ReachedLogs(cfg, acts);
  }

  // ---- Results ----

  /** An invite delivers at most one result, has delivered exactly one once it
      is gone, and a Paired result names a node id that was recorded. */
  lemma OneResultPerInvite(cfg: Cfg, acts: seq<Action>, id: InviteId)
    requires Exec(cfg, acts).Some? && id in Exec(cfg, acts).value.invites
    ensures var inv := Exec(cfg, acts).value.invites[id];
            && (forall k, m :: 0 <= k < m < |inv.events| && inv.events[k].Delivered? ==> !inv.events[m].Delivered?)
            && (inv.loop.Gone? ==> exists k :: 0 <= k < |inv.events| && inv.events[k].Delivered?)
            && (forall k :: 0 <= k < |inv.events| && inv.events[k].Delivered? && inv.events[k].result.WasPaired? ==>
                  NodeRecorded(inv.events, inv.events[k].result.nodeId))
  {
    hide Exec, NodeRecorded;
    Reached(cfg, acts, id);
  }

  lemma {:induction false} HistoryGrows(cfg: Cfg, acts: seq<Action>, n: nat)
    requires n <= |acts| && Exec(cfg, acts).Some?
    ensures Exec(cfg, acts[..n]).Some? && Grows(Exec(cfg, acts[..n]).value, Exec(cfg, acts).value)
  {
    hide Step, Enabled;
    if n == |acts| {
      assert acts[..n] == acts;
    } else {
      var front := acts[..|acts| - 1];
      assert front[..n] == acts[..n];
      HistoryGrows(cfg, front, n);
      StepGrows(cfg, Exec(cfg, front).value, acts[|acts| - 1]);
      GrowsTrans(Exec(cfg, acts[..n]).value, Exec(cfg, front).value, Exec(cfg, acts).value);
    }
  }

  lemma GrowsTrans(u: World, v: World, w: World)
    requires Grows(u, v) && Grows(v, w)
    ensures Grows(u, w)
  {
    hide ConnsGrow;
    forall i | i in u.invites ensures ConnsGrow(u.invites[i], w.invites[i]) {
      ConnsGrowTrans(u.invites[i], v.invites[i], w.invites[i]);
    }
  }

  /** Once an invite is finished, every later decision on it answers NotFound
      and reaches no handler. */
  lemma FinishedInviteIsNotFound(cfg: Cfg, acts: seq<Action>, n: nat, id: InviteId, call: CallId, accept: bool)
    requires n <= |acts| && Exec(cfg, acts).Some? && Exec(cfg, acts[..n]).Some?
    requires id in Exec(cfg, acts[..n]).value.invites && Exec(cfg, acts[..n]).value.invites[id].loop.Gone?
    requires Enabled(cfg, Exec(cfg, acts).value, DecideLookup(call, id, accept))
    ensures var w := Exec(cfg, acts).value;
            id !in w.entries && Step(cfg, w, DecideLookup(call, id, accept)) == w.(replies := w.replies + [(id, DecideReply.NotFound)])
  {
    HistoryGrows(cfg, acts, n);
    ReachedLogs(cfg, acts);
    hide Exec;
  }

  // ---- Which result an invite ends with ----

  /** The result that a step of the accept loop settles, when it stops it: the
      admin refused, a handler reported its outcome, or time or the endpoint
      ran out. */
  function StopResult(inv: Invite, la: LoopAction): Option<InviteResult> {
    match la
    case EndpointFails => Some(WasExpired)
    case Deadline => Some(WasExpired)
    case EndpointClosed => Some(WasExpired)
    case TakeCmd => if inv.cmds != [] && !inv.cmds[0] then Some(WasRejected) else None
    case TakeOutcome =>
      if inv.outcomes == [] then None
      else if inv.outcomes[0].Paired? then Some(WasPaired(inv.outcomes[0].nodeId))
      else if inv.outcomes[0].Rejected? then Some(WasRejected)
      else Some(WasExpired)
    case _ => None
  }

  function FirstOf(before: Option<InviteResult>, now: Option<InviteResult>): Option<InviteResult> {
    if before.Some? then before else now
  }

  /** The first stop of the loop of `id` in the run. */
  function FirstStop(cfg: Cfg, acts: seq<Action>, id: InviteId): Option<InviteResult> {
    if acts == [] then None else
    var w, a := Exec(cfg, acts[..|acts| - 1]), acts[|acts| - 1];
    FirstOf(FirstStop(cfg, acts[..|acts| - 1], id),
            if w.Some? && a.OnLoop? && a.id == id && id in w.value.invites then StopResult(w.value.invites[id], a.la) else None)
  }

  /** The loop was stopped for another reason than a recorded peer. */
  predicate Interrupted(cfg: Cfg, acts: seq<Action>, id: InviteId) {
    FirstStop(cfg, acts, id).Some? && !FirstStop(cfg, acts, id).value.WasPaired?
  }

  /** How the first stop shows in the state of the loop. */
  ghost predicate ShowsStop(inv: Invite, stop: Option<InviteResult>) {
    match inv.loop
    case Starting => stop.None?
    case Accepting => stop.None?
    case Stopping(o) => stop == Some(ResultOf(o))
    case Closing(o) => stop == Some(ResultOf(o))
    case Removing => forall k :: 0 <= k < |inv.events| && inv.events[k].Delivered? ==> stop == Some(inv.events[k].result)
    case Gone => forall k :: 0 <= k < |inv.events| && inv.events[k].Delivered? ==> stop == Some(inv.events[k].result)
  }

  lemma LoopShowsStop(inv: Invite, la: LoopAction, before: Option<InviteResult>)
    requires Results(inv) && Finished(inv) && ShowsStop(inv, before) && LoopEnabled(inv, la)
    ensures ShowsStop(LoopStep(inv, la), FirstOf(before, StopResult(inv, la)))
  {
    hide OutcomeOk, NodeRecorded;
  }

  lemma ConnShowsStop(inv: Invite, c: ConnId, ca: ConnAction, stop: Option<InviteResult>)
    requires ShowsStop(inv, stop) && ConnEnabled(inv, c, ca)
    ensures ShowsStop(ConnStep(inv, c, ca), stop)
  {
    hide ConnStep, ConnEnabled;
    ConnKeeps(inv, c, ca);
  }

  /** A handler or the loop of the invite itself moves. */
  lemma MoveShowsStop(cfg: Cfg, w: World, a: Action, before: Option<InviteResult>)
    requires Each(cfg, w) && Enabled(cfg, w, a) && (a.OnLoop? || Handles(a))
    requires a.id in w.invites && ShowsStop(w.invites[a.id], before)
    ensures a.id in Step(cfg, w, a).invites
    ensures ShowsStop(Step(cfg, w, a).invites[a.id], FirstOf(before, if a.OnLoop? then StopResult(w.invites[a.id], a.la) else None))
  {
    hide LoopStep, ConnStep, RecordAction, StoreNow, LoopEnabled, ConnEnabled, T.HasName, StopResult, Slot, Conns, Records, Results, ShowsStop;
    if a.OnLoop? {
      LoopShowsStop(w.invites[a.id], a.la, before);
    } else {
      hide Step, Enabled;
      HandlerStep(cfg, w, a);
      ConnShowsStop(w.invites[a.id], a.c, HandlerAction(cfg, w, a), before);
    }
  }

  predicate Moves(a: Action, id: InviteId) {
    (a.OnLoop? || Handles(a)) && a.id == id
  }

  lemma MovedExists(cfg: Cfg, w: World, a: Action)
    requires Enabled(cfg, w, a) && (a.OnLoop? || Handles(a))
    ensures a.id in w.invites
  {
  }

  /** Any other action leaves the invite alone, queues a command, creates it
      or removes it. */
  lemma OtherShowsStop(cfg: Cfg, w: World, a: Action, id: InviteId, before: Option<InviteResult>)
    requires Enabled(cfg, w, a) && !Moves(a, id)
    requires if id in w.invites then ShowsStop(w.invites[id], before) else before.None?
    ensures var w' := Step(cfg, w, a);
            if id in w'.invites then ShowsStop(w'.invites[id], before) else before.None?
  {
    hide LoopStep, ConnStep, RecordAction, StoreNow, LoopEnabled, ConnEnabled, T.HasName, ShowsStop;
    var w' := Step(cfg, w, a);
    match a
    case CreateInsert(call, i) => if i == id { NewShowsStop(w.creating[call].name, cfg.server); }
    case DecideSend(call, _) => if w.deciding[call].0 == id { CmdsShowStop(w.invites[id], w'.invites[id].cmds, before); }
    case FinishRemove(i) => if i == id { GoneShowsStop(w.invites[id], before); }
    case _ =>
  }

  lemma NewShowsStop(name: string, server: string)
    ensures ShowsStop(NewInvite(name, server), None)
  {
  }

  lemma CmdsShowStop(inv: Invite, cmds: seq<bool>, before: Option<InviteResult>)
    requires ShowsStop(inv, before)
    ensures ShowsStop(inv.(cmds := cmds), before)
  {
  }

  lemma GoneShowsStop(inv: Invite, before: Option<InviteResult>)
    requires ShowsStop(inv, before) && inv.loop.Removing?
    ensures ShowsStop(inv.(loop := Gone), before)
  {
  }

  lemma {:induction false} RunsShowStop(cfg: Cfg, acts: seq<Action>, id: InviteId)
    requires Exec(cfg, acts).Some?
    ensures var w := Exec(cfg, acts).value;
            if id in w.invites then ShowsStop(w.invites[id], FirstStop(cfg, acts, id)) else FirstStop(cfg, acts, id).None?
  {
    hide Step, Enabled, ShowsStop, StopResult, Each;
    if acts != [] {
      var front := acts[..|acts| - 1];
      RunsShowStop(cfg, front, id);
      RunsKeepInv(cfg, front);
      var w, a, before := Exec(cfg, front).value, acts[|acts| - 1], FirstStop(cfg, front, id);
      if Moves(a, id) {
        MovedExists(cfg, w, a);
        MoveShowsStop(cfg, w, a, before);
      } else {
        OtherShowsStop(cfg, w, a, id, before);
      }
    }
  }

  /** The result an invite delivers is the one that the first stop of its loop
      settled: Rejected for a refusal or a failed recording, Expired for the
      deadline or a lost endpoint, Paired for the recorded peer's outcome. */
  lemma ResultIsOfTheFirstStop(cfg: Cfg, acts: seq<Action>, id: InviteId, k: nat)
    requires Exec(cfg, acts).Some? && id in Exec(cfg, acts).value.invites
    requires k < |Exec(cfg, acts).value.invites[id].events| && Exec(cfg, acts).value.invites[id].events[k].Delivered?
    ensures FirstStop(cfg, acts, id) == Some(Exec(cfg, acts).value.invites[id].events[k].result)
  {
    hide Exec, FirstStop, Slot, Conns, Records;
    RunsShowStop(cfg, acts, id);
    Reached(cfg, acts, id);
  }

  /** The result an invite delivers is Paired if and only if its loop was not
      stopped by a refusal, the deadline, a lost endpoint or a failed
      recording before it took the handler's outcome. A peer may be recorded
      in either case: see `RecordedButExpired`. */
  lemma PairedIffNotInterrupted(cfg: Cfg, acts: seq<Action>, id: InviteId, k: nat)
    requires Exec(cfg, acts).Some? && id in Exec(cfg, acts).value.invites
    requires k < |Exec(cfg, acts).value.invites[id].events| && Exec(cfg, acts).value.invites[id].events[k].Delivered?
    ensures Exec(cfg, acts).value.invites[id].events[k].result.WasPaired? <==> !Interrupted(cfg, acts, id)
  {
    hide Exec, FirstStop, Slot, Conns, Records;
    RunsShowStop(cfg, acts, id);
    Reached(cfg, acts, id);
  }

  // ---- Outcomes reach the loop ----

  predicate Past(pc: Pc) {
    pc.Releasing? || pc.Done?
  }

  /** What the handler of `c` owes the loop, and where it is by now. */
  ghost predicate Owes(inv: Invite, c: ConnId, conn: Conn, o: Outcome, due: bool) {
    due ==> match conn.pc
            case Verdict(_, after) => after == Some(o)
            case SendOutcome(p) => p == o
            case Releasing => o in inv.outcomes
            case Done => o in inv.outcomes
            case _ => false
  }

  predicate ToldServerError(conn: Conn) {
    PairDeny(ServerError) in conn.sent || (conn.pc.Verdict? && conn.pc.frame == PairDeny(ServerError))
  }

  ghost predicate ReportsOk(inv: Invite, c: ConnId, conn: Conn) {
    && Owes(inv, c, conn, Paired(conn.node), RecordOf(inv.events, c, conn.node))
    && Owes(inv, c, conn, Rejected, ToldServerError(conn))
  }

  /** While the loop accepts, no outcome has been taken from the queue. */
  ghost predicate Reports(inv: Invite) {
    inv.loop.Starting? || inv.loop.Accepting? ==> forall c :: c in inv.conns ==> ReportsOk(inv, c, inv.conns[c])
  }

  lemma LoopKeepsReports(inv: Invite, la: LoopAction)
    requires Reports(inv) && Told(inv) && LoopEnabled(inv, la)
    ensures Reports(LoopStep(inv, la))
  {
    var inv' := LoopStep(inv, la);
    if inv'.loop.Accepting? {
      forall c | c in inv'.conns ensures ReportsOk(inv', c, inv'.conns[c]) {
        if c in inv.conns {
          LoopReportSame(inv, la, c);
        } else {
          NewConnOwesNothing(inv, la, c);
        }
      }
    }
  }

  lemma LoopReportSame(inv: Invite, la: LoopAction, c: ConnId)
    requires LoopEnabled(inv, la) && c in inv.conns && ReportsOk(inv, c, inv.conns[c]) && LoopStep(inv, la).loop.Accepting?
    ensures c in LoopStep(inv, la).conns && ReportsOk(LoopStep(inv, la), c, LoopStep(inv, la).conns[c])
  {
    var inv' := LoopStep(inv, la);
    LoopKeeps(inv, la);
    RecordsSame(inv.events, inv'.events, c, inv.conns[c].node);
    hide RecordOf;
  }

  /** Events that record nothing about `c` leave that as it is. */
  lemma RecordsSame(events: seq<Event>, more: seq<Event>, c: ConnId, node: string)
    requires events <= more && forall k :: |events| <= k < |more| ==> !(more[k].RecordedPeer? && more[k].conn == c)
    ensures RecordOf(more, c, node) <==> RecordOf(events, c, node)
  {
    FactsGrow(events, more);
    if k :| 0 <= k < |more| && IsRecord(more[k], c, node) {
      assert IsRecord(events[k], c, node);
    }
  }

  lemma NewConnOwesNothing(inv: Invite, la: LoopAction, c: ConnId)
    requires LoopEnabled(inv, la) && Told(inv) && c !in inv.conns && c in LoopStep(inv, la).conns
    ensures ReportsOk(LoopStep(inv, la), c, LoopStep(inv, la).conns[c])
  {
    var inv' := LoopStep(inv, la);
    assert inv'.events == inv.events;
    UnknownIsUnrecorded(inv, c, inv'.conns[c].node);
    hide RecordOf;
  }

  lemma UnknownIsUnrecorded(inv: Invite, c: ConnId, node: string)
    requires Told(inv) && c !in inv.conns
    ensures !RecordOf(inv.events, c, node)
  {
  }

  lemma OwnReport(inv: Invite, c: ConnId, ca: ConnAction)
    requires ConnEnabled(inv, c, ca) && ConnOk(inv, c, inv.conns[c]) && Records(inv) && ReportsOk(inv, c, inv.conns[c])
    ensures ReportsOk(ConnStep(inv, c, ca), c, ConnStep(inv, c, ca).conns[c])
  {
    hide RecordOf, AcceptedBefore, RefusedBefore, SomeRecorded, Records;
    if ca.RecordOk? {
      hide ReportsOk;
      NewlyRecordedReport(inv, c, ca.at);
    } else {
      assert ConnStep(inv, c, ca).events == inv.events;
    }
  }

  lemma NewlyRecordedReport(inv: Invite, c: ConnId, at: nat)
    requires ConnEnabled(inv, c, RecordOk(at)) && ConnOk(inv, c, inv.conns[c])
    ensures ReportsOk(ConnStep(inv, c, RecordOk(at)), c, ConnStep(inv, c, RecordOk(at)).conns[c])
  {
    hide RecordOf, AcceptedBefore;
  }

  lemma ConnKeepsReports(inv: Invite, c: ConnId, ca: ConnAction)
    requires Reports(inv) && Conns(inv) && Records(inv) && ConnEnabled(inv, c, ca)
    ensures Reports(ConnStep(inv, c, ca))
  {
    hide ConnOk, ReportsOk, ConnEnabled, Records;
    IsConn(inv, c, ca);
    var inv' := ConnStep(inv, c, ca);
    ConnKeeps(inv, c, ca);
    if inv.loop.Starting? || inv.loop.Accepting? {
      OwnReport(inv, c, ca);
      forall d | d in inv'.conns && d != c ensures ReportsOk(inv', d, inv'.conns[d]) {
        OtherReport(inv, c, ca, d);
      }
    }
  }

  lemma OtherReport(inv: Invite, c: ConnId, ca: ConnAction, d: ConnId)
    requires ConnEnabled(inv, c, ca) && d in inv.conns && d != c && ReportsOk(inv, d, inv.conns[d])
    ensures d in ConnStep(inv, c, ca).conns && ReportsOk(ConnStep(inv, c, ca), d, ConnStep(inv, c, ca).conns[d])
  {
    var inv' := ConnStep(inv, c, ca);
    ConnKeeps(inv, c, ca);
    RecordsSame(inv.events, inv'.events, d, inv.conns[d].node);
    hide RecordOf;
  }

  lemma StepKeepsReports(cfg: Cfg, w: World, a: Action, id: InviteId)
    requires Each(cfg, w) && Enabled(cfg, w, a) && id in Step(cfg, w, a).invites
    requires id in w.invites ==> Reports(w.invites[id])
    ensures Reports(Step(cfg, w, a).invites[id])
  {
    hide LoopStep, ConnStep, RecordAction, StoreNow, LoopEnabled, ConnEnabled, T.HasName, Told, Slot, Conns, Records, Results, Each, ReportsOk;
    var w' := Step(cfg, w, a);
    if Handles(a) {
      HandlerStep(cfg, w, a);
      hide Step, Enabled, Reports;
      if a.id == id {
        OneOf(cfg, w, id);
        ConnKeepsReports(w.invites[id], a.c, HandlerAction(cfg, w, a));
      }
    } else if a.OnLoop? && a.id == id {
      hide Reports;
      OneOf(cfg, w, id);
      LoopKeepsReports(w.invites[id], a.la);
    } else if a.DecideSend? && id in w.invites && w.deciding[a.call].0 == id && !a.dropped {
      CmdsKeepReports(w.invites[id], w'.invites[id].cmds);
    }
  }

  lemma CmdsKeepReports(inv: Invite, cmds: seq<bool>)
    requires Reports(inv)
    ensures Reports(inv.(cmds := cmds))
  {
    var inv' := inv.(cmds := cmds);
    assert forall c :: c in inv.conns && ReportsOk(inv, c, inv.conns[c]) ==> ReportsOk(inv', c, inv'.conns[c]);
  }

  lemma {:induction false} RunsKeepReports(cfg: Cfg, acts: seq<Action>, id: InviteId)
    requires Exec(cfg, acts).Some? && id in Exec(cfg, acts).value.invites
    ensures Reports(Exec(cfg, acts).value.invites[id])
  {
    hide Step, Enabled, Reports, Each;
    if acts != [] {
      var front := acts[..|acts| - 1];
      var w := Exec(cfg, front).value;
      if id in w.invites { RunsKeepReports(cfg, front, id); }
      RunsKeepInv(cfg, front);
      StepKeepsReports(cfg, w, acts[|acts| - 1], id);
    }
  }

  /** While the loop accepts, a handler that recorded its peer and has finished
      has told the loop so, and one that was told ServerError has reported a
      rejection; no outcome is lost. */
  lemma OutcomesAreReported(cfg: Cfg, acts: seq<Action>, id: InviteId, c: ConnId)
    requires Exec(cfg, acts).Some? && id in Exec(cfg, acts).value.invites && Exec(cfg, acts).value.invites[id].loop.Accepting?
    requires c in Exec(cfg, acts).value.invites[id].conns && Past(Exec(cfg, acts).value.invites[id].conns[c].pc)
    ensures var inv := Exec(cfg, acts).value.invites[id];
            && (RecordOf(inv.events, c, inv.conns[c].node) ==> Paired(inv.conns[c].node) in inv.outcomes)
            && (PairDeny(ServerError) in inv.conns[c].sent ==> Rejected in inv.outcomes)
  {
    hide Exec, RecordOf;
    RunsKeepReports(cfg, acts, id);
    assert ReportsOk(Exec(cfg, acts).value.invites[id], c, Exec(cfg, acts).value.invites[id].conns[c]);
  }

  // ---- Recorded, and yet the result is not Paired ----

  /** The world is the end of some run. */
  ghost predicate Reachable(cfg: Cfg, w: World) {
    exists acts :: Exec(cfg, acts) == Some(w)
  }

  lemma Go(cfg: Cfg, w: World, a: Action) returns (w': World)
    requires Reachable(cfg, w) && Enabled(cfg, w, a)
    ensures w' == Step(cfg, w, a) && Reachable(cfg, w')
  {
    var acts :| Exec(cfg, acts) == Some(w);
    assert (acts + [a])[..|acts|] == acts;
    w' := Step(cfg, w, a);
    assert Exec(cfg, acts + [a]) == Some(w');
  }

  lemma Start(cfg: Cfg)
    ensures Reachable(cfg, INIT)
  {
    assert Exec(cfg, []) == Some(INIT);
  }

  /** A world with the one pending invite 0. */
  function Solo(log: seq<P.Action>, inv: Invite, replies: seq<(InviteId, DecideReply)>): World {
    World(log, map[0 := inv], {0}, map[], map[], replies)
  }

  lemma SoloCreated(cfg: Cfg, name: string)
    requires cfg.maxCreates > 0
    ensures Reachable(cfg, Solo([], NewInvite(name, cfg.server), []))
  {
    hide Exec, Reachable;
    Start(cfg);
    assert StoreNow(cfg, INIT) == P.BOOT;
    var w := Go(cfg, INIT, CallCreate(0, name));
    w := Go(cfg, w, CreateCheckName(0));
    w := Go(cfg, w, CreateCheckCap(0));
    w := Go(cfg, w, CreateInsert(0, 0));
    assert w == Solo([], NewInvite(name, cfg.server), []);
  }

  lemma SoloLoop(cfg: Cfg, log: seq<P.Action>, inv: Invite, replies: seq<(InviteId, DecideReply)>, la: LoopAction)
    requires Reachable(cfg, Solo(log, inv, replies)) && LoopEnabled(inv, la)
    ensures Reachable(cfg, Solo(log, LoopStep(inv, la), replies))
  {
    hide Exec, Reachable, LoopEnabled, LoopStep;
    var w := Go(cfg, Solo(log, inv, replies), OnLoop(0, la));
    assert w == Solo(log, LoopStep(inv, la), replies);
  }

  lemma SoloConn(cfg: Cfg, log: seq<P.Action>, inv: Invite, replies: seq<(InviteId, DecideReply)>, c: ConnId, ca: ConnAction)
    requires Reachable(cfg, Solo(log, inv, replies)) && ConnEnabled(inv, c, ca) && !StoreAction(ca)
    ensures Reachable(cfg, Solo(log, ConnStep(inv, c, ca), replies))
  {
    hide Exec, Reachable, ConnEnabled, ConnStep, StoreAction;
    var w := Go(cfg, Solo(log, inv, replies), OnConn(0, c, ca));
    assert w == Solo(log, ConnStep(inv, c, ca), replies);
  }

  /** A client connects and says hello. */
  lemma SoloHello(cfg: Cfg, name: string, node: string)
    requires cfg.maxCreates > 0
    ensures Reachable(cfg, Solo([], Greeted(NewInvite(name, cfg.server), node, CheckName, []), []))
  {
    hide Exec, Reachable;
    SoloCreated(cfg, name);
    var inv := NewInvite(name, cfg.server);
    SoloLoop(cfg, [], inv, [], EndpointUp);
    inv := LoopStep(inv, EndpointUp);
    SoloLoop(cfg, [], inv, [], Connect(0, node));
    inv := LoopStep(inv, Connect(0, node));
    assert inv == Greeted(NewInvite(name, cfg.server), node, AcceptBi, []);
    SoloConn(cfg, [], inv, [], 0, Opened);
    inv := ConnStep(inv, 0, Opened);
    SoloConn(cfg, [], inv, [], 0, GotFrame(TYPE_VERSION, Version(CODE_VERSION)));
    inv := ConnStep(inv, 0, GotFrame(TYPE_VERSION, Version(CODE_VERSION)));
    SoloConn(cfg, [], inv, [], 0, GotFrame(TYPE_PAIR_HELLO, PairHello("")));
    inv := ConnStep(inv, 0, GotFrame(TYPE_PAIR_HELLO, PairHello("")));
    assert inv == Greeted(NewInvite(name, cfg.server), node, CheckName, []);
  }

  /** Invite 0 with its one connection at `pc`. */
  function Greeted(inv: Invite, node: string, pc: Pc, sent: seq<PairingFrame>): Invite {
    inv.(loop := Accepting, shared := inv.shared.(pairBusy := true), conns := map[0 := Conn(node, false, pc, false, sent)])
  }

  /** The name is free, so the client is told to wait. */
  lemma SoloWaiting(cfg: Cfg, name: string, node: string)
    requires cfg.maxCreates > 0
    ensures Reachable(cfg, Solo([], Greeted(NewInvite(name, cfg.server), node, Waiting, [PairWait]), []))
  {
    hide Exec, Reachable;
    SoloHello(cfg, name, node);
    var inv := Greeted(NewInvite(name, cfg.server), node, CheckName, []);
    assert StoreNow(cfg, Solo([], inv, [])) == P.BOOT;
    var w := Go(cfg, Solo([], inv, []), CheckNameFree(0, 0));
    inv := ConnStep(inv, 0, NameChecked(true));
    assert w == Solo([], inv, []);
    SoloConn(cfg, [], inv, [], 0, WaitSent);
    inv := ConnStep(inv, 0, WaitSent);
    assert inv.conns[0].sent == [PairWait];
    assert inv == Greeted(NewInvite(name, cfg.server), node, Waiting, [PairWait]);
  }

  /** The admin accepts while the client waits. */
  lemma SoloAccepted(cfg: Cfg, name: string, node: string)
    requires cfg.maxCreates > 0
    ensures Reachable(cfg, Solo([], AcceptedInvite(cfg, name, node), [(0, Sent)]))
  {
    hide Exec, Reachable, Step, Enabled, Solo, StoreNow;
    SoloWaiting(cfg, name, node);
    var inv := Greeted(NewInvite(name, cfg.server), node, Waiting, [PairWait]);
    SoloDecide(cfg, inv);
    inv := inv.(cmds := [true]);
    SoloLoop(cfg, [], inv, [(0, Sent)], TakeCmd);
    inv := LoopStep(inv, TakeCmd);
    SoloConn(cfg, [], inv, [(0, Sent)], 0, Wake);
    inv := ConnStep(inv, 0, Wake);
    SoloConn(cfg, [], inv, [(0, Sent)], 0, ReadDecision);
    inv := ConnStep(inv, 0, ReadDecision);
    assert inv == AcceptedInvite(cfg, name, node);
  }

  lemma SoloDecide(cfg: Cfg, inv: Invite)
    requires Reachable(cfg, Solo([], inv, [])) && inv.cmds == []
    ensures Reachable(cfg, Solo([], inv.(cmds := [true]), [(0, Sent)]))
  {
    hide Exec, Reachable;
    var w := Go(cfg, Solo([], inv, []), DecideLookup(0, 0, true));
    w := Go(cfg, w, DecideSend(0, false));
    assert w.deciding == map[] && w.replies == [(0, Sent)] && w.invites[0].cmds == [true];
    assert w == Solo([], inv.(cmds := [true]), [(0, Sent)]);
  }

  function AcceptedInvite(cfg: Cfg, name: string, node: string): Invite {
    Greeted(NewInvite(name, cfg.server), node, Recording, [PairWait])
    .(shared := Shared(Some(true), true, false, true), events := [Decided(true)])
  }

  /** The invite after the recording, with the client told. */
  function Verdicted(cfg: Cfg, name: string, node: string, ok: bool): Invite {
    AcceptedInvite(cfg, name, node).(
      shared := Shared(Some(true), true, ok, true),
      conns := map[0 := Conn(node, false, SendOutcome(if ok then Paired(node) else Rejected), false,
                             [PairWait, if ok then PairConfirm(cfg.server, name) else PairDeny(ServerError)])],
      events := if ok then [Decided(true), RecordedPeer(0, node, 0)] else [Decided(true)])
  }

  function AddCall(name: string, node: string, io: P.Io): P.Action {
    P.Call(T.AddPeer(T.Peer(name, node, "", "")), io)
  }

  function RecordingEnds(io: P.Io): ConnAction {
    if io.Fine? then RecordOk(0) else RecordRefused
  }

  /** The recording, with the way the file write ends. */
  lemma SoloRecord(cfg: Cfg, name: string, node: string, io: P.Io)
    requires cfg.maxCreates > 0
    ensures Reachable(cfg, Solo([AddCall(name, node, io)], ConnStep(AcceptedInvite(cfg, name, node), 0, RecordingEnds(io)), [(0, Sent)]))
  {
    hide Exec, Reachable, LoopStep, LoopEnabled;
    SoloAccepted(cfg, name, node);
    var inv := AcceptedInvite(cfg, name, node);
    var w := Solo([], inv, [(0, Sent)]);
    assert StoreNow(cfg, w) == P.BOOT;
    assert RecordAction(cfg, w, 0, 0, "", io) == RecordingEnds(io);
    hide ConnStep, RecordAction, StoreNow, P.Perform;
    var w' := Go(cfg, w, Record(0, 0, "", io));
    assert w'.log == [AddCall(name, node, io)];
    assert w' == Solo([AddCall(name, node, io)], ConnStep(inv, 0, RecordingEnds(io)), [(0, Sent)]);
  }

  lemma SoloVerdict(cfg: Cfg, name: string, node: string, io: P.Io)
    requires cfg.maxCreates > 0
    ensures Reachable(cfg, Solo([AddCall(name, node, io)], Verdicted(cfg, name, node, io.Fine?), [(0, Sent)]))
  {
    hide Exec, Reachable, LoopStep, LoopEnabled, Step, Enabled, Solo;
    SoloRecord(cfg, name, node, io);
    var inv := ConnStep(AcceptedInvite(cfg, name, node), 0, RecordingEnds(io));
    SoloConn(cfg, [AddCall(name, node, io)], inv, [(0, Sent)], 0, VerdictDone(true));
    inv := ConnStep(inv, 0, VerdictDone(true));
    assert inv.conns[0].sent == Verdicted(cfg, name, node, io.Fine?).conns[0].sent;
    assert inv == Verdicted(cfg, name, node, io.Fine?);
  }

  /** A recorded and confirmed peer whose invite still ends as expired: the
      deadline passes while the handler waits for the client's
      acknowledgement, before it reports its outcome. */
  lemma RecordedButExpired(cfg: Cfg, name: string, node: string) returns (w: World)
    requires cfg.maxCreates > 0
    ensures Reachable(cfg, w) && 0 in w.invites && 0 in w.invites[0].conns
    ensures NodeRecorded(w.invites[0].events, node) && PairConfirm(cfg.server, name) in w.invites[0].conns[0].sent
    ensures Delivered(WasExpired) in w.invites[0].events
  {
    hide Exec, Reachable;
    SoloVerdict(cfg, name, node, P.Fine);
    var log := [AddCall(name, node, P.Fine)];
    var inv := Verdicted(cfg, name, node, true);
    assert inv.events[1] == RecordedPeer(0, node, 0) && inv.conns[0].sent[1] == PairConfirm(cfg.server, name);
    SoloLoop(cfg, log, inv, [(0, Sent)], Deadline);
    inv := LoopStep(inv, Deadline);
    SoloLoop(cfg, log, inv, [(0, Sent)], Wind);
    inv := LoopStep(inv, Wind);
    SoloLoop(cfg, log, inv, [(0, Sent)], FinishSend);
    inv := LoopStep(inv, FinishSend);
    assert inv.events[1] == RecordedPeer(0, node, 0) && inv.events[2] == Delivered(WasExpired);
    w := Solo(log, inv, [(0, Sent)]);
  }

  /** And the result can be Paired: for every name and node, the loop takes the
      handler's outcome first. */
  lemma PairedIsDelivered(cfg: Cfg, name: string, node: string) returns (w: World)
    requires cfg.maxCreates > 0
    ensures Reachable(cfg, w) && 0 in w.invites && Delivered(WasPaired(node)) in w.invites[0].events
  {
    hide Exec, Reachable, Step, Enabled, StoreNow;
    SoloVerdict(cfg, name, node, P.Fine);
    var log := [AddCall(name, node, P.Fine)];
    var inv := Verdicted(cfg, name, node, true);
    SoloConn(cfg, log, inv, [(0, Sent)], 0, OutcomeSent);
    inv := ConnStep(inv, 0, OutcomeSent);
    assert inv.outcomes == [Paired(node)];
    SoloLoop(cfg, log, inv, [(0, Sent)], TakeOutcome);
    inv := LoopStep(inv, TakeOutcome);
    SoloLoop(cfg, log, inv, [(0, Sent)], Wind);
    inv := LoopStep(inv, Wind);
    SoloLoop(cfg, log, inv, [(0, Sent)], FinishSend);
    inv := LoopStep(inv, FinishSend);
    assert inv.events[2] == Delivered(WasPaired(node));
    w := Solo(log, inv, [(0, Sent)]);
  }

  // ---- Denied, and yet listed ----

  /** When `add_peer` is refused the client is told ServerError. It is in the
      peer table all the same if and only if the name was free, there was
      room, and only writing the file failed. */
  lemma DeniedPeerIsListedIffWriteFailed(cfg: Cfg, w: World, id: InviteId, c: ConnId, now: string, io: P.Io)
    requires Enabled(cfg, w, Record(id, c, now, io)) && !w.invites[id].shared.peerRecorded
    ensures var t := StoreNow(cfg, w).mem;
            var room := !T.HasName(t, w.invites[id].name) && |t.peers| < T.MAX_PEERS;
            var w' := Step(cfg, w, Record(id, c, now, io));
            && StoreNow(cfg, w').Up?
            && (w'.invites[id].conns[c].pc == Verdict(PairDeny(ServerError), Some(Rejected)) <==> !(room && io.Fine?))
            && (StoreNow(cfg, w').mem.peers == t.peers + [NewPeer(w.invites[id], c, now)] <==> room)
            && (!room ==> StoreNow(cfg, w') == StoreNow(cfg, w))
  {
    hide P.Exec, P.Step, T.HasName, P.Perform, T.Apply, LoopStep, LoopEnabled;
    var p := NewPeer(w.invites[id], c, now);
    StoreAfterCall(cfg, w.log, T.AddPeer(p), io);
    AddPeerOutcome(cfg, StoreNow(cfg, w), p, io);
  }

  lemma StoreAfterCall(cfg: Cfg, log: seq<P.Action>, op: T.Op, io: P.Io)
    requires P.Exec(cfg.codec, log).Up?
    ensures P.Exec(cfg.codec, log + [P.Call(op, io)]) == P.Perform(cfg.codec, P.Exec(cfg.codec, log), op, io).0
  {
    hide P.Perform;
    assert (log + [P.Call(op, io)])[..|log|] == log;
  }

  lemma AddPeerOutcome(cfg: Cfg, s: P.Store, p: T.Peer, io: P.Io)
    requires s.Up?
    ensures var room := !T.HasName(s.mem, p.name) && |s.mem.peers| < T.MAX_PEERS;
            var (s', reply) := P.Perform(cfg.codec, s, T.AddPeer(p), io);
            && s'.Up? && (reply == T.Done <==> room && io.Fine?)
            && (s'.mem.peers == s.mem.peers + [p] <==> room)
            && (!room ==> s' == s)
  {
    hide T.HasName, P.Persist;
  }

  /** Such a run exists for every invite name and client. */
  lemma DeniedButListed(cfg: Cfg, name: string, node: string) returns (w: World)
    requires cfg.maxCreates > 0
    ensures Reachable(cfg, w) && 0 in w.invites && 0 in w.invites[0].conns && w.invites[0].conns[0].node == node
    ensures PairDeny(ServerError) in w.invites[0].conns[0].sent
    ensures StoreNow(cfg, w).Up? && T.HasName(StoreNow(cfg, w).mem, name)
  {
    hide Exec, Reachable;
    SoloVerdict(cfg, name, node, P.RenameFails);
    var call := AddCall(name, node, P.RenameFails);
    w := Solo([call], Verdicted(cfg, name, node, false), [(0, Sent)]);
    assert w.invites[0].conns[0].sent[1] == PairDeny(ServerError);
    assert [call][..0] == [];
    assert P.Exec(cfg.codec, []) == P.BOOT;
    assert StoreNow(cfg, w) == P.Step(cfg.codec, P.BOOT, call);
    assert StoreNow(cfg, w).mem.peers == [T.Peer(name, node, "", "")];
    assert StoreNow(cfg, w).mem.peers[0].name == name;
  }

  // ---- The cap is reached ----

  /** `n` pending invites, `calls` creates past the cap check and no others;
      the ids and call numbers from there on are unused. */
  ghost predicate Filled(w: World, n: nat, calls: nat) {
    && w.log == [] && |w.entries| == n
    && (forall i :: i in w.invites ==> i < n)
    && (forall i :: i in w.entries ==> i < n)
    && w.creating.Keys == Below(calls)
    && (forall k :: k in w.creating ==> w.creating[k] == Inserting(""))
  }

  /** The call numbers below `n`. */
  function Below(n: nat): (s: set<CallId>)
    ensures |s| == n && forall k: nat :: k in s <==> k < n
  {
    if n == 0 then {} else Below(n - 1) + {n - 1}
  }

  lemma PassCap(cfg: Cfg, w: World, call: CallId) returns (w': World)
    requires Reachable(cfg, w) && w.log == [] && |w.entries| < MAX_PENDING_INVITES
    requires call !in w.creating && |w.creating| < cfg.maxCreates
    ensures Reachable(cfg, w') && w' == w.(creating := w.creating[call := Inserting("")])
  {
    hide Exec, Reachable, LoopStep, ConnStep, LoopEnabled, ConnEnabled, RecordAction;
    assert StoreNow(cfg, w) == P.BOOT;
    w' := Go(cfg, w, CallCreate(call, ""));
    w' := Go(cfg, w', CreateCheckName(call));
    w' := Go(cfg, w', CreateCheckCap(call));
  }

  /** One more create passes the cap check. */
  lemma OneMoreCall(cfg: Cfg, w: World, n: nat, calls: nat) returns (w': World)
    requires Reachable(cfg, w) && Filled(w, n, calls) && n < MAX_PENDING_INVITES && calls < cfg.maxCreates
    ensures Reachable(cfg, w') && Filled(w', n, calls + 1)
  {
    hide Reachable;
    assert |w.creating| == |w.creating.Keys| && calls !in w.creating.Keys;
    w' := PassCap(cfg, w, calls);
    hide Filled;
    FilledAfterCall(w, w', n, calls);
  }

  lemma FilledAfterCall(w: World, w': World, n: nat, calls: nat)
    requires Filled(w, n, calls) && w' == w.(creating := w.creating[calls := Inserting("")])
    ensures Filled(w', n, calls + 1)
  {
    assert w'.creating.Keys == w.creating.Keys + {calls} == Below(calls + 1);
  }

  /** The last of them inserts its invite. */
  lemma OneMoreInvite(cfg: Cfg, w: World, n: nat, calls: nat) returns (w': World)
    requires Reachable(cfg, w) && Filled(w, n, calls) && calls > 0
    ensures Reachable(cfg, w') && Filled(w', n + 1, calls - 1)
  {
    hide Exec, Reachable, LoopStep, ConnStep, LoopEnabled, ConnEnabled, RecordAction, StoreNow, T.HasName;
    assert calls - 1 in w.creating.Keys;
    w' := Go(cfg, w, CreateInsert(calls - 1, n));
    FilledAfterInsert(cfg, w, w', n, calls);
  }

  lemma FilledAfterInsert(cfg: Cfg, w: World, w': World, n: nat, calls: nat)
    requires Filled(w, n, calls) && calls > 0 && w'.log == w.log && w'.creating == w.creating - {calls - 1}
    requires w'.entries == w.entries + {n} && w'.invites == w.invites[n := NewInvite("", cfg.server)]
    ensures Filled(w', n + 1, calls - 1)
  {
    assert w'.creating.Keys == w.creating.Keys - {calls - 1} == Below(calls - 1);
  }

  lemma {:induction false} FillUp(cfg: Cfg, n: nat) returns (w: World)
    requires cfg.maxCreates > 0 && n <= MAX_PENDING_INVITES
    ensures Reachable(cfg, w) && Filled(w, n, 0)
  {
    hide Reachable, Filled;
    if n == 0 {
      Start(cfg);
      w := INIT;
      NothingFilled();
    } else {
      w := FillUp(cfg, n - 1);
      w := OneMoreCall(cfg, w, n - 1, 0);
      w := OneMoreInvite(cfg, w, n - 1, 1);
    }
  }

  lemma NothingFilled()
    ensures Filled(INIT, 0, 0)
  {
    assert Below(0) == {};
  }

  lemma {:induction false} AllCheck(cfg: Cfg, calls: nat) returns (w: World)
    requires 0 < cfg.maxCreates && calls <= cfg.maxCreates
    ensures Reachable(cfg, w) && Filled(w, MAX_PENDING_INVITES - 1, calls)
  {
    hide Reachable, Filled;
    if calls == 0 {
      w := FillUp(cfg, MAX_PENDING_INVITES - 1);
    } else {
      w := AllCheck(cfg, calls - 1);
      w := OneMoreCall(cfg, w, MAX_PENDING_INVITES - 1, calls - 1);
    }
  }

  lemma {:induction false} AllInsert(cfg: Cfg, w: World, n: nat, calls: nat) returns (w': World)
    requires Reachable(cfg, w) && Filled(w, n, calls)
    ensures Reachable(cfg, w') && Filled(w', n + calls, 0)
    decreases calls
  {
    hide Reachable, Filled;
    w' := w;
    if calls > 0 {
      w' := OneMoreInvite(cfg, w, n, calls);
      w' := AllInsert(cfg, w', n + 1, calls - 1);
    }
  }

  /** The bound is tight: with any number of concurrent creates there is a run
      that ends with exactly that many pending invites. */
  lemma CapIsReached(cfg: Cfg) returns (w: World)
    requires cfg.maxCreates > 0
    ensures Reachable(cfg, w) && |w.entries| == MAX_PENDING_INVITES - 1 + cfg.maxCreates
  {
    hide Reachable;
    w := AllCheck(cfg, cfg.maxCreates);
    w := AllInsert(cfg, w, MAX_PENDING_INVITES - 1, cfg.maxCreates);
  }

  // ---- Which decisions reach a waiting handler ----

  /** The loop's step calls `notify_waiters`. */
  predicate Rouses(inv: Invite, la: LoopAction) {
    la.TakeCmd? || (la.Wind? && inv.loop.Stopping? && (inv.loop.o.Rejected? || inv.loop.o.Lapsed?))
  }

  predicate BeginsToWait(inv: Invite, ca: ConnAction) {
    ca.WaitSent? || (ca.ReadDecision? && inv.shared.decision.None?)
  }

  /** `notify_waiters` was called since the handler of `c` last began to wait. */
  predicate RousedSince(cfg: Cfg, acts: seq<Action>, id: InviteId, c: ConnId) {
    acts != [] &&
    (var before, a := Exec(cfg, acts[..|acts| - 1]), acts[|acts| - 1];
     if before.None? || id !in before.value.invites then false
     else if a.OnLoop? && a.id == id && Rouses(before.value.invites[id], a.la) then true
     else if a.OnConn? && a.id == id && a.c == c && BeginsToWait(before.value.invites[id], a.ca) then false
     else RousedSince(cfg, acts[..|acts| - 1], id, c))
  }

  /** The flag of a waiting handler says so, and it is down when it begins to wait. */
  predicate FlagOk(conn: Conn, roused: bool) {
    match conn.pc
    case Waiting => conn.notified == roused
    case Recording => true
    case Verdict(_, _) => true
    case SendOutcome(_) => true
    case Releasing => true
    case Done => true
    case _ => !conn.notified
  }

  lemma LoopFlag(inv: Invite, la: LoopAction, c: ConnId, before: bool)
    requires LoopEnabled(inv, la) && c in LoopStep(inv, la).conns && (c in inv.conns ==> FlagOk(inv.conns[c], before))
    ensures FlagOk(LoopStep(inv, la).conns[c], before || Rouses(inv, la))
  {
  }

  lemma HandlerFlag(inv: Invite, c: ConnId, ca: ConnAction, before: bool)
    requires ConnEnabled(inv, c, ca) && FlagOk(inv.conns[c], before)
    ensures c in ConnStep(inv, c, ca).conns
    ensures FlagOk(ConnStep(inv, c, ca).conns[c], before && !BeginsToWait(inv, ca))
  {
  }

  lemma StoreStepsDoNotWait(cfg: Cfg, w: World, a: Action)
    requires Enabled(cfg, w, a) && Handles(a) && a.id in w.invites && BeginsToWait(w.invites[a.id], HandlerAction(cfg, w, a))
    ensures a.OnConn? && a.ca == HandlerAction(cfg, w, a)
  {
    hide StoreNow, P.Perform, ConnEnabled, T.HasName;
  }

  lemma {:induction false} RunsKeepFlag(cfg: Cfg, acts: seq<Action>, id: InviteId, c: ConnId)
    requires Exec(cfg, acts).Some? && id in Exec(cfg, acts).value.invites && c in Exec(cfg, acts).value.invites[id].conns
    ensures FlagOk(Exec(cfg, acts).value.invites[id].conns[c], RousedSince(cfg, acts, id, c))
  {
    hide Step, Enabled, FlagOk, Rouses, BeginsToWait, HandlerAction, ConnStep, ConnEnabled, LoopStep, LoopEnabled;
    if acts != [] {
      var front, a := acts[..|acts| - 1], acts[|acts| - 1];
      var w := Exec(cfg, front).value;
      if id in w.invites && c in w.invites[id].conns { RunsKeepFlag(cfg, front, id, c); }
      var before := RousedSince(cfg, front, id, c);
      if Handles(a) {
        HandlerStep(cfg, w, a);
        HandlerFlagStep(cfg, w, a, id, c, before);
      } else if a.OnLoop? && a.id == id {
        LoopStepShape(cfg, w, a);
        LoopFlag(w.invites[id], a.la, c, before);
      } else {
        OtherSays(cfg, w, a, id, c);
      }
    }
  }

  lemma LoopStepShape(cfg: Cfg, w: World, a: Action)
    requires Enabled(cfg, w, a) && a.OnLoop?
    ensures a.id in w.invites && LoopEnabled(w.invites[a.id], a.la)
    ensures Step(cfg, w, a).invites == w.invites[a.id := LoopStep(w.invites[a.id], a.la)]
  {
    hide LoopStep, LoopEnabled;
  }

  lemma HandlerFlagStep(cfg: Cfg, w: World, a: Action, id: InviteId, c: ConnId, before: bool)
    requires Enabled(cfg, w, a) && Handles(a) && id in Step(cfg, w, a).invites && c in Step(cfg, w, a).invites[id].conns
    requires id in w.invites && c in w.invites[id].conns ==> FlagOk(w.invites[id].conns[c], before)
    ensures id in w.invites && c in w.invites[id].conns
    ensures FlagOk(Step(cfg, w, a).invites[id].conns[c],
                   before && !(a.OnConn? && a.id == id && a.c == c && BeginsToWait(w.invites[id], a.ca)))
  {
    hide Step, Enabled, FlagOk, BeginsToWait, HandlerAction, ConnStep, ConnEnabled;
    HandlerStep(cfg, w, a);
    if a.id == id {
      var ca := HandlerAction(cfg, w, a);
      IsConn(w.invites[id], a.c, ca);
      if a.c == c {
        HandlerFlag(w.invites[id], c, ca, before);
        if BeginsToWait(w.invites[id], ca) { StoreStepsDoNotWait(cfg, w, a); } else { OwnAction(cfg, w, a); }
      } else {
        OthersSaySame(w.invites[id], a.c, ca, c);
      }
    }
  }

  lemma OwnAction(cfg: Cfg, w: World, a: Action)
    requires Enabled(cfg, w, a) && Handles(a)
    ensures a.OnConn? ==> a.ca == HandlerAction(cfg, w, a)
  {
  }

  /** A waiting handler can wake and read the decision if and only if the loop
      notified the waiters since it last began to wait. A decision processed
      before that is lost to it. */
  lemma WakesIffRousedSince(cfg: Cfg, acts: seq<Action>, id: InviteId, c: ConnId)
    requires Exec(cfg, acts).Some? && id in Exec(cfg, acts).value.invites && c in Exec(cfg, acts).value.invites[id].conns
    requires Exec(cfg, acts).value.invites[id].conns[c].pc.Waiting?
    ensures Enabled(cfg, Exec(cfg, acts).value, OnConn(id, c, Wake)) <==> RousedSince(cfg, acts, id, c)
  {
    hide Exec, RousedSince;
    RunsKeepFlag(cfg, acts, id, c);
  }

  /** Invite 0 with its one connection at `pc`, accepted before it waited. */
  function AcceptedEarly(inv: Invite, node: string, pc: Pc, sent: seq<PairingFrame>): Invite {
    Greeted(inv, node, pc, sent).(shared := Shared(Some(true), true, false, true), events := [Decided(true)])
  }

  lemma SoloAcceptedEarly(cfg: Cfg, name: string, node: string)
    requires cfg.maxCreates > 0
    ensures Reachable(cfg, Solo([], AcceptedEarly(NewInvite(name, cfg.server), node, CheckName, []), [(0, Sent)]))
  {
    hide Exec, Reachable, Step, Enabled, Solo, StoreNow;
    SoloHello(cfg, name, node);
    var inv := Greeted(NewInvite(name, cfg.server), node, CheckName, []);
    SoloDecide(cfg, inv);
    inv := inv.(cmds := [true]);
    SoloLoop(cfg, [], inv, [(0, Sent)], TakeCmd);
    inv := LoopStep(inv, TakeCmd);
    assert inv == AcceptedEarly(NewInvite(name, cfg.server), node, CheckName, []);
  }

  lemma SoloWaitsAfterwards(cfg: Cfg, name: string, node: string)
    requires cfg.maxCreates > 0
    ensures Reachable(cfg, Solo([], AcceptedEarly(NewInvite(name, cfg.server), node, Waiting, [PairWait]), [(0, Sent)]))
  {
    hide Exec, Reachable, LoopStep, LoopEnabled;
    SoloAcceptedEarly(cfg, name, node);
    var inv := AcceptedEarly(NewInvite(name, cfg.server), node, CheckName, []);
    assert StoreNow(cfg, Solo([], inv, [(0, Sent)])) == P.BOOT;
    var w := Go(cfg, Solo([], inv, [(0, Sent)]), CheckNameFree(0, 0));
    inv := ConnStep(inv, 0, NameChecked(true));
    assert w == Solo([], inv, [(0, Sent)]);
    SoloConn(cfg, [], inv, [(0, Sent)], 0, WaitSent);
    inv := ConnStep(inv, 0, WaitSent);
    assert inv.conns[0].sent == [PairWait];
    assert inv == AcceptedEarly(NewInvite(name, cfg.server), node, Waiting, [PairWait]);
  }

  /** For every name and node: the admin accepts before the client waits, never
      refuses, and the client is told that its time is up. */
  lemma AcceptedButExpired(cfg: Cfg, name: string, node: string) returns (w: World)
    requires cfg.maxCreates > 0
    ensures Reachable(cfg, w) && 0 in w.invites && 0 in w.invites[0].conns && w.invites[0].conns[0].node == node
    ensures w.invites[0].events == [Decided(true)]
    ensures w.invites[0].conns[0].sent == [PairWait, PairDeny(Expired)]
  {
    hide Exec, Reachable, Step, Enabled, StoreNow, LoopStep, LoopEnabled;
    SoloWaitsAfterwards(cfg, name, node);
    var inv := AcceptedEarly(NewInvite(name, cfg.server), node, Waiting, [PairWait]);
    SoloConn(cfg, [], inv, [(0, Sent)], 0, PromptTimeout);
    inv := ConnStep(inv, 0, PromptTimeout);
    SoloConn(cfg, [], inv, [(0, Sent)], 0, VerdictDone(true));
    inv := ConnStep(inv, 0, VerdictDone(true));
    assert inv.conns[0].sent == [PairWait, PairDeny(Expired)];
    w := Solo([], inv, [(0, Sent)]);
  }
}
