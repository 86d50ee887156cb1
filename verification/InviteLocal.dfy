/** What every run of the invites keeps, one invite at a time. */
module InviteLocal {
  import opened Prelude
  import opened PairFrames
  import opened Invites

  predicate IsRecord(e: Event, c: ConnId, node: string) {
    e.RecordedPeer? && e.conn == c && e.node == node
  }

  /** Connection `c` with this node id was recorded. */
  ghost predicate RecordOf(events: seq<Event>, c: ConnId, node: string) {
    exists k :: 0 <= k < |events| && IsRecord(events[k], c, node)
  }

  /** Some connection with this node id was recorded. */
  ghost predicate NodeRecorded(events: seq<Event>, node: string) {
    exists k :: 0 <= k < |events| && events[k].RecordedPeer? && events[k].node == node
  }

  ghost predicate AcceptedBefore(events: seq<Event>, n: nat) {
    exists j :: 0 <= j < n && j < |events| && events[j] == Decided(true)
  }

  ghost predicate RefusedBefore(events: seq<Event>) {
    exists j :: 0 <= j < |events| && events[j] == Decided(false)
  }

  ghost predicate SomeRecorded(events: seq<Event>) {
    exists k :: 0 <= k < |events| && events[k].RecordedPeer?
  }

  predicate Live(conn: Conn) {
    !conn.refused && !conn.pc.Done?
  }

  /** Every sequence of frames the daemon may have written on a handled
      connection: a prefix of [Deny NameTaken], [Wait, Confirm] or [Wait, Deny r]. */
  predicate LegalFrames(inv: Invite, sent: seq<PairingFrame>) {
    || sent == []
    || sent == [PairDeny(NameTaken)]
    || sent == [PairWait]
    || (|sent| == 2 && sent[0] == PairWait && (sent[1] == PairConfirm(inv.server, inv.name) || (sent[1].PairDeny? && sent[1].reason != NameTaken)))
  }

  ghost predicate OutcomeOk(events: seq<Event>, o: Outcome) {
    o.Paired? ==> NodeRecorded(events, o.nodeId)
  }

  ghost predicate VerdictOk(inv: Invite, c: ConnId, conn: Conn, frame: PairingFrame, after: Option<Outcome>) {
    || (conn.sent == [] && frame == PairDeny(NameTaken) && after.None?)
    || (conn.sent == [PairWait] && frame.PairDeny? && frame.reason != NameTaken && (after.None? || after == Some(Rejected)))
    || (conn.sent == [PairWait] && frame == PairConfirm(inv.server, inv.name) && after == Some(Paired(conn.node))
        && RecordOf(inv.events, c, conn.node))
  }

  ghost predicate ConnOk(inv: Invite, c: ConnId, conn: Conn) {
    if conn.refused then
      && (conn.pc.RefuseOpen? || conn.pc.RefuseSend? || conn.pc.Done?)
      && (if conn.pc.Done? then conn.sent == [] || conn.sent == [PairDeny(Busy)] else conn.sent == [])
    else
      && LegalFrames(inv, conn.sent)
      && (|conn.sent| == 2 && conn.sent[1].PairConfirm? ==> RecordOf(inv.events, c, conn.node))
      && match conn.pc
         case Waiting => conn.sent == [PairWait]
         case Woken => conn.sent == [PairWait]
         case Recording => conn.sent == [PairWait] && AcceptedBefore(inv.events, |inv.events|)
         case Verdict(frame, after) => VerdictOk(inv, c, conn, frame, after)
         case SendOutcome(o) => o == Rejected || (o == Paired(conn.node) && RecordOf(inv.events, c, conn.node))
         case Releasing => true
         case Done => true
         case RefuseOpen => false
         case RefuseSend => false
         case _ => conn.sent == []
  }

  ghost predicate Slot(inv: Invite) {
    && (inv.shared.pairBusy <==> exists c :: c in inv.conns && Live(inv.conns[c]))
    && (forall c, d :: c in inv.conns && d in inv.conns && Live(inv.conns[c]) && Live(inv.conns[d]) ==> c == d)
  }

  ghost predicate Records(inv: Invite) {
    && (inv.shared.peerRecorded <==> SomeRecorded(inv.events))
    && (forall k, m :: 0 <= k < m < |inv.events| && inv.events[k].RecordedPeer? ==> !inv.events[m].RecordedPeer?)
    && (forall k :: 0 <= k < |inv.events| && inv.events[k].RecordedPeer? ==> AcceptedBefore(inv.events, k))
    && (inv.shared.decision == Some(true) ==> AcceptedBefore(inv.events, |inv.events|))
    && (inv.shared.decision == Some(false) ==> RefusedBefore(inv.events))
  }

  ghost predicate Results(inv: Invite) {
    && (forall i :: 0 <= i < |inv.outcomes| ==> OutcomeOk(inv.events, inv.outcomes[i]))
    && (inv.loop.Stopping? || inv.loop.Closing? ==> OutcomeOk(inv.events, inv.loop.o))
    && (inv.shared.resultTx <==> forall k :: 0 <= k < |inv.events| ==> !inv.events[k].Delivered?)
    && (forall k, m :: 0 <= k < m < |inv.events| && inv.events[k].Delivered? ==> !inv.events[m].Delivered?)
    && (forall k :: 0 <= k < |inv.events| && inv.events[k].Delivered? && inv.events[k].result.WasPaired? ==>
          NodeRecorded(inv.events, inv.events[k].result.nodeId))
  }

  ghost predicate Conns(inv: Invite) {
    forall c :: c in inv.conns ==> ConnOk(inv, c, inv.conns[c])
  }

  ghost predicate Local(inv: Invite) {
    Slot(inv) && Conns(inv) && Records(inv) && Results(inv)
  }

  // ---- History only grows ----

  lemma FactsGrow(events: seq<Event>, more: seq<Event>)
    requires events <= more
    ensures forall c, node :: RecordOf(events, c, node) ==> RecordOf(more, c, node)
    ensures forall node :: NodeRecorded(events, node) ==> NodeRecorded(more, node)
    ensures forall n: nat :: n <= |events| && AcceptedBefore(events, n) ==> AcceptedBefore(more, n)
    ensures AcceptedBefore(events, |events|) ==> AcceptedBefore(more, |more|)
    ensures forall c, node :: RecordOf(events, c, node) ==> NodeRecorded(events, node)
    ensures RefusedBefore(events) ==> RefusedBefore(more)
    ensures SomeRecorded(events) ==> SomeRecorded(more)
  {
    assert forall k :: 0 <= k < |events| ==> more[k] == events[k];
    forall c, node | RecordOf(events, c, node) ensures RecordOf(more, c, node) && NodeRecorded(events, node) {
      var k :| 0 <= k < |events| && IsRecord(events[k], c, node);
      assert IsRecord(more[k], c, node);
    }
    forall node | NodeRecorded(events, node) ensures NodeRecorded(more, node) {
      var k :| 0 <= k < |events| && events[k].RecordedPeer? && events[k].node == node;
      assert more[k] == events[k];
    }
    forall n: nat | n <= |events| && AcceptedBefore(events, n) ensures AcceptedBefore(more, n) {
      var j :| 0 <= j < n && j < |events| && events[j] == Decided(true);
      assert more[j] == events[j];
    }
    if AcceptedBefore(events, |events|) {
      var j :| 0 <= j < |events| && events[j] == Decided(true);
      assert more[j] == Decided(true);
    }
  }

  /** Connections stay sound when the history grows. */
  lemma ConnGrows(inv: Invite, inv': Invite, c: ConnId, conn: Conn)
    requires ConnOk(inv, c, conn) && inv.events <= inv'.events && inv'.server == inv.server && inv'.name == inv.name
    ensures ConnOk(inv', c, conn)
  {
    FactsGrow(inv.events, inv'.events);
    hide RecordOf, RefusedBefore, SomeRecorded, AcceptedBefore;
  }

  /** The slot depends only on which connections are live. */
  lemma SlotFrame(inv: Invite, inv': Invite)
    requires Slot(inv) && inv'.conns.Keys == inv.conns.Keys && inv'.shared.pairBusy == inv.shared.pairBusy
    requires forall c :: c in inv.conns ==> (Live(inv'.conns[c]) <==> Live(inv.conns[c]))
    ensures Slot(inv')
  {
    if inv.shared.pairBusy {
      var c :| c in inv.conns && Live(inv.conns[c]);
      assert Live(inv'.conns[c]);
    }
  }

  // ---- Steps of a connection handler ----

  /** Steps that neither write the history nor touch the shared fields. */
  predicate Plain(ca: ConnAction) {
    !ca.RecordOk? && !ca.OutcomeSent? && !ca.Released?
  }

  lemma PlainMove(inv: Invite, c: ConnId, ca: ConnAction)
    requires Records(inv) && ConnEnabled(inv, c, ca) && ConnOk(inv, c, inv.conns[c]) && Plain(ca)
    ensures var conn' := ConnStep(inv, c, ca).conns[c];
            ConnOk(inv, c, conn') && (Live(conn') <==> Live(inv.conns[c]))
  {
    hide RecordOf, RefusedBefore, SomeRecorded, AcceptedBefore;
  }

  lemma PlainStepKeepsLocal(inv: Invite, c: ConnId, ca: ConnAction)
    requires Local(inv) && ConnEnabled(inv, c, ca) && Plain(ca)
    ensures Local(ConnStep(inv, c, ca))
  {
    PlainMove(inv, c, ca);
    var inv' := ConnStep(inv, c, ca);
    PlainFrame(inv, c, ca);
    SlotFrame(inv, inv');
    hide ConnStep, ConnEnabled, RecordOf, AcceptedBefore, NodeRecorded;
    forall d | d in inv'.conns ensures ConnOk(inv', d, inv'.conns[d]) {
      ConnGrows(inv, inv', d, inv'.conns[d]);
    }
  }

  lemma PlainFrame(inv: Invite, c: ConnId, ca: ConnAction)
    requires ConnEnabled(inv, c, ca) && Plain(ca)
    ensures var inv' := ConnStep(inv, c, ca);
            inv' == inv.(conns := inv.conns[c := inv'.conns[c]])
  {
  }

  lemma RecordKeepsLocal(inv: Invite, c: ConnId, at: nat)
    requires Local(inv) && ConnEnabled(inv, c, RecordOk(at))
    ensures Local(ConnStep(inv, c, RecordOk(at)))
  {
    var inv' := ConnStep(inv, c, RecordOk(at));
    assert inv'.events == inv.events + [RecordedPeer(c, inv.conns[c].node, at)];
    RecordMove(inv, c, at);
    RecordKeepsRecords(inv, c, at);
    SlotFrame(inv, inv');
    hide ConnOk, Slot, Records;
    forall d | d in inv'.conns ensures ConnOk(inv', d, inv'.conns[d]) {
      if d != c { ConnGrows(inv, inv', d, inv.conns[d]); }
    }
    FactsGrow(inv.events, inv'.events);
    hide NodeRecorded;
  }

  lemma RecordMove(inv: Invite, c: ConnId, at: nat)
    requires Conns(inv) && ConnEnabled(inv, c, RecordOk(at))
    ensures var inv' := ConnStep(inv, c, RecordOk(at));
            ConnOk(inv', c, inv'.conns[c]) && (Live(inv'.conns[c]) <==> Live(inv.conns[c]))
  {
    var inv' := ConnStep(inv, c, RecordOk(at));
    assert IsRecord(inv'.events[|inv.events|], c, inv.conns[c].node);
    assert ConnOk(inv, c, inv.conns[c]);
    hide AcceptedBefore;
  }

  lemma RecordKeepsRecords(inv: Invite, c: ConnId, at: nat)
    requires Conns(inv) && Records(inv) && ConnEnabled(inv, c, RecordOk(at))
    ensures Records(ConnStep(inv, c, RecordOk(at)))
  {
    var inv' := ConnStep(inv, c, RecordOk(at));
    assert ConnOk(inv, c, inv.conns[c]);
    FactsGrow(inv.events, inv'.events);
    assert forall k :: 0 <= k < |inv.events| ==> inv'.events[k] == inv.events[k];
    assert inv'.events[|inv.events|].RecordedPeer?;
    hide RecordOf, NodeRecorded, AcceptedBefore, RefusedBefore;
  }

  lemma OutcomeKeepsLocal(inv: Invite, c: ConnId)
    requires Local(inv) && ConnEnabled(inv, c, OutcomeSent)
    ensures Local(ConnStep(inv, c, OutcomeSent))
  {
    var o := inv.conns[c].pc.o;
    OutcomeWasRecorded(inv, c);
    OutcomeMove(inv, c);
    hide ConnOk, Records, NodeRecorded;
    var inv' := ConnStep(inv, c, OutcomeSent);
    SlotFrame(inv, inv');
    hide Slot;
    forall d | d in inv'.conns ensures ConnOk(inv', d, inv'.conns[d]) {
      ConnGrows(inv, inv', d, inv'.conns[d]);
    }
    SameEvents(inv, inv');
  }

  lemma OutcomeWasRecorded(inv: Invite, c: ConnId)
    requires Conns(inv) && ConnEnabled(inv, c, OutcomeSent)
    ensures OutcomeOk(inv.events, inv.conns[c].pc.o)
  {
    FactsGrow(inv.events, inv.events);
    hide RecordOf, RefusedBefore, SomeRecorded, AcceptedBefore, NodeRecorded;
    assert ConnOk(inv, c, inv.conns[c]);
  }

  lemma OutcomeMove(inv: Invite, c: ConnId)
    requires Conns(inv) && ConnEnabled(inv, c, OutcomeSent)
    ensures ConnOk(inv, c, inv.conns[c].(pc := Releasing))
    ensures Live(inv.conns[c].(pc := Releasing)) <==> Live(inv.conns[c])
  {
    hide RecordOf, RefusedBefore, SomeRecorded, AcceptedBefore;
    assert ConnOk(inv, c, inv.conns[c]);
  }

  lemma SameEvents(inv: Invite, inv': Invite)
    requires Records(inv) && inv'.events == inv.events
    requires inv'.shared.decision == inv.shared.decision && inv'.shared.peerRecorded == inv.shared.peerRecorded
    ensures Records(inv')
  {
  }

  lemma ReleaseKeepsLocal(inv: Invite, c: ConnId)
    requires Local(inv) && ConnEnabled(inv, c, Released)
    ensures Local(ConnStep(inv, c, Released))
  {
    var inv' := ConnStep(inv, c, Released);
    assert ConnOk(inv, c, inv.conns[c]);
    assert Live(inv.conns[c]);
    hide RecordOf, RefusedBefore, SomeRecorded, AcceptedBefore, NodeRecorded;
    forall d | d in inv'.conns ensures ConnOk(inv', d, inv'.conns[d]) {
      ConnGrows(inv, inv', d, inv'.conns[d]);
    }
  }

  lemma ConnStepKeepsLocal(inv: Invite, c: ConnId, ca: ConnAction)
    requires Local(inv) && ConnEnabled(inv, c, ca)
    ensures Local(ConnStep(inv, c, ca))
  {
    hide Local, ConnStep, ConnEnabled;
    match ca
    case RecordOk(at) => RecordKeepsLocal(inv, c, at);
    case OutcomeSent => OutcomeKeepsLocal(inv, c);
    case Released => ReleaseKeepsLocal(inv, c);
    case _ => PlainStepKeepsLocal(inv, c, ca);
  }

  // ---- Steps of the accept loop ----

  /** Being notified changes nothing the invariant speaks of. */
  lemma NotifyKeepsLocal(inv: Invite)
    requires Local(inv)
    ensures Local(NotifyWaiters(inv))
  {
    var inv' := NotifyWaiters(inv);
    forall c | c in inv'.conns ensures ConnOk(inv', c, inv'.conns[c]) && (Live(inv'.conns[c]) <==> Live(inv.conns[c])) {
      ConnGrows(inv, inv', c, inv.conns[c]);
    }
    SlotFrame(inv, inv');
    hide ConnOk, RecordOf, AcceptedBefore, NodeRecorded;
  }

  lemma LogKeepsRecords(inv: Invite, inv': Invite, e: Event)
    requires Records(inv) && !e.RecordedPeer? && inv'.events == inv.events + [e]
    requires inv'.shared.decision == inv.shared.decision && inv'.shared.peerRecorded == inv.shared.peerRecorded
    ensures Records(inv')
  {
    FactsGrow(inv.events, inv'.events);
    hide RecordOf, NodeRecorded, RefusedBefore, AcceptedBefore;
    assert forall k :: 0 <= k < |inv.events| ==> inv'.events[k] == inv.events[k];
    assert inv'.events[|inv.events|] == e;
  }

  lemma LogKeepsResults(inv: Invite, inv': Invite, e: Event)
    requires Results(inv) && !e.RecordedPeer? && inv'.events == inv.events + [e]
    requires inv'.outcomes == inv.outcomes && inv'.loop == inv.loop
    requires inv'.shared.resultTx == (inv.shared.resultTx && !e.Delivered?)
    requires e.Delivered? ==> inv.shared.resultTx && (e.result.WasPaired? ==> NodeRecorded(inv.events, e.result.nodeId))
    ensures Results(inv')
  {
    FactsGrow(inv.events, inv'.events);
    hide RecordOf, NodeRecorded, RefusedBefore, AcceptedBefore;
    assert forall k :: 0 <= k < |inv.events| ==> inv'.events[k] == inv.events[k];
    assert inv'.events[|inv.events|] == e;
  }

  /** Adding an event that is not a recording. */
  lemma LogKeepsLocal(inv: Invite, e: Event)
    requires Local(inv) && !e.RecordedPeer?
    requires e.Delivered? ==> inv.shared.resultTx && (e.result.WasPaired? ==> NodeRecorded(inv.events, e.result.nodeId))
    ensures Local(Log(inv, e).(shared := inv.shared.(resultTx := inv.shared.resultTx && !e.Delivered?)))
  {
    var inv' := Log(inv, e).(shared := inv.shared.(resultTx := inv.shared.resultTx && !e.Delivered?));
    LogKeepsRecords(inv, inv', e);
    LogKeepsResults(inv, inv', e);
    SlotFrame(inv, inv');
    hide ConnOk, Records, Results, Slot;
    forall c | c in inv'.conns ensures ConnOk(inv', c, inv'.conns[c]) {
      ConnGrows(inv, inv', c, inv.conns[c]);
    }
  }

  lemma ConnectKeepsLocal(inv: Invite, c: ConnId, node: string)
    requires Local(inv) && LoopEnabled(inv, Connect(c, node))
    ensures Local(LoopStep(inv, Connect(c, node)))
  {
    var inv' := LoopStep(inv, Connect(c, node));
    forall d | d in inv'.conns ensures ConnOk(inv', d, inv'.conns[d]) {
      if d != c { ConnGrows(inv, inv', d, inv.conns[d]); }
    }
    hide ConnOk, RecordOf, AcceptedBefore, NodeRecorded;
    if inv.shared.pairBusy {
      var d :| d in inv.conns && Live(inv.conns[d]);
      assert d in inv'.conns && Live(inv'.conns[d]);
    } else {
      assert Live(inv'.conns[c]);
    }
  }

  lemma CmdKeepsLocal(inv: Invite)
    requires Local(inv) && LoopEnabled(inv, TakeCmd)
    ensures Local(LoopStep(inv, TakeCmd))
  {
    var accept := inv.cmds[0];
    NotifyKeepsLocal(inv);
    LogKeepsLocal(NotifyWaiters(inv), Decided(accept));
    var logged := Log(NotifyWaiters(inv), Decided(accept));
    Decide(logged, accept, inv.cmds[1..]);
    Retarget(Decision(logged, accept, inv.cmds[1..]), if accept then inv.loop else Stopping(Rejected), inv.outcomes);
    hide Local;
  }

  function Decision(inv: Invite, accept: bool, cmds: seq<bool>): Invite {
    inv.(shared := inv.shared.(decision := Some(accept)), cmds := cmds)
  }

  /** Setting the decision after it was logged. */
  lemma Decide(inv: Invite, accept: bool, cmds: seq<bool>)
    requires Local(inv) && inv.events != [] && inv.events[|inv.events| - 1] == Decided(accept)
    ensures Local(Decision(inv, accept, cmds))
  {
    var inv' := Decision(inv, accept, cmds);
    forall c | c in inv'.conns ensures ConnOk(inv', c, inv'.conns[c]) {
      ConnGrows(inv, inv', c, inv.conns[c]);
    }
    SlotFrame(inv, inv');
    assert accept ==> AcceptedBefore(inv'.events, |inv'.events|);
    assert !accept ==> RefusedBefore(inv'.events);
    hide ConnOk, RecordOf, AcceptedBefore, NodeRecorded, Slot;
  }

  lemma LoopStepKeepsLocal(inv: Invite, la: LoopAction)
    requires Local(inv) && LoopEnabled(inv, la)
    ensures Local(LoopStep(inv, la))
  {
    match la
    case Connect(c, node) => ConnectKeepsLocal(inv, c, node);
    case TakeCmd => CmdKeepsLocal(inv);
    case FinishSend => FinishKeepsLocal(inv);
    case _ => OtherLoopStepKeepsLocal(inv, la);
  }

  lemma FinishKeepsLocal(inv: Invite)
    requires Local(inv) && LoopEnabled(inv, FinishSend)
    ensures Local(LoopStep(inv, FinishSend))
  {
    var e := Delivered(ResultOf(inv.loop.o));
    if inv.shared.resultTx {
      LogKeepsLocal(inv, e);
      Retarget(Log(inv, e).(shared := inv.shared.(resultTx := false)), Removing, inv.outcomes);
    } else {
      Retarget(inv, Removing, inv.outcomes);
      assert LoopStep(inv, FinishSend) == inv.(loop := Removing, outcomes := inv.outcomes);
    }
  }

  /** Moving the loop and consuming outcomes. */
  lemma Retarget(inv: Invite, loop: LoopPc, outcomes: seq<Outcome>)
    requires Local(inv)
    requires loop.Stopping? || loop.Closing? ==> OutcomeOk(inv.events, loop.o)
    requires forall i :: 0 <= i < |outcomes| ==> OutcomeOk(inv.events, outcomes[i])
    ensures Local(inv.(loop := loop, outcomes := outcomes))
  {
    var inv' := inv.(loop := loop, outcomes := outcomes);
    forall c | c in inv'.conns ensures ConnOk(inv', c, inv'.conns[c]) {
      ConnGrows(inv, inv', c, inv.conns[c]);
    }
    hide ConnOk, RecordOf, AcceptedBefore, NodeRecorded, OutcomeOk;
  }

  lemma OtherLoopStepKeepsLocal(inv: Invite, la: LoopAction)
    requires Local(inv) && LoopEnabled(inv, la) && !la.Connect? && !la.TakeCmd? && !la.FinishSend?
    ensures Local(LoopStep(inv, la))
  {
    hide Slot, Conns, Records, NodeRecorded;
    var inv' := LoopStep(inv, la);
    if la.Wind? {
      NotifyKeepsLocal(inv);
      Retarget(if inv.loop.o.Rejected? || inv.loop.o.Lapsed? then NotifyWaiters(inv) else inv, inv'.loop, inv.outcomes);
    } else {
      Retarget(inv, inv'.loop, inv'.outcomes);
    }
  }

  // ---- A recorded connection is confirmed or hears nothing more ----

  /** Told to wait, and then at most that it is confirmed. */
  predicate Confirms(conn: Conn) {
    && !conn.refused
    && match conn.pc
       case Verdict(f, _) => f.PairConfirm? && conn.sent == [PairWait]
       case SendOutcome(_) => ConfirmedAtMost(conn.sent)
       case Releasing => ConfirmedAtMost(conn.sent)
       case Done => ConfirmedAtMost(conn.sent)
       case _ => false
  }

  predicate ConfirmedAtMost(sent: seq<PairingFrame>) {
    sent == [PairWait] || (|sent| == 2 && sent[0] == PairWait && sent[1].PairConfirm?)
  }

  ghost predicate Told(inv: Invite) {
    forall k :: 0 <= k < |inv.events| && inv.events[k].RecordedPeer? ==>
      inv.events[k].conn in inv.conns && Confirms(inv.conns[inv.events[k].conn])
  }

  lemma LoopStepKeepsTold(inv: Invite, la: LoopAction)
    requires Told(inv) && LoopEnabled(inv, la)
    ensures Told(LoopStep(inv, la))
  {
    var inv' := LoopStep(inv, la);
    forall k | 0 <= k < |inv'.events| && inv'.events[k].RecordedPeer?
      ensures inv'.events[k].conn in inv'.conns && Confirms(inv'.conns[inv'.events[k].conn])
    {
      assert k < |inv.events| && inv'.events[k] == inv.events[k];
    }
  }

  lemma ConnStepKeepsTold(inv: Invite, c: ConnId, ca: ConnAction)
    requires Told(inv) && ConnEnabled(inv, c, ca) && ConnOk(inv, c, inv.conns[c])
    ensures Told(ConnStep(inv, c, ca))
  {
    hide RecordOf, AcceptedBefore;
    var inv' := ConnStep(inv, c, ca);
    forall k | 0 <= k < |inv'.events| && inv'.events[k].RecordedPeer?
      ensures inv'.events[k].conn in inv'.conns && Confirms(inv'.conns[inv'.events[k].conn])
    {
      if k < |inv.events| {
        assert inv'.events[k] == inv.events[k];
      }
    }
  }
}
