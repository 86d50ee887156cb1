/** What every run of all invites over one store keeps. */
module InviteRuns {
  import opened Prelude
  import opened PairFrames
  import opened Invites
  import opened InviteLocal
  import T = PeerTables
  import P = PeerStore

  /** The recording is the call at position `e.at`, it answered Ok, and it
      recorded this node id under the invite's name. */
  ghost predicate InLog(cfg: Cfg, log: seq<P.Action>, name: string, e: Event)
    requires e.RecordedPeer?
  {
    e.at < |log| && P.Recorded(cfg.codec, log, e.at, name) && log[e.at].op.peer.nodeId == e.node
  }

  lemma InLogGrows(cfg: Cfg, log: seq<P.Action>, more: seq<P.Action>, name: string, e: Event)
    requires e.RecordedPeer? && InLog(cfg, log, name, e) && log <= more
    ensures InLog(cfg, more, name, e)
  {
    assert more[..e.at] == log[..e.at];
    assert more[e.at] == log[e.at];
  }

  ghost predicate Recordings(cfg: Cfg, w: World) {
    && (forall i, k :: i in w.invites && 0 <= k < |w.invites[i].events| && w.invites[i].events[k].RecordedPeer? ==>
          InLog(cfg, w.log, w.invites[i].name, w.invites[i].events[k]))
    && (forall i, j, k, m ::
          i in w.invites && j in w.invites && i != j && 0 <= k < |w.invites[i].events| && 0 <= m < |w.invites[j].events|
          && w.invites[i].events[k].RecordedPeer? && w.invites[j].events[m].RecordedPeer? ==>
          w.invites[i].events[k].at != w.invites[j].events[m].at)
  }

  /** Every successful recording in the log is an event of some invite. */
  ghost predicate Owned(w: World, p: nat, name: string, node: string) {
    exists i, k :: i in w.invites && 0 <= k < |w.invites[i].events| && w.invites[i].name == name
                   && w.invites[i].events[k].RecordedPeer? && w.invites[i].events[k].at == p && w.invites[i].events[k].node == node
  }

  ghost predicate Accounted(cfg: Cfg, w: World) {
    forall p: nat, name :: p < |w.log| && P.Recorded(cfg.codec, w.log, p, name) ==> Owned(w, p, name, w.log[p].op.peer.nodeId)
  }

  /** The result is delivered exactly when the loop is through with it. */
  predicate Finished(inv: Invite) {
    inv.loop.Removing? || inv.loop.Gone? <==> !inv.shared.resultTx
  }

  ghost predicate Each(cfg: Cfg, w: World) {
    forall i :: i in w.invites ==> Local(w.invites[i]) && Told(w.invites[i]) && Finished(w.invites[i]) && w.invites[i].server == cfg.server
  }

  ghost predicate Manager(w: World) {
    && (forall i :: i in w.entries <==> i in w.invites && !w.invites[i].loop.Gone?)
    && (forall d :: d in w.deciding ==> w.deciding[d].0 in w.invites)
  }

  /** `create` calls that passed the cap check and have not inserted yet. */
  ghost function PastCap(w: World): set<CallId> {
    set call | call in w.creating && w.creating[call].Inserting?
  }

  ghost predicate Capped(cfg: Cfg, w: World) {
    && |w.creating| <= cfg.maxCreates
    && |w.entries| + |PastCap(w)| <= MAX_PENDING_INVITES - 1 + cfg.maxCreates
  }

  ghost predicate Inv(cfg: Cfg, w: World) {
    Each(cfg, w) && Recordings(cfg, w) && Accounted(cfg, w) && Manager(w) && Capped(cfg, w)
  }

  // ---- Connections keep their node id and their frames ----

  ghost predicate ConnsGrow(inv: Invite, inv': Invite) {
    && inv'.name == inv.name
    && forall c :: c in inv.conns ==> c in inv'.conns && inv'.conns[c].node == inv.conns[c].node && inv.conns[c].sent <= inv'.conns[c].sent
  }

  lemma LoopConnsGrow(inv: Invite, la: LoopAction)
    requires LoopEnabled(inv, la)
    ensures ConnsGrow(inv, LoopStep(inv, la))
  {
  }

  lemma ConnConnsGrow(inv: Invite, c: ConnId, ca: ConnAction)
    requires ConnEnabled(inv, c, ca)
    ensures ConnsGrow(inv, ConnStep(inv, c, ca))
  {
  }

  lemma ConnsGrowTrans(u: Invite, v: Invite, w: Invite)
    requires ConnsGrow(u, v) && ConnsGrow(v, w)
    ensures ConnsGrow(u, w)
  {
  }

  // ---- Steps of connection handlers ----

  predicate Handles(a: Action) {
    a.OnConn? || a.CheckNameFree? || a.Record?
  }

  /** What the handler does in a step, once the store has been asked. */
  function HandlerAction(cfg: Cfg, w: World, a: Action): ConnAction
    requires Enabled(cfg, w, a) && Handles(a)
  {
    match a
    case OnConn(_, _, ca) => ca
    case CheckNameFree(id, _) => NameChecked(!T.HasName(StoreNow(cfg, w).mem, w.invites[id].name))
    case Record(id, c, now, io) => RecordAction(cfg, w, id, c, now, io)
  }

  /** It changes one connection of one invite, and at most adds to the log. */
  lemma HandlerStep(cfg: Cfg, w: World, a: Action)
    requires Enabled(cfg, w, a) && Handles(a)
    ensures a.id in w.invites && ConnEnabled(w.invites[a.id], a.c, HandlerAction(cfg, w, a))
    ensures var w' := Step(cfg, w, a);
            && w'.invites == w.invites[a.id := ConnStep(w.invites[a.id], a.c, HandlerAction(cfg, w, a))]
            && w.log <= w'.log && (!a.Record? ==> w'.log == w.log)
            && w'.entries == w.entries && w'.creating == w.creating && w'.deciding == w.deciding
    ensures HandlerAction(cfg, w, a).RecordOk? ==> a.Record?
    ensures HandlerAction(cfg, w, a).GotFrame? ==> a.OnConn?
  {
    hide ConnStep, StoreNow, T.HasName, P.Perform;
  }

  // ---- The cap ----

  lemma NewCall(cfg: Cfg, w: World, w': World, call: CallId, name: string)
    requires Capped(cfg, w) && call !in w.creating && |w.creating| < cfg.maxCreates
    requires w'.creating == w.creating[call := CheckingName(name)] && w'.entries == w.entries
    ensures Capped(cfg, w')
  {
    assert w'.creating.Keys == w.creating.Keys + {call};
    assert |w'.creating| == |w'.creating.Keys| && |w.creating| == |w.creating.Keys|;
    assert PastCap(w') == PastCap(w);
  }

  lemma Inserted(cfg: Cfg, w: World, w': World, call: CallId, id: InviteId)
    requires Capped(cfg, w) && call in PastCap(w) && w'.creating == w.creating - {call} && w'.entries == w.entries + {id}
    ensures Capped(cfg, w')
  {
    DropCall(w, w', call);
    assert PastCap(w') == PastCap(w) - {call};
  }

  lemma CreateCapStep(cfg: Cfg, w: World, a: Action)
    requires Capped(cfg, w) && Enabled(cfg, w, a) && (a.CallCreate? || a.CreateCheckName? || a.CreateCheckCap? || a.CreateInsert?)
    ensures Capped(cfg, Step(cfg, w, a))
  {
    hide StoreNow, T.HasName, LoopStep, ConnStep, RecordAction, LoopEnabled, ConnEnabled;
    var w' := Step(cfg, w, a);
    match a
    case CallCreate(call, name) => NewCall(cfg, w, w', call, name);
    case CreateCheckName(call) => DropCall(w, w', call);
    case CreateCheckCap(call) =>
      DropCall(w, w', call);
      PastCapSize(w');
    case CreateInsert(call, id) => Inserted(cfg, w, w', call, id);
  }

  lemma CapStep(cfg: Cfg, w: World, a: Action)
    requires Capped(cfg, w) && Enabled(cfg, w, a)
    ensures Capped(cfg, Step(cfg, w, a))
  {
    hide LoopStep, ConnStep, RecordAction, StoreNow, LoopEnabled, ConnEnabled, T.HasName, PastCap;
    if a.CallCreate? || a.CreateCheckName? || a.CreateCheckCap? || a.CreateInsert? {
      CreateCapStep(cfg, w, a);
    } else {
      var w' := Step(cfg, w, a);
      assert w'.creating == w.creating && w'.entries <= w.entries;
      SubsetSize(w'.entries, w.entries);
      SamePastCap(w, w');
    }
  }

  lemma SamePastCap(w: World, w': World)
    requires w'.creating == w.creating
    ensures PastCap(w') == PastCap(w)
  {
  }

  lemma PastCapSize(w: World)
    ensures |PastCap(w)| <= |w.creating|
  {
    assert PastCap(w) <= w.creating.Keys;
    SubsetSize(PastCap(w), w.creating.Keys);
    assert |w.creating| == |w.creating.Keys|;
  }

  lemma {:induction false} SubsetSize<A>(a: set<A>, b: set<A>)
    requires a <= b
    ensures |a| <= |b|
  {
    if a != {} {
      var x :| x in a;
      SubsetSize(a - {x}, b - {x});
    }
  }

  /** Moving or dropping one call never adds one past the cap check, unless
      it is the one that just passed. */
  lemma DropCall(w: World, w': World, call: CallId)
    requires call in w.creating
    requires w'.creating == w.creating - {call} || (call in w'.creating && w'.creating == w.creating[call := w'.creating[call]])
    ensures |w'.creating| <= |w.creating|
    ensures (call !in w'.creating || !w'.creating[call].Inserting?) ==> |PastCap(w')| <= |PastCap(w)|
  {
    assert w'.creating.Keys <= w.creating.Keys;
    SubsetSize(w'.creating.Keys, w.creating.Keys);
    assert |w'.creating| == |w'.creating.Keys| && |w.creating| == |w.creating.Keys|;
    if call !in w'.creating || !w'.creating[call].Inserting? {
      assert PastCap(w') <= PastCap(w);
      SubsetSize(PastCap(w'), PastCap(w));
    }
  }

  // ---- The manager's map ----

  lemma ManagerAfter(w: World, w': World, id: InviteId)
    requires Manager(w) && id in w.invites && id in w'.invites && w'.invites == w.invites[id := w'.invites[id]]
    requires w'.entries == w.entries && w'.deciding == w.deciding
    requires w'.invites[id].loop.Gone? == w.invites[id].loop.Gone?
    ensures Manager(w')
  {
  }

  lemma ManagerInsert(w: World, w': World, id: InviteId, inv: Invite)
    requires Manager(w) && w'.deciding == w.deciding && !inv.loop.Gone?
    requires w'.invites == w.invites[id := inv] && w'.entries == w.entries + {id}
    ensures Manager(w')
  {
  }

  lemma ManagerDrop(w: World, w': World, id: InviteId)
    requires Manager(w) && w'.deciding == w.deciding && id in w.invites
    requires w'.invites == w.invites[id := w.invites[id].(loop := Gone)] && w'.entries == w.entries - {id}
    ensures Manager(w')
  {
  }

  /** Decisions add or take calls, and may queue a command. */
  lemma ManagerDecide(w: World, w': World, id: InviteId)
    requires Manager(w) && id in w.invites && w'.entries == w.entries
    requires id in w'.invites && w'.invites == w.invites[id := w'.invites[id]] && w'.invites[id].loop == w.invites[id].loop
    requires forall d :: d in w'.deciding ==> w'.deciding[d].0 == id || (d in w.deciding && w'.deciding[d] == w.deciding[d])
    ensures Manager(w')
  {
  }

  lemma ManagerSame(w: World, w': World)
    requires Manager(w) && w'.deciding == w.deciding && w'.invites == w.invites && w'.entries == w.entries
    ensures Manager(w')
  {
  }

  lemma EntryIsInvite(w: World, id: InviteId)
    requires Manager(w) && id in w.entries
    ensures id in w.invites
  {
  }

  lemma ManagerStep(cfg: Cfg, w: World, a: Action)
    requires Manager(w) && Enabled(cfg, w, a)
    ensures Manager(Step(cfg, w, a))
  {
    hide Manager, LoopStep, ConnStep, RecordAction, StoreNow, LoopEnabled, ConnEnabled, T.HasName;
    var w' := Step(cfg, w, a);
    if Handles(a) {
      hide Step, Enabled;
      HandlerStep(cfg, w, a);
      ConnKeeps(w.invites[a.id], a.c, HandlerAction(cfg, w, a));
      ManagerAfter(w, w', a.id);
      return;
    }
    match a
    case CreateInsert(call, id) => ManagerInsert(w, w', id, NewInvite(w.creating[call].name, cfg.server));
    case FinishRemove(id) => ManagerDrop(w, w', id);
    case DecideSend(call, _) => ManagerDecide(w, w', w.deciding[call].0);
    case DecideLookup(call, id, _) =>
      if id in w.entries {
        EntryIsInvite(w, id);
        ManagerDecide(w, w', id);
      } else {
        ManagerSame(w, w');
      }
    case OnLoop(id, la) =>
      LoopKeeps(w.invites[id], la);
      ManagerAfter(w, w', id);
    case _ => ManagerSame(w, w');
  }

  /** What a step of the loop or a handler leaves alone. */
  lemma LoopKeeps(inv: Invite, la: LoopAction)
    requires LoopEnabled(inv, la)
    ensures var inv' := LoopStep(inv, la);
            && (Finished(inv) ==> Finished(inv')) && !inv.loop.Gone? && !inv'.loop.Gone? && inv'.name == inv.name && inv'.server == inv.server
            && inv.events <= inv'.events
            && (forall k :: |inv.events| <= k < |inv'.events| ==> !inv'.events[k].RecordedPeer?)
  {
  }

  lemma ConnKeeps(inv: Invite, c: ConnId, ca: ConnAction)
    requires ConnEnabled(inv, c, ca)
    ensures var inv' := ConnStep(inv, c, ca);
            && inv'.loop == inv.loop && inv'.shared.resultTx == inv.shared.resultTx && inv'.name == inv.name && inv'.server == inv.server
            && inv'.events == inv.events + if ca.RecordOk? then [RecordedPeer(c, inv.conns[c].node, ca.at)] else []
  {
  }

  // ---- One invite changes, the others do not ----

  lemma EachAfter(cfg: Cfg, w: World, w': World, id: InviteId, inv: Invite)
    requires Each(cfg, w) && w'.invites == w.invites[id := inv] && Local(inv) && Told(inv) && Finished(inv) && inv.server == cfg.server
    ensures Each(cfg, w')
  {
  }

  /** No invite records anything and the log may grow. */
  lemma QuietRecordings(cfg: Cfg, w: World, w': World, id: InviteId, inv: Invite)
    requires Recordings(cfg, w) && w.log <= w'.log
    requires w'.invites == w.invites || (w'.invites == w.invites[id := inv])
    requires id in w.invites ==> inv.name == w.invites[id].name && w.invites[id].events <= inv.events
    requires id in w.invites ==> forall k :: |w.invites[id].events| <= k < |inv.events| ==> !inv.events[k].RecordedPeer?
    requires id !in w.invites ==> inv.events == []
    ensures Recordings(cfg, w')
  {
    hide InLog;
    forall i, k | i in w'.invites && 0 <= k < |w'.invites[i].events| && w'.invites[i].events[k].RecordedPeer?
      ensures i in w.invites && k < |w.invites[i].events| && w'.invites[i].events[k] == w.invites[i].events[k]
      ensures InLog(cfg, w'.log, w'.invites[i].name, w'.invites[i].events[k])
    {
      InLogGrows(cfg, w.log, w'.log, w.invites[i].name, w.invites[i].events[k]);
    }
  }

  lemma NewInviteLocal(name: string, server: string)
    ensures var inv := NewInvite(name, server);
            Local(inv) && Told(inv) && Finished(inv) && inv.server == server
  {
  }

  lemma CmdsKeepLocal(inv: Invite, cmds: seq<bool>)
    requires Local(inv)
    ensures Local(inv.(cmds := cmds)) && (Told(inv) ==> Told(inv.(cmds := cmds)))
  {
    var inv' := inv.(cmds := cmds);
    forall c | c in inv'.conns ensures ConnOk(inv', c, inv'.conns[c]) {
      ConnGrows(inv, inv', c, inv.conns[c]);
    }
    SlotFrame(inv, inv');
    hide ConnOk, Slot;
  }

  lemma GoneKeepsLocal(inv: Invite)
    requires Local(inv)
    ensures Local(inv.(loop := Gone)) && (Told(inv) ==> Told(inv.(loop := Gone)))
  {
    hide Local;
    assert inv.(loop := Gone) == inv.(loop := Gone, outcomes := inv.outcomes);
    OutcomesOk(inv);
    Retarget(inv, Gone, inv.outcomes);
  }

  lemma OutcomesOk(inv: Invite)
    requires Local(inv)
    ensures forall i :: 0 <= i < |inv.outcomes| ==> OutcomeOk(inv.events, inv.outcomes[i])
  {
  }

  // ---- Recording ----

  /** The new log entry is a successful recording. */
  lemma RecordIsLogged(cfg: Cfg, w: World, id: InviteId, c: ConnId, now: string, io: P.Io)
    requires Enabled(cfg, w, Record(id, c, now, io)) && RecordAction(cfg, w, id, c, now, io).RecordOk?
    ensures var w' := Step(cfg, w, Record(id, c, now, io));
            var e := RecordedPeer(c, w.invites[id].conns[c].node, |w.log|);
            && w.log <= w'.log && InLog(cfg, w'.log, w.invites[id].name, e)
            && id in w'.invites && w'.invites == w.invites[id := w'.invites[id]]
            && w'.invites[id].name == w.invites[id].name && w'.invites[id].events == w.invites[id].events + [e]
  {
    hide P.Perform;
    var w' := Step(cfg, w, Record(id, c, now, io));
    assert w'.log[..|w.log|] == w.log;
  }

  lemma AddRecording(cfg: Cfg, w: World, w': World, id: InviteId, e: Event)
    requires Recordings(cfg, w) && e.RecordedPeer? && e.at == |w.log| && w.log <= w'.log
    requires id in w.invites && id in w'.invites && InLog(cfg, w'.log, w.invites[id].name, e)
    requires w'.invites == w.invites[id := w'.invites[id]] && w'.invites[id].name == w.invites[id].name
    requires w'.invites[id].events == w.invites[id].events + [e]
    requires forall k :: 0 <= k < |w.invites[id].events| ==> !w.invites[id].events[k].RecordedPeer?
    ensures Recordings(cfg, w')
  {
    hide InLog;
    forall i, k | i in w.invites && 0 <= k < |w.invites[i].events| && w.invites[i].events[k].RecordedPeer?
      ensures InLog(cfg, w'.log, w.invites[i].name, w.invites[i].events[k]) && w.invites[i].events[k].at < e.at
    {
      InLogGrows(cfg, w.log, w'.log, w.invites[i].name, w.invites[i].events[k]);
      InLogBelow(cfg, w.log, w.invites[i].name, w.invites[i].events[k]);
    }
  }

  lemma RecordStep(cfg: Cfg, w: World, id: InviteId, c: ConnId, now: string, io: P.Io)
    requires Each(cfg, w) && Recordings(cfg, w) && Enabled(cfg, w, Record(id, c, now, io))
    requires RecordAction(cfg, w, id, c, now, io).RecordOk?
    ensures Recordings(cfg, Step(cfg, w, Record(id, c, now, io)))
  {
    hide Step, InLog, Recordings, Each, Slot, Conns, Records, Results, P.Perform, StoreNow;
    RecordIsLogged(cfg, w, id, c, now, io);
    OneOf(cfg, w, id);
    NotYetRecorded(w.invites[id]);
    AddRecording(cfg, w, Step(cfg, w, Record(id, c, now, io)), id, RecordedPeer(c, w.invites[id].conns[c].node, |w.log|));
  }

  lemma NotYetRecorded(inv: Invite)
    requires Records(inv) && !inv.shared.peerRecorded
    ensures forall k :: 0 <= k < |inv.events| ==> !inv.events[k].RecordedPeer?
  {
  }

  lemma InLogBelow(cfg: Cfg, log: seq<P.Action>, name: string, e: Event)
    requires e.RecordedPeer? && InLog(cfg, log, name, e)
    ensures e.at < |log|
  {
  }


  lemma StepKeepsEach(cfg: Cfg, w: World, a: Action)
    requires Each(cfg, w) && Enabled(cfg, w, a)
    ensures Each(cfg, Step(cfg, w, a))
  {
    hide Local, Told, Each, LoopStep, ConnStep, RecordAction, StoreNow, LoopEnabled, ConnEnabled, T.HasName, NewInvite;
    var w' := Step(cfg, w, a);
    if Handles(a) {
      hide Step, Enabled;
      HandlerStep(cfg, w, a);
      EachConn(cfg, w, w', a.id, a.c, HandlerAction(cfg, w, a));
      return;
    }
    match a
    case CreateInsert(call, id) =>
      NewInviteLocal(w.creating[call].name, cfg.server);
      EachAfter(cfg, w, w', id, w'.invites[id]);
    case DecideSend(call, _) =>
      var id := w.deciding[call].0;
      OneOf(cfg, w, id);
      CmdsKeepLocal(w.invites[id], w'.invites[id].cmds);
      EachAfter(cfg, w, w', id, w'.invites[id]);
    case OnLoop(id, la) =>
      OneOf(cfg, w, id);
      LoopKeeps(w.invites[id], la);
      LoopStepKeepsLocal(w.invites[id], la);
      LoopStepKeepsTold(w.invites[id], la);
      EachAfter(cfg, w, w', id, w'.invites[id]);
    case FinishRemove(id) =>
      OneOf(cfg, w, id);
      GoneKeepsLocal(w.invites[id]);
      EachAfter(cfg, w, w', id, w'.invites[id]);
    case _ => SameEach(cfg, w, w');
  }

  lemma OneOf(cfg: Cfg, w: World, id: InviteId)
    requires Each(cfg, w) && id in w.invites
    ensures Local(w.invites[id]) && Told(w.invites[id]) && Finished(w.invites[id]) && w.invites[id].server == cfg.server
  {
  }

  lemma SameEach(cfg: Cfg, w: World, w': World)
    requires Each(cfg, w) && w'.invites == w.invites
    ensures Each(cfg, w')
  {
  }

  lemma EachConn(cfg: Cfg, w: World, w': World, id: InviteId, c: ConnId, ca: ConnAction)
    requires Each(cfg, w) && id in w.invites && ConnEnabled(w.invites[id], c, ca)
    requires w'.invites == w.invites[id := ConnStep(w.invites[id], c, ca)]
    ensures Each(cfg, w')
  {
    hide Local, ConnStep, ConnEnabled;
    ConnKeeps(w.invites[id], c, ca);
    ConnStepKeepsLocal(w.invites[id], c, ca);
    LinkOk(w.invites[id], c, ca);
    ConnStepKeepsTold(w.invites[id], c, ca);
  }

  lemma LinkOk(inv: Invite, c: ConnId, ca: ConnAction)
    requires Local(inv) && ConnEnabled(inv, c, ca)
    ensures c in inv.conns && ConnOk(inv, c, inv.conns[c])
  {
  }

  lemma StepKeepsRecordings(cfg: Cfg, w: World, a: Action)
    requires Each(cfg, w) && Recordings(cfg, w) && Enabled(cfg, w, a)
    ensures Recordings(cfg, Step(cfg, w, a))
  {
    hide Each, LoopStep, ConnStep, RecordAction, StoreNow, LoopEnabled, ConnEnabled, Recordings, T.HasName;
    var w' := Step(cfg, w, a);
    if Handles(a) {
      hide Step, Enabled;
      HandlerStep(cfg, w, a);
      HandlerKeepsRecordings(cfg, w, a);
      return;
    }
    match a
    case OnLoop(id, la) =>
      LoopKeeps(w.invites[id], la);
      QuietRecordings(cfg, w, w', id, w'.invites[id]);
    case CreateInsert(call, id) => QuietRecordings(cfg, w, w', id, w'.invites[id]);
    case DecideSend(call, _) => QuietRecordings(cfg, w, w', w.deciding[call].0, w'.invites[w.deciding[call].0]);
    case FinishRemove(id) => QuietRecordings(cfg, w, w', id, w'.invites[id]);
    case _ => QuietLog(cfg, w, w');
  }

  lemma HandlerKeepsRecordings(cfg: Cfg, w: World, a: Action)
    requires Each(cfg, w) && Recordings(cfg, w) && Enabled(cfg, w, a) && Handles(a)
    ensures Recordings(cfg, Step(cfg, w, a))
  {
    hide Step, Each, ConnStep, ConnEnabled, Recordings, RecordAction, StoreNow;
    HandlerStep(cfg, w, a);
    ConnKeeps(w.invites[a.id], a.c, HandlerAction(cfg, w, a));
    if HandlerAction(cfg, w, a).RecordOk? {
      RecordStep(cfg, w, a.id, a.c, a.now, a.io);
    } else {
      hide Enabled, HandlerAction;
      QuietRecordings(cfg, w, Step(cfg, w, a), a.id, Step(cfg, w, a).invites[a.id]);
    }
  }

  // ---- Every successful recording belongs to an invite ----

  ghost predicate Grows(w: World, w': World) {
    && w.log <= w'.log
    && forall i :: i in w.invites ==> i in w'.invites && ConnsGrow(w.invites[i], w'.invites[i]) && w.invites[i].events <= w'.invites[i].events
                                      && (w.invites[i].loop.Gone? ==> w'.invites[i].loop.Gone?)
  }

  lemma OwnedGrows(w: World, w': World, p: nat, name: string, node: string)
    requires Owned(w, p, name, node) && Grows(w, w')
    ensures Owned(w', p, name, node)
  {
    var i, k :| i in w.invites && 0 <= k < |w.invites[i].events| && w.invites[i].name == name
                && w.invites[i].events[k].RecordedPeer? && w.invites[i].events[k].at == p && w.invites[i].events[k].node == node;
    assert w'.invites[i].events[k] == w.invites[i].events[k];
  }

  lemma RecordedBefore(cfg: Cfg, log: seq<P.Action>, more: seq<P.Action>, p: nat, name: string)
    requires log <= more && p < |log| && P.Recorded(cfg.codec, more, p, name)
    ensures P.Recorded(cfg.codec, log, p, name)
  {
    assert more[..p] == log[..p];
    assert more[p] == log[p];
  }

  /** At most one call is added, and if it is a successful recording then some
      invite logged it. */
  lemma AccountedAfter(cfg: Cfg, w: World, w': World)
    requires Accounted(cfg, w) && Grows(w, w') && |w'.log| <= |w.log| + 1
    requires forall name :: |w'.log| > |w.log| && P.Recorded(cfg.codec, w'.log, |w.log|, name) ==> Owned(w', |w.log|, name, w'.log[|w.log|].op.peer.nodeId)
    ensures Accounted(cfg, w')
  {
    hide Owned, P.Recorded;
    forall p: nat, name | p < |w'.log| && P.Recorded(cfg.codec, w'.log, p, name)
      ensures Owned(w', p, name, RecordedNode(cfg, w'.log, p, name))
    {
      if p < |w.log| {
        RecordedBefore(cfg, w.log, w'.log, p, name);
        OwnedGrows(w, w', p, name, RecordedNode(cfg, w'.log, p, name));
      }
    }
  }

  ghost function RecordedNode(cfg: Cfg, log: seq<P.Action>, p: nat, name: string): string
    requires p < |log| && P.Recorded(cfg.codec, log, p, name)
  {
    log[p].op.peer.nodeId
  }

  lemma GrowsOne(w: World, w': World, id: InviteId)
    requires id in w'.invites && w'.invites == w.invites[id := w'.invites[id]] && w.log <= w'.log
    requires id in w.invites ==> && ConnsGrow(w.invites[id], w'.invites[id]) && w.invites[id].events <= w'.invites[id].events
                                 && (w.invites[id].loop.Gone? ==> w'.invites[id].loop.Gone?)
    ensures Grows(w, w')
  {
  }

  /** History is never rewritten, and a finished invite stays finished. */
  lemma StepGrows(cfg: Cfg, w: World, a: Action)
    requires Enabled(cfg, w, a)
    ensures Grows(w, Step(cfg, w, a))
  {
    hide LoopStep, ConnStep, RecordAction, StoreNow, LoopEnabled, ConnEnabled, T.HasName;
    var w' := Step(cfg, w, a);
    if Handles(a) {
      hide Step, Enabled, Grows;
      HandlerStep(cfg, w, a);
      ConnKeeps(w.invites[a.id], a.c, HandlerAction(cfg, w, a));
      ConnConnsGrow(w.invites[a.id], a.c, HandlerAction(cfg, w, a));
      GrowsOne(w, w', a.id);
      return;
    }
    match a
    case OnLoop(id, la) =>
      LoopKeeps(w.invites[id], la);
      LoopConnsGrow(w.invites[id], la);
      hide ConnsGrow;
      GrowsOne(w, w', id);
    case CreateInsert(_, id) => GrowsOne(w, w', id);
    case DecideSend(call, _) => GrowsOne(w, w', w.deciding[call].0);
    case FinishRemove(id) => GrowsOne(w, w', id);
    case _ =>
  }

  /** A call that did not answer Ok, or is not `add_peer`, records nothing. */
  lemma LastNotRecorded(cfg: Cfg, log: seq<P.Action>, a: P.Action, name: string)
    requires P.Exec(cfg.codec, log).Up? && a.Call?
    requires a.op.AddPeer? ==> P.Perform(cfg.codec, P.Exec(cfg.codec, log), a.op, a.io).1 != T.Done
    ensures !P.Recorded(cfg.codec, log + [a], |log|, name)
  {
    hide P.Perform, P.Exec;
    assert (log + [a])[..|log|] == log;
  }

  lemma NotAddPeer(cfg: Cfg, log: seq<P.Action>, a: P.Action, name: string)
    requires !a.op.AddPeer?
    ensures !P.Recorded(cfg.codec, log + [a], |log|, name)
  {
  }

  /** What the recording step adds to the log, when it answers Ok and when not. */
  lemma RecordAccounted(cfg: Cfg, w: World, id: InviteId, c: ConnId, now: string, io: P.Io)
    requires Accounted(cfg, w) && Enabled(cfg, w, Record(id, c, now, io))
    ensures Accounted(cfg, Step(cfg, w, Record(id, c, now, io)))
  {
    hide ConnStep, ConnEnabled, P.Perform, P.Exec, Accounted, P.Recorded;
    var w' := Step(cfg, w, Record(id, c, now, io));
    StepGrows(cfg, w, Record(id, c, now, io));
    var call := P.Call(T.AddPeer(NewPeer(w.invites[id], c, now)), io);
    forall name | |w'.log| > |w.log| && P.Recorded(cfg.codec, w'.log, |w.log|, name)
      ensures Owned(w', |w.log|, name, RecordedNode(cfg, w'.log, |w.log|, name))
    {
      if RecordAction(cfg, w, id, c, now, io).RecordOk? {
        RecordIsLogged(cfg, w, id, c, now, io);
        SameName(cfg, w'.log, |w.log|, w.invites[id].name, name, w.invites[id].conns[c].node);
        var k := |w.invites[id].events|;
        assert w'.invites[id].events[k] == RecordedPeer(c, w.invites[id].conns[c].node, |w.log|);
      } else {
        LastNotRecorded(cfg, w.log, call, name);
      }
    }
    AccountedAfter(cfg, w, w');
  }

  /** A position of the log records one name and one node. */
  lemma SameName(cfg: Cfg, log: seq<P.Action>, p: nat, name: string, other: string, node: string)
    requires p < |log| && P.Recorded(cfg.codec, log, p, name) && P.Recorded(cfg.codec, log, p, other)
    requires log[p].op.peer.nodeId == node
    ensures other == name && RecordedNode(cfg, log, p, other) == node
  {
  }

  lemma StepKeepsAccounted(cfg: Cfg, w: World, a: Action)
    requires Accounted(cfg, w) && Enabled(cfg, w, a)
    ensures Accounted(cfg, Step(cfg, w, a))
  {
    hide Accounted, LoopStep, ConnStep, RecordAction, StoreNow, LoopEnabled, ConnEnabled, T.HasName, P.Recorded, Owned;
    var w' := Step(cfg, w, a);
    StepGrows(cfg, w, a);
    if a.Record? {
      RecordAccounted(cfg, w, a.id, a.c, a.now, a.io);
    } else {
      if a.Admin? {
        forall name ensures !P.Recorded(cfg.codec, w'.log, |w.log|, name) {
          NotAddPeer(cfg, w.log, P.Call(a.op, a.io), name);
        }
      }
      AccountedAfter(cfg, w, w');
    }
  }

  lemma QuietLog(cfg: Cfg, w: World, w': World)
    requires Recordings(cfg, w) && w.log <= w'.log && w'.invites == w.invites
    ensures Recordings(cfg, w')
  {
    forall i, k | i in w.invites && 0 <= k < |w.invites[i].events| && w.invites[i].events[k].RecordedPeer?
      ensures InLog(cfg, w'.log, w.invites[i].name, w.invites[i].events[k])
    {
      InLogGrows(cfg, w.log, w'.log, w.invites[i].name, w.invites[i].events[k]);
    }
    hide InLog;
  }

  lemma {:induction false} RunsKeepInv(cfg: Cfg, acts: seq<Action>)
    requires Exec(cfg, acts).Some?
    ensures Inv(cfg, Exec(cfg, acts).value)
  {
    hide Step, Enabled, Each, Recordings, Accounted, Manager, Capped;
    InitInv(cfg);
    if acts != [] {
      RunsKeepInv(cfg, acts[..|acts| - 1]);
      var w, a := Exec(cfg, acts[..|acts| - 1]).value, acts[|acts| - 1];
      StepKeepsEach(cfg, w, a);
      StepKeepsRecordings(cfg, w, a);
      StepKeepsAccounted(cfg, w, a);
      ManagerStep(cfg, w, a);
      CapStep(cfg, w, a);
    }
  }

  lemma InitInv(cfg: Cfg)
    ensures Inv(cfg, INIT)
  {
    assert PastCap(INIT) == {};
  }
}
