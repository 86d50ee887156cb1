/** Invites: the accept loop, the connection handlers, the admin's decisions
    and the shared peer table (tmite-core/src/daemon/invite.rs). Each mutex
    section and each frame read or written is one step. */
module Invites {
  import opened Prelude
  import opened PairFrames
  import T = PeerTables
  import P = PeerStore

  const MAX_PENDING_INVITES := 8

  type InviteId = nat
  type ConnId = nat
  type CallId = nat

  datatype Outcome = Paired(nodeId: string) | Rejected | Lapsed | Cancelled

  datatype InviteResult = WasPaired(nodeId: string) | WasRejected | WasExpired

  function ResultOf(o: Outcome): InviteResult {
    match o
    case Paired(n) => WasPaired(n)
    case Rejected => WasRejected
    case _ => WasExpired
  }

  // ---- The mutex-protected fields of `InviteShared` ----

  datatype Shared = Shared(decision: Option<bool>, pairBusy: bool, peerRecorded: bool, resultTx: bool)

  const NEW_SHARED := Shared(None, false, false, true)

  function Claim(s: Shared): (bool, Shared) {
    if s.pairBusy then (false, s) else (true, s.(pairBusy := true))
  }

  function Release(s: Shared): Shared {
    s.(pairBusy := false)
  }

  function SetTo(s: Shared, accept: bool): Shared {
    s.(decision := Some(accept))
  }

  /** The results that reach the caller of `create`, and the sender spent. */
  function Deliver(s: Shared, r: InviteResult): (seq<InviteResult>, Shared) {
    (if s.resultTx then [r] else [], s.(resultTx := false))
  }

  /** `waiting` are the handlers inside `notified()`, and `notified` those of
      them that `notify_waiters` has released. */
  class InviteShared {
    var decision: Option<bool>
    var pairBusy: bool
    var peerRecorded: bool
    var resultTx: bool
    var delivered: seq<InviteResult>
    var waiting: set<ConnId>
    var notified: set<ConnId>

    function Now(): Shared
      reads this
    {
      Shared(decision, pairBusy, peerRecorded, resultTx)
    }

    constructor ()
      ensures Now() == NEW_SHARED && delivered == [] && waiting == notified == {}
    {
      decision, pairBusy, peerRecorded, resultTx, delivered := None, false, false, true, [];
      waiting, notified := {}, {};
    }

    /** Exactly the handlers that wait at this moment are released. */
    method SetDecision(accept: bool)
      modifies this`decision, this`notified
      ensures Now() == SetTo(old(Now()), accept)
      ensures notified == old(notified) + waiting
    {
      decision := Some(accept);
      notified := notified + waiting;
    }

    method ClaimPairSlot() returns (ok: bool)
      modifies this`pairBusy
      ensures (ok, Now()) == Claim(old(Now()))
    {
      if pairBusy {
        return false;
      }
      pairBusy := true;
      return true;
    }

    method ReleasePairSlot()
      modifies this`pairBusy
      ensures Now() == Release(old(Now()))
    {
      pairBusy := false;
    }

    /** The sender is taken, so a second result is never delivered. */
    method Finish(result: InviteResult)
      modifies this`resultTx, this`delivered
      ensures var (got, s) := Deliver(old(Now()), result);
              Now() == s && delivered == old(delivered) + got
    {
      if resultTx {
        resultTx := false;
        delivered := delivered + [result];
      }
    }
  }

  // ---- One invite ----

  datatype LoopPc = Starting | Accepting | Stopping(o: Outcome) | Closing(o: Outcome) | Removing | Gone

  datatype Pc =
    | AcceptBi | ReadVersion | ReadHello | CheckName | SendWait
    | Waiting | Woken | Recording
    | Verdict(frame: PairingFrame, after: Option<Outcome>)
    | SendOutcome(o: Outcome)
    | Releasing
    | RefuseOpen | RefuseSend
    | Done

  /** `notified`: `notify_waiters` ran while this handler was waiting. `sent`
      are the frames written so far. */
  datatype Conn = Conn(node: string, refused: bool, pc: Pc, notified: bool, sent: seq<PairingFrame>)

  /** `at` is the position of the recording among all calls on the store. */
  datatype Event =
    | Decided(accept: bool)
    | RecordedPeer(conn: ConnId, node: string, at: nat)
    | Delivered(result: InviteResult)

  datatype Invite = Invite(
    name: string, server: string, loop: LoopPc, shared: Shared,
    cmds: seq<bool>, outcomes: seq<Outcome>, conns: map<ConnId, Conn>, events: seq<Event>)

  function NewInvite(name: string, server: string): Invite {
    Invite(name, server, Starting, NEW_SHARED, [], [], map[], [])
  }

  function Log(inv: Invite, e: Event): Invite {
    inv.(events := inv.events + [e])
  }

  /** `Notify::notify_waiters`. */
  function NotifyWaiters(inv: Invite): Invite {
    inv.(conns := map c | c in inv.conns ::
           if inv.conns[c].pc.Waiting? then inv.conns[c].(notified := true) else inv.conns[c])
  }

  function WaitingIn(inv: Invite): set<ConnId> {
    set c | c in inv.conns && inv.conns[c].pc.Waiting?
  }

  function NotifiedIn(inv: Invite): set<ConnId> {
    set c | c in inv.conns && inv.conns[c].notified
  }

  /** It releases exactly the handlers that wait, as `SetDecision` does. */
  lemma NotifyReleasesTheWaiting(inv: Invite)
    ensures NotifiedIn(NotifyWaiters(inv)) == NotifiedIn(inv) + WaitingIn(inv)
    ensures WaitingIn(NotifyWaiters(inv)) == WaitingIn(inv)
  {
  }

  datatype LoopAction =
    | EndpointUp | EndpointFails
    | TakeOutcome | TakeCmd | Deadline | EndpointClosed
    | Connect(c: ConnId, node: string)
    | Wind
    | FinishSend

  predicate LoopEnabled(inv: Invite, a: LoopAction) {
    match a
    case EndpointUp => inv.loop.Starting?
    case EndpointFails => inv.loop.Starting?
    case TakeOutcome => inv.loop.Accepting? && inv.outcomes != []
    case TakeCmd => inv.loop.Accepting? && inv.cmds != []
    case Deadline => inv.loop.Accepting?
    case EndpointClosed => inv.loop.Accepting?
    case Connect(c, _) => inv.loop.Accepting? && c !in inv.conns
    case Wind => inv.loop.Stopping?
    case FinishSend => inv.loop.Closing?
  }

  /** `run_invite_endpoint` and `invite_serve`. */
  function LoopStep(inv: Invite, a: LoopAction): Invite
    requires LoopEnabled(inv, a)
  {
    match a
    case EndpointUp => inv.(loop := Accepting)
    case EndpointFails => inv.(loop := Closing(Lapsed))
    case TakeOutcome => inv.(loop := Stopping(inv.outcomes[0]), outcomes := inv.outcomes[1..])
    case TakeCmd =>
      var accept := inv.cmds[0];
      var told := NotifyWaiters(inv.(cmds := inv.cmds[1..], shared := SetTo(inv.shared, accept)));
      Log(if accept then told else told.(loop := Stopping(Rejected)), Decided(accept))
    case Deadline => inv.(loop := Stopping(Lapsed))
    case EndpointClosed => inv.(loop := Stopping(Cancelled))
    case Connect(c, node) =>
      var (claimed, shared) := Claim(inv.shared);
      inv.(shared := shared,
           conns := inv.conns[c := Conn(node, !claimed, if claimed then AcceptBi else RefuseOpen, false, [])])
    case Wind =>
      var o := inv.loop.o;
      (if o.Rejected? || o.Lapsed? then NotifyWaiters(inv) else inv).(loop := Closing(o))
    case FinishSend =>
      var r := ResultOf(inv.loop.o);
      var (got, shared) := Deliver(inv.shared, r);
      inv.(loop := Removing, shared := shared, events := inv.events + if got != [] then [Delivered(got[0])] else [])
  }

  datatype ConnAction =
    | Opened
    | Fail
    | GotFrame(msgType: byte, frame: PairingFrame)
    | NameChecked(free: bool)
    | WaitSent
    | Wake
    | ReadDecision
    | PromptTimeout
    | RecordOk(at: nat)
    | RecordRefused
    | AlreadyRecorded
    | VerdictDone(written: bool)
    | OutcomeSent
    | Released

  predicate ConnEnabled(inv: Invite, c: ConnId, a: ConnAction) {
    c in inv.conns &&
    var conn := inv.conns[c];
    match a
    case Opened => conn.pc.AcceptBi? || conn.pc.RefuseOpen?
    case Fail => conn.pc.AcceptBi? || conn.pc.ReadVersion? || conn.pc.ReadHello? || conn.pc.SendWait? || conn.pc.Waiting? || conn.pc.RefuseOpen?
    case GotFrame(_, _) => conn.pc.ReadVersion? || conn.pc.ReadHello?
    case NameChecked(_) => conn.pc.CheckName?
    case WaitSent => conn.pc.SendWait?
    case Wake => conn.pc.Waiting? && conn.notified
    case ReadDecision => conn.pc.Woken?
    case PromptTimeout => conn.pc.Waiting?
    case RecordOk(_) => conn.pc.Recording? && !inv.shared.peerRecorded
    case RecordRefused => conn.pc.Recording? && !inv.shared.peerRecorded
    case AlreadyRecorded => conn.pc.Recording? && inv.shared.peerRecorded
    case VerdictDone(_) => conn.pc.Verdict? || conn.pc.RefuseSend?
    case OutcomeSent => conn.pc.SendOutcome?
    case Released => conn.pc.Releasing?
  }

  function Put(inv: Invite, c: ConnId, conn: Conn): Invite {
    inv.(conns := inv.conns[c := conn])
  }

  function Accepted(conn: Conn, msgType: byte, frame: PairingFrame): bool {
    if conn.pc.ReadVersion? then msgType == TYPE_VERSION && frame == Version(CODE_VERSION)
    else msgType == TYPE_PAIR_HELLO && frame.PairHello?
  }

  /** `handle_pair_conn` and `refuse_pair_busy`. A terminal frame may fail to
      be written; the handler goes on either way. */
  function ConnStep(inv: Invite, c: ConnId, a: ConnAction): Invite
    requires ConnEnabled(inv, c, a)
  {
    var conn := inv.conns[c];
    match a
    case Opened => Put(inv, c, conn.(pc := if conn.pc.AcceptBi? then ReadVersion else RefuseSend))
    case Fail => Put(inv, c, conn.(pc := if conn.refused then Done else Releasing))
    case GotFrame(t, f) =>
      Put(inv, c, conn.(pc := if !Accepted(conn, t, f) then Releasing else if conn.pc.ReadVersion? then ReadHello else CheckName))
    case NameChecked(free) => Put(inv, c, conn.(pc := if free then SendWait else Verdict(PairDeny(NameTaken), None)))
    case WaitSent => Put(inv, c, conn.(pc := Waiting, sent := conn.sent + [PairWait]))
    case Wake => Put(inv, c, conn.(pc := Woken, notified := false))
    case ReadDecision =>
      Put(inv, c, conn.(pc :=
        match inv.shared.decision
        case None => Waiting
        case Some(true) => Recording
        case Some(false) => Verdict(PairDeny(AdminDenied), None)))
    case PromptTimeout => Put(inv, c, conn.(pc := Verdict(PairDeny(Expired), None)))
    case RecordOk(at) =>
      Log(Put(inv, c, conn.(pc := Verdict(PairConfirm(inv.server, inv.name), Some(Paired(conn.node)))))
          .(shared := inv.shared.(peerRecorded := true)),
          RecordedPeer(c, conn.node, at))
    case RecordRefused => Put(inv, c, conn.(pc := Verdict(PairDeny(ServerError), Some(Rejected))))
    case AlreadyRecorded => Put(inv, c, conn.(pc := Verdict(PairDeny(Busy), None)))
    case VerdictDone(written) =>
      var frame := if conn.pc.Verdict? then conn.pc.frame else PairDeny(Busy);
      var next := if conn.pc.RefuseSend? then Done
                  else if conn.pc.after.Some? then SendOutcome(conn.pc.after.value)
                  else Releasing;
      Put(inv, c, conn.(pc := next, sent := if written then conn.sent + [frame] else conn.sent))
    case OutcomeSent => Put(inv, c, conn.(pc := Releasing)).(outcomes := inv.outcomes + [conn.pc.o])
    case Released => Put(inv, c, conn.(pc := Done)).(shared := Release(inv.shared))
  }

  // ---- All invites over one store ----

  datatype CreatePc = CheckingName(name: string) | CheckingCap(name: string) | Inserting(name: string)

  /** `TooLate`: the receiver is gone, `DecideError::Expired`. */
  datatype DecideReply = Sent | TooLate | NotFound

  /** `log` is the history of calls on the store; `entries` is the manager's
      map of pending invites, while `invites` keeps finished ones too. */
  datatype World = World(
    log: seq<P.Action>, invites: map<InviteId, Invite>, entries: set<InviteId>,
    creating: map<CallId, CreatePc>, deciding: map<CallId, (InviteId, bool)>, replies: seq<(InviteId, DecideReply)>)

  const INIT := World([], map[], {}, map[], map[], [])

  /** What does not change: the codec of the state file, the daemon's own node
      id, and how many `create` calls may run at the same time. */
  datatype Cfg = Cfg(codec: P.Codec, server: string, maxCreates: nat)

  datatype Action =
    | Admin(op: T.Op, io: P.Io)
    | CallCreate(call: CallId, name: string)
    | CreateCheckName(call: CallId)
    | CreateCheckCap(call: CallId)
    | CreateInsert(call: CallId, id: InviteId)
    | DecideLookup(call: CallId, id: InviteId, accept: bool)
    | DecideSend(call: CallId, dropped: bool)
    | OnLoop(id: InviteId, la: LoopAction)
    | FinishRemove(id: InviteId)
    | OnConn(id: InviteId, c: ConnId, ca: ConnAction)
    | CheckNameFree(id: InviteId, c: ConnId)
    | Record(id: InviteId, c: ConnId, now: string, io: P.Io)

  function StoreNow(cfg: Cfg, w: World): P.Store {
    P.Exec(cfg.codec, w.log)
  }

  function NewPeer(inv: Invite, c: ConnId, now: string): T.Peer
    requires c in inv.conns
  {
    T.Peer(inv.name, inv.conns[c].node, now, now)
  }

  /** Steps that depend on the store are their own actions. */
  predicate StoreAction(ca: ConnAction) {
    ca.NameChecked? || ca.RecordOk? || ca.RecordRefused? || ca.AlreadyRecorded?
  }

  predicate Enabled(cfg: Cfg, w: World, a: Action) {
    match a
    case Admin(op, _) => !op.AddPeer?
    case CallCreate(call, _) => call !in w.creating && |w.creating| < cfg.maxCreates
    case CreateCheckName(call) => call in w.creating && w.creating[call].CheckingName? && StoreNow(cfg, w).Up?
    case CreateCheckCap(call) => call in w.creating && w.creating[call].CheckingCap?
    case CreateInsert(call, id) => call in w.creating && w.creating[call].Inserting? && id !in w.invites
    case DecideLookup(call, _, _) => call !in w.deciding
    case DecideSend(call, dropped) => call in w.deciding && w.deciding[call].0 in w.invites && (dropped ==> w.invites[w.deciding[call].0].loop.Gone?)
    case OnLoop(id, la) => id in w.invites && LoopEnabled(w.invites[id], la)
    case FinishRemove(id) => id in w.invites && w.invites[id].loop.Removing?
    case OnConn(id, c, ca) => id in w.invites && !StoreAction(ca) && ConnEnabled(w.invites[id], c, ca)
    case CheckNameFree(id, c) => id in w.invites && c in w.invites[id].conns && w.invites[id].conns[c].pc.CheckName? && StoreNow(cfg, w).Up?
    case Record(id, c, _, _) => id in w.invites && c in w.invites[id].conns && w.invites[id].conns[c].pc.Recording? && StoreNow(cfg, w).Up?
  }

  /** How the recording step ends for the handler. */
  function RecordAction(cfg: Cfg, w: World, id: InviteId, c: ConnId, now: string, io: P.Io): ConnAction
    requires Enabled(cfg, w, Record(id, c, now, io))
  {
    if w.invites[id].shared.peerRecorded then AlreadyRecorded
    else if P.Perform(cfg.codec, StoreNow(cfg, w), T.AddPeer(NewPeer(w.invites[id], c, now)), io).1 == T.Done then RecordOk(|w.log|)
    else RecordRefused
  }

  function Step(cfg: Cfg, w: World, a: Action): World
    requires Enabled(cfg, w, a)
  {
    match a
    case Admin(op, io) => w.(log := w.log + [P.Call(op, io)])
    case CallCreate(call, name) => w.(creating := w.creating[call := CheckingName(name)])
    case CreateCheckName(call) =>
      var name := w.creating[call].name;
      w.(creating := if T.HasName(StoreNow(cfg, w).mem, name) then w.creating - {call} else w.creating[call := CheckingCap(name)])
    case CreateCheckCap(call) =>
      var name := w.creating[call].name;
      w.(creating := if |w.entries| >= MAX_PENDING_INVITES then w.creating - {call} else w.creating[call := Inserting(name)])
    case CreateInsert(call, id) =>
      w.(creating := w.creating - {call}, entries := w.entries + {id},
         invites := w.invites[id := NewInvite(w.creating[call].name, cfg.server)])
    case DecideLookup(call, id, accept) =>
      if id in w.entries then w.(deciding := w.deciding[call := (id, accept)])
      else w.(replies := w.replies + [(id, NotFound)])
    case DecideSend(call, dropped) =>
      var (id, accept) := w.deciding[call];
      if dropped then w.(deciding := w.deciding - {call}, replies := w.replies + [(id, TooLate)])
      else w.(deciding := w.deciding - {call}, replies := w.replies + [(id, Sent)],
              invites := w.invites[id := w.invites[id].(cmds := w.invites[id].cmds + [accept])])
    case OnLoop(id, la) => w.(invites := w.invites[id := LoopStep(w.invites[id], la)])
    case FinishRemove(id) => w.(invites := w.invites[id := w.invites[id].(loop := Gone)], entries := w.entries - {id})
    case OnConn(id, c, ca) => w.(invites := w.invites[id := ConnStep(w.invites[id], c, ca)])
    case CheckNameFree(id, c) =>
      var free := !T.HasName(StoreNow(cfg, w).mem, w.invites[id].name);
      w.(invites := w.invites[id := ConnStep(w.invites[id], c, NameChecked(free))])
    case Record(id, c, now, io) =>
      var ca := RecordAction(cfg, w, id, c, now, io);
      w.(invites := w.invites[id := ConnStep(w.invites[id], c, ca)],
         log := if ca.AlreadyRecorded? then w.log else w.log + [P.Call(T.AddPeer(NewPeer(w.invites[id], c, now)), io)])
  }

  function Exec(cfg: Cfg, acts: seq<Action>): Option<World> {
    if acts == [] then Some(INIT) else
    var before := Exec(cfg, acts[..|acts| - 1]);
    if before.Some? && Enabled(cfg, before.value, acts[|acts| - 1]) then Some(Step(cfg, before.value, acts[|acts| - 1])) else None
  }
}
