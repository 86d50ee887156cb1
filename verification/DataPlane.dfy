/** The data plane of the daemon: connections, their streams, the access check
    and the session registry, interleaved with admin calls
    (tmite-core/src/daemon/main_ep.rs). */
module DataPlane {
  import opened Prelude
  import opened PeerTables
  import opened Targets
  import opened Sessions

  const TYPE_FORWARD: byte := 1
  const TYPE_OK: byte := 2
  const TYPE_DENY: byte := 3
  const TYPE_VALIDATE: byte := 4
  const TYPE_SESSION: byte := 5

  datatype DenyReason = Unauthorized | TargetUnreachable(osError: string) | ServerError

  datatype DataFrame =
    | Forward(target: string)
    | Validate(target: string)
    | OkFrame
    | Deny(reason: DenyReason)
    | Hello(forwards: seq<Announced>)

  /** What the first frame of a stream asks for: the type byte and the decoded
      payload must agree. */
  datatype Request = Malformed | Ask(isForward: bool, target: string) | Announce(forwards: seq<Announced>)

  function Classify(msgType: byte, f: DataFrame): Request {
    match f
    case Forward(target) => if msgType == TYPE_FORWARD then Ask(true, target) else Malformed
    case Validate(target) => if msgType == TYPE_VALIDATE then Ask(false, target) else Malformed
    case Hello(forwards) => if msgType == TYPE_SESSION then Announce(forwards) else Malformed
    case _ => Malformed
  }

  /** The shape check, then the access check; `None` is allowed. */
  function Refusal(t: Tables, peer: string, target: string): Option<DenyReason> {
    if !ValidTarget(target) then Some(ServerError)
    else if !RuleAllows(t, peer, target) then Some(Unauthorized)
    else None
  }

  type ConnId = nat
  type StreamId = nat

  datatype ConnPc = Known | Serving | Ended | Over

  datatype Conn = Conn(peer: string, node: string, pc: ConnPc, forwards: seq<Announced>, live: Live)

  datatype Pc =
    | Reading
    | Checking(isForward: bool, target: string)
    | Replying(reply: DataFrame)
    | Allowed(target: string)
    | Dialing(target: string)
    | SendingOk(target: string)
    | Opening(target: string)
    | Relaying(target: string)
    | Finished

  datatype Event =
    | Received(msgType: byte, frame: DataFrame)
    | Checked(target: string, tables: Tables)
    | Dialed(target: string)

  /** `log` is the history of what the handler of this stream did. */
  datatype Stream = Stream(conn: ConnId, pc: Pc, log: seq<Event>)

  /** `registry` is `Sessions::inner`; `registered` is the history of
      registrations, oldest first. */
  datatype World = World(
    tables: Tables,
    conns: map<ConnId, Conn>,
    streams: map<StreamId, Stream>,
    registry: map<string, ConnId>,
    registered: seq<ConnId>)

  function Init(t: Tables): World {
    World(t, map[], map[], map[], [])
  }

  datatype Action =
    | Admin(op: Op)
    | Accept(c: ConnId, node: string, now: string)
    | Register(c: ConnId)
    | StreamOpened(s: StreamId, c: ConnId)
    | ReadFirst(s: StreamId, msgType: byte, frame: DataFrame)
    | Check(s: StreamId)
    | Reply(s: StreamId)
    | Dial(s: StreamId)
    | DialEnds(s: StreamId, ok: bool, osError: string)
    | SendOk(s: StreamId)
    | CountOpen(s: StreamId)
    | CountClose(s: StreamId)
    | GiveUp(s: StreamId)
    | ConnectionLost(c: ConnId)
    | Unregister(c: ConnId)

  predicate ConnAt(w: World, c: ConnId, pc: ConnPc) {
    c in w.conns && w.conns[c].pc == pc
  }

  predicate StreamAction(a: Action) {
    a.ReadFirst? || a.Check? || a.Reply? || a.Dial? || a.DialEnds? || a.SendOk? || a.CountOpen? || a.CountClose? || a.GiveUp?
  }

  /** Which steps of `handle_stream` are possible where. */
  predicate CanMove(pc: Pc, a: Action)
    requires StreamAction(a)
  {
    match a
    case ReadFirst(_, _, _) => pc.Reading?
    case Check(_) => pc.Checking?
    case Reply(_) => pc.Replying?
    case Dial(_) => pc.Allowed?
    case DialEnds(_, _, _) => pc.Dialing?
    case SendOk(_) => pc.SendingOk?
    case CountOpen(_) => pc.Opening?
    case CountClose(_) => pc.Relaying?
    case GiveUp(_) => pc.Reading? || pc.SendingOk?
  }

  predicate Enabled(w: World, a: Action) {
    match a
    case Admin(_) => true
    case Accept(c, node, _) => c !in w.conns && PeerByNode(w.tables, node).Some?
    case Register(c) => ConnAt(w, c, Known)
    case StreamOpened(s, c) => s !in w.streams && ConnAt(w, c, Serving)
    case ConnectionLost(c) => ConnAt(w, c, Serving)
    case Unregister(c) => ConnAt(w, c, Ended)
    case _ => a.s in w.streams && w.streams[a.s].conn in w.conns && CanMove(w.streams[a.s].pc, a)
  }

  function Move(st: Stream, pc: Pc, events: seq<Event> := []): Stream {
    st.(pc := pc, log := st.log + events)
  }

  function Key(w: World, c: ConnId): string
    requires c in w.conns
  {
    Lowercase(w.conns[c].node)
  }

  /** One step of `handle_stream` on its own stream and session entry. */
  function Handle(tables: Tables, st: Stream, conn: Conn, a: Action): (Stream, Conn)
    requires StreamAction(a) && CanMove(st.pc, a)
  {
    match a
    case ReadFirst(_, msgType, frame) =>
      var read := [Received(msgType, frame)];
      (match Classify(msgType, frame)
       case Malformed => (Move(st, Finished, read), conn)
       case Ask(isForward, target) => (Move(st, Checking(isForward, target), read), conn)
       case Announce(forwards) => (Move(st, Replying(OkFrame), read), conn.(forwards := forwards)))
    case Check(_) =>
      var target, refusal := st.pc.target, Refusal(tables, conn.peer, st.pc.target);
      var pc := if refusal.Some? then Replying(Deny(refusal.value))
                else if st.pc.isForward then Allowed(target)
                else Replying(OkFrame);
      (Move(st, pc, [Checked(target, tables)]), conn)
    case Reply(_) => (Move(st, Finished), conn)
    case Dial(_) => (Move(st, Dialing(st.pc.target), [Dialed(st.pc.target)]), conn)
    case DialEnds(_, ok, osError) =>
      (Move(st, if ok then SendingOk(st.pc.target) else Replying(Deny(TargetUnreachable(osError)))), conn)
    case SendOk(_) => (Move(st, Opening(st.pc.target)), conn)
    case CountOpen(_) => (Move(st, Relaying(st.pc.target)), conn.(live := OpenLive(conn.live, st.pc.target)))
    case CountClose(_) => (Move(st, Finished), conn.(live := CloseLive(conn.live, st.pc.target)))
    case GiveUp(_) => (Move(st, Finished), conn)
  }

  function Step(w: World, a: Action): World
    requires Enabled(w, a)
  {
    match a
    case Admin(op) => w.(tables := After(w.tables, op))
    case Accept(c, node, now) =>
      var peer := PeerByNode(w.tables, node).value;
      w.(tables := After(w.tables, TouchLastSeen(node, now)),
         conns := w.conns[c := Conn(peer.name, node, Known, [], map[])])
    case Register(c) =>
      w.(conns := w.conns[c := w.conns[c].(pc := Serving)],
         registry := Enter(w.registry, w.conns[c].node, c),
         registered := w.registered + [c])
    case StreamOpened(s, c) => w.(streams := w.streams[s := Stream(c, Reading, [])])
    case ConnectionLost(c) => w.(conns := w.conns[c := w.conns[c].(pc := Ended)])
    case Unregister(c) =>
      w.(conns := w.conns[c := w.conns[c].(pc := Over)], registry := Leave(w.registry, w.conns[c].node, c))
    case _ =>
      var (st, conn) := Handle(w.tables, w.streams[a.s], w.conns[w.streams[a.s].conn], a);
      w.(streams := w.streams[a.s := st], conns := w.conns[st.conn := conn])
  }

  function Exec(t: Tables, acts: seq<Action>): Option<World> {
    if acts == [] then Some(Init(t)) else
    var before := Exec(t, acts[..|acts| - 1]);
    if before.Some? && Enabled(before.value, acts[|acts| - 1]) then Some(Step(before.value, acts[|acts| - 1])) else None
  }

  /** VALIDATE answers Ok exactly when FORWARD would go on to dial in the same
      state, and otherwise both are denied for the same reason. */
  lemma ValidateForetellsForward(tables: Tables, v: Stream, f: Stream, conn: Conn, target: string, s: StreamId)
    requires v.pc == Checking(false, target) && f.pc == Checking(true, target)
    ensures var answer, verdict := Handle(tables, v, conn, Check(s)).0.pc, Handle(tables, f, conn, Check(s)).0.pc;
            && (answer == Replying(OkFrame) <==> verdict == Allowed(target))
            && (answer != Replying(OkFrame) ==> answer == verdict && answer.Replying? && answer.reply.Deny?)
  {
  }
}
