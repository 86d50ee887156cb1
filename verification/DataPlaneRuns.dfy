/** What every run of the data plane keeps. */
module DataPlaneRuns {
  import opened Prelude
  import opened PeerTables
  import opened Targets
  import opened Sessions
  import opened DataPlane

  // ---- Dials ----

  /** The handler asked for `target`, then the tables of that moment, whatever
      the admin did to them before or after, granted it to the peer. */
  ghost predicate Granted(log: seq<Event>, peer: string, target: string) {
    && |log| >= 2
    && log[0] == Received(TYPE_FORWARD, Forward(target))
    && log[1].Checked? && log[1].target == target
    && ValidTarget(target) && RuleAllows(log[1].tables, peer, target)
  }

  /** At most one read, one check and one dial, in that order. */
  ghost predicate LogShape(log: seq<Event>, peer: string) {
    && |log| <= 3
    && (|log| >= 1 ==> log[0].Received?)
    && (|log| >= 2 ==> log[1].Checked?)
    && (|log| == 3 ==> log[2].Dialed? && Granted(log, peer, log[2].target))
  }

  /** Why a stream is answered as it is: a SESSION is acknowledged; a malformed
      target is a server error; one without a rule at the check is unauthorized;
      a VALIDATE with one is acknowledged; and a FORWARD with one is denied only
      after its dial failed. */
  ghost predicate ReplyOk(log: seq<Event>, peer: string, reply: DataFrame) {
    && 1 <= |log| <= 3 && log[0].Received?
    && if |log| == 1 then log[0].msgType == TYPE_SESSION && log[0].frame.Hello? && reply == OkFrame
       else if |log| == 2 then
         && log[1].Checked?
         && var target := log[1].target;
         var forward, validate := log[0] == Received(TYPE_FORWARD, Forward(target)), log[0] == Received(TYPE_VALIDATE, Validate(target));
         var shaped, allowed := ValidTarget(target), RuleAllows(log[1].tables, peer, target);
         && (forward || validate)
         && (reply == Deny(ServerError) <==> !shaped)
         && (reply == Deny(Unauthorized) <==> shaped && !allowed)
         && (reply == OkFrame <==> shaped && allowed)
         && (shaped && allowed ==> validate)
       else reply.Deny? && reply.reason.TargetUnreachable?
  }

  ghost predicate StreamOk(st: Stream, peer: string) {
    && LogShape(st.log, peer)
    && match st.pc
       case Reading => st.log == []
       case Checking(isForward, target) =>
         |st.log| == 1 && Classify(st.log[0].msgType, st.log[0].frame) == Ask(isForward, target)
       case Allowed(target) => |st.log| == 2 && Granted(st.log, peer, target)
       case Replying(reply) => ReplyOk(st.log, peer, reply)
       case Finished => true
       case _ => |st.log| == 3 && st.log[2].target == st.pc.target
  }

  lemma HandleKeepsStreamOk(tables: Tables, st: Stream, conn: Conn, a: Action)
    requires StreamAction(a) && CanMove(st.pc, a) && StreamOk(st, conn.peer)
    ensures var (st', conn') := Handle(tables, st, conn, a);
            && StreamOk(st', conn.peer) && st'.conn == st.conn && st.log <= st'.log
            && conn'.peer == conn.peer && conn'.node == conn.node && conn'.pc == conn.pc
  {
    hide ValidTarget, RuleAllows, OpenLive, CloseLive;
  }

  ghost predicate StreamsOk(w: World) {
    forall s :: s in w.streams ==> w.streams[s].conn in w.conns && StreamOk(w.streams[s], w.conns[w.streams[s].conn].peer)
  }

  lemma StepKeepsStreamsOk(w: World, a: Action)
    requires StreamsOk(w) && Enabled(w, a)
    ensures StreamsOk(Step(w, a))
  {
    hide Handle, StreamOk, After, PeerByNode, NodeIndex, Lowercase, CanMove;
    if StreamAction(a) {
      HandleKeepsStreamOk(w.tables, w.streams[a.s], w.conns[w.streams[a.s].conn], a);
    } else if a.StreamOpened? {
      NewStreamOk(a.c, w.conns[a.c].peer);
    }
  }

  lemma NewStreamOk(c: ConnId, peer: string)
    ensures StreamOk(Stream(c, Reading, []), peer)
  {
  }

  lemma {:induction false} RunsKeepStreamsOk(t: Tables, acts: seq<Action>)
    requires Exec(t, acts).Some?
    ensures StreamsOk(Exec(t, acts).value)
  {
    hide Step, Enabled, StreamOk;
    if acts != [] {
      RunsKeepStreamsOk(t, acts[..|acts| - 1]);
      StepKeepsStreamsOk(Exec(t, acts[..|acts| - 1]).value, acts[|acts| - 1]);
    }
  }

  /** Over all runs, a stream dials at most once; and if it dials, its only
      frame was a FORWARD of the matching type for that target, the target is
      well shaped, and the tables at the check step granted it to the
      connection's peer. So VALIDATE and SESSION streams never dial. */
  lemma DialsAreAuthorized(t: Tables, acts: seq<Action>, s: StreamId, k: nat)
    requires Exec(t, acts).Some? && s in Exec(t, acts).value.streams
    requires k < |Exec(t, acts).value.streams[s].log| && Exec(t, acts).value.streams[s].log[k].Dialed?
    ensures var w := Exec(t, acts).value;
            var st := w.streams[s];
            && st.conn in w.conns && k == 2 && |st.log| == 3
            && Granted(st.log, w.conns[st.conn].peer, st.log[k].target)
  {
    hide Exec, ValidTarget, RuleAllows;
    RunsKeepStreamsOk(t, acts);
  }

  /** Over all runs, every answer of a handler is the right one for what was
      asked and for the tables of the check. */
  lemma RepliesAreRight(t: Tables, acts: seq<Action>, s: StreamId)
    requires Exec(t, acts).Some? && s in Exec(t, acts).value.streams && Exec(t, acts).value.streams[s].pc.Replying?
    ensures var w := Exec(t, acts).value;
            var st := w.streams[s];
            st.conn in w.conns && ReplyOk(st.log, w.conns[st.conn].peer, st.pc.reply)
  {
    hide Exec, ReplyOk;
    RunsKeepStreamsOk(t, acts);
  }

  /** The first frame decides: a stream is closed without an answer if and only
      if it is none of FORWARD, VALIDATE and SESSION with its own type byte, it
      goes on to the check of exactly the target it names, and a SESSION is
      acknowledged. */
  lemma FirstFrameDecides(w: World, s: StreamId, t: byte, f: DataFrame)
    requires Enabled(w, ReadFirst(s, t, f))
    ensures var pc := Step(w, ReadFirst(s, t, f)).streams[s].pc;
            && (forall target :: pc == Checking(true, target) <==> t == 1 && f == Forward(target))
            && (forall target :: pc == Checking(false, target) <==> t == 4 && f == Validate(target))
            && (pc == Replying(OkFrame) <==> t == 5 && f.Hello?)
            && (pc == Finished <==> !(t == 1 && f.Forward?) && !(t == 4 && f.Validate?) && !(t == 5 && f.Hello?))
  {
  }

  /** A FORWARD whose target is well shaped and allowed at the check goes on to
      dial that target, and the dial's outcome decides the answer. */
  lemma AllowedForwardDials(t: Tables, acts: seq<Action>, s: StreamId, ok: bool, osError: string)
    requires Exec(t, acts).Some? && Enabled(Exec(t, acts).value, Check(s))
    ensures var w := Exec(t, acts).value;
            var st, peer := w.streams[s], w.conns[w.streams[s].conn].peer;
            var checked := Step(w, Check(s));
            (st.pc.isForward && ValidTarget(st.pc.target) && RuleAllows(w.tables, peer, st.pc.target)) <==>
            && Enabled(checked, Dial(s))
            && Enabled(Step(checked, Dial(s)), DialEnds(s, ok, osError))
            && var dialed := Step(checked, Dial(s));
            && dialed.streams[s].log == checked.streams[s].log + [Dialed(st.pc.target)]
            && Step(dialed, DialEnds(s, ok, osError)).streams[s].pc ==
                 if ok then SendingOk(st.pc.target) else Replying(Deny(TargetUnreachable(osError)))
  {
    hide Exec, ValidTarget, RuleAllows;
  }

  /** An accept stamps the peer that the connection is named after. */
  lemma AcceptStampsThePeer(w: World, c: ConnId, node: string, now: string)
    requires Enabled(w, Accept(c, node, now))
    ensures var w' := Step(w, Accept(c, node, now));
            && PeerByNode(w.tables, node).Some?
            && PeerByNode(w'.tables, node) == Some(PeerByNode(w.tables, node).value.(lastSeen := now))
            && w'.conns[c].peer == PeerByNode(w.tables, node).value.name && w'.conns[c].node == node
  {
    var t, t' := w.tables, Step(w, Accept(c, node, now)).tables;
    var i := NodeIndex(t, node);
    assert forall k :: 0 <= k < |t.peers| ==> t'.peers[k].nodeId == t.peers[k].nodeId;
    hide SameNode;
    assert NodeIndex(t', node) == i;
  }

  // ---- What a session announced ----

  /** The forwards of the last SESSION frame read on a stream of `c`. */
  function LastHello(t: Tables, acts: seq<Action>, c: ConnId): seq<Announced> {
    if acts == [] then [] else
    var front, a := acts[..|acts| - 1], acts[|acts| - 1];
    var w := Exec(t, front);
    if w.Some? && a.ReadFirst? && a.msgType == TYPE_SESSION && a.frame.Hello? && a.s in w.value.streams && w.value.streams[a.s].conn == c
    then a.frame.forwards
    else if a.Accept? && a.c == c then []
    else LastHello(t, front, c)
  }

  lemma HandleForwards(tables: Tables, st: Stream, conn: Conn, a: Action)
    requires StreamAction(a) && CanMove(st.pc, a)
    ensures Handle(tables, st, conn, a).0.conn == st.conn
    ensures Handle(tables, st, conn, a).1.forwards ==
            if a.ReadFirst? && a.msgType == TYPE_SESSION && a.frame.Hello? then a.frame.forwards else conn.forwards
  {
    hide Refusal, OpenLive, CloseLive;
  }

  /** Over all runs, a connection's session shows what it announced last. */
  lemma {:induction false} ForwardsAreThoseAnnounced(t: Tables, acts: seq<Action>, c: ConnId)
    requires Exec(t, acts).Some? && c in Exec(t, acts).value.conns
    ensures Exec(t, acts).value.conns[c].forwards == LastHello(t, acts, c)
  {
    hide Handle, CanMove, After, PeerByNode, Enter, Leave;
    if acts != [] {
      var front, a := acts[..|acts| - 1], acts[|acts| - 1];
      var w := Exec(t, front).value;
      if c in w.conns { ForwardsAreThoseAnnounced(t, front, c); }
      if StreamAction(a) {
        HandleForwards(w.tables, w.streams[a.s], w.conns[w.streams[a.s].conn], a);
      }
    }
  }

  // ---- Whose connection it is ----

  ghost predicate KnownAs(t: Tables, node: string, name: string) {
    exists i :: 0 <= i < |t.peers| && SameNode(t.peers[i].nodeId, node) && t.peers[i].name == name
  }

  /** A step other than the accept keeps the node id and name of a connection. */
  lemma StepKeepsPeer(w: World, a: Action, c: ConnId)
    requires Enabled(w, a) && c in Step(w, a).conns && !(a.Accept? && a.c == c)
    ensures c in w.conns && Step(w, a).conns[c].peer == w.conns[c].peer && Step(w, a).conns[c].node == w.conns[c].node
  {
    hide Handle, After, PeerByNode, NodeIndex, Lowercase, CanMove;
    if StreamAction(a) {
      HandleKeepsConn(w.tables, w.streams[a.s], w.conns[w.streams[a.s].conn], a);
    }
  }

  /** The name that the access checks of a connection use is one under which
      its authenticated node id was recorded when it was accepted. */
  lemma {:induction false} ConnectionsAreOfKnownPeers(t: Tables, acts: seq<Action>, c: ConnId) returns (n: nat)
    requires Exec(t, acts).Some? && c in Exec(t, acts).value.conns
    ensures var conn := Exec(t, acts).value.conns[c];
            && n < |acts| && acts[n].Accept? && acts[n].c == c && acts[n].node == conn.node
            && Exec(t, acts[..n]).Some? && KnownAs(Exec(t, acts[..n]).value.tables, conn.node, conn.peer)
  {
    hide SameNode;
    var front, a := acts[..|acts| - 1], acts[|acts| - 1];
    if a.Accept? && a.c == c {
      n := |acts| - 1;
    } else {
      hide Step, Enabled, KnownAs;
      StepKeepsPeer(Exec(t, front).value, a, c);
      n := ConnectionsAreOfKnownPeers(t, front, c);
      assert front[..n] == acts[..n];
    }
  }

  predicate Removes(t: Tables, a: Action, name: string) {
    a.Admin? && a.op.RemovePeer? && a.op.name == name && Apply(t, a.op).Write?
  }

  predicate Records(t: Tables, a: Action, name: string) {
    a.Admin? && a.op.AddPeer? && a.op.peer.name == name && Apply(t, a.op).Write?
  }

  /** From step `n` on, the last effective removal of the name, if there was
      one, was not followed by a recording of this node under it. */
  predicate Lost(t: Tables, acts: seq<Action>, n: nat, node: string, name: string) {
    n < |acts| &&
    (var front, a := acts[..|acts| - 1], acts[|acts| - 1];
     if Exec(t, front).Some? && Removes(Exec(t, front).value.tables, a, name) then true
     else if Exec(t, front).Some? && Records(Exec(t, front).value.tables, a, name) then !SameNode(a.op.peer.nodeId, node)
     else Lost(t, front, n, node, name))
  }

  lemma KnownAfterRemoval(t: Tables, op: Op, node: string, name: string)
    requires op.RemovePeer? && Apply(t, op).Write?
    ensures KnownAs(After(t, op), node, name) <==> op.name != name && KnownAs(t, node, name)
  {
    hide SameNode;
    var t' := After(t, op);
    if i :| 0 <= i < |t'.peers| && SameNode(t'.peers[i].nodeId, node) && t'.peers[i].name == name {
      assert t'.peers[i] in t.peers;
    }
    if i :| 0 <= i < |t.peers| && SameNode(t.peers[i].nodeId, node) && t.peers[i].name == name && name != op.name {
      assert t.peers[i] in t'.peers;
    }
  }

  lemma KnownAfterCall(t: Tables, op: Op, node: string, name: string)
    requires !(op.RemovePeer? && Apply(t, op).Write?)
    ensures op.AddPeer? && op.peer.name == name && Apply(t, op).Write? ==>
              (KnownAs(After(t, op), node, name) <==> SameNode(op.peer.nodeId, node))
    ensures !(op.AddPeer? && op.peer.name == name && Apply(t, op).Write?) ==>
              (KnownAs(After(t, op), node, name) <==> KnownAs(t, node, name))
  {
    hide SameNode, DropRule, RuleIndex;
    var t' := After(t, op);
    assert forall i :: 0 <= i < |t.peers| ==> t'.peers[i].name == t.peers[i].name && t'.peers[i].nodeId == t.peers[i].nodeId;
    if op.AddPeer? && Apply(t, op).Write? {
      assert t'.peers[|t.peers|] == op.peer;
    }
  }

  lemma KnownAfterStep(w: World, a: Action, node: string, name: string)
    requires Enabled(w, a)
    ensures KnownAs(Step(w, a).tables, node, name) <==>
            if Removes(w.tables, a, name) then false
            else if Records(w.tables, a, name) then SameNode(a.op.peer.nodeId, node)
            else KnownAs(w.tables, node, name)
  {
    hide KnownAs, SameNode, Apply, Handle, CanMove, PeerByNode;
    if a.Admin? {
      if a.op.RemovePeer? && Apply(w.tables, a.op).Write? {
        KnownAfterRemoval(w.tables, a.op, node, name);
      } else {
        KnownAfterCall(w.tables, a.op, node, name);
      }
    } else if a.Accept? {
      KnownAfterCall(w.tables, TouchLastSeen(a.node, a.now), node, name);
    }
  }

  lemma {:induction false} KnownSince(t: Tables, acts: seq<Action>, n: nat, node: string, name: string)
    requires n <= |acts| && Exec(t, acts).Some? && Exec(t, acts[..n]).Some? && KnownAs(Exec(t, acts[..n]).value.tables, node, name)
    ensures KnownAs(Exec(t, acts).value.tables, node, name) <==> !Lost(t, acts, n, node, name)
  {
    hide KnownAs, SameNode, Step, Enabled, Removes, Records;
    if n == |acts| {
      assert acts[..n] == acts;
    } else {
      var front := acts[..|acts| - 1];
      assert front[..n] == acts[..n];
      KnownSince(t, front, n, node, name);
      KnownAfterStep(Exec(t, front).value, acts[|acts| - 1], node, name);
    }
  }

  /** At any moment, and so when a stream is checked: the node of an open
      connection is still recorded under the name its checks use if and only if
      since its accept no removal of that name was left without a recording of
      that node under it. */
  lemma StillKnownIffNotLost(t: Tables, acts: seq<Action>, c: ConnId) returns (n: nat)
    requires Exec(t, acts).Some? && c in Exec(t, acts).value.conns
    ensures var w := Exec(t, acts).value;
            var conn := w.conns[c];
            && n < |acts| && acts[n].Accept? && acts[n].c == c && acts[n].node == conn.node
            && (KnownAs(w.tables, conn.node, conn.peer) <==> !Lost(t, acts, n, conn.node, conn.peer))
  {
    hide Exec, Lost, KnownAs;
    n := ConnectionsAreOfKnownPeers(t, acts, c);
    KnownSince(t, acts, n, Exec(t, acts).value.conns[c].node, Exec(t, acts).value.conns[c].peer);
  }

  // ---- At the moment of the check ----

  /** The stream and its connection, with the name and node id it had. */
  ghost predicate SameStream(w: World, w': World, s: StreamId)
    requires s in w'.streams
  {
    && s in w.streams && w'.streams[s].conn == w.streams[s].conn
    && w.streams[s].conn in w.conns && w.streams[s].conn in w'.conns
    && w'.conns[w.streams[s].conn].peer == w.conns[w.streams[s].conn].peer
    && w'.conns[w.streams[s].conn].node == w.conns[w.streams[s].conn].node
  }

  /** A step on a stream with at least two entries in its log is its check, or
      the two entries were there before. */
  lemma CheckedBefore(w: World, a: Action, s: StreamId)
    requires StreamsOk(w) && Enabled(w, a) && s in Step(w, a).streams && |Step(w, a).streams[s].log| >= 2
    ensures SameStream(w, Step(w, a), s)
    ensures if a == Check(s) then Step(w, a).streams[s].log[1] == Checked(w.streams[s].pc.target, w.tables)
            else |w.streams[s].log| >= 2 && Step(w, a).streams[s].log[1] == w.streams[s].log[1]
  {
    hide StreamOk, After, PeerByNode, NodeIndex, Lowercase, Handle, CanMove;
    if StreamAction(a) {
      var st, conn := w.streams[a.s], w.conns[w.streams[a.s].conn];
      HandleKeepsConn(w.tables, st, conn, a);
      if a.s == s { HandleLog(w.tables, st, conn, a); }
    }
  }

  lemma HandleLog(tables: Tables, st: Stream, conn: Conn, a: Action)
    requires StreamAction(a) && CanMove(st.pc, a) && StreamOk(st, conn.peer) && |Handle(tables, st, conn, a).0.log| >= 2
    ensures var log := Handle(tables, st, conn, a).0.log;
            if a.Check? then st.pc.Checking? && log[1] == Checked(st.pc.target, tables)
            else |st.log| >= 2 && log[1] == st.log[1]
  {
    hide ValidTarget, RuleAllows, OpenLive, CloseLive, Refusal;
  }

  lemma SameStreamTrans(u: World, v: World, w: World, s: StreamId)
    requires s in v.streams && s in w.streams && SameStream(u, v, s) && SameStream(v, w, s)
    ensures SameStream(u, w, s)
  {
  }

  lemma {:induction false} CheckStep(t: Tables, acts: seq<Action>, s: StreamId) returns (m: nat)
    requires Exec(t, acts).Some? && s in Exec(t, acts).value.streams && |Exec(t, acts).value.streams[s].log| >= 2
    ensures m < |acts| && acts[m] == Check(s) && Exec(t, acts[..m]).Some?
    ensures SameStream(Exec(t, acts[..m]).value, Exec(t, acts).value, s)
    ensures Exec(t, acts).value.streams[s].log[1].Checked?
    ensures Exec(t, acts).value.streams[s].log[1].tables == Exec(t, acts[..m]).value.tables
  {
    hide Step, Enabled, StreamsOk, SameStream;
    var front, a := acts[..|acts| - 1], acts[|acts| - 1];
    RunsKeepStreamsOk(t, front);
    CheckedBefore(Exec(t, front).value, a, s);
    if a == Check(s) {
      m := |acts| - 1;
    } else {
      InStreams(Exec(t, front).value, Exec(t, acts).value, s);
      m := CheckStep(t, front, s);
      assert front[..m] == acts[..m];
      InStreams(Exec(t, front[..m]).value, Exec(t, front).value, s);
      SameStreamTrans(Exec(t, front[..m]).value, Exec(t, front).value, Exec(t, acts).value, s);
    }
  }

  lemma InStreams(w: World, w': World, s: StreamId)
    requires s in w'.streams && SameStream(w, w', s)
    ensures s in w.streams && w'.streams[s].conn == w.streams[s].conn && w.streams[s].conn in w.conns && w.streams[s].conn in w'.conns
    ensures w'.conns[w.streams[s].conn].peer == w.conns[w.streams[s].conn].peer
    ensures w'.conns[w.streams[s].conn].node == w.conns[w.streams[s].conn].node
  {
  }

  /** For a stream that was checked, and so for every one that dialed: the
      tables of its check, step `m`, still had its node under its peer's name if
      and only if the name was not lost to it between the accept, step `n`, and
      the check. */
  lemma CheckedNodeIsKnownIff(t: Tables, acts: seq<Action>, s: StreamId) returns (m: nat, n: nat)
    requires Exec(t, acts).Some? && s in Exec(t, acts).value.streams && |Exec(t, acts).value.streams[s].log| >= 2
    ensures var w := Exec(t, acts).value;
            var st := w.streams[s];
            && st.conn in w.conns && n < m < |acts| && acts[m] == Check(s) && st.log[1].Checked?
            && acts[n].Accept? && acts[n].c == st.conn && acts[n].node == w.conns[st.conn].node
            && (KnownAs(st.log[1].tables, w.conns[st.conn].node, w.conns[st.conn].peer) <==>
                !Lost(t, acts[..m], n, w.conns[st.conn].node, w.conns[st.conn].peer))
  {
    hide Exec, Lost, KnownAs, SameStream;
    m := CheckStep(t, acts, s);
    InStreams(Exec(t, acts[..m]).value, Exec(t, acts).value, s);
    n := StillKnownIffNotLost(t, acts[..m], Exec(t, acts).value.streams[s].conn);
    assert acts[..m][n] == acts[n];
  }

  ghost predicate Reachable(t: Tables, w: World) {
    exists acts :: Exec(t, acts) == Some(w)
  }

  lemma Go(t: Tables, w: World, a: Action) returns (w': World)
    requires Reachable(t, w) && Enabled(w, a)
    ensures w' == Step(w, a) && Reachable(t, w')
  {
    var acts :| Exec(t, acts) == Some(w);
    assert (acts + [a])[..|acts|] == acts;
    w' := Step(w, a);
    assert Exec(t, acts + [a]) == Some(w');
  }

  /** The tables with one peer. */
  function OnePeer(name: string, node: string): Tables {
    Tables([Peer(name, node, "", "")], [])
  }

  lemma OpenStream(name: string, node: string, target: string) returns (w: World)
    ensures Reachable(OnePeer(name, node), w) && w.tables == OnePeer(name, node)
    ensures w.conns == map[0 := Conn(name, node, Serving, [], map[])]
    ensures w.streams == map[0 := Stream(0, Checking(true, target), [Received(TYPE_FORWARD, Forward(target))])]
  {
    var t := OnePeer(name, node);
    assert Exec(t, []) == Some(Init(t));
    hide Exec, Reachable, Lowercase;
    w := Go(t, Init(t), Accept(0, node, ""));
    assert w.tables == t && w.conns[0] == Conn(name, node, Known, [], map[]);
    w := Go(t, w, Register(0));
    w := Go(t, w, StreamOpened(0, 0));
    w := Go(t, w, ReadFirst(0, TYPE_FORWARD, Forward(target)));
    assert w.streams[0].log == [Received(TYPE_FORWARD, Forward(target))];
  }

  lemma Replaced(name: string, node: string, other: string, target: string)
    ensures var t := After(After(After(OnePeer(name, node), RemovePeer(name, true)), AddPeer(Peer(name, other, "", ""))), AddRule(name, target, ""));
            t == Tables([Peer(name, other, "", "")], [Rule(name, target, "")])
  {
    hide Lowercase;
    var t0 := OnePeer(name, node);
    assert t0.peers[0].name == name;
    var t1 := After(t0, RemovePeer(name, true));
    assert t0.peers[..0] == [];
    assert t1 == DropPeer(t0, name) == Tables([], []);
    var t2 := After(t1, AddPeer(Peer(name, other, "", "")));
    assert t2 == Tables([Peer(name, other, "", "")], []);
    assert t2.peers[0].name == name;
  }

  /** The name of an open connection can change hands: a node that is no longer
      recorded dials with the rules of the node that took its name. */
  lemma DialsUnderATakenName(name: string, node: string, other: string, target: string) returns (w: World)
    requires ValidTarget(target) && !SameNode(other, node)
    ensures Reachable(OnePeer(name, node), w) && 0 in w.conns && 0 in w.streams
    ensures w.conns[0].node == node && w.streams[0].conn == 0
    ensures |w.streams[0].log| == 3 && w.streams[0].log[2] == Dialed(target)
    ensures w.streams[0].log[1].Checked? && !KnownAs(w.streams[0].log[1].tables, node, name)
  {
    var t := OnePeer(name, node);
    w := OpenStream(name, node, target);
    Replaced(name, node, other, target);
    hide Exec, Reachable, ValidTarget, SameNode, After;
    w := Go(t, w, Admin(RemovePeer(name, true)));
    w := Go(t, w, Admin(AddPeer(Peer(name, other, "", ""))));
    w := Go(t, w, Admin(AddRule(name, target, "")));
    assert w.tables.rules[0] == Rule(name, target, "");
    w := Go(t, w, Check(0));
    w := Go(t, w, Dial(0));
  }

  // ---- Live counts ----

  ghost function RelayingTo(streams: map<StreamId, Stream>, c: ConnId, target: string): set<StreamId> {
    set s | s in streams && Relays(streams[s], c, target)
  }

  predicate Relays(st: Stream, c: ConnId, target: string) {
    st.conn == c && st.pc == Relaying(target)
  }

  /** Zero is represented by absence. */
  ghost predicate LiveOk(w: World) {
    && (forall s :: s in w.streams ==> w.streams[s].conn in w.conns)
    && (forall c, target :: c in w.conns ==> LiveOf(w.conns[c].live, target) == |RelayingTo(w.streams, c, target)|)
    && (forall c, target :: c in w.conns && target in w.conns[c].live ==> w.conns[c].live[target] > 0)
  }

  lemma RelayingAfter(streams: map<StreamId, Stream>, s: StreamId, st: Stream, c: ConnId, target: string)
    ensures var before := RelayingTo(streams, c, target);
            && RelayingTo(streams[s := st], c, target) == before - {s} + (if Relays(st, c, target) then {s} else {})
            && (s in before <==> s in streams && Relays(streams[s], c, target))
  {
  }

  lemma QuietHandle(tables: Tables, st: Stream, conn: Conn, a: Action)
    requires StreamAction(a) && CanMove(st.pc, a) && !a.CountOpen? && !a.CountClose?
    ensures var (st', conn') := Handle(tables, st, conn, a);
            st'.conn == st.conn && conn'.live == conn.live && !st.pc.Relaying? && !st'.pc.Relaying?
  {
    hide Refusal;
  }

  /** Steps that open or close no relay leave the counts and the sets alone. */
  lemma QuietStepKeepsLiveOk(w: World, a: Action)
    requires LiveOk(w) && Enabled(w, a) && !a.CountOpen? && !a.CountClose?
    ensures LiveOk(Step(w, a))
  {
    hide After, PeerByNode, NodeIndex, Lowercase, RelayingTo, Handle, CanMove;
    var w' := Step(w, a);
    if StreamAction(a) {
      QuietHandle(w.tables, w.streams[a.s], w.conns[w.streams[a.s].conn], a);
      forall c, target ensures RelayingTo(w'.streams, c, target) == RelayingTo(w.streams, c, target) {
        RelayingAfter(w.streams, a.s, w'.streams[a.s], c, target);
      }
    } else if a.StreamOpened? {
      forall c, target ensures RelayingTo(w'.streams, c, target) == RelayingTo(w.streams, c, target) {
        RelayingAfter(w.streams, a.s, w'.streams[a.s], c, target);
      }
    } else if a.Accept? {
      forall target ensures |RelayingTo(w.streams, a.c, target)| == 0 {
        NoStreamsYet(w.streams, a.c, target);
      }
    }
  }

  lemma NoStreamsYet(streams: map<StreamId, Stream>, c: ConnId, target: string)
    requires forall s :: s in streams ==> streams[s].conn != c
    ensures |RelayingTo(streams, c, target)| == 0
  {
    assert RelayingTo(streams, c, target) == {};
  }

  lemma LiveAfter(live: Live, at: string)
    requires forall t :: t in live ==> live[t] > 0
    ensures forall t :: LiveOf(OpenLive(live, at), t) == LiveOf(live, t) + if t == at then 1 else 0
    ensures forall t :: t in OpenLive(live, at) ==> OpenLive(live, at)[t] > 0
    ensures at in live ==> forall t :: LiveOf(CloseLive(live, at), t) == LiveOf(live, t) - if t == at then 1 else 0
    ensures forall t :: t in CloseLive(live, at) ==> CloseLive(live, at)[t] > 0
  {
  }

  lemma OneMoreOrLess(streams: map<StreamId, Stream>, s: StreamId, st: Stream, c: ConnId, target: string)
    requires s in streams && st.conn == streams[s].conn
    ensures |RelayingTo(streams[s := st], c, target)| ==
            |RelayingTo(streams, c, target)|
            + (if Relays(st, c, target) then 1 else 0) - (if Relays(streams[s], c, target) then 1 else 0)
    ensures Relays(streams[s], c, target) ==> |RelayingTo(streams, c, target)| > 0
  {
    RelayingAfter(streams, s, st, c, target);
  }

  /** Opening and closing a relay moves count and set together; the
      decrement always finds a positive count, so it never saturates. */
  lemma CountStepKeepsLiveOk(w: World, a: Action)
    requires LiveOk(w) && Enabled(w, a) && (a.CountOpen? || a.CountClose?)
    ensures LiveOk(Step(w, a))
    ensures a.CountClose? ==> LiveOf(w.conns[w.streams[a.s].conn].live, w.streams[a.s].pc.target) > 0
  {
    hide RelayingTo, OpenLive, CloseLive;
    var w' := Step(w, a);
    var st := w.streams[a.s];
    OneMoreOrLess(w.streams, a.s, w'.streams[a.s], st.conn, st.pc.target);
    LiveAfter(w.conns[st.conn].live, st.pc.target);
    forall c, target | c in w'.conns ensures LiveOf(w'.conns[c].live, target) == |RelayingTo(w'.streams, c, target)| {
      OneMoreOrLess(w.streams, a.s, w'.streams[a.s], c, target);
    }
  }

  lemma {:induction false} RunsKeepLiveOk(t: Tables, acts: seq<Action>)
    requires Exec(t, acts).Some?
    ensures LiveOk(Exec(t, acts).value)
  {
    hide Step, Enabled, RelayingTo;
    if acts != [] {
      RunsKeepLiveOk(t, acts[..|acts| - 1]);
      var w, a := Exec(t, acts[..|acts| - 1]).value, acts[|acts| - 1];
      if a.CountOpen? || a.CountClose? { CountStepKeepsLiveOk(w, a); } else { QuietStepKeepsLiveOk(w, a); }
    }
  }

  // ---- Newest wins ----

  /** The connection most recently registered under a node's key. */
  function Newest(conns: map<ConnId, Conn>, registered: seq<ConnId>, key: string): (r: Option<ConnId>)
    ensures r.Some? ==> r.value in registered && r.value in conns && Lowercase(conns[r.value].node) == key
  {
    if registered == [] then None else
    var c := registered[|registered| - 1];
    if c in conns && Lowercase(conns[c].node) == key then Some(c)
    else Newest(conns, registered[..|registered| - 1], key)
  }

  lemma {:induction false} NewestFrame(conns: map<ConnId, Conn>, conns': map<ConnId, Conn>, registered: seq<ConnId>, key: string)
    requires forall c :: c in registered ==> c in conns && c in conns' && conns'[c].node == conns[c].node
    ensures Newest(conns', registered, key) == Newest(conns, registered, key)
  {
    if registered != [] {
      NewestFrame(conns, conns', registered[..|registered| - 1], key);
    }
  }

  ghost predicate RegistryOk(w: World) {
    && (forall c :: c in w.registered ==> c in w.conns)
    && (forall c :: c in w.conns && w.conns[c].pc.Known? ==> c !in w.registered)
    && (forall key :: var n := Newest(w.conns, w.registered, key);
          if n.Some? && !w.conns[n.value].pc.Over? then key in w.registry && w.registry[key] == n.value
          else key !in w.registry)
  }

  lemma RegisterKeepsRegistryOk(w: World, c: ConnId)
    requires RegistryOk(w) && Enabled(w, Register(c))
    ensures RegistryOk(Step(w, Register(c)))
  {
    hide Lowercase, Newest;
    var w' := Step(w, Register(c));
    forall key ensures Newest(w'.conns, w'.registered, key) == if key == Key(w, c) then Some(c) else Newest(w.conns, w.registered, key) {
      NewestFrame(w.conns, w'.conns, w.registered, key);
      NewestAppend(w'.conns, w.registered, c, key);
    }
  }

  lemma NewestAppend(conns: map<ConnId, Conn>, registered: seq<ConnId>, c: ConnId, key: string)
    requires c in conns
    ensures Newest(conns, registered + [c], key) == if key == Lowercase(conns[c].node) then Some(c) else Newest(conns, registered, key)
  {
    hide Lowercase;
    assert (registered + [c])[..|registered|] == registered;
  }

  lemma OtherStepKeepsRegistryOk(w: World, a: Action)
    requires RegistryOk(w) && Enabled(w, a) && !a.Register?
    ensures RegistryOk(Step(w, a))
  {
    hide RegistryOk, After, PeerByNode, NodeIndex, Handle, CanMove;
    if a.Unregister? {
      UnregisterKeepsRegistryOk(w, a.c);
    } else {
      if StreamAction(a) {
        HandleKeepsConn(w.tables, w.streams[a.s], w.conns[w.streams[a.s].conn], a);
      }
      QuietKeepsRegistryOk(w, Step(w, a));
    }
  }

  lemma HandleKeepsConn(tables: Tables, st: Stream, conn: Conn, a: Action)
    requires StreamAction(a) && CanMove(st.pc, a)
    ensures var (st', conn') := Handle(tables, st, conn, a);
            st'.conn == st.conn && conn'.peer == conn.peer && conn'.node == conn.node && conn'.pc == conn.pc
  {
    hide Refusal, OpenLive, CloseLive, Classify;
  }

  /** Connections keep their node id, are registered or over as before, and
      new ones are not registered yet. */
  lemma QuietKeepsRegistryOk(w: World, w': World)
    requires RegistryOk(w) && w'.registered == w.registered && w'.registry == w.registry
    requires forall c :: c in w.conns ==>
      c in w'.conns && w'.conns[c].node == w.conns[c].node
      && w'.conns[c].pc.Known? == w.conns[c].pc.Known? && w'.conns[c].pc.Over? == w.conns[c].pc.Over?
    ensures RegistryOk(w')
  {
    hide Lowercase, Newest;
    forall key ensures Newest(w'.conns, w.registered, key) == Newest(w.conns, w.registered, key) {
      NewestFrame(w.conns, w'.conns, w.registered, key);
    }
  }

  lemma UnregisterKeepsRegistryOk(w: World, c: ConnId)
    requires RegistryOk(w) && Enabled(w, Unregister(c))
    ensures RegistryOk(Step(w, Unregister(c)))
  {
    hide Lowercase, Newest;
    var w' := Step(w, Unregister(c));
    forall key ensures Newest(w'.conns, w.registered, key) == Newest(w.conns, w.registered, key) {
      NewestFrame(w.conns, w'.conns, w.registered, key);
    }
  }

  lemma {:induction false} RunsKeepRegistryOk(t: Tables, acts: seq<Action>)
    requires Exec(t, acts).Some?
    ensures RegistryOk(Exec(t, acts).value)
  {
    hide Step, Enabled;
    if acts != [] {
      RunsKeepRegistryOk(t, acts[..|acts| - 1]);
      var w, a := Exec(t, acts[..|acts| - 1]).value, acts[|acts| - 1];
      if a.Register? { RegisterKeepsRegistryOk(w, a.c); } else { OtherStepKeepsRegistryOk(w, a); }
    }
  }

  function PeerSnapshot(w: World, node: string): Option<seq<ForwardInfo>> {
    var key := Lowercase(node);
    if key in w.registry && w.registry[key] in w.conns
    then Some(Report(w.conns[w.registry[key]].forwards, w.conns[w.registry[key]].live))
    else None
  }

  /** In every interleaving of stream handlers, re-dials and dying accept
      loops, a node shows a session if and only if its most recently registered
      connection has not unregistered, and the session then reports, for each
      announced forward, the number of that connection's streams that are
      between open and close. */
  lemma SnapshotTellsTheTruth(t: Tables, acts: seq<Action>, node: string)
    requires Exec(t, acts).Some?
    ensures var w := Exec(t, acts).value;
            var newest := Newest(w.conns, w.registered, Lowercase(node));
            var shown := PeerSnapshot(w, node);
            && (shown.Some? <==> newest.Some? && !w.conns[newest.value].pc.Over?)
            && (shown.Some? ==>
                  var conn := w.conns[newest.value];
                  && conn.forwards == LastHello(t, acts, newest.value)
                  && |shown.value| == |conn.forwards|
                  && forall i :: 0 <= i < |conn.forwards| ==>
                       shown.value[i] == ForwardInfo(conn.forwards[i].local, conn.forwards[i].target,
                                                     |RelayingTo(w.streams, newest.value, conn.forwards[i].target)|))
  {
    hide Exec;
    RunsKeepRegistryOk(t, acts);
    RunsKeepLiveOk(t, acts);
    var w := Exec(t, acts).value;
    var newest := Newest(w.conns, w.registered, Lowercase(node));
    if newest.Some? && !w.conns[newest.value].pc.Over? {
      var conn := w.conns[newest.value];
      ForwardsAreThoseAnnounced(t, acts, newest.value);
      forall i | 0 <= i < |conn.forwards|
        ensures LiveOf(conn.live, conn.forwards[i].target) == |RelayingTo(w.streams, newest.value, conn.forwards[i].target)|
      {
      }
    }
  }
}
