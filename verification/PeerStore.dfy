/** `State`: the tables in memory, the file they are persisted to, and every
    run of calls, failed writes and crashes over them
    (tmite-core/src/daemon/state.rs). */
module PeerStore {
  import opened Prelude
  import opened PeerTables

  /** The TOML encoder and decoder, kept abstract. */
  datatype Codec = Codec(encode: Tables -> string, decode: string -> Option<Tables>)

  ghost predicate Inverse(c: Codec) {
    forall t :: c.decode(c.encode(t)) == Some(t)
  }

  datatype Disk = Disk(file: Option<string>, tmp: Option<string>)

  /** How the two system calls of `persist_locked` end. */
  datatype Io = Fine | WriteFails(left: string) | RenameFails

  datatype CrashPoint = BeforeWrite | DuringWrite(left: string) | BeforeRename | AfterRename

  /** `Down`: the daemon could not start because the file does not parse. */
  datatype Store = Up(mem: Tables, disk: Disk) | Down(disk: Disk)

  const BOOT := Up(EMPTY, Disk(None, None))

  /** `persist_locked`: write the temporary file, then rename it over the file. */
  function Persist(c: Codec, t: Tables, d: Disk, io: Io): Disk {
    match io
    case Fine => Disk(Some(c.encode(t)), None)
    case WriteFails(left) => d.(tmp := Some(left))
    case RenameFails => d.(tmp := Some(c.encode(t)))
  }

  function CrashedDisk(c: Codec, t: Tables, d: Disk, at: CrashPoint): Disk {
    match at
    case BeforeWrite => d
    case DuringWrite(left) => d.(tmp := Some(left))
    case BeforeRename => d.(tmp := Some(c.encode(t)))
    case AfterRename => Disk(Some(c.encode(t)), None)
  }

  /** `State::load`. */
  function Load(c: Codec, d: Disk): Store {
    match d.file
    case None => Up(EMPTY, d)
    case Some(text) =>
      match c.decode(text)
      case None => Down(d)
      case Some(t) => Up(t, d)
  }

  /** One whole call: the change in memory stays even when persisting fails. */
  function Perform(c: Codec, s: Store, op: Op, io: Io): (Store, Reply)
    requires s.Up?
  {
    match Apply(s.mem, op)
    case Answer(reply) => (s, reply)
    case Write(t, reply) =>
      (Up(t, Persist(c, t, s.disk, io)), if io.Fine? || op.TouchLastSeen? then reply else Failed(Io))
  }

  class State {
    const codec: Codec
    var peers: seq<Peer>
    var rules: seq<Rule>
    var disk: Disk

    function Current(): Store
      reads this
    {
      Up(Tables(peers, rules), disk)
    }

    constructor (codec: Codec, disk: Disk)
      requires Load(codec, disk).Up?
      ensures this.codec == codec && Current() == Load(codec, disk)
    {
      this.codec := codec;
      this.disk := disk;
      match disk.file
      case None => peers, rules := [], [];
      case Some(text) =>
        var t := codec.decode(text).value;
        peers, rules := t.peers, t.rules;
    }

    /** `load`: an error exactly when there is a file and it does not parse. */
    static method Open(codec: Codec, disk: Disk) returns (r: Option<State>)
      ensures r.Some? <==> Load(codec, disk).Up?
      ensures r.Some? ==> fresh(r.value) && r.value.codec == codec && r.value.Current() == Load(codec, disk)
    {
      if disk.file.Some? && codec.decode(disk.file.value).None? {
        return None;
      }
      var state := new State(codec, disk);
      return Some(state);
    }

    method PersistLocked(io: Io) returns (ok: bool)
      modifies this`disk
      ensures disk == Persist(codec, Tables(peers, rules), old(disk), io)
      ensures ok <==> io.Fine?
    {
      var text := codec.encode(Tables(peers, rules));
      if io.WriteFails? {
        disk := disk.(tmp := Some(io.left));
        return false;
      }
      disk := disk.(tmp := Some(text));
      if io.RenameFails? {
        return false;
      }
      disk := Disk(Some(text), None);
      return true;
    }

    method AddPeer(peer: Peer, io: Io) returns (r: Reply)
      modifies this`peers, this`disk
      ensures (Current(), r) == Perform(codec, old(Current()), Op.AddPeer(peer), io)
    {
      if HasName(Tables(peers, rules), peer.name) {
        return Failed(NameTaken);
      }
      if |peers| >= MAX_PEERS {
        return Failed(PeerCap);
      }
      peers := peers + [peer];
      var ok := PersistLocked(io);
      return if ok then Done else Failed(StateError.Io);
    }

    method TouchLastSeen(node: string, now: string, io: Io)
      modifies this`peers, this`disk
      ensures Current() == Perform(codec, old(Current()), Op.TouchLastSeen(node, now), io).0
    {
      var i := NodeIndex(Tables(peers, rules), node);
      if i < |peers| {
        peers := peers[i := peers[i].(lastSeen := now)];
        var _ := PersistLocked(io);
      }
    }

    method AddRule(name: string, target: string, now: string, io: Io) returns (r: Reply)
      modifies this`rules, this`disk
      ensures (Current(), r) == Perform(codec, old(Current()), Op.AddRule(name, target, now), io)
    {
      if !HasName(Tables(peers, rules), name) {
        return Failed(NotFound);
      }
      if |rules| >= MAX_RULES {
        return Failed(RuleCap);
      }
      var existing := RuleIndex(Tables(peers, rules), name, target);
      if existing < |rules| {
        return Index(existing);
      }
      rules := rules + [Rule(name, target, now)];
      var ok := PersistLocked(io);
      return if ok then Index(|rules| - 1) else Failed(StateError.Io);
    }

    method RemoveRule(name: string, target: string, io: Io) returns (r: Reply)
      modifies this`rules, this`disk
      ensures (Current(), r) == Perform(codec, old(Current()), Op.RemoveRule(name, target), io)
    {
      if !HasName(Tables(peers, rules), name) {
        return Failed(NotFound);
      }
      var before := |rules|;
      rules := DropRule(rules, name, target);
      if |rules| == before {
        FilterKeepsAll(old(rules), (r: Rule) => !(r.peer == name && r.target == target));
        return Flag(false);
      }
      var ok := PersistLocked(io);
      return if ok then Flag(true) else Failed(StateError.Io);
    }

    method RemovePeer(name: string, force: bool, io: Io) returns (r: Reply)
      modifies this`peers, this`rules, this`disk
      ensures (Current(), r) == Perform(codec, old(Current()), Op.RemovePeer(name, force), io)
    {
      var t := Tables(peers, rules);
      if !HasName(t, name) {
        return Flag(false);
      }
      if HasRules(t, name) && !force {
        return Failed(PeerHasRules);
      }
      peers := Filter(peers, (p: Peer) => p.name != name);
      rules := Filter(rules, (r: Rule) => r.peer != name);
      var ok := PersistLocked(io);
      return if ok then Flag(true) else Failed(StateError.Io);
    }
  }

  // ---- Runs ----

  /** A call that returns, or a call during which the process dies and after
      which it is started again from the file. */
  datatype Action = Call(op: Op, io: Io) | Crash(op: Op, at: CrashPoint)

  function Step(c: Codec, s: Store, a: Action): Store {
    if s.Down? then s else
    match a
    case Call(op, io) => Perform(c, s, op, io).0
    case Crash(op, at) =>
      match Apply(s.mem, op)
      case Answer(_) => Load(c, s.disk)
      case Write(t, _) => Load(c, CrashedDisk(c, t, s.disk, at))
  }

  function Exec(c: Codec, acts: seq<Action>): Store {
    if acts == [] then BOOT else Step(c, Exec(c, acts[..|acts| - 1]), acts[|acts| - 1])
  }

  lemma ExecPrefix(c: Codec, acts: seq<Action>, i: nat)
    requires i < |acts|
    ensures Exec(c, acts[..i + 1]) == Step(c, Exec(c, acts[..i]), acts[i])
  {
    assert acts[..i + 1][..i] == acts[..i];
  }

  /** The daemon runs on well-formed tables and could be restarted on them. */
  ghost predicate Sound(c: Codec, s: Store) {
    && s.Up? && WellFormed(s.mem)
    && Load(c, s.disk).Up? && WellFormed(Load(c, s.disk).mem)
  }

  /** Every pair of well-formed lists stands for some map and set. */
  lemma SomeAcl(t: Tables) returns (a: Acl)
    requires WellFormed(t)
    ensures Represents(t, a)
  {
    a := Acl(map i | 0 <= i < |t.peers| :: t.peers[i].name := t.peers[i],
             set i | 0 <= i < |t.rules| :: (t.rules[i].peer, t.rules[i].target));
    forall n, g | RuleAllows(t, n, g) ensures (n, g) in a.grants {
      var i :| 0 <= i < |t.rules| && t.rules[i].peer == n && t.rules[i].target == g;
      assert (t.rules[i].peer, t.rules[i].target) in a.grants;
    }
  }

  lemma CallKeepsWellFormed(t: Tables, op: Op)
    requires WellFormed(t)
    ensures WellFormed(After(t, op))
  {
    var a := SomeAcl(t);
    var _ := CallRefinesAcl(t, op, a);
  }

  /** The file changes only to become exactly what memory then holds. */
  lemma FileFollowsMemory(c: Codec, s: Store, a: Action)
    requires Inverse(c) && Sound(c, s)
    ensures var s' := Step(c, s, a);
            s'.disk.file == s.disk.file || (s'.Up? && s'.disk.file == Some(c.encode(s'.mem)))
  {
    if s.Up? && Apply(s.mem, a.op).Write? {
      var t := Apply(s.mem, a.op).tables;
      assert c.decode(c.encode(t)) == Some(t);
    }
  }

  lemma StepKeepsSound(c: Codec, s: Store, a: Action)
    requires Inverse(c) && Sound(c, s)
    ensures Sound(c, Step(c, s, a))
  {
    CallKeepsWellFormed(s.mem, a.op);
    var t := After(s.mem, a.op);
    assert c.decode(c.encode(t)) == Some(t);
  }

  lemma {:induction false} RunsAreSound(c: Codec, acts: seq<Action>)
    requires Inverse(c)
    ensures Sound(c, Exec(c, acts))
  {
    if acts != [] {
      RunsAreSound(c, acts[..|acts| - 1]);
      StepKeepsSound(c, Exec(c, acts[..|acts| - 1]), acts[|acts| - 1]);
    }
  }

  ghost predicate SnapshotOf(c: Codec, acts: seq<Action>, text: string, i: nat)
    requires i <= |acts|
  {
    Exec(c, acts[..i]).Up? && text == c.encode(Exec(c, acts[..i]).mem)
  }

  /** Whatever fails and wherever the process dies, the daemon always starts
      again, the tables are well formed, and the file is absent or holds the
      tables exactly as memory held them at some moment of the run. */
  lemma {:induction false} CrashConsistency(c: Codec, acts: seq<Action>)
    requires Inverse(c)
    ensures Exec(c, acts).Up? && WellFormed(Exec(c, acts).mem)
    ensures Load(c, Exec(c, acts).disk).Up? && WellFormed(Load(c, Exec(c, acts).disk).mem)
    ensures var file := Exec(c, acts).disk.file;
            file.Some? ==> exists i :: 0 <= i <= |acts| && SnapshotOf(c, acts, file.value, i)
  {
    RunsAreSound(c, acts);
    if acts != [] {
      var n := |acts| - 1;
      CrashConsistency(c, acts[..n]);
      RunsAreSound(c, acts[..n]);
      FileFollowsMemory(c, Exec(c, acts[..n]), acts[n]);
      var file := Exec(c, acts).disk.file;
      if file.Some? {
        if file == Exec(c, acts[..n]).disk.file {
          var i :| 0 <= i <= n && SnapshotOf(c, acts[..n], file.value, i);
          assert acts[..n][..i] == acts[..i];
          assert SnapshotOf(c, acts, file.value, i);
        } else {
          assert acts[..|acts|] == acts;
          assert SnapshotOf(c, acts, file.value, |acts|);
        }
      }
    }
  }

  /** A call that answers Ok after changing memory has made the file equal to
      memory; it answers with an I/O error exactly when it changed the tables
      and could not make them durable, and then memory runs ahead of the file. */
  lemma OkMeansDurable(c: Codec, s: Store, op: Op, io: Io)
    requires s.Up? && !op.TouchLastSeen?
    ensures var (s', reply) := Perform(c, s, op, io);
            && (!reply.Failed? && s'.mem != s.mem ==> s'.disk.file == Some(c.encode(s'.mem)))
            && (reply == Failed(StateError.Io) <==> Apply(s.mem, op).Write? && !io.Fine?)
            && (reply == Failed(StateError.Io) ==> s'.mem == After(s.mem, op) && s'.disk.file == s.disk.file)
            && (reply.Failed? && reply.error != StateError.Io ==> s' == s)
  {
  }

  // ---- When an answer is durable ----

  /** The call changes the tables and its write goes well. */
  predicate Saves(s: Store, a: Action) {
    s.Up? && a.Call? && a.io.Fine? && Apply(s.mem, a.op).Write?
  }

  /** The call changes the tables in memory only. */
  predicate FailsToSave(s: Store, a: Action) {
    s.Up? && a.Call? && !a.io.Fine? && Apply(s.mem, a.op).Write?
  }

  /** How many steps of the run were taken when memory was last saved or
      reloaded. */
  function LastSync(c: Codec, acts: seq<Action>): (n: nat)
    ensures n <= |acts|
  {
    if acts == [] then 0
    else if acts[|acts| - 1].Crash? || Saves(Exec(c, acts[..|acts| - 1]), acts[|acts| - 1]) then |acts|
    else LastSync(c, acts[..|acts| - 1])
  }

  /** What the daemon would have after a restart. */
  function OnDisk(c: Codec, s: Store): Store {
    Load(c, s.disk)
  }

  lemma SyncStep(c: Codec, s: Store, a: Action)
    requires Inverse(c) && Sound(c, s) && (a.Crash? || Saves(s, a))
    ensures Step(c, s, a).Up? && OnDisk(c, Step(c, s, a)) == Step(c, s, a)
  {
    var t := After(s.mem, a.op);
    assert c.decode(c.encode(t)) == Some(t);
  }

  lemma OtherStep(c: Codec, s: Store, a: Action)
    requires s.Up? && a.Call? && !Saves(s, a)
    ensures Step(c, s, a).Up? && Step(c, s, a).disk.file == s.disk.file
    ensures !FailsToSave(s, a) ==> Step(c, s, a).mem == s.mem
  {
  }

  /** Over every run, the file holds the tables as memory held them when they
      were last saved or reloaded. */
  lemma {:induction false} FileHoldsLastSync(c: Codec, acts: seq<Action>)
    requires Inverse(c)
    ensures var synced := Exec(c, acts[..LastSync(c, acts)]);
            synced.Up? && OnDisk(c, Exec(c, acts)) == Up(synced.mem, Exec(c, acts).disk)
  {
    if acts == [] {
      assert acts[..0] == [];
    } else {
      hide Step, Saves;
      var front, a := acts[..|acts| - 1], acts[|acts| - 1];
      RunsAreSound(c, front);
      if a.Crash? || Saves(Exec(c, front), a) {
        SyncStep(c, Exec(c, front), a);
        assert acts[..|acts|] == acts;
      } else {
        FileHoldsLastSync(c, front);
        OtherStep(c, Exec(c, front), a);
        assert front[..LastSync(c, front)] == acts[..LastSync(c, acts)];
      }
    }
  }

  /** A step after the last save that failed to save. */
  ghost predicate FailedSince(c: Codec, acts: seq<Action>) {
    exists i: nat :: LastSync(c, acts) <= i < |acts| && FailsToSave(Exec(c, acts[..i]), acts[i])
  }

  /** Unless a write failed since, memory is what it was at the last save. */
  lemma {:induction false} MemoryIsSyncedUnlessFailed(c: Codec, acts: seq<Action>)
    requires Inverse(c) && !FailedSince(c, acts)
    ensures Exec(c, acts).Up? && Exec(c, acts[..LastSync(c, acts)]).Up?
    ensures Exec(c, acts).mem == Exec(c, acts[..LastSync(c, acts)]).mem
  {
    RunsAreSound(c, acts);
    if acts == [] {
      assert acts[..0] == [];
    } else {
      hide Step, Saves, FailsToSave;
      var front, a := acts[..|acts| - 1], acts[|acts| - 1];
      RunsAreSound(c, front);
      if a.Crash? || Saves(Exec(c, front), a) {
        assert acts[..|acts|] == acts;
      } else {
        NotFailedInFront(c, acts);
        MemoryIsSyncedUnlessFailed(c, front);
        OtherStep(c, Exec(c, front), a);
        assert front[..LastSync(c, front)] == acts[..LastSync(c, acts)];
      }
    }
  }

  lemma NotFailedInFront(c: Codec, acts: seq<Action>)
    requires acts != [] && !FailedSince(c, acts) && LastSync(c, acts) < |acts| && LastSync(c, acts) == LastSync(c, acts[..|acts| - 1])
    ensures !FailedSince(c, acts[..|acts| - 1]) && !FailsToSave(Exec(c, acts[..|acts| - 1]), acts[|acts| - 1])
  {
    hide Exec, FailsToSave, LastSync;
    var front := acts[..|acts| - 1];
    assert acts[..|front|] == front;
    if i: nat :| LastSync(c, front) <= i < |front| && FailsToSave(Exec(c, front[..i]), front[i]) {
      assert front[..i] == acts[..i] && front[i] == acts[i];
    }
  }

  /** When an answer that is no error can be relied on after a restart, over all
      runs: the file agrees with memory if and only if memory is what it was at
      the last save or reload; so always if the call itself changed the tables
      and was not a touch, and always if no write has failed since. */
  lemma AnswerIsDurableIff(c: Codec, acts: seq<Action>, op: Op, io: Io)
    requires Inverse(c) && Exec(c, acts).Up? && !Perform(c, Exec(c, acts), op, io).1.Failed?
    ensures var run := acts + [Call(op, io)];
            var s := Exec(c, run);
            var synced := Exec(c, run[..LastSync(c, run)]);
            && s.Up? && synced.Up?
            && (OnDisk(c, s) == s <==> synced.mem == s.mem)
            && (Apply(Exec(c, acts).mem, op).Write? && !op.TouchLastSeen? ==> OnDisk(c, s) == s)
            && (!FailedSince(c, run) ==> OnDisk(c, s) == s)
  {
    var run := acts + [Call(op, io)];
    assert run[..|acts|] == acts;
    RunsAreSound(c, run);
    FileHoldsLastSync(c, run);
    if Apply(Exec(c, acts).mem, op).Write? && !op.TouchLastSeen? {
      assert Saves(Exec(c, acts), Call(op, io));
      assert run[..|run|] == run;
    }
    if !FailedSince(c, run) { MemoryIsSyncedUnlessFailed(c, run); }
  }

  lemma OneByOne(c: Codec, a: Action, b: Action, d: Action)
    ensures Exec(c, [a]) == Step(c, BOOT, a)
    ensures Exec(c, [a, b]) == Step(c, Step(c, BOOT, a), b)
    ensures Exec(c, [a, b, d]) == Step(c, Step(c, Step(c, BOOT, a), b), d)
  {
    hide Step;
    assert [a][..0] == [] && [a, b][..1] == [a] && [a, b, d][..2] == [a, b];
    assert Exec(c, []) == BOOT;
  }

  /** For every peer: it is added durably, its removal fails to be written, the
      removal is repeated and answers, without an error, that there is nothing
      to remove, and after a restart the peer is there again. */
  lemma RemovedButBack(c: Codec, p: Peer)
    requires Inverse(c)
    ensures var run := [Call(Op.AddPeer(p), Fine), Call(Op.RemovePeer(p.name, true), RenameFails)];
            && Exec(c, run).Up?
            && Perform(c, Exec(c, run), Op.RemovePeer(p.name, true), Fine).1 == Flag(false)
            && Exec(c, run + [Call(Op.RemovePeer(p.name, true), Fine)]).Up?
            && !HasName(Exec(c, run + [Call(Op.RemovePeer(p.name, true), Fine)]).mem, p.name)
            && OnDisk(c, Exec(c, run + [Call(Op.RemovePeer(p.name, true), Fine)])).Up?
            && HasName(OnDisk(c, Exec(c, run + [Call(Op.RemovePeer(p.name, true), Fine)])).mem, p.name)
  {
    var add, fail, again := Call(Op.AddPeer(p), Fine), Call(Op.RemovePeer(p.name, true), RenameFails), Call(Op.RemovePeer(p.name, true), Fine);
    OneByOne(c, add, fail, again);
    assert [add, fail] + [again] == [add, fail, again];
    var t := Tables([p], []);
    assert [] + [p] == [p];
    var s1 := Step(c, BOOT, add);
    assert s1 == Up(t, Disk(Some(c.encode(t)), None));
    assert t.peers[0].name == p.name;
    assert t.peers[..0] == [];
    assert DropPeer(t, p.name) == EMPTY;
    var s2 := Step(c, s1, fail);
    assert s2.mem == EMPTY && s2.disk.file == Some(c.encode(t));
    assert c.decode(c.encode(t)) == Some(t);
    hide Exec;
  }

  /** Every call of every run, however the ones before it ended, is the
      map-and-set operation of the same name on what the lists stand for. */
  lemma RunRefinesAcl(c: Codec, acts: seq<Action>, op: Op, io: Io) returns (a: Acl, a': Acl)
    requires Inverse(c)
    ensures var s := Exec(c, acts);
            && s.Up? && Represents(s.mem, a)
            && Represents(Exec(c, acts + [Call(op, io)]).mem, a')
            && AclStep(a, op, a', Apply(s.mem, op).reply)
  {
    RunsAreSound(c, acts);
    var s := Exec(c, acts);
    a := SomeAcl(s.mem);
    a' := CallRefinesAcl(s.mem, op, a);
    assert (acts + [Call(op, io)])[..|acts|] == acts;
  }

  /** Over every run, the index that `add_rule` answers is where the rule is in
      the table afterwards: the first position of a rule that was there, which
      then changes nothing, or the end, where the new rule was put with its
      time. It answers no index if and only if the peer is unknown, the table is
      full, or the write failed. */
  lemma AddRuleAnswersItsPosition(c: Codec, acts: seq<Action>, name: string, target: string, now: string, io: Io)
    requires Exec(c, acts).Up?
    ensures var t := Exec(c, acts).mem;
            var reply := Perform(c, Exec(c, acts), Op.AddRule(name, target, now), io).1;
            var after := Exec(c, acts + [Call(Op.AddRule(name, target, now), io)]);
            && after.Up? && after.mem.peers == t.peers
            && (reply.Index? <==> HasName(t, name) && |t.rules| < MAX_RULES && (RuleAllows(t, name, target) || io.Fine?))
            && (reply.Index? ==>
                  && reply.i < |after.mem.rules|
                  && after.mem.rules[reply.i].peer == name && after.mem.rules[reply.i].target == target
                  && (forall k :: 0 <= k < reply.i ==> !(after.mem.rules[k].peer == name && after.mem.rules[k].target == target))
                  && after.mem.rules == if RuleAllows(t, name, target) then t.rules else t.rules + [Rule(name, target, now)])
  {
    var call := Call(Op.AddRule(name, target, now), io);
    assert (acts + [call])[..|acts|] == acts;
    var t := Exec(c, acts).mem;
    var i := RuleIndex(t, name, target);
    assert RuleAllows(t, name, target) <==> i < |t.rules|;
    if i == |t.rules| {
      assert (t.rules + [Rule(name, target, now)])[i] == Rule(name, target, now);
    }
  }

  /** Over every run, `touch_last_seen` stamps the first peer with that node id,
      the one that a lookup finds, and changes nothing else in memory. */
  lemma TouchStampsTheFirst(c: Codec, acts: seq<Action>, node: string, now: string, io: Io)
    requires Exec(c, acts).Up?
    ensures var t := Exec(c, acts).mem;
            var after := Exec(c, acts + [Call(Op.TouchLastSeen(node, now), io)]);
            && after.Up? && after.mem.rules == t.rules && |after.mem.peers| == |t.peers|
            && (forall k :: 0 <= k < |t.peers| ==>
                  after.mem.peers[k] ==
                    if SameNode(t.peers[k].nodeId, node) && (forall j :: 0 <= j < k ==> !SameNode(t.peers[j].nodeId, node))
                    then t.peers[k].(lastSeen := now) else t.peers[k])
  {
    hide SameNode;
    assert (acts + [Call(Op.TouchLastSeen(node, now), io)])[..|acts|] == acts;
  }

  /** A peer that was just added, for the first time or again after a
      removal, has no grant: nothing is inherited from an earlier holder. */
  lemma FreshPeerHasNoGrants(c: Codec, acts: seq<Action>, p: Peer, io: Io, target: string)
    requires Inverse(c) && Exec(c, acts).Up? && Apply(Exec(c, acts).mem, Op.AddPeer(p)).Write?
    ensures Exec(c, acts + [Call(Op.AddPeer(p), io)]).Up?
    ensures !RuleAllows(Exec(c, acts + [Call(Op.AddPeer(p), io)]).mem, p.name, target)
  {
    RunsAreSound(c, acts);
    assert (acts + [Call(Op.AddPeer(p), io)])[..|acts|] == acts;
    var t := Exec(c, acts).mem;
    forall i | 0 <= i < |t.rules| ensures t.rules[i].peer != p.name {
      assert HasName(t, t.rules[i].peer);
    }
  }

  /** A crash in the middle of a call, after one that was made durable,
      restarts with the tables from after the call if the file had been renamed,
      and from before it otherwise. */
  lemma CrashIsAllOrNothing(c: Codec, acts: seq<Action>, op: Op, next: Op, at: CrashPoint)
    requires Inverse(c) && Exec(c, acts).Up? && Apply(Exec(c, acts).mem, op).Write?
    ensures var t := After(Exec(c, acts).mem, op);
            var s := Exec(c, acts + [Call(op, Fine), Crash(next, at)]);
            s.Up? && s.mem == if at.AfterRename? then After(t, next) else t
  {
    var both := acts + [Call(op, Fine), Crash(next, at)];
    assert both[..|acts|] == acts;
    ExecPrefix(c, both, |acts|);
    ExecPrefix(c, both, |acts| + 1);
    assert both[..|acts| + 2] == both;
    var t := After(Exec(c, acts).mem, op);
    assert c.decode(c.encode(t)) == Some(t);
    assert c.decode(c.encode(After(t, next))) == Some(After(t, next));
  }

  // ---- Recording a name twice ----

  /** At step `i` a peer called `name` was recorded and the call answered Ok. */
  ghost predicate Recorded(c: Codec, acts: seq<Action>, i: nat, name: string)
    requires i < |acts|
  {
    var s := Exec(c, acts[..i]);
    && s.Up? && acts[i].Call? && acts[i].op.AddPeer? && acts[i].op.peer.name == name
    && Perform(c, s, acts[i].op, acts[i].io).1 == Done
  }

  /** At step `i` a removal of `name` took effect in memory. */
  ghost predicate Removed(c: Codec, acts: seq<Action>, i: nat, name: string)
    requires i < |acts|
  {
    var s := Exec(c, acts[..i]);
    s.Up? && acts[i].op.RemovePeer? && acts[i].op.name == name && Apply(s.mem, acts[i].op).Write?
  }

  /** The name is there in memory and would be there after a restart. */
  ghost predicate Settled(c: Codec, s: Store, name: string) {
    && s.Up? && HasName(s.mem, name)
    && Load(c, s.disk).Up? && HasName(Load(c, s.disk).mem, name)
  }

  lemma RecordingSettles(c: Codec, s: Store, p: Peer, io: Io)
    requires Inverse(c) && s.Up? && Perform(c, s, Op.AddPeer(p), io).1 == Done
    ensures Settled(c, Step(c, s, Call(Op.AddPeer(p), io)), p.name)
  {
    var t := After(s.mem, Op.AddPeer(p));
    assert t.peers[|s.mem.peers|].name == p.name;
    assert c.decode(c.encode(t)) == Some(t);
  }

  /** Only its own removal takes a name out of the tables. */
  lemma NameSurvives(t: Tables, op: Op, name: string)
    requires WellFormed(t) && HasName(t, name)
    requires !(op.RemovePeer? && op.name == name)
    ensures HasName(After(t, op), name)
  {
    var i :| 0 <= i < |t.peers| && t.peers[i].name == name;
    if op.RemovePeer? {
      DropPeerMembers(t, op.name);
    } else {
      assert |After(t, op).peers| > i && After(t, op).peers[i].name == name;
    }
  }

  lemma SettledUntilRemoved(c: Codec, s: Store, a: Action, name: string)
    requires Inverse(c) && Sound(c, s) && Settled(c, s, name)
    requires !(a.op.RemovePeer? && a.op.name == name && Apply(s.mem, a.op).Write?)
    ensures Settled(c, Step(c, s, a), name)
  {
    var t := After(s.mem, a.op);
    assert c.decode(c.encode(t)) == Some(t);
    if !(a.op.RemovePeer? && a.op.name == name) {
      NameSurvives(s.mem, a.op, name);
    }
  }

  lemma {:induction false} SettledBetween(c: Codec, acts: seq<Action>, i: nat, k: nat, name: string)
    requires Inverse(c) && i < k <= |acts| && Recorded(c, acts, i, name)
    requires forall m :: i < m < k ==> !Removed(c, acts, m, name)
    ensures Settled(c, Exec(c, acts[..k]), name)
    decreases k
  {
    hide Exec, Step, Apply, Settled;
    ExecPrefix(c, acts, k - 1);
    if k == i + 1 {
      RecordingSettles(c, Exec(c, acts[..i]), acts[i].op.peer, acts[i].io);
    } else {
      SettledBetween(c, acts, i, k - 1, name);
      RunsAreSound(c, acts[..k - 1]);
      assert !Removed(c, acts, k - 1, name);
      SettledUntilRemoved(c, Exec(c, acts[..k - 1]), acts[k - 1], name);
    }
  }

  /** Two successful recordings of one name always have a removal of it
      between them, through failed writes and crashes at any point. */
  lemma ReRecordingNeedsRemoval(c: Codec, acts: seq<Action>, i: nat, j: nat, name: string)
    requires Inverse(c) && i < j < |acts|
    requires Recorded(c, acts, i, name) && Recorded(c, acts, j, name)
    ensures exists k :: i < k < j && Removed(c, acts, k, name)
  {
    assert !HasName(Exec(c, acts[..j]).mem, name);
    if forall k :: i < k < j ==> !Removed(c, acts, k, name) {
      SettledBetween(c, acts, i, j, name);
      assert false;
    }
  }
}
