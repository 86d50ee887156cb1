/** Notification cooldown and the drain loop (tmite-core/src/daemon/notify.rs). */
module Cooldowns {
  import opened Prelude
  import opened Targets

  /** Seconds, as in the daemon's 60 s window. */
  const COOLDOWN := 60

  datatype Notification =
    | PeerConnected(name: string, nodeId: string)
    | PeerRejected(nodeId: string)
    | PairRequested(name: string, nodeId: string)
    | PeerRegistered(name: string, nodeId: string)
    | InviteCreated(name: string, inviteId: string, ttlSecs: nat)
    | InviteExpired(inviteId: string)
    | RuleAdded(peer: string, target: string)
    | RuleRevoked(peer: string, target: string)

  datatype Kind =
    | KPeerConnected | KPeerRejected | KPairRequested | KPeerRegistered
    | KInviteCreated | KInviteExpired | KRuleAdded | KRuleRevoked

  function KindOf(n: Notification): Kind {
    match n
    case PeerConnected(_, _) => KPeerConnected
    case PeerRejected(_) => KPeerRejected
    case PairRequested(_, _) => KPairRequested
    case PeerRegistered(_, _) => KPeerRegistered
    case InviteCreated(_, _, _) => KInviteCreated
    case InviteExpired(_) => KInviteExpired
    case RuleAdded(_, _) => KRuleAdded
    case RuleRevoked(_, _) => KRuleRevoked
  }

  function KeyOf(n: Notification): string {
    match n
    case PeerConnected(name, _) => name
    case PairRequested(name, _) => name
    case PeerRegistered(name, _) => name
    case PeerRejected(nodeId) => nodeId
    case InviteCreated(_, inviteId, _) => inviteId
    case InviteExpired(inviteId) => inviteId
    case RuleAdded(peer, target) => peer + "/" + target
    case RuleRevoked(peer, target) => peer + "/" + target
  }

  type Bucket = (Kind, string)
  type Times = map<Bucket, nat>

  /** `Instant::duration_since` saturates at zero. */
  function Since(now: nat, t: nat): nat {
    if now < t then 0 else now - t
  }

  predicate Admits(window: nat, last: Times, b: Bucket, now: nat) {
    !(b in last && Since(now, last[b]) < window)
  }

  class Cooldown {
    const window: nat
    var last: Times

    constructor (window: nat)
      ensures this.window == window && last == map[]
    {
      this.window := window;
      last := map[];
    }

    method Admit(kind: Kind, key: string, now: nat) returns (ok: bool)
      modifies this
      ensures ok == Admits(window, old(last), (kind, key), now)
      ensures last == if ok then old(last)[(kind, key) := now] else old(last)
    {
      if (kind, key) in last && Since(now, last[(kind, key)]) < window {
        return false;
      }
      last := last[(kind, key) := now];
      return true;
    }
  }

  // ---- Whole runs of events ----

  datatype Event = Event(bucket: Bucket, at: nat)

  ghost predicate Monotone(es: seq<Event>) {
    forall i, j :: 0 <= i < j < |es| ==> es[i].at <= es[j].at
  }

  function LastAfter(window: nat, es: seq<Event>): Times {
    if es == [] then map[] else
    var last := LastAfter(window, es[..|es| - 1]);
    var e := es[|es| - 1];
    if Admits(window, last, e.bucket, e.at) then last[e.bucket := e.at] else last
  }

  predicate Admitted(window: nat, es: seq<Event>, i: nat)
    requires i < |es|
  {
    Admits(window, LastAfter(window, es[..i]), es[i].bucket, es[i].at)
  }

  lemma AdmittedInPrefix(window: nat, es: seq<Event>, n: nat, i: nat)
    requires i < n <= |es|
    ensures Admitted(window, es[..n], i) == Admitted(window, es, i)
  {
    assert es[..n][..i] == es[..i];
  }

  /** A recorded time is that of an admitted event. */
  lemma {:induction false} LastWasAdmitted(window: nat, es: seq<Event>, b: Bucket) returns (i: nat)
    requires b in LastAfter(window, es)
    ensures i < |es| && es[i].bucket == b && Admitted(window, es, i) && es[i].at == LastAfter(window, es)[b]
  {
    var n := |es| - 1;
    if es[n].bucket == b && Admitted(window, es, n) {
      i := n;
    } else {
      i := LastWasAdmitted(window, es[..n], b);
      AdmittedInPrefix(window, es, n, i);
    }
  }

  /** No admitted event of a bucket is later than its recorded time. */
  lemma {:induction false} LastIsLatest(window: nat, es: seq<Event>, i: nat)
    requires Monotone(es) && i < |es| && Admitted(window, es, i)
    ensures var b := es[i].bucket;
            b in LastAfter(window, es) && es[i].at <= LastAfter(window, es)[b]
  {
    var n := |es| - 1;
    if i < n {
      AdmittedInPrefix(window, es, n, i);
      assert es[..n][i] == es[i];
      LastIsLatest(window, es[..n], i);
    }
  }

  /** The exact rule, for every time-monotone run: an event passes if and only
      if no event of its own bucket that passed lies within the window before
      it. So passed events of one bucket are at least the window apart, and an
      event is suppressed only by one that passed. */
  lemma AdmittedIffNoneWithinWindow(window: nat, es: seq<Event>, j: nat)
    requires Monotone(es) && j < |es|
    ensures Admitted(window, es, j) <==>
            forall i :: 0 <= i < j && es[i].bucket == es[j].bucket && Admitted(window, es, i) ==> es[j].at - es[i].at >= window
  {
    var past, b := es[..j], es[j].bucket;
    if Admitted(window, es, j) {
      forall i | 0 <= i < j && es[i].bucket == b && Admitted(window, es, i) ensures es[j].at - es[i].at >= window {
        AdmittedInPrefix(window, es, j, i);
        assert past[i] == es[i];
        LastIsLatest(window, past, i);
        var k := LastWasAdmitted(window, past, b);
        assert es[k].at <= es[j].at;
      }
    } else {
      var i := LastWasAdmitted(window, past, b);
      AdmittedInPrefix(window, es, j, i);
      assert es[j].at - es[i].at < window by { assert es[i].at <= es[j].at; }
    }
  }

  // ---- Buckets do not interfere ----

  function Only(es: seq<Event>, b: Bucket): seq<Event> {
    if es == [] then [] else
    var e := es[|es| - 1];
    Only(es[..|es| - 1], b) + if e.bucket == b then [e] else []
  }

  /** The decisions taken for one bucket's events, in order. */
  function Decisions(window: nat, es: seq<Event>, b: Bucket): seq<bool> {
    if es == [] then [] else
    var n := |es| - 1;
    Decisions(window, es[..n], b) +
    if es[n].bucket == b then [Admits(window, LastAfter(window, es[..n]), b, es[n].at)] else []
  }

  /** The decisions for a bucket are those taken when its events come alone. */
  lemma {:induction false} BucketsDoNotInterfere(window: nat, es: seq<Event>, b: Bucket)
    ensures Decisions(window, es, b) == Decisions(window, Only(es, b), b)
    ensures b in LastAfter(window, es) <==> b in LastAfter(window, Only(es, b))
    ensures b in LastAfter(window, es) ==> LastAfter(window, es)[b] == LastAfter(window, Only(es, b))[b]
    decreases |es|
  {
    if es != [] {
      var n := |es| - 1;
      BucketsDoNotInterfere(window, es[..n], b);
      var alone := Only(es, b);
      if es[n].bucket == b {
        assert alone[..|alone| - 1] == Only(es[..n], b);
      } else {
        assert alone == Only(es[..n], b);
      }
    }
  }

  // ---- The drain loop ----

  /** A received notification, when it is received, and whether `ntfy.toml`
      can be loaded at that moment. */
  datatype Received = Received(n: Notification, at: nat, enabled: bool)

  function EventsOf(rs: seq<Received>): (es: seq<Event>)
    ensures |es| == |rs|
    ensures forall i :: 0 <= i < |rs| ==> es[i] == Event((KindOf(rs[i].n), KeyOf(rs[i].n)), rs[i].at)
  {
    if rs == [] then [] else
    var r := rs[|rs| - 1];
    EventsOf(rs[..|rs| - 1]) + [Event((KindOf(r.n), KeyOf(r.n)), r.at)]
  }

  /** `drain`: the indices of the notifications that are posted. The cooldown
      runs before the configuration is read, so an event that is admitted
      while notifications are off still starts its window. */
  method Drain(rs: seq<Received>) returns (posted: seq<nat>)
    ensures forall k: nat :: k in posted <==> k < |rs| && rs[k].enabled && Admitted(COOLDOWN, EventsOf(rs), k)
    ensures forall a, b :: 0 <= a < b < |posted| ==> posted[a] < posted[b]
  {
    posted := [];
    var cooldown := new Cooldown(COOLDOWN);
    ghost var es := EventsOf(rs);
    assert es[..0] == [];
    for i := 0 to |rs|
      invariant cooldown.window == COOLDOWN && cooldown.last == LastAfter(COOLDOWN, es[..i])
      invariant forall k: nat :: k in posted <==> k < i && rs[k].enabled && Admitted(COOLDOWN, es, k)
      invariant forall a :: 0 <= a < |posted| ==> posted[a] < i
      invariant forall a, b :: 0 <= a < b < |posted| ==> posted[a] < posted[b]
    {
      assert es[..i + 1][..i] == es[..i];
      var ok := cooldown.Admit(KindOf(rs[i].n), KeyOf(rs[i].n), rs[i].at);
      if ok && rs[i].enabled {
        posted := posted + [i];
      }
    }
  }

  // ---- Notifications that share a bucket ----

  /** Two notifications hold each other back if and only if they are of one kind
      and about one subject: the peer's name when it connects, asks to pair or
      is registered, the node id of a rejected node, the invite, or the rule's
      key. Node ids of known peers and lifetimes of invites do not matter. */
  lemma SameBucketIff(n: Notification, m: Notification)
    ensures (KindOf(n), KeyOf(n)) == (KindOf(m), KeyOf(m)) <==>
            || (n.PeerConnected? && m.PeerConnected? && n.name == m.name)
            || (n.PairRequested? && m.PairRequested? && n.name == m.name)
            || (n.PeerRegistered? && m.PeerRegistered? && n.name == m.name)
            || (n.PeerRejected? && m.PeerRejected? && n.nodeId == m.nodeId)
            || (n.InviteCreated? && m.InviteCreated? && n.inviteId == m.inviteId)
            || (n.InviteExpired? && m.InviteExpired? && n.inviteId == m.inviteId)
            || (n.RuleAdded? && m.RuleAdded? && n.peer + "/" + n.target == m.peer + "/" + m.target)
            || (n.RuleRevoked? && m.RuleRevoked? && n.peer + "/" + n.target == m.peer + "/" + m.target)
  {
  }

  // ---- Rules that share a bucket ----

  predicate SameRuleKey(p: string, t: string, p': string, t': string) {
    KeyOf(RuleAdded(p, t)) == KeyOf(RuleAdded(p', t'))
  }

  /** The longer of two names that start a common key continues the shorter
      one with a slash, and the rest of it starts the other target. */
  lemma KeySplits(p: string, t: string, p': string, t': string)
    requires |p| < |p'|
    ensures SameRuleKey(p, t, p', t') <==> p + "/" <= p' && t == p'[|p| + 1..] + "/" + t'
  {
    var k, k' := p + "/" + t, p' + "/" + t';
    if k == k' {
      assert k[..|p| + 1] == p + "/" && k'[..|p'|] == p';
      assert k[|p| + 1..] == t && k'[|p| + 1..] == p'[|p| + 1..] + "/" + t';
    }
    if p + "/" <= p' && t == p'[|p| + 1..] + "/" + t' {
      assert p' == p + "/" + p'[|p| + 1..];
    }
  }

  lemma KeyOfSameLength(p: string, t: string, p': string, t': string)
    requires |p| == |p'|
    ensures SameRuleKey(p, t, p', t') <==> p == p' && t == t'
  {
    var k, k' := p + "/" + t, p' + "/" + t';
    assert k[..|p|] == p && k'[..|p'|] == p';
    assert k[|p| + 1..] == t && k'[|p'| + 1..] == t';
  }

  /** Two peers have some rules that share a bucket, and so silence each
      other's notifications, exactly when one name continues the other with a
      slash. */
  lemma NamesShareABucketIff(p: string, p': string)
    requires p != p'
    ensures (exists t, t' :: SameRuleKey(p, t, p', t')) <==> p + "/" <= p' || p' + "/" <= p
  {
    if t, t' :| SameRuleKey(p, t, p', t') {
      if |p| < |p'| { KeySplits(p, t, p', t'); }
      else if |p'| < |p| { KeySplits(p', t', p, t); }
      else { KeyOfSameLength(p, t, p', t'); }
    }
    if p + "/" <= p' {
      KeySplits(p, p'[|p| + 1..] + "/", p', "");
      assert p'[|p| + 1..] + "/" + "" == p'[|p| + 1..] + "/";
      assert SameRuleKey(p, p'[|p| + 1..] + "/", p', "");
    } else if p' + "/" <= p {
      KeySplits(p', p[|p'| + 1..] + "/", p, "");
      assert p[|p'| + 1..] + "/" + "" == p[|p'| + 1..] + "/";
      assert SameRuleKey(p, "", p', p[|p'| + 1..] + "/");
    }
  }

  // ---- With targets that `allow` accepts ----

  lemma {:induction false} ByteLenConcat(a: string, b: string)
    ensures ByteLen(a + b) == ByteLen(a) + ByteLen(b)
    decreases |b|
  {
    if b == "" {
      assert a + b == a;
    } else {
      assert (a + b)[..|a + b| - 1] == a + b[..|b| - 1];
      ByteLenConcat(a, b[..|b| - 1]);
    }
  }

  lemma {:induction false} ByteLenAtLeast(s: string)
    ensures ByteLen(s) >= |s|
  {
    if s != "" { ByteLenAtLeast(s[..|s| - 1]); }
  }

  /** What may stand in front of a target: part of a host, short enough to
      leave room for a slash and the shortest target. */
  predicate HostPart(r: string) {
    ':' !in r && (forall i :: 0 <= i < |r| ==> !IsWhitespace(r[i])) && ByteLen(r) <= MAX_TARGET_LEN - 4
  }

  /** The shortest targets have three bytes. */
  lemma ShortestTarget(t: string)
    requires ValidTarget(t)
    ensures ByteLen(t) >= 3
  {
    ValidTargetIffHostPort(t);
    var host, port :| HostPort(t, host, port);
    PortHasNoColon(port);
    ByteLenAtLeast(t);
  }

  lemma PrefixedTarget(r: string, t': string)
    requires ValidTarget(t')
    ensures ValidTarget(r + "/" + t') <==>
            ':' !in r && (forall i :: 0 <= i < |r| ==> !IsWhitespace(r[i])) && ByteLen(r) + 1 + ByteLen(t') <= MAX_TARGET_LEN
  {
    hide ByteLen, IsWhitespace, ParsesAsU16, LastColon, ValidTarget;
    var t := r + "/" + t';
    ValidTargetIffHostPort(t);
    ValidTargetIffHostPort(t');
    PrefixedLen(r, t');
    PrefixedChars(r, t');
    var host', port' :| HostPort(t', host', port');
    assert t == r + "/" + host' + ":" + port';
    PortHasNoColon(port');
    if host, port :| HostPort(t, host, port) {
      PortHasNoColon(port);
      SplitsAtTheColon(t, host, port);
      assert t == (r + "/" + host') + ":" + port';
      SplitsAtTheColon(t, r + "/" + host', port');
      assert forall c :: c in r ==> c in host;
    }
    if ':' !in r {
      assert HostPort(t, r + "/" + host', port');
    }
  }

  lemma PrefixedLen(r: string, t': string)
    ensures ByteLen(r + "/" + t') == ByteLen(r) + 1 + ByteLen(t')
  {
    ByteLenConcat(r + "/", t');
    ByteLenConcat(r, "/");
  }

  lemma PrefixedChars(r: string, t': string)
    ensures (forall i :: 0 <= i < |r + "/" + t'| ==> !IsWhitespace((r + "/" + t')[i])) <==>
            (forall i :: 0 <= i < |r| ==> !IsWhitespace(r[i])) && (forall i :: 0 <= i < |t'| ==> !IsWhitespace(t'[i]))
  {
    var t := r + "/" + t';
    assert forall i :: 0 <= i < |r| ==> t[i] == r[i];
    assert forall i :: 0 <= i < |t'| ==> t[|r| + 1 + i] == t'[i];
    forall i | 0 <= i < |t| ensures i < |r| || i == |r| || t[i] == t'[i - |r| - 1] {
    }
  }

  lemma ShortTargetIsValid()
    ensures ValidTarget("h:1") && ByteLen("h:1") == 3
  {
    assert "h:1" == "h" + ":" + "1";
    assert HostPort("h:1", "h", "1");
    assert "h:1"[..2] == "h:" && "h:"[..1] == "h" && "h"[..0] == "";
    assert ByteLen("h") == 1 && ByteLen("h:") == 2;
    ValidTargetIffHostPort("h:1");
  }

  /** For every peer name and every continuation of it by a slash and part of a
      host there are two rules that `allow` accepts and that share a bucket. */
  lemma RuleBucketCollision(p: string, r: string)
    requires HostPart(r)
    ensures ValidTarget("h:1") && ValidTarget(r + "/" + "h:1")
    ensures SameRuleKey(p + "/" + r, "h:1", p, r + "/" + "h:1")
  {
    hide ByteLen, IsWhitespace, ValidTarget;
    ShortTargetIsValid();
    PrefixedTarget(r, "h:1");
    assert p + "/" + r + "/" + "h:1" == p + "/" + (r + "/" + "h:1");
  }

  /** `longer` is `shorter`, a slash, and part of a host. */
  predicate Continues(longer: string, shorter: string) {
    shorter + "/" <= longer && HostPart(longer[|shorter| + 1..])
  }

  ghost predicate Collide(p: string, t: string, p': string, t': string) {
    ValidTarget(t) && ValidTarget(t') && SameRuleKey(p, t, p', t')
  }

  lemma LongerNameCollidesIff(p: string, p': string)
    requires |p| < |p'|
    ensures (exists t, t' :: Collide(p, t, p', t')) <==> Continues(p', p)
  {
    hide ValidTarget, ByteLen, IsWhitespace;
    if t, t' :| Collide(p, t, p', t') {
      KeySplits(p, t, p', t');
      PrefixedTarget(p'[|p| + 1..], t');
      ShortestTarget(t');
    }
    if Continues(p', p) {
      var r := p'[|p| + 1..];
      assert p' == p + "/" + r;
      RuleBucketCollision(p, r);
      assert Collide(p, r + "/" + "h:1", p', "h:1");
    }
  }

  /** Exactly when two different peers can have rules, with targets that
      `allow` accepts, that silence each other's notifications. */
  lemma PeersCollideIff(p: string, p': string)
    requires p != p'
    ensures (exists t, t' :: Collide(p, t, p', t')) <==> Continues(p', p) || Continues(p, p')
  {
    hide ValidTarget, HostPart, SameRuleKey;
    if |p| < |p'| {
      LongerNameCollidesIff(p, p');
    } else if |p'| < |p| {
      LongerNameCollidesIff(p', p);
      if t, t' :| Collide(p', t, p, t') { SwapRules(p', t, p, t'); assert Collide(p, t', p', t); }
      if t, t' :| Collide(p, t, p', t') { SwapRules(p, t, p', t'); assert Collide(p', t', p, t); }
    } else if t, t' :| Collide(p, t, p', t') {
      KeyOfSameLength(p, t, p', t');
      assert false;
    }
  }

  lemma SwapRules(p: string, t: string, p': string, t': string)
    ensures SameRuleKey(p, t, p', t') == SameRuleKey(p', t', p, t)
  {
  }

  lemma SlashInside(p: string, longer: string)
    ensures p + "/" <= longer ==> '/' in longer
  {
    if p + "/" <= longer {
      assert longer[|p|] == '/';
    }
  }

  /** So without a slash in the names, different rules never share a bucket. */
  lemma SlashFreeRuleBucketsAreDistinct(p: string, t: string, p': string, t': string)
    requires '/' !in p && '/' !in p'
    ensures SameRuleKey(p, t, p', t') <==> (p, t) == (p', t')
  {
    if p != p' {
      NamesShareABucketIff(p, p');
      SlashInside(p, p');
      SlashInside(p', p);
    } else {
      KeyOfSameLength(p, t, p', t');
    }
  }
}
