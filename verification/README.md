# tmite, verified

tmite lets a client reach TCP targets behind a daemon. A client is paired once,
through a short-lived invite whose code is read out as five words; afterwards it
opens tunnels, and the daemon checks every forward against a table of rules.

This project models the parts of tmite where several actors share state, and
proves what holds over every interleaving of their steps:

- **Pairing** (`PairFrames.dfy`, `Invites.dfy`, `InviteLocal.dfy`, `InviteRuns.dfy`, `InviteLaws.dfy`,
  `InviteCalls.dfy`):
  many invites over one peer store. Each invite has an accept loop, any number of
  connection handlers, queued admin decisions, a deadline, one pair slot and the
  recorded flag; `create` and `decide` calls and admin operations run beside them.
  Every mutex section and every frame read or written is one step. A world keeps
  the history of calls on the store and, per invite, of decisions, recordings and
  delivered results.
- **Agreement** (`PairingAgreement.dfy`, `PairingWitness.dfy`): a client running
  its pairing script, joined to that world by two ordered frame channels.
- **The peer store** (`PeerTables.dfy`, `PeerStore.dfy`): two lists refining a
  map and a set, persisted by write and rename, with writes that fail and crashes
  at any point.
- **The tunnel** (`Framing.dfy`, `Tunnel.dfy`, `TunnelRuns.dfy`, `TunnelDelivery.dfy`): framing on bytes,
  the framed handshake, the two-attempt retry and four copy loops with any chunking.
- **The data plane** (`Targets.dfy`, `Sessions.dfy`, `DataPlane.dfy`, `DataPlaneRuns.dfy`): stream
  handlers, access checks, re-dials and the session registry.
- **The client** (`ClientSession.dfy`, `ClientStore.dfy`, `ConnModel.dfy`,
  `ConnModelRuns.dfy`, `ConnModelShows.dfy`): the shared session, the list of paired servers, and the
  connection registry with its event queue and view model.
- **Codes and notifications** (`SpokenCode.dfy`, `Cooldowns.dfy`).

A concurrent component is a step function over a value that holds the whole state,
`Enabled` says which steps are possible, and `Exec` folds a sequence of steps;
theorems quantify over all sequences that `Exec` accepts. Objects whose methods
update fields are classes. Their contracts give the new state by the functions that
the steps use too; `ConnRegistry` is the exception, because the steps split `admit`
and `close` where other threads can come between.
`dafny verify dfyconfig.toml` checks everything.

## What turned out not to hold

Each of these is stated with a run that shows it and with the exact condition, over
all runs.

- A recorded and confirmed peer can belong to an invite that ends as expired or
  rejected (`RecordedButExpired`). The result is Paired exactly when the accept loop
  was not stopped otherwise first (`PairedIffNotInterrupted`).
- A client that is denied with ServerError can be in the peer table all the same
  (`DeniedButListed`): exactly when the name was free, there was room, and only
  writing the file failed (`DeniedPeerIsListedIffWriteFailed`).
- docs/design.md says the client prints the reason of a PAIR_DENY. The code does so
  exactly when PAIR_WAIT came first (`DenialIsReportedIffAfterWait`); NameTaken, and
  Busy for a refused connection, are the first frame and end as a protocol error
  (`BusyEndsAsProtocolError`).
- The client can fail although the daemon recorded it (`RecordedButClientFailed`). It
  succeeds exactly when it neither timed out nor failed to save, and the name it
  stores is not another server's (`RecordedClientSucceedsIff`).
- The end of a tunnelled stream does not promise delivery, because a copy loop that
  fails finishes the stream behind it (`EndWithoutDelivery`). Everything arrived
  exactly when no channel and no copy loop of that direction holds a byte
  (`DeliveredIffNothingLeft`), as after two clean ends (`CleanEndDeliversAll`).
- The published session status can say Reconnecting over a live connection
  (`StatusMayLagBehind`), exactly when an invalidation was announced after it was
  established; and Established over none (`EstablishedOverNone`), exactly when the
  invalidation was neither announced nor dialed over (`StatusIsWrongExactlyWhen`).
- Rules of two peers can share a cooldown bucket (`RuleBucketCollision`), exactly when
  one name continues the other with a slash and part of a host (`PeersCollideIff`).
- A connection's checks use the name it was accepted under, and that name can change
  hands while the connection is open (`DialsUnderATakenName`). The node is still
  recorded under it exactly when no removal since the accept was left without a
  recording of that node (`StillKnownIffNotLost`, and `CheckedNodeIsKnownIff` for the
  tables a stream was checked against).
- A client can be told Expired although the admin accepted and never refused
  (`AcceptedButExpired`): a decision processed before a handler waits is lost to it. A
  waiting handler can wake exactly when the waiters were notified since it last began
  to wait (`WakesIffRousedSince`).
- An answer without an error does not mean that a restart agrees: after a removal that
  failed to be written, repeating it answers that there is nothing to remove, and the
  peer comes back (`RemovedButBack`). File and memory agree exactly when memory is what
  it was at the last save or reload (`AnswerIsDurableIff`).

## Model

| member | source | states |
|---|---|---|
| Invites.InviteShared.SetDecision | tmite-core/src/daemon/invite.rs:101-104 | the decision is the given one, and exactly the handlers waiting at that moment are released |
| Invites.NotifyReleasesTheWaiting | tmite-core/src/daemon/invite.rs:101-104 | `notify_waiters` in the steps releases the waiting handlers and no others |
| Invites.InviteShared.ClaimPairSlot | tmite-core/src/daemon/invite.rs:110-118 | succeeds exactly when the slot was free, and then holds it |
| Invites.InviteShared.ReleasePairSlot | tmite-core/src/daemon/invite.rs:120-122 | the slot is free and nothing else changed |
| Invites.InviteShared.Finish | tmite-core/src/daemon/invite.rs:130-133 | the result is delivered only if none was before, and the sender is spent |
| InviteLocal.ConnStepKeepsLocal | tmite-core/src/daemon/invite.rs:449-633 | every step of every handler keeps the invariant of its invite: slot, frames sent, recordings, results |
| InviteLocal.LoopStepKeepsLocal | tmite-core/src/daemon/invite.rs:338-422 | every step of the accept loop keeps that invariant |
| InviteRuns.RunsKeepInv | tmite-core/src/daemon/invite.rs:181-633 | over all runs of all invites: the per-invite invariants, events and store history match both ways, the map holds exactly the unfinished invites, the cap |
| InviteLaws.OneRecordingPerInvite | tmite-core/src/daemon/invite.rs:575-605 | an invite records at most one peer, after an accepting decision, by an `add_peer` that answered Ok for that node id under the invite's name |
| InviteCalls.InvitesActOnWhatTheAdminSaid | tmite-core/src/daemon/invite.rs:267-284 | the decisions an invite acted on, then those queued, are in order those that `decide` calls sent to it, and `decide` answered Ok that often |
| InviteCalls.RecordedWasAcceptedByAdmin | tmite-core/src/daemon/invite.rs:351-359 | before the step that recorded a peer the admin called `decide` on that invite with acceptance |
| InviteCalls.RecordedAsCalled | tmite-core/src/daemon/invite.rs:578-584 | a recorded peer is in the store's history with the invite's name, the connection's node id and the time of the recording |
| InviteCalls.HandshakeComesFirst | tmite-core/src/daemon/invite.rs:487-501 | nothing is sent on a handled connection unless it brought VERSION 1 and then a hello, each under its own type byte |
| InviteCalls.InviteWasAskedFor | tmite-core/src/daemon/invite.rs:181-239 | an invite has the name its `create` call asked for, and that name was free when the call checked it |
| InviteLaws.ConfirmedIsRecorded | tmite-core/src/daemon/invite.rs:584-600 | PAIR_CONFIRM goes only to the connection that was recorded, and carries the daemon's node id and the invite's name |
| InviteLaws.OneConfirmPerInvite | tmite-core/src/daemon/invite.rs:575-632 | no two connections of an invite are sent PAIR_CONFIRM |
| InviteLaws.RecordedIsNeverDenied | tmite-core/src/daemon/invite.rs:584-605 | a recorded connection was told to wait and then hears PAIR_CONFIRM or nothing |
| InviteLaws.RecordingsAreAccountedFor | tmite-core/src/daemon/invite.rs:575-605 | every `add_peer` that answered Ok is the recording of exactly one invite, under that invite's name |
| InviteLaws.SlotIsHeldByOneHandler | tmite-core/src/daemon/invite.rs:379-388 | `pair_busy` is set exactly while a handler is live, and never two are |
| InviteLaws.FramesFollowProtocol | tmite-core/src/daemon/invite.rs:449-633 | frames are a prefix of [Deny NameTaken], [Wait, Confirm] or [Wait, Deny r], on a refused connection of [Deny Busy]; every denial sent has its cause in the run |
| InviteLaws.DenialHasCause | tmite-core/src/daemon/invite.rs:379-632 | a denial was decided by a step of the run in a world where its reason held: NameTaken with the name in the table, AdminDenied after a refusal, Expired by a timeout while waiting, ServerError by a failing `add_peer` for that connection after an acceptance, Busy while another handler was live or after another recording |
| InviteLaws.CauseDenies | tmite-core/src/daemon/invite.rs:502-632 | the converse: whenever such a cause arises the client is denied for that reason |
| InviteLaws.VerdictIsWritten | tmite-core/src/daemon/invite.rs:563-631 | a verdict that is written is the frame decided on, after those already sent |
| InviteLaws.WakesIffRousedSince | tmite-core/src/daemon/invite.rs:540-548 | a waiting handler can wake if and only if a decision was processed, or the loop wound up as rejected or expired, since it last began to wait |
| InviteLaws.AcceptedButExpired | tmite-core/src/daemon/invite.rs:101-104 | for every name and node: a run in which the only decision is an acceptance and the client is told Expired |
| InviteLaws.ServerErrorIsLogged | tmite-core/src/daemon/invite.rs:606-616 | behind ServerError the store's history has an `add_peer` for this node id under the invite's name that answered an error |
| InviteLaws.SharedNameNeedsRemoval | tmite-core/src/daemon/invite.rs:502-616 | two invites with one name both record it only with a removal of the name between, although early name checks run outside the recording |
| InviteLaws.PendingInvitesAreCapped | tmite-core/src/daemon/invite.rs:188-239 | pending invites plus creates past the cap check stay within 7 plus the concurrent creates; within 8 when sequential |
| InviteLaws.CapIsReached | tmite-core/src/daemon/invite.rs:188-239 | for any number of concurrent creates a run reaches that bound exactly |
| InviteLaws.OneResultPerInvite | tmite-core/src/daemon/invite.rs:404-421 | at most one result, exactly one once the invite is gone, and a Paired result names a recorded node |
| InviteLaws.ResultIsOfTheFirstStop | tmite-core/src/daemon/invite.rs:343-421 | the delivered result is that of the first stop of the loop: Rejected for a refusal or failed recording, Expired for the deadline or a lost endpoint, Paired with its node for a handler's outcome |
| InviteLaws.OutcomesAreReported | tmite-core/src/daemon/invite.rs:599-616 | while the loop accepts, a finished handler that recorded its peer has queued that outcome, and one told ServerError has queued a rejection |
| InviteLaws.PairedIsDelivered | tmite-core/src/daemon/invite.rs:404-411 | for every name and node: a run that delivers Paired with that node |
| InviteLaws.FinishedInviteIsNotFound | tmite-core/src/daemon/invite.rs:267-284 | after `finish`, at any later point of the run, a decision is answered NotFound and changes nothing else |
| InviteLaws.PairedIffNotInterrupted | tmite-core/src/daemon/invite.rs:343-421 | the delivered result is Paired if and only if the loop was not stopped by a refusal, the deadline, a lost endpoint or a failed recording |
| InviteLaws.RecordedButExpired | tmite-core/src/daemon/invite.rs:599-604 | for every name and node: a run that records and confirms the peer and delivers Expired |
| InviteLaws.DeniedPeerIsListedIffWriteFailed | tmite-core/src/daemon/invite.rs:584-616 | after the recording step the client is denied unless there was room and the write went well, and the peer is listed if and only if there was room |
| InviteLaws.DeniedButListed | tmite-core/src/daemon/invite.rs:606-616 | for every name and node: a run that denies the client and leaves it in the table |
| PairingAgreement.Agreement | tmite-core/src/client/pair.rs:133-192 | if the client returns Ok, the daemon recorded exactly its node id under the invite's name, the admin had called `decide` on that invite with acceptance, and the client finds the daemon's id under its alias or that name, with earlier forwards kept |
| PairingAgreement.PairedAtTheTimeOfStoring | tmite-core/src/client/pair.rs:183-189 | the stored entry carries the time of the step that stored it |
| PairingAgreement.FailedRunStoresNothing | tmite-core/src/client/pair.rs:167-189 | a run that does not return Ok leaves the client's store as it was |
| PairingAgreement.RecordedClientSucceedsIff | tmite-core/src/client/pair.rs:140-192 | once a recorded client's run has ended, it is Ok if and only if no step of it timed out, lost the connection or failed to save, and the stored name is not another server's |
| PairingAgreement.DenialsAreTrue | tmite-core/src/client/pair.rs:148-167 | a reported denial was sent after PAIR_WAIT, has its cause in the daemon's part of the run, and is never NameTaken; that connection was not recorded and the client's store is untouched |
| PairingAgreement.DenialIsReportedIffAfterWait | tmite-core/src/client/pair.rs:133-167 | a denial that is read gives its reason if PAIR_WAIT came first and a protocol error otherwise |
| PairingAgreement.HandshakeIsAccepted | tmite-core/src/client/pair.rs:111-131 | the daemon never rejects a handshake frame of a client that runs this script |
| PairingAgreement.DaemonRuns | tmite-core/src/client/pair.rs:77-193 | the daemon's part of every joint run is a run of the daemon alone, so its laws carry over |
| PairingWitness.PairingCanSucceed | tmite-core/src/client/pair.rs:77-193 | for every client, alias and invite name some run ends in Ok |
| PairingWitness.RecordedButClientFailed | tmite-core/src/client/pair.rs:140-162 | for every client: a run in which it is recorded and confirmed, times out, and stores nothing |
| PairingWitness.BusyEndsAsProtocolError | tmite-core/src/client/pair.rs:133-135 | for every client: a run in which its first frame is PAIR_DENY Busy and it ends with a protocol error |
| PeerTables.CallRefinesAcl | tmite-core/src/daemon/state.rs:118-211 | each call keeps names and rules unique, rules attached to peers and sizes capped, and does to the name map and grant set what the abstract store does, with the same answer |
| PeerStore.AddRuleAnswersItsPosition | tmite-core/src/daemon/state.rs:149-171 | over every run the index answered is where the rule is afterwards, for an existing rule its first position; a new rule is put at the end with its time; and exactly when no index is answered |
| PeerStore.TouchStampsTheFirst | tmite-core/src/daemon/state.rs:137-147 | over every run exactly the first peer with the node id gets the new time, and nothing else changes in memory |
| Prelude.LowercaseIgnoresCase | tmite-core/src/daemon/state.rs:104-111 | node ids are the same exactly if they are up to the case of ASCII letters |
| PeerTables.SizesAgree | tmite-core/src/daemon/state.rs:125-171 | list lengths are the sizes of the map and the set, so the caps on lists cap those |
| PeerTables.RepresentsUnique | tmite-core/src/daemon/state.rs:55-61 | the lists stand for one map and one set only |
| PeerStore.State.Open | tmite-core/src/daemon/state.rs:81-91 | fails exactly when there is a file that does not decode, and else starts with what it decodes to, or empty |
| PeerStore.State.PersistLocked | tmite-core/src/daemon/state.rs:97-102 | the file becomes the encoding of memory exactly when both system calls succeed |
| PeerStore.State.AddPeer | tmite-core/src/daemon/state.rs:125-135 | memory, disk and answer after `add_peer`, also when persisting fails |
| PeerStore.State.TouchLastSeen | tmite-core/src/daemon/state.rs:137-147 | the first peer with the node id is touched; a failed write is ignored |
| PeerStore.State.AddRule | tmite-core/src/daemon/state.rs:149-171 | memory, disk and answer after `add_rule`, with the index of an existing rule |
| PeerStore.State.RemoveRule | tmite-core/src/daemon/state.rs:173-187 | memory, disk and answer after `remove_rule` |
| PeerStore.State.RemovePeer | tmite-core/src/daemon/state.rs:198-211 | memory, disk and answer after `remove_peer`, cascading to rules |
| PeerStore.RunRefinesAcl | tmite-core/src/daemon/state.rs:118-211 | in every run with failed writes and crashes, each call is the map-and-set operation on what the lists stand for |
| PeerStore.CrashConsistency | tmite-core/src/daemon/state.rs:81-102 | the daemon always starts again, reloaded tables are well formed, and the file is absent or what memory held at some moment |
| PeerStore.OkMeansDurable | tmite-core/src/daemon/state.rs:125-211 | an Ok that changed memory made the file equal to it; an I/O error is given exactly when the change stayed in memory only; other errors change nothing |
| PeerStore.FileHoldsLastSync | tmite-core/src/daemon/state.rs:81-102 | over every run the file holds exactly the tables of the last successful save or reload |
| PeerStore.AnswerIsDurableIff | tmite-core/src/daemon/state.rs:125-211 | after an answer without an error the file agrees with memory if and only if memory is as at the last save or reload; always if the call changed the tables and is no touch, and always if no write failed since |
| PeerStore.RemovedButBack | tmite-core/src/daemon/state.rs:198-211 | for every peer: a failed removal, repeated, answers that there is nothing to remove while the file still has the peer |
| PeerStore.CrashIsAllOrNothing | tmite-core/src/daemon/state.rs:97-102 | a crash inside a call after a durable one restarts with the tables from after the call exactly if the file had been renamed, and else from before it |
| PeerStore.FreshPeerHasNoGrants | tmite-core/src/daemon/state.rs:125-211 | a peer that is added, or added again, starts without grants |
| PeerStore.ReRecordingNeedsRemoval | tmite-core/src/daemon/state.rs:125-211 | two Ok recordings of a name have a removal of it between them, through failed writes and crashes |
| Framing.BuildFrame | tmite-proto/src/frame.rs:22-34 | the pushes build the frame that the framing laws speak of, or refuse an oversized payload |
| Framing.FramingIsBijection | tmite-proto/src/frame.rs:22-65 | bytes parse to a type and payload if and only if framing those gives the bytes |
| Framing.HeaderIsBigEndian | tmite-proto/src/frame.rs:22-34 | the layout byte by byte, length with its most significant byte first; framed exactly up to 4096 bytes |
| PairFrames.MsgTypeTellsVariants | tmite-proto/src/frame.rs:107-117 | the type byte tells the variants apart |
| Framing.FramesArePrefixFree | tmite-proto/src/frame.rs:47-65 | no frame is a proper prefix of another |
| Framing.RecvStream.ReadExact | tmite-core/src/stream_io.rs:31-44 | fills the buffer with the next bytes whatever the chunking, or fails exactly when too few are left |
| Framing.RecvStream.ReadFrame | tmite-core/src/stream_io.rs:28-46 | result and remaining stream of one frame read, whatever the chunking |
| Framing.TakeFrameIffFramed | tmite-core/src/stream_io.rs:28-46 | a read yields a frame if and only if the stream begins with it, and takes nothing else |
| Framing.CutFrameIsNotRead | tmite-core/src/stream_io.rs:28-46 | a stream that ends inside a frame yields no frame |
| Framing.FramesSelfDelimit | tmite-core/src/stream_io.rs:28-46 | reading n frames succeeds if and only if the stream is those frames followed by the bytes left over |
| Tunnel.PumpCounted | tmite-core/src/daemon/main_ep.rs:309-337 | output is a prefix of input, all of it when the loop ends Ok; the counter counts bytes read, at most one buffer ahead |
| TunnelRuns.LegStepKeepsLeg | tmite-core/src/daemon/main_ep.rs:118-276 | no step of the daemon or a target creates, loses or reorders bytes of a stream |
| TunnelRuns.OnlyRelayingLegSaysOk | tmite-core/src/daemon/main_ep.rs:214-223 | the client reads OK only from a handler that has dialed and relays |
| TunnelRuns.TunnelIsTransparent | tmite-core/src/client/connect.rs:515-630 | for any chunking, failure and either attempt: delivered bytes are prefixes of those written, only the relaying stream delivers, no control byte leaks, each loop holds at most 8192 bytes |
| TunnelRuns.AtMostTwoStreams | tmite-core/src/client/connect.rs:515-590 | a local connection opens at most two streams, the second only on the second attempt |
| TunnelRuns.RetriesExactlyOnce | tmite-core/src/client/connect.rs:515-590 | counting failures in the run: the client relays exactly if it read OK, is through exactly if it gave up or failed twice, and otherwise its attempt is the number of failures |
| TunnelRuns.EndsArePassedOn | tmite-core/src/client/connect.rs:605-629 | each of the four receivers sees an end if and only if the copy loop before it has ended |
| TunnelDelivery.SecondStreamDeliversEverything | tmite-core/src/client/connect.rs:515-630 | for every request and answer: a run in which the first stream fails and the second delivers all of both, with clean ends |
| TunnelRuns.DeliveredIffNothingLeft | tmite-core/src/client/connect.rs:596-630 | in both directions the receiver has all that was written if and only if neither channel and neither copy loop holds a byte |
| TunnelRuns.CleanEndDeliversAll | tmite-core/src/client/connect.rs:596-630 | when both loops of a direction end Ok, the receiver has exactly what was written and sees the end |
| TunnelRuns.CountersCountBytesRead | tmite-core/src/client/connect.rs:587-629 | the counters equal the bytes taken from the application and from the stream |
| TunnelRuns.EndWithoutDelivery | tmite-core/src/client/connect.rs:617-628 | for every payload: a run in which the target sees a clean end and no byte |
| Targets.ValidTargetIffHostPort | tmite-core/src/daemon/main_ep.rs:236-247 | accepted exactly when it reads host:port with one colon, a host, a 16-bit port, no whitespace and at most 256 bytes |
| Targets.PortIsDecimal | tmite-core/src/daemon/main_ep.rs:246-246 | a port is read exactly when it is a number below 65536 as it is printed, after zeros and at most one plus sign |
| Sessions.SessionEntry.SetForwards | tmite-core/src/daemon/sessions.rs:45-47 | the announced forwards are replaced and nothing else |
| Sessions.SessionEntry.ForwardOpen | tmite-core/src/daemon/sessions.rs:50-57 | the target's live count goes up by one |
| Sessions.SessionEntry.ForwardClose | tmite-core/src/daemon/sessions.rs:60-68 | it goes down by one, is removed at zero, and an unknown target changes nothing |
| Sessions.SessionEntry.Snapshot | tmite-core/src/daemon/sessions.rs:70-82 | one line per announced forward, in order, with its live count |
| Sessions.Registry.Register | tmite-core/src/daemon/sessions.rs:118-123 | the newest connection replaces the node's entry |
| Sessions.Registry.Unregister | tmite-core/src/daemon/sessions.rs:127-135 | removes the entry only while it is this connection's |
| Sessions.Registry.PeerSnapshot | tmite-core/src/daemon/sessions.rs:138-144 | reports the entry under the node's key, if any |
| DataPlane.ValidateForetellsForward | tmite-core/src/daemon/main_ep.rs:165-183 | in the same state VALIDATE answers OK exactly when FORWARD would dial, and else gives the same denial |
| DataPlaneRuns.DialsAreAuthorized | tmite-core/src/daemon/main_ep.rs:118-212 | over all runs a stream dials at most once, after a FORWARD of matching type, for a well-shaped target that the tables granted to its peer at the check |
| DataPlaneRuns.RepliesAreRight | tmite-core/src/daemon/main_ep.rs:142-212 | over all runs: ServerError exactly for a malformed target, Unauthorized exactly for a well-shaped one the tables of the check do not grant, OK exactly for a granted VALIDATE or a SESSION, TargetUnreachable after a dial |
| DataPlaneRuns.FirstFrameDecides | tmite-core/src/daemon/main_ep.rs:126-163 | a stream is closed unanswered exactly for a frame that is none of FORWARD, VALIDATE and SESSION under its own type byte, and else goes on to what it asked for |
| DataPlaneRuns.AllowedForwardDials | tmite-core/src/daemon/main_ep.rs:185-212 | a check goes on to dial that target if and only if the request is a FORWARD, well shaped and granted, and the dial's outcome decides the answer |
| DataPlaneRuns.AcceptStampsThePeer | tmite-core/src/daemon/main_ep.rs:52-73 | an accept stamps the peer that the connection is named after |
| DataPlaneRuns.ForwardsAreThoseAnnounced | tmite-core/src/daemon/main_ep.rs:142-158 | a connection's forwards are those of the last SESSION frame read on it |
| DataPlaneRuns.ConnectionsAreOfKnownPeers | tmite-core/src/daemon/main_ep.rs:48-83 | the name whose rules a connection is checked against is one its authenticated node id was recorded under when it was accepted |
| DataPlaneRuns.StillKnownIffNotLost | tmite-core/src/daemon/main_ep.rs:52-83 | at any moment the node of a connection is still recorded under its name if and only if since its accept no removal of the name was left without a recording of that node |
| DataPlaneRuns.CheckedNodeIsKnownIff | tmite-core/src/daemon/main_ep.rs:165-186 | the tables a stream was checked against had its node under its peer's name if and only if the name was not lost to it between the accept and that check |
| DataPlaneRuns.DialsUnderATakenName | tmite-core/src/daemon/main_ep.rs:171-186 | for all names, nodes and targets: a run in which a node that is no longer recorded dials under the name another node took |
| DataPlaneRuns.RunsKeepLiveOk | tmite-core/src/daemon/main_ep.rs:222-224 | a live count is always the number of that connection's streams between open and close |
| DataPlaneRuns.CountStepKeepsLiveOk | tmite-core/src/daemon/sessions.rs:50-68 | opening and closing keep that equality, so the saturating subtraction never clips |
| DataPlaneRuns.RunsKeepRegistryOk | tmite-core/src/daemon/main_ep.rs:73-84 | a key is in the registry exactly when its newest registered connection has not unregistered, and maps to that one |
| DataPlaneRuns.SnapshotTellsTheTruth | tmite-core/src/daemon/sessions.rs:118-144 | a node shows a session if and only if its newest connection has not unregistered, with the forwards it announced last and the true number of relaying streams for each |
| ClientSession.Session.Get | tmite-core/src/client/session.rs:79-105 | hands out the cached connection, or dials, counts a redial and caches only after the hello |
| ClientSession.Session.Invalidate | tmite-core/src/client/session.rs:127-132 | drops the cached connection and publishes Reconnecting |
| ClientSession.SessionLaws | tmite-core/src/client/session.rs:79-132 | in every interleaving: one dial at a time, only connections that answered the hello are used, establishments are paid for by drops, redials, and what is published of it, counts dials after the first establishment |
| ClientSession.StatusIsTheLastPublished | tmite-core/src/client/session.rs:64-132 | the status is that of the last dial, answered hello or announced invalidation |
| ClientSession.StatusIsWrongExactlyWhen | tmite-core/src/client/session.rs:64-132 | over a cached connection the status is Reconnecting if and only if an invalidation was announced after its hello, and else Established; without one it is Established if and only if the clearing was neither announced nor dialed over |
| ClientSession.StatusMayLagBehind | tmite-core/src/client/session.rs:127-132 | a run in which the status says Reconnecting over a cached connection |
| ClientSession.EstablishedOverNone | tmite-core/src/client/session.rs:127-129 | a run in which the status says Established with no connection cached |
| ClientStore.Store.Upsert | tmite-core/src/fsio.rs:190-204 | refused exactly when another server holds the name, and then nothing changes |
| ClientStore.Store.SetForwards | tmite-core/src/fsio.rs:216-224 | only the named entry's forwards change; tells whether it exists |
| ClientStore.SetForwardsReplacesThem | tmite-core/src/fsio.rs:216-224 | over every run the named server's forwards become the given ones, and nothing else changes in any entry |
| ClientStore.RunsStayDistinct | tmite-core/src/fsio.rs:190-224 | over every run names and node ids are pairwise distinct |
| ClientStore.LookupsAreInverse | tmite-core/src/fsio.rs:206-212 | an entry is found by name if and only if it is found by node id, if and only if it is in the list |
| ClientStore.UpsertIsMapUpdate | tmite-core/src/fsio.rs:190-212 | an accepted upsert is found under its node id and name and leaves every other server alone |
| ClientStore.RePairingKeepsForwards | tmite-core/src/client/pair.rs:175-189 | pairing again keeps saved forwards, also under a new name that replaces the old; a refused name changes nothing |
| ConnModel.ConnectModel.ApplyEvent | tmite-core/src/client/model.rs:109-134 | the view after a connection event |
| ConnModel.ConnectModel.ActivePerForward | tmite-core/src/client/model.rs:140-148 | one count per forward, each the number of its rows, adding up to all rows |
| ConnModel.ConnRegistry.Create | tmite-core/src/client/model.rs:228-242 | a fresh id that was never used, registered and not announced |
| ConnModel.ConnRegistry.Admit | tmite-core/src/client/model.rs:245-253 | announced once however often it is admitted |
| ConnModel.ConnRegistry.Close | tmite-core/src/client/model.rs:258-271 | Closed is emitted exactly when the handle was still registered |
| ConnModelRuns.ConnectionsAreConserved | tmite-core/src/client/model.rs:109-134 | ids handed out equal open handles plus Closed events; drained, closed total plus open handles, and the rows are the announced open connections, each with its peer and forward |
| ConnModelShows.RowsShowTheLastSnapshot | tmite-core/src/client/model.rs:121-126 | once all is drained, a row shows its connection's real count at the last byte snapshot |
| ConnModelRuns.DisplayedNeverExceedsReal | tmite-core/src/client/model.rs:121-131 | bytes on display never exceed the sum of the real counters |
| ConnModelRuns.DisplayedNeverDecreases | tmite-core/src/client/model.rs:121-131 | nor do they ever go down |
| SpokenCode.NormalizeSpread | tmite-proto/src/pairing.rs:43-53 | whatever the case and separators, normalizing gives the words in lower case |
| SpokenCode.NormalizeIdempotent | tmite-proto/src/pairing.rs:43-53 | normalizing is idempotent through joining and splitting again |
| SpokenCode.UndigitsIffDigits | docs/design.md:175-178 | five word positions decode to six bytes if and only if they are the positions that encode them |
| SpokenCode.VectorPositions | vectors/pairing.json:2-37 | the positions of the words of five published vectors |
| SpokenCode.VectorsAreReproduced | vectors/pairing.json:2-31 | a list with those words at those positions prints the published codes |
| SpokenCode.EntropyToCode | tmite-proto/src/pairing.rs:62-70 | prints the five words of the entropy and its checksum, separated by spaces |
| SpokenCode.DecodeIffCodeWords | tmite-proto/src/pairing.rs:73-103 | a code decodes to an entropy if and only if its normalized words are that entropy's words |
| SpokenCode.SpokenRoundTrip | tmite-proto/src/pairing.rs:43-103 | a code spoken in any case with any separators decodes to its entropy |
| SpokenCode.PrintedRoundTrip | tmite-proto/src/pairing.rs:62-103 | the printed code decodes to its entropy and its last word is among the first 41 |
| Cooldowns.Cooldown.Admit | tmite-core/src/daemon/notify.rs:336-345 | admits unless the bucket's last admission is within the window, and records only admissions |
| Cooldowns.AdmittedIffNoneWithinWindow | tmite-core/src/daemon/notify.rs:322-346 | in every time-monotone run an event passes if and only if no passed event of its bucket lies within the window before it |
| Cooldowns.BucketsDoNotInterfere | tmite-core/src/daemon/notify.rs:322-346 | decisions for a bucket are those of running its events alone |
| Cooldowns.Drain | tmite-core/src/daemon/notify.rs:351-377 | posts, in order, exactly the events that pass the cooldown while notifications are enabled |
| Cooldowns.SameBucketIff | tmite-core/src/daemon/notify.rs:174-202 | two notifications share a bucket if and only if they are of one kind and about one subject, kind by kind |
| Cooldowns.NamesShareABucketIff | tmite-core/src/daemon/notify.rs:189-202 | two different peers have some targets with one key if and only if one name continues the other with a slash |
| Cooldowns.PeersCollideIff | tmite-core/src/daemon/ipc.rs:204-214 | with targets that `allow` accepts: if and only if the continuation is a slash and part of a host of at most 252 bytes |
| Cooldowns.RuleBucketCollision | tmite-core/src/daemon/notify.rs:197-200 | for every such pair of names two accepted rules with one key |
| Cooldowns.SlashFreeRuleBucketsAreDistinct | tmite-core/src/daemon/notify.rs:189-202 | without slashes in the names two rules share a key if and only if they are the same rule |

## Left out

- iroh endpoints, relays, QUIC and address lookup: streams are reliable and ordered and carry an authenticated remote node id.
- SHA-256, HKDF, key generation and randomness: the checksum is any function, ids are fresh values.
- JSON and TOML: the encoder and decoder are parameters assumed inverse (`Inverse`, `ValidCfg`).
- The `mnemonic` crate: modelled from docs/design.md as a positional code over a word list of at least 1626 distinct lower-case words; a value that does not fit its byte group is `Malformed`.
- A decoded length other than six bytes in `code_to_entropy`: cannot arise from five words in that model.
- Time: deadlines (with the cap on an invite's lifetime), prompt timeouts and idle timeouts are steps that may happen at any moment; `RejectDelay` only postpones steps and has no state here.
- Scheduling: `biased` in the accept loop's select only orders branches that are ready together; every order is allowed here.
- A daemon restart in the invite world: invites do not survive one; restarts of the store itself are in `PeerStore`.
- IPC disconnects: docs/design.md says an invite ends when the admin's socket closes; the code has no such branch, and neither has the model.
- `InviteManager::list`, `pending_count`, emitted IPC events, notifications sent by the handlers, and log output: easy or observers only.
- Truncation: `closed_total`, byte counters and `next_id` are unbounded here, 64-bit in the source.
- Key parsing in the client (`PublicKey::from_bytes`): node ids are strings, and the daemon sends its own valid one.
- Concurrent writers of servers.toml: load, upsert and save are one step of the client, and saving succeeds or changes nothing.
- `Lowercase` is ASCII: node ids are hexadecimal, so the Unicode `to_lowercase` of the registry agrees with it.
- The accept step of the data plane looks the peer up and touches `last_seen` at once; refused nodes and their delay do not appear.
- `ValidCfg` asks that the FORWARD frame fits 4096 bytes: `parse_fwd_spec` admits only targets of at most 256 bytes, whose JSON does.
- `parse_fwd_spec`, `validate_forward`, hex output, socket path candidates, path sorting, exit codes: easy on their own. (`parse_fwd_spec` accepts local port 0 although its message says 1-65535.)
- The TUI, prompts, clap parsing, the IPC socket server, ntfy delivery and `ntfy.toml`: user interface and plumbing.
- InviteLaws.PendingInvitesAreCapped: counts creates between the cap check and the insertion; those still before the check do not count against the bound.
