/** Pairing frames (tmite-proto/src/frame.rs). */
module PairFrames {
  import opened Prelude

  const TYPE_VERSION: byte := 1
  const TYPE_PAIR_HELLO: byte := 2
  const TYPE_PAIR_WAIT: byte := 3
  const TYPE_PAIR_CONFIRM: byte := 4
  const TYPE_PAIR_DENY: byte := 5

  const CODE_VERSION := 1

  datatype PairDenyReason = NameTaken | AdminDenied | Expired | ServerError | Busy

  datatype PairingFrame =
    | Version(version: nat)
    | PairHello(clientVersion: string)
    | PairWait
    | PairConfirm(nodeId: string, name: string)
    | PairDeny(reason: PairDenyReason)

  function MsgType(f: PairingFrame): byte {
    match f
    case Version(_) => TYPE_VERSION
    case PairHello(_) => TYPE_PAIR_HELLO
    case PairWait => TYPE_PAIR_WAIT
    case PairConfirm(_, _) => TYPE_PAIR_CONFIRM
    case PairDeny(_) => TYPE_PAIR_DENY
  }

  /** The type byte tells the variants apart. */
  lemma MsgTypeTellsVariants(f: PairingFrame, g: PairingFrame)
    ensures MsgType(f) == MsgType(g) <==>
            || (f.Version? && g.Version?) || (f.PairHello? && g.PairHello?) || (f.PairWait? && g.PairWait?)
            || (f.PairConfirm? && g.PairConfirm?) || (f.PairDeny? && g.PairDeny?)
    ensures 1 <= MsgType(f) <= 5
  {
  }
}
