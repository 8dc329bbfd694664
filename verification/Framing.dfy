/** The wrapper every secret-chat message travels in, and the layer and sequence arithmetic. */
module Framing {
  import opened Prelude

  const INITIAL_REMOTE_LAYER := 46
  const MIN_LAYER := 73
  const MAX_LAYER := 144

  /** A shared key. A frame names the key that encrypts it by fingerprint; here, by the key itself. */
  type Key = nat

  /** What a wrapper carries: a message, or one of the service actions the package acts on. */
  datatype Action =
    | Content(id: int)
    | Withdrawn(id: int) // a self-delete that took the slot of message `id`
    | Noop
    | NotifyLayer(layer: int)
    | Resend(first: int, last: int)
    | RequestKey(xid: int, gA: nat)
    | AcceptKey(xid: int, gB: nat, claimed: Key)
    | CommitKey(xid: int, claimed: Key)
    | AbortKey(xid: int)

  datatype Wrapper = Wrapper(inSeq: int, outSeq: int, layer: int, action: Action)

  /** The layer a peer is known to have: it never falls, and it never passes what the peer has announced. */
  function RaiseRemoteLayer(stored: int, announced: int): (r: int)
    ensures stored <= r && announced <= r && (r == stored || r == announced)
  {
    Max(stored, announced)
  }

  /** The layer to write at: the peer's own from 73 to 144, and otherwise the nearer of the two. */
  function OutgoingLayer(remote: int): (r: int)
    ensures 73 <= remote <= 144 ==> r == remote
    ensures remote < 73 ==> r == 73
    ensures remote > 144 ==> r == 144
  {
    Max(MIN_LAYER, Min(remote, MAX_LAYER))
  }

  function InParity(outbound: bool): int { if outbound then 0 else 1 }

  function OutParity(outbound: bool): int { if outbound then 1 else 0 }

  function TransformIn(raw: int, outbound: bool): int { 2 * raw + InParity(outbound) }

  function TransformOut(raw: int, outbound: bool): int { 2 * raw + OutParity(outbound) }
}
