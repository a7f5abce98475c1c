/** Everything that can happen to the payment and channel ledgers: messages from the Lightning node and from the
    Electrum wallet, actions of the user, and maintenance. One event is one atomic step. */
module Events {
  import opened Wrappers

  type ActorRef = nat

  /** An HTLC of a commitment, as seen from the owner of that commitment. */
  datatype Htlc = Htlc(outgoing: bool, paymentHash: string)

  datatype Commitments = Commitments(toLocalMsat: int, totalFundsMsat: int, localReserveSat: int)

  /** Transactions are named by their id. */
  datatype ChannelStateData =
    | WithoutCommitments
    | WithCommitments(commitments: Commitments)
    | Closing(
        commitments: Commitments,
        mutualClose: seq<string>,
        localCommit: Option<string>,
        remoteCommit: Option<string>,
        revokedCommits: seq<string>)

  /** A throwable may have no message. */
  datatype ChannelError =
    | LocalError(thrown: Option<Option<string>>)
    | RemoteError(printable: bool, ascii: string, hex: string)

  datatype FeeUpdate = FeeUpdate(baseMsat: int, proportionalMillionths: int, cltvExpiryDelta: int)

  datatype Event =
    // from the Lightning node
    | ChannelCreated(actor: ActorRef, temporaryChannelId: string, remoteNodeId: string)
    | ChannelRestored(actor: ActorRef, channelId: string, remoteNodeId: string, htlcs: seq<Htlc>)
    | ChannelIdAssigned(actor: ActorRef, channelId: string)
    | ShortChannelIdAssigned(actor: ActorRef, shortChannelId: string)
    | ChannelSignatureSent(nextRemoteCommit: Option<seq<Htlc>>)
    | ChannelSignatureReceived(actor: ActorRef, commitments: Commitments)
    | Terminated(actor: ActorRef)
    | ChannelErrorOccurred(actor: ActorRef, isFatal: bool, error: ChannelError)
    | LocalCommitConfirmed(actor: ActorRef, refundAtBlock: int)
    | ChannelStateChanged(actor: ActorRef, currentState: string, data: ChannelStateData)
    | LocalChannelUpdate(actor: ActorRef, update: Option<FeeUpdate>)
    | PaymentFailed(paymentHash: string)
    | PaymentSent(paymentHash: string, amountWithFeesMsat: int, feesMsat: int, preimage: string)
    | PaymentReceived(paymentHash: string, amountMsat: int)
    // from the Electrum wallet
    | TransactionReceived(
        txid: string, receivedSat: int, sentSat: int, depth: int, feeSat: Option<int>, payload: string)
    | TransactionConfidenceChanged(txid: string, depth: int)
    // from the user
    | SendLightning(paymentHash: string, requestedMsat: int, amountMsat: int)
    | RequestGenerated(paymentHash: string, requestedMsat: int)
    // maintenance: a new process, a later initialisation check, a wallet resync
    | Restart
    | Checkup
    | DeleteAllOnchainTxs
}
