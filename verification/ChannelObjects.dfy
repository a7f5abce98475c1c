/** The channel objects, and how the node's messages write them. */
module ChannelObjects {
  import opened Wrappers
  import opened Events
  import opened Channels

  class LocalChannel {
    var id: Option<nat>
    var channelId: string
    var shortChannelId: Option<string>
    var peerNodeId: string
    var capacityMsat: int
    var balanceMsat: int
    var refundAtBlock: int
    var channelReserveSat: int
    var closingType: Option<ClosingType>
    var closingErrorMessage: Option<string>
    var isActive: bool
    var state: string
    var feeBaseMsat: Option<int>
    var feeProportionalMillionths: Option<int>
    var cltvExpiryDelta: Option<int>

    constructor ()
      ensures Value() == NewLive("", "")
    {
      id, shortChannelId, closingType, closingErrorMessage := None, None, None, None;
      channelId, peerNodeId, state := "", "", "N/A";
      capacityMsat, balanceMsat, refundAtBlock, channelReserveSat := 0, 0, 0, 0;
      isActive := true;
      feeBaseMsat, feeProportionalMillionths, cltvExpiryDelta := None, None, None;
    }

    constructor Load(key: nat, r: ChannelRow)
      ensures id == Some(key) && Row() == r
    {
      id := Some(key);
      channelId, shortChannelId, peerNodeId := r.channelId, r.shortChannelId, r.peerNodeId;
      capacityMsat, balanceMsat := r.capacityMsat, r.balanceMsat;
      refundAtBlock, channelReserveSat, closingType := r.refundAtBlock, r.channelReserveSat, r.closingType;
      closingErrorMessage, isActive, state := r.closingErrorMessage, r.isActive, "N/A";
      feeBaseMsat, feeProportionalMillionths, cltvExpiryDelta := None, None, None;
    }

    function Row(): ChannelRow
      reads this
    {
      ChannelRow(channelId, shortChannelId, peerNodeId, capacityMsat, balanceMsat, refundAtBlock, channelReserveSat,
                 closingType, closingErrorMessage, isActive)
    }

    function Value(): Live
      reads this
    {
      Live(id, Row(), state, feeBaseMsat, feeProportionalMillionths, cltvExpiryDelta)
    }
  }

  method WriteCommitted(c: LocalChannel, k: Commitments)
    modifies c`channelReserveSat, c`balanceMsat, c`capacityMsat
    ensures c.Row() == WithCommitted(old(c.Row()), k)
  {
    c.channelReserveSat := k.localReserveSat;
    c.balanceMsat := k.toLocalMsat;
    c.capacityMsat := k.totalFundsMsat;
  }

  method WriteError(c: LocalChannel, error: ChannelError)
    modifies c`closingErrorMessage
    ensures c.closingErrorMessage
         == if ErrorMessage(error).Some? then ErrorMessage(error).value else old(c.closingErrorMessage)
  {
    match error
    case LocalError(thrown) =>
      if thrown.Some? {
        c.closingErrorMessage := thrown.value;
      }
    case RemoteError(printable, ascii, hex) =>
      if printable {
        c.closingErrorMessage := Some(ascii);
      } else {
        c.closingErrorMessage := Some(hex);
      }
  }

  /** Mutual, ours or theirs when that is the only kind of closing published; anything else, be it nothing yet, a
      revoked commitment or several kinds at once, is another closing. */
  method WriteClosing(c: LocalChannel, d: ChannelStateData)
    requires d.Closing?
    modifies c`closingType
    ensures c.closingType == Some(TypeOfClosing(d))
    ensures c.closingType == Some(MUTUAL) <==> PublishedKinds(d) == {MutualClose}
    ensures c.closingType == Some(REMOTE) <==> PublishedKinds(d) == {RemoteCommit}
    ensures c.closingType == Some(LOCAL) <==> PublishedKinds(d) == {LocalCommit}
    ensures c.closingType == Some(OTHER) <==> |PublishedKinds(d)| != 1 || RevokedCommit in PublishedKinds(d)
  {
    if d.mutualClose != [] && d.localCommit.None? && d.remoteCommit.None? && d.revokedCommits == [] {
      c.closingType := Some(MUTUAL);
    } else if d.mutualClose == [] && d.localCommit.None? && d.remoteCommit.Some? && d.revokedCommits == [] {
      c.closingType := Some(REMOTE);
    } else if d.mutualClose == [] && d.localCommit.Some? && d.remoteCommit.None? && d.revokedCommits == [] {
      c.closingType := Some(LOCAL);
    } else {
      c.closingType := Some(OTHER);
    }
    OtherClosings(d);
  }

  lemma OnlyKind(kinds: set<Published>, k: Published)
    requires k in kinds && |kinds| == 1
    ensures kinds == {k}
  {
    assert |kinds - {k}| == 0;
  }

  lemma OtherClosings(d: ChannelStateData)
    requires d.Closing?
    ensures TypeOfClosing(d) == OTHER <==> |PublishedKinds(d)| != 1 || RevokedCommit in PublishedKinds(d)
  {
    hide PublishedKinds;
    var kinds := PublishedKinds(d);
    assert |{MutualClose}| == |{RemoteCommit}| == |{LocalCommit}| == 1;
    if |kinds| == 1 {
      var k :| k in kinds;
      OnlyKind(kinds, k);
      assert k.RevokedCommit? ==> MutualClose !in kinds && RemoteCommit !in kinds && LocalCommit !in kinds;
      assert !k.RevokedCommit? ==> RevokedCommit !in kinds;
    }
  }

  method WriteState(c: LocalChannel, currentState: string, d: ChannelStateData)
    modifies c`closingType, c`state, c`channelReserveSat, c`balanceMsat, c`capacityMsat
    ensures c.Row() == StateChanged(old(c.Row()), d) && c.state == currentState
  {
    if d.Closing? {
      WriteClosing(c, d);
    }
    c.state := currentState;
    if !d.WithoutCommitments? {
      WriteCommitted(c, d.commitments);
    }
  }

  method WriteFees(c: LocalChannel, update: FeeUpdate)
    modifies c`feeBaseMsat, c`feeProportionalMillionths, c`cltvExpiryDelta
    ensures c.Value() == old(c.Value()).(
                           feeBaseMsat := Some(update.baseMsat),
                           feeProportionalMillionths := Some(update.proportionalMillionths),
                           cltvExpiryDelta := Some(update.cltvExpiryDelta))
  {
    c.feeBaseMsat := Some(update.baseMsat);
    c.feeProportionalMillionths := Some(update.proportionalMillionths);
    c.cltvExpiryDelta := Some(update.cltvExpiryDelta);
  }

  /** The messages about what a channel holds, how it fails and how it ends. */
  method WriteProgress(c: LocalChannel, e: Event)
    requires e.ChannelSignatureReceived? || e.ChannelErrorOccurred? || e.LocalCommitConfirmed? || e.ChannelStateChanged?
    modifies c
    ensures c.Value() == Updated(old(c.Value()), e)
  {
    match e
    case ChannelSignatureReceived(_, k) => WriteCommitted(c, k);
    case ChannelErrorOccurred(_, isFatal, error) => if isFatal { WriteError(c, error); }
    case LocalCommitConfirmed(_, refundAtBlock) => c.refundAtBlock := refundAtBlock;
    case ChannelStateChanged(_, currentState, data) => WriteState(c, currentState, data);
  }

  /** What each message about a known channel writes on its object. */
  method Write(c: LocalChannel, e: Event)
    requires IsUpdate(e)
    modifies c
    ensures c.Value() == Updated(old(c.Value()), e)
  {
    if e.ChannelIdAssigned? {
      c.channelId := e.channelId;
    } else if e.ShortChannelIdAssigned? {
      c.shortChannelId := Some(e.shortChannelId);
    } else if e.LocalChannelUpdate? {
      if e.update.Some? {
        WriteFees(c, e.update.value);
      }
    } else {
      WriteProgress(c, e);
    }
  }
}
