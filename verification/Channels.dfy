/** The map of live channels and the channels table, and what each event does to them. */
module Channels {
  import opened Wrappers
  import opened Events

  datatype ClosingType = MUTUAL | LOCAL | REMOTE | OTHER

  /** The stored columns of a channel that the modelled code reads. */
  datatype ChannelRow = ChannelRow(
    channelId: string,
    shortChannelId: Option<string>,
    peerNodeId: string,
    capacityMsat: int,
    balanceMsat: int,
    refundAtBlock: int,
    channelReserveSat: int,
    closingType: Option<ClosingType>,
    closingErrorMessage: Option<string>,
    isActive: bool)

  /** A channel in memory: its row, the id it was stored under if it was, and what is never stored. */
  datatype Live = Live(
    id: Option<nat>,
    row: ChannelRow,
    state: string,
    feeBaseMsat: Option<int>,
    feeProportionalMillionths: Option<int>,
    cltvExpiryDelta: Option<int>)

  /** `new LocalChannel()`, once it has an id and a peer. */
  function NewLive(channelId: string, peerNodeId: string): Live {
    Live(None, ChannelRow(channelId, None, peerNodeId, 0, 0, 0, 0, None, None, true), "N/A", None, None, None)
  }

  datatype ChannelTable = ChannelTable(rows: map<nat, ChannelRow>, nextId: nat)

  datatype ChannelState = ChannelState(live: map<ActorRef, Live>, table: ChannelTable)

  const NO_CHANNELS := ChannelState(map[], ChannelTable(map[], 0))

  // ---- the table

  /** INSERT OR REPLACE under the id of the channel, or a generated one; the channel id is unique. */
  function StoreRow(t: ChannelTable, id: Option<nat>, r: ChannelRow): ChannelTable {
    var k := if id.Some? then id.value else t.nextId;
    ChannelTable(
      (map i | i in t.rows && i != k && t.rows[i].channelId != r.channelId :: t.rows[i])[k := r],
      if k < t.nextId then t.nextId else k + 1)
  }

  /** Only channels with a capacity are stored. */
  function SaveRow(t: ChannelTable, id: Option<nat>, r: ChannelRow): ChannelTable {
    if r.capacityMsat > 0 then StoreRow(t, id, r) else t
  }

  /** Storing a channel gives it the id of its row. */
  function IdAfterSave(t: ChannelTable, id: Option<nat>, r: ChannelRow): Option<nat> {
    if r.capacityMsat > 0 && id.None? then Some(t.nextId) else id
  }

  function ChannelQuery(t: ChannelTable, channelId: string): set<nat> {
    set i | i in t.rows && t.rows[i].channelId == channelId
  }

  ghost function FindRow(t: ChannelTable, channelId: string): (r: Option<nat>)
    ensures r.Some? ==> r.value in ChannelQuery(t, channelId)
    ensures r.None? ==> ChannelQuery(t, channelId) == {}
  {
    if i :| i in ChannelQuery(t, channelId) then Some(i) else None
  }

  /** Stored channels have a capacity and unique ids. */
  ghost predicate TableOk(t: ChannelTable) {
    && (forall i :: i in t.rows ==> i < t.nextId && t.rows[i].capacityMsat > 0)
    && (forall i, j :: i in t.rows && j in t.rows && t.rows[i].channelId == t.rows[j].channelId ==> i == j)
  }

  lemma StoreKeepsTable(t: ChannelTable, id: Option<nat>, r: ChannelRow)
    requires TableOk(t)
    ensures TableOk(SaveRow(t, id, r))
  {
  }

  // ---- one event

  function Put(s: ChannelState, a: ActorRef, c: Live): ChannelState { s.(live := s.live[a := c]) }

  function PutAndSave(s: ChannelState, a: ActorRef, c: Live): ChannelState {
    ChannelState(s.live[a := c.(id := IdAfterSave(s.table, c.id, c.row))], SaveRow(s.table, c.id, c.row))
  }

  function GetOrCreate(s: ChannelState, a: ActorRef, channelId: string, peer: string): Live {
    if a in s.live
    then s.live[a].(row := s.live[a].row.(channelId := channelId, peerNodeId := peer))
    else NewLive(channelId, peer)
  }

  /** What the node tells only once about a channel is read back from its row. */
  ghost function WithNotes(c: Live, t: ChannelTable, channelId: string): Live {
    match FindRow(t, channelId)
    case Some(i) =>
      var r := t.rows[i];
      c.(row := c.row.(closingErrorMessage := r.closingErrorMessage, refundAtBlock := r.refundAtBlock))
    case None => c
  }

  function WithCommitted(r: ChannelRow, k: Commitments): ChannelRow {
    r.(channelReserveSat := k.localReserveSat, balanceMsat := k.toLocalMsat, capacityMsat := k.totalFundsMsat)
  }

  ghost function Terminate(t: ChannelTable, channelId: string): ChannelTable {
    match FindRow(t, channelId)
    case Some(i) => SaveRow(t, Some(i), t.rows[i].(isActive := false))
    case None => t
  }

  /** The closing message an error leaves, if it leaves any. */
  function ErrorMessage(error: ChannelError): Option<Option<string>> {
    match error
    case LocalError(thrown) => thrown
    case RemoteError(printable, ascii, hex) => Some(Some(if printable then ascii else hex))
  }

  datatype Published = MutualClose | LocalCommit | RemoteCommit | RevokedCommit

  /** The kinds of closing transactions that were published. */
  function PublishedKinds(d: ChannelStateData): set<Published>
    requires d.Closing?
  {
    (if d.mutualClose != [] then {MutualClose} else {}) + (if d.localCommit.Some? then {LocalCommit} else {}) +
    (if d.remoteCommit.Some? then {RemoteCommit} else {}) + (if d.revokedCommits != [] then {RevokedCommit} else {})
  }

  /** A channel closes in the one way that was published. */
  function TypeOfClosing(d: ChannelStateData): ClosingType
    requires d.Closing?
  {
    var kinds := PublishedKinds(d);
    if kinds == {MutualClose} then MUTUAL
    else if kinds == {RemoteCommit} then REMOTE
    else if kinds == {LocalCommit} then LOCAL
    else OTHER
  }

  function StateChanged(r: ChannelRow, d: ChannelStateData): ChannelRow {
    var closed := if d.Closing? then r.(closingType := Some(TypeOfClosing(d))) else r;
    if d.WithoutCommitments? then closed else WithCommitted(closed, d.commitments)
  }

  function CreatedStep(s: ChannelState, a: ActorRef, channelId: string, peer: string): ChannelState {
    Put(s, a, GetOrCreate(s, a, channelId, peer))
  }

  ghost function RestoredStep(s: ChannelState, a: ActorRef, channelId: string, peer: string): ChannelState {
    Put(s, a, WithNotes(GetOrCreate(s, a, channelId, peer), s.table, channelId))
  }

  ghost function TerminatedStep(s: ChannelState, a: ActorRef): ChannelState {
    ChannelState(s.live - {a}, if a in s.live then Terminate(s.table, s.live[a].row.channelId) else s.table)
  }

  ghost function ChannelStep(s: ChannelState, e: Event): ChannelState {
    match e
    case ChannelCreated(a, temporaryId, peer) => CreatedStep(s, a, temporaryId, peer)
    case ChannelRestored(a, channelId, peer, _) => RestoredStep(s, a, channelId, peer)
    case Restart => s.(live := map[])
    case Terminated(a) => TerminatedStep(s, a)
    case ChannelIdAssigned(a, _) => UpdateStep(s, a, e)
    case ShortChannelIdAssigned(a, _) => UpdateStep(s, a, e)
    case ChannelSignatureReceived(a, _) => UpdateStep(s, a, e)
    case ChannelErrorOccurred(a, _, _) => UpdateStep(s, a, e)
    case LocalCommitConfirmed(a, _) => UpdateStep(s, a, e)
    case ChannelStateChanged(a, _, _) => UpdateStep(s, a, e)
    case LocalChannelUpdate(a, _) => UpdateStep(s, a, e)
    case _ => s
  }

  /** The messages about a channel that must already be known; others are ignored. */
  predicate IsUpdate(e: Event) {
    e.ChannelIdAssigned? || e.ShortChannelIdAssigned? || e.ChannelSignatureReceived? || e.ChannelErrorOccurred?
    || e.LocalCommitConfirmed? || e.ChannelStateChanged? || e.LocalChannelUpdate?
  }

  /** The channel after the message. */
  function Updated(c: Live, e: Event): Live
    requires IsUpdate(e)
  {
    match e
    case ChannelIdAssigned(_, channelId) => c.(row := c.row.(channelId := channelId))
    case ShortChannelIdAssigned(_, id) => c.(row := c.row.(shortChannelId := Some(id)))
    case ChannelSignatureReceived(_, k) => c.(row := WithCommitted(c.row, k))
    case ChannelErrorOccurred(_, isFatal, error) =>
      if isFatal && ErrorMessage(error).Some?
      then c.(row := c.row.(closingErrorMessage := ErrorMessage(error).value)) else c
    case LocalCommitConfirmed(_, block) => c.(row := c.row.(refundAtBlock := block))
    case ChannelStateChanged(_, state, data) => c.(row := StateChanged(c.row, data), state := state)
    case LocalChannelUpdate(_, update) =>
      if update.None? then c
      else c.(feeBaseMsat := Some(update.value.baseMsat),
              feeProportionalMillionths := Some(update.value.proportionalMillionths),
              cltvExpiryDelta := Some(update.value.cltvExpiryDelta))
  }

  /** Whether the message also stores the channel. */
  predicate Saves(e: Event) {
    || e.ChannelIdAssigned?
    || e.LocalCommitConfirmed?
    || e.ChannelStateChanged?
    || (e.ChannelErrorOccurred? && e.isFatal && ErrorMessage(e.error).Some?)
  }

  function UpdatedAndSaved(c: Live, t: ChannelTable, e: Event): (Live, ChannelTable)
    requires IsUpdate(e)
  {
    var after := Updated(c, e);
    if Saves(e) then (after.(id := IdAfterSave(t, after.id, after.row)), SaveRow(t, after.id, after.row))
    else (after, t)
  }

  function UpdateStep(s: ChannelState, a: ActorRef, e: Event): ChannelState
    requires IsUpdate(e)
  {
    if a !in s.live then s
    else
      var (c, t) := UpdatedAndSaved(s.live[a], s.table, e);
      ChannelState(s.live[a := c], t)
  }

  ghost function ChannelRun(s: ChannelState, events: seq<Event>): ChannelState
    decreases |events|
  {
    if events == [] then s else ChannelRun(ChannelStep(s, events[0]), events[1..])
  }
}
