/** What the rows of the channels table say, and when they change. */
module ChannelRows {
  import opened Wrappers
  import opened Events
  import opened Channels
  import opened ChannelNotes

  /** The row stored for a channel id, if there is one: in a consistent table there is at most one. */
  ghost predicate IsRowOf(t: ChannelTable, i: nat, channelId: string) {
    i in t.rows && t.rows[i].channelId == channelId
  }

  /** The text of an error, as the node describes it: a local error may be without a throwable, and a throwable without
      a message; the peer's data are shown as text if they can be printed, and in hexadecimal otherwise. */
  lemma ErrorText(error: ChannelError, text: Option<string>)
    ensures ErrorMessage(error) == Some(text) <==>
              || error == LocalError(Some(text))
              || (error.RemoteError? && error.printable && text == Some(error.ascii))
              || (error.RemoteError? && !error.printable && text == Some(error.hex))
    ensures ErrorMessage(error) == None <==> error == LocalError(None)
  {
  }

  /** The messages after which the code stores the channel. */
  predicate IsStoring(e: Event) {
    || e.ChannelIdAssigned? || e.LocalCommitConfirmed? || e.ChannelStateChanged?
    || (e.ChannelErrorOccurred? && e.isFatal && e.error != LocalError(None))
  }

  lemma StoringSaves(e: Event)
    ensures Saves(e) <==> IsStoring(e)
  {
    if e.ChannelErrorOccurred? {
      ErrorText(e.error, None);
    }
  }

  /** After a message that stores a known channel with a capacity, its row is the whole of what the object holds, under
      the id of the object; any other row stays as it was, unless it had the key or the channel id. */
  lemma StoredRowIsLive(s: ChannelState, e: Event)
    requires IsUpdate(e) && IsStoring(e) && e.actor in s.live && Updated(s.live[e.actor], e).row.capacityMsat > 0
    ensures var u := ChannelStep(s, e);
            && u.live[e.actor].row == Updated(s.live[e.actor], e).row
            && u.live[e.actor].id.Some?
            && var k := u.live[e.actor].id.value;
               && k == (if s.live[e.actor].id.Some? then s.live[e.actor].id.value else s.table.nextId)
               && k in u.table.rows && u.table.rows[k] == u.live[e.actor].row
               && forall i :: i != k ==>
                    (i in u.table.rows <==>
                        i in s.table.rows && s.table.rows[i].channelId != u.live[e.actor].row.channelId)
                    && (i in u.table.rows ==> u.table.rows[i] == s.table.rows[i])
  {
    StoringSaves(e);
    UpdatedKeepsIds(s.live[e.actor], e);
    hide Updated, Saves;
  }

  /** Without a capacity nothing is stored, and neither is anything by the other messages about channels, except that a
      terminated channel is marked. */
  lemma TableIsLeftAlone(s: ChannelState, e: Event)
    requires !e.Terminated?
    requires IsUpdate(e) && IsStoring(e) && e.actor in s.live ==> Updated(s.live[e.actor], e).row.capacityMsat <= 0
    ensures ChannelStep(s, e).table == s.table
  {
    StoringSaves(e);
    hide Updated, Saves, ErrorMessage;
  }

  /** A terminated channel is inactive in the table, where it was active or not; nothing else about it or any other row
      changes. */
  lemma TerminatedIsInactive(s: ChannelState, a: ActorRef, i: nat)
    requires Consistent(s) && a in s.live
    ensures var u := ChannelStep(s, Terminated(a));
            && (i in u.table.rows <==> i in s.table.rows)
            && (IsRowOf(s.table, i, s.live[a].row.channelId) ==>
                  !u.table.rows[i].isActive && u.table.rows[i] == s.table.rows[i].(isActive := false))
            && (i in s.table.rows && !IsRowOf(s.table, i, s.live[a].row.channelId) ==>
                 u.table.rows[i] == s.table.rows[i])
  {
    if IsRowOf(s.table, i, s.live[a].row.channelId) {
      assert i in ChannelQuery(s.table, s.live[a].row.channelId);
    }
  }

  /** A channel that enters the map again keeps its stored id; a new one has none. Refund block and closing message
      are read from the row of a restored channel, if it has one, and are otherwise what they were. */
  lemma EntryKeepsTheRest(s: ChannelState, e: Event, i: nat)
    requires TableOk(s.table) && (e.ChannelCreated? || e.ChannelRestored?)
    ensures var c := ChannelStep(s, e).live[e.actor];
            var known := e.actor in s.live;
            var refund, text := c.row.refundAtBlock, c.row.closingErrorMessage;
            && c.id == (if known then s.live[e.actor].id else None)
            && (e.ChannelRestored? && IsRowOf(s.table, i, e.channelId) ==>
                  refund == s.table.rows[i].refundAtBlock && text == s.table.rows[i].closingErrorMessage)
            && (e.ChannelCreated? || !IsStored(s.table, e.channelId) ==>
                  && refund == (if known then s.live[e.actor].row.refundAtBlock else 0)
                  && text == (if known then s.live[e.actor].row.closingErrorMessage else None))
  {
    if e.ChannelRestored? && IsRowOf(s.table, i, e.channelId) {
      assert i in ChannelQuery(s.table, e.channelId);
    }
  }
}
