/** The refund block and the closing message the node sends only once: they survive in the table. */
module ChannelNotes {
  import opened Wrappers
  import opened Events
  import opened Channels

  // ---- the state every run keeps

  /** One actor per channel id; a channel that has an id has its row under it. */
  ghost predicate Consistent(s: ChannelState) {
    && TableOk(s.table)
    && (forall a, b :: a in s.live && b in s.live && s.live[a].row.channelId == s.live[b].row.channelId ==> a == b)
    && (forall a :: a in s.live && s.live[a].id.Some? ==> OwnsRow(s, a))
  }

  ghost predicate OwnsRow(s: ChannelState, a: ActorRef)
    requires a in s.live && s.live[a].id.Some?
  {
    var k := s.live[a].id.value;
    k in s.table.rows && s.table.rows[k].channelId == s.live[a].row.channelId
  }

  ghost predicate IsStored(t: ChannelTable, channelId: string) {
    exists i :: i in t.rows && t.rows[i].channelId == channelId
  }

  ghost predicate IsLive(s: ChannelState, channelId: string) {
    exists a :: a in s.live && s.live[a].row.channelId == channelId
  }

  /** Assumed of the node: new ids are fresh, a channel gets its final id before it is ever stored, and one
      channel id has one actor. */
  ghost predicate Expected(s: ChannelState, e: Event) {
    match e
    case ChannelCreated(a, temporaryId, _) => a !in s.live && !IsLive(s, temporaryId) && !IsStored(s.table, temporaryId)
    case ChannelRestored(a, channelId, _, _) =>
      && (a in s.live ==> s.live[a].row.channelId == channelId)
      && (forall b :: b in s.live && s.live[b].row.channelId == channelId ==> b == a)
    case ChannelIdAssigned(a, channelId) =>
      a in s.live && s.live[a].row.channelId != channelId ==>
        s.live[a].id.None? && !IsLive(s, channelId) && !IsStored(s.table, channelId)
    case _ => true
  }

  ghost predicate ExpectedRun(s: ChannelState, events: seq<Event>)
    decreases |events|
  {
    events == [] || (Expected(s, events[0]) && ExpectedRun(ChannelStep(s, events[0]), events[1..]))
  }

  lemma SaveKeepsConsistent(s: ChannelState, a: ActorRef, c: Live)
    requires Consistent(s) && a in s.live
    requires c.id == s.live[a].id
    requires c.row.channelId == s.live[a].row.channelId
             || (c.id.None? && !IsLive(s, c.row.channelId) && !IsStored(s.table, c.row.channelId))
    ensures Consistent(PutAndSave(s, a, c))
  {
    var u := PutAndSave(s, a, c);
    StoreKeepsTable(s.table, c.id, c.row);
    forall b | b in u.live && u.live[b].id.Some? ensures OwnsRow(u, b) {
      if b != a {
        assert OwnsRow(s, b);
        assert s.live[b].row.channelId != c.row.channelId;
      } else if c.id.Some? {
        assert OwnsRow(s, a);
      }
    }
  }

  lemma PutKeepsConsistent(s: ChannelState, a: ActorRef, c: Live)
    requires Consistent(s) && a in s.live && c.id == s.live[a].id && c.row.channelId == s.live[a].row.channelId
    ensures Consistent(Put(s, a, c))
  {
    hide TableOk;
    var u := Put(s, a, c);
    forall b | b in u.live && u.live[b].id.Some? ensures OwnsRow(u, b) {
      assert OwnsRow(s, b);
    }
  }

  /** Only the assignment of an id changes it, and only a save the key of the row. */
  lemma UpdatedKeepsIds(c: Live, e: Event)
    requires IsUpdate(e)
    ensures Updated(c, e).id == c.id
    ensures Updated(c, e).row.channelId == if e.ChannelIdAssigned? then e.channelId else c.row.channelId
    ensures e.ChannelIdAssigned? ==> Saves(e)
  {
  }

  lemma UpdateKeepsConsistent(s: ChannelState, a: ActorRef, e: Event)
    requires Consistent(s) && Expected(s, e) && IsUpdate(e) && e.actor == a
    ensures Consistent(UpdateStep(s, a, e))
  {
    if a in s.live {
      var c := Updated(s.live[a], e);
      UpdatedKeepsIds(s.live[a], e);
      hide Updated, Saves, Consistent, IsLive, IsStored, SaveRow, IdAfterSave;
      if Saves(e) {
        SaveKeepsConsistent(s, a, c);
      } else {
        PutKeepsConsistent(s, a, c);
      }
    }
  }

  lemma TerminateKeepsConsistent(s: ChannelState, a: ActorRef)
    requires Consistent(s)
    ensures Consistent(ChannelStep(s, Terminated(a)))
  {
    hide IsLive, IsStored;
    var u := TerminatedStep(s, a);
    forall b | b in u.live && u.live[b].id.Some? ensures OwnsRow(u, b) {
      assert OwnsRow(s, b);
    }
  }

  lemma CreateKeepsConsistent(s: ChannelState, e: Event)
    requires Consistent(s) && Expected(s, e) && (e.ChannelCreated? || e.ChannelRestored?)
    ensures Consistent(ChannelStep(s, e))
  {
    var u := ChannelStep(s, e);
    forall b | b in u.live && u.live[b].id.Some? ensures OwnsRow(u, b) {
      assert OwnsRow(s, b);
    }
  }

  lemma StepKeepsConsistent(s: ChannelState, e: Event)
    requires Consistent(s) && Expected(s, e)
    ensures Consistent(ChannelStep(s, e))
  {
    if IsUpdate(e) {
      hide Consistent, Expected, UpdateStep;
      UpdateKeepsConsistent(s, e.actor, e);
    } else if e.Terminated? {
      TerminateKeepsConsistent(s, e.actor);
    } else if e.ChannelCreated? || e.ChannelRestored? {
      CreateKeepsConsistent(s, e);
    }
  }

  lemma {:induction false} RunKeepsConsistent(s: ChannelState, events: seq<Event>)
    requires Consistent(s) && ExpectedRun(s, events)
    ensures Consistent(ChannelRun(s, events))
    decreases |events|
  {
    if events != [] {
      StepKeepsConsistent(s, events[0]);
      RunKeepsConsistent(ChannelStep(s, events[0]), events[1..]);
    }
  }

  lemma StartIsConsistent()
    ensures Consistent(NO_CHANNELS)
  {
  }

  // ---- notes

  datatype Note = Refund(block: int) | Message(text: Option<string>)

  predicate Shows(r: ChannelRow, n: Note) {
    match n
    case Refund(block) => r.refundAtBlock == block
    case Message(text) => r.closingErrorMessage == text
  }

  /** The note is stored for the channel, and the channel in memory, if there is one, agrees. */
  ghost predicate Stored(s: ChannelState, channelId: string, n: Note) {
    && (exists i :: i in s.table.rows && s.table.rows[i].channelId == channelId && Shows(s.table.rows[i], n))
    && (forall a :: a in s.live && s.live[a].row.channelId == channelId ==> Shows(s.live[a].row, n))
  }

  /** The only messages that speak about the note of that kind: a new refund block, a fatal error with a message. */
  ghost predicate Replaces(s: ChannelState, e: Event, channelId: string, n: Note) {
    match n
    case Refund(_) => e.LocalCommitConfirmed? && e.actor in s.live && s.live[e.actor].row.channelId == channelId
    case Message(_) =>
      e.ChannelErrorOccurred? && e.isFatal && ErrorMessage(e.error).Some?
      && e.actor in s.live && s.live[e.actor].row.channelId == channelId
  }

  /** Saving a channel writes its notes, and leaves those of the others alone. */
  lemma SaveStores(s: ChannelState, a: ActorRef, c: Live, channelId: string, n: Note)
    requires Consistent(s) && a in s.live
    requires c.id == s.live[a].id && c.row.channelId == s.live[a].row.channelId
    requires c.row.channelId == channelId ==> Shows(c.row, n)
    requires (c.row.channelId == channelId && c.row.capacityMsat > 0) || Stored(s, channelId, n)
    ensures Stored(PutAndSave(s, a, c), channelId, n)
  {
    var u := PutAndSave(s, a, c);
    if c.row.channelId == channelId {
      if c.row.capacityMsat > 0 {
        var k := if c.id.Some? then c.id.value else s.table.nextId;
        assert k in u.table.rows && u.table.rows[k] == c.row;
      }
    } else {
      var i :| i in s.table.rows && s.table.rows[i].channelId == channelId && Shows(s.table.rows[i], n);
      if c.id.Some? {
        assert OwnsRow(s, a);
      }
      assert i in u.table.rows && u.table.rows[i] == s.table.rows[i];
    }
  }

  lemma RenameKeeps(s: ChannelState, a: ActorRef, newId: string, channelId: string, n: Note)
    requires Consistent(s) && Expected(s, ChannelIdAssigned(a, newId)) && a in s.live
    requires s.live[a].row.channelId != newId && Stored(s, channelId, n)
    ensures Stored(ChannelStep(s, ChannelIdAssigned(a, newId)), channelId, n)
  {
    var i :| i in s.table.rows && s.table.rows[i].channelId == channelId && Shows(s.table.rows[i], n);
    var u := ChannelStep(s, ChannelIdAssigned(a, newId));
    assert channelId != newId;
    assert i in u.table.rows && u.table.rows[i] == s.table.rows[i];
  }

  /** No message touches a note it does not speak about. */
  lemma UpdatedShows(c: Live, e: Event, n: Note)
    requires IsUpdate(e) && Shows(c.row, n)
    requires n.Refund? ==> !e.LocalCommitConfirmed?
    requires n.Message? ==> !(e.ChannelErrorOccurred? && e.isFatal && ErrorMessage(e.error).Some?)
    ensures Shows(Updated(c, e).row, n) && Updated(c, e).id == c.id
    ensures !e.ChannelIdAssigned? ==> Updated(c, e).row.channelId == c.row.channelId
  {
  }

  lemma PutStores(s: ChannelState, a: ActorRef, c: Live, channelId: string, n: Note)
    requires a in s.live && c.row.channelId == s.live[a].row.channelId && Stored(s, channelId, n)
    requires c.row.channelId == channelId ==> Shows(c.row, n)
    ensures Stored(Put(s, a, c), channelId, n)
  {
  }

  lemma UpdateKeepsNote(s: ChannelState, e: Event, channelId: string, n: Note)
    requires Consistent(s) && Expected(s, e) && IsUpdate(e)
    requires Stored(s, channelId, n) && !Replaces(s, e, channelId, n)
    ensures Stored(UpdateStep(s, e.actor, e), channelId, n)
  {
    var a := e.actor;
    if a in s.live {
      var before, c := s.live[a], Updated(s.live[a], e);
      if e.ChannelIdAssigned? && before.row.channelId != e.channelId {
        RenameKeeps(s, a, e.channelId, channelId, n);
      } else {
        KnownChannelKeepsNote(s, e, channelId, n);
      }
    }
  }

  lemma KnownChannelKeepsNote(s: ChannelState, e: Event, channelId: string, n: Note)
    requires Consistent(s) && IsUpdate(e) && e.actor in s.live
    requires e.ChannelIdAssigned? ==> s.live[e.actor].row.channelId == e.channelId
    requires Stored(s, channelId, n) && !Replaces(s, e, channelId, n)
    ensures Stored(UpdateStep(s, e.actor, e), channelId, n)
  {
    var a, before := e.actor, s.live[e.actor];
    var c := Updated(before, e);
    UpdatedKeepsIds(before, e);
    if before.row.channelId == channelId {
      assert Shows(before.row, n);
      UpdatedShows(before, e, n);
    }
    hide Updated, Saves, Consistent, Stored, Shows, SaveRow, IdAfterSave;
    if Saves(e) {
      SaveStores(s, a, c, channelId, n);
    } else {
      PutStores(s, a, c, channelId, n);
    }
  }

  lemma TerminateKeepsNote(s: ChannelState, a: ActorRef, channelId: string, n: Note)
    requires Consistent(s) && Stored(s, channelId, n)
    ensures Stored(ChannelStep(s, Terminated(a)), channelId, n)
  {
    var u := ChannelStep(s, Terminated(a));
    var i :| i in s.table.rows && s.table.rows[i].channelId == channelId && Shows(s.table.rows[i], n);
    assert i in u.table.rows && u.table.rows[i].channelId == channelId && Shows(u.table.rows[i], n);
  }

  /** A restored channel shows the notes of its row. */
  lemma NotesAreRead(c: Live, t: ChannelTable, i: nat, n: Note)
    requires TableOk(t) && i in t.rows && Shows(t.rows[i], n)
    ensures var r := WithNotes(c, t, t.rows[i].channelId); Shows(r.row, n) && r.row.channelId == c.row.channelId
  {
    assert i in ChannelQuery(t, t.rows[i].channelId);
  }

  lemma RestoreKeepsNote(s: ChannelState, e: Event, channelId: string, n: Note)
    requires Consistent(s) && Expected(s, e) && e.ChannelRestored? && Stored(s, channelId, n)
    ensures Stored(ChannelStep(s, e), channelId, n)
  {
    hide Shows;
    var i :| i in s.table.rows && s.table.rows[i].channelId == channelId && Shows(s.table.rows[i], n);
    if e.channelId == channelId {
      NotesAreRead(GetOrCreate(s, e.actor, channelId, e.remoteNodeId), s.table, i, n);
    }
  }

  /** One event keeps a stored note unless it speaks about it. */
  lemma StepKeepsNote(s: ChannelState, e: Event, channelId: string, n: Note)
    requires Consistent(s) && Expected(s, e)
    requires Stored(s, channelId, n) && !Replaces(s, e, channelId, n)
    ensures Stored(ChannelStep(s, e), channelId, n)
  {
    if IsUpdate(e) {
      UpdateKeepsNote(s, e, channelId, n);
    } else if e.Terminated? {
      TerminateKeepsNote(s, e.actor, channelId, n);
    } else if e.ChannelRestored? {
      RestoreKeepsNote(s, e, channelId, n);
    }
  }

  ghost predicate NeverReplaced(s: ChannelState, events: seq<Event>, channelId: string, n: Note)
    decreases |events|
  {
    events == [] ||
    (!Replaces(s, events[0], channelId, n) && NeverReplaced(ChannelStep(s, events[0]), events[1..], channelId, n))
  }

  /** Once stored, a refund block or a closing message outlives every run of events, terminations, restarts and
      restorations in which the node does not speak about it again. */
  lemma {:induction false} NotesSurvive(s: ChannelState, events: seq<Event>, channelId: string, n: Note)
    requires Consistent(s) && ExpectedRun(s, events)
    requires Stored(s, channelId, n) && NeverReplaced(s, events, channelId, n)
    ensures Consistent(ChannelRun(s, events))
    ensures Stored(ChannelRun(s, events), channelId, n)
    decreases |events|
  {
    if events != [] {
      StepKeepsConsistent(s, events[0]);
      StepKeepsNote(s, events[0], channelId, n);
      NotesSurvive(ChannelStep(s, events[0]), events[1..], channelId, n);
    }
  }

  /** A message about a note stores its new value, provided the channel has a capacity; otherwise the stored value
      stays as it was. */
  lemma ReplacementIsStored(s: ChannelState, a: ActorRef, block: int)
    requires Consistent(s) && a in s.live
    ensures var id := s.live[a].row.channelId;
            var u := ChannelStep(s, LocalCommitConfirmed(a, block));
            && (s.live[a].row.capacityMsat > 0 ==> Stored(u, id, Refund(block)))
            && (s.live[a].row.capacityMsat <= 0 ==> u.table == s.table)
  {
    var c := Updated(s.live[a], LocalCommitConfirmed(a, block));
    if c.row.capacityMsat > 0 {
      SaveStores(s, a, c, c.row.channelId, Refund(block));
    }
  }

  lemma MessageIsStored(s: ChannelState, a: ActorRef, error: ChannelError)
    requires Consistent(s) && a in s.live && ErrorMessage(error).Some?
    ensures var id := s.live[a].row.channelId;
            var u := ChannelStep(s, ChannelErrorOccurred(a, true, error));
            && (s.live[a].row.capacityMsat > 0 ==> Stored(u, id, Message(ErrorMessage(error).value)))
            && (s.live[a].row.capacityMsat <= 0 ==> u.table == s.table)
  {
    var c := Updated(s.live[a], ChannelErrorOccurred(a, true, error));
    if c.row.capacityMsat > 0 {
      SaveStores(s, a, c, c.row.channelId, Message(ErrorMessage(error).value));
    }
  }

  /** The whole story of a refund block: from an empty database, through any expected run, the confirmation of a channel
      with a capacity is kept by every run in which the node does not confirm it again. */
  lemma ConfirmationSurvives(before: seq<Event>, a: ActorRef, block: int, events: seq<Event>)
    requires ExpectedRun(NO_CHANNELS, before)
    requires var s := ChannelRun(NO_CHANNELS, before);
             && a in s.live && s.live[a].row.capacityMsat > 0
             && var u := ChannelStep(s, LocalCommitConfirmed(a, block));
                ExpectedRun(u, events) && NeverReplaced(u, events, s.live[a].row.channelId, Refund(block))
    ensures var s := ChannelRun(NO_CHANNELS, before);
            var u := ChannelRun(ChannelStep(s, LocalCommitConfirmed(a, block)), events);
            Stored(u, s.live[a].row.channelId, Refund(block))
  {
    hide Consistent, Stored, ChannelStep;
    StartIsConsistent();
    RunKeepsConsistent(NO_CHANNELS, before);
    var s := ChannelRun(NO_CHANNELS, before);
    ReplacementIsStored(s, a, block);
    ConfirmedIsExpected(s, a, block);
    StepKeepsConsistent(s, LocalCommitConfirmed(a, block));
    NotesSurvive(ChannelStep(s, LocalCommitConfirmed(a, block)), events, s.live[a].row.channelId, Refund(block));
  }

  lemma ConfirmedIsExpected(s: ChannelState, a: ActorRef, block: int)
    ensures Expected(s, LocalCommitConfirmed(a, block))
  {
  }

  /** The same story of a closing message. */
  lemma ClosingMessageSurvives(before: seq<Event>, a: ActorRef, error: ChannelError, events: seq<Event>)
    requires ExpectedRun(NO_CHANNELS, before) && ErrorMessage(error).Some?
    requires var s := ChannelRun(NO_CHANNELS, before);
             && a in s.live && s.live[a].row.capacityMsat > 0
             && var u := ChannelStep(s, ChannelErrorOccurred(a, true, error));
                && ExpectedRun(u, events)
                && NeverReplaced(u, events, s.live[a].row.channelId, Message(ErrorMessage(error).value))
    ensures var s := ChannelRun(NO_CHANNELS, before);
            var u := ChannelRun(ChannelStep(s, ChannelErrorOccurred(a, true, error)), events);
            Stored(u, s.live[a].row.channelId, Message(ErrorMessage(error).value))
  {
    hide Consistent, Stored, ChannelStep;
    StartIsConsistent();
    RunKeepsConsistent(NO_CHANNELS, before);
    var s, e := ChannelRun(NO_CHANNELS, before), ChannelErrorOccurred(a, true, error);
    MessageIsStored(s, a, error);
    StepKeepsConsistent(s, e);
    NotesSurvive(ChannelStep(s, e), events, s.live[a].row.channelId, Message(ErrorMessage(error).value));
  }

  /** The way a channel closes reaches its row, whatever the state was called before; without funds nothing is stored.
      */
  lemma ClosingIsStored(s: ChannelState, a: ActorRef, state: string, d: ChannelStateData)
    requires Consistent(s) && a in s.live && d.Closing?
    ensures d.commitments.totalFundsMsat > 0 ==>
              exists i ::
                var rows := ChannelStep(s, ChannelStateChanged(a, state, d)).table.rows;
                && i in rows && rows[i].channelId == s.live[a].row.channelId
                && (rows[i].closingType == Some(MUTUAL) <==> PublishedKinds(d) == {MutualClose})
                && (rows[i].closingType == Some(LOCAL) <==> PublishedKinds(d) == {LocalCommit})
                && (rows[i].closingType == Some(REMOTE) <==> PublishedKinds(d) == {RemoteCommit})
    ensures d.commitments.totalFundsMsat <= 0 ==>
              ChannelStep(s, ChannelStateChanged(a, state, d)).table == s.table
  {
    hide PublishedKinds, Consistent;
    if d.commitments.totalFundsMsat > 0 {
      var k := if s.live[a].id.Some? then s.live[a].id.value else s.table.nextId;
      var u := ChannelStep(s, ChannelStateChanged(a, state, d));
      assert k in u.table.rows && u.table.rows[k] == StateChanged(s.live[a].row, d);
    }
  }

  /** The assumption on late ids matters: a channel renamed after it was stored takes its row along. The old id
      keeps its row exactly when the channel was never stored or has no capacity. */
  lemma LateRenameMovesTheRow(s: ChannelState, a: ActorRef, newId: string)
    requires Consistent(s) && a in s.live
    requires s.live[a].row.channelId != newId && IsStored(s.table, s.live[a].row.channelId)
    ensures IsStored(ChannelStep(s, ChannelIdAssigned(a, newId)).table, s.live[a].row.channelId)
       <==> s.live[a].id.None? || s.live[a].row.capacityMsat <= 0
  {
    var oldId := s.live[a].row.channelId;
    var i :| i in s.table.rows && s.table.rows[i].channelId == oldId;
    var u := ChannelStep(s, ChannelIdAssigned(a, newId));
    if s.live[a].id.None? || s.live[a].row.capacityMsat <= 0 {
      assert i in u.table.rows && u.table.rows[i].channelId == oldId;
    } else {
      assert OwnsRow(s, a);
    }
  }
}
