/** What the node last said about each channel, read from the messages alone, and the live channels against it. */
module ChannelHistory {
  import opened Wrappers
  import opened Events
  import opened Channels
  import opened ChannelTotals
  import opened Sums

  // ---- the messages about a channel

  /** The messages about a channel since it became known, in order; none while it is not known. */
  function History(events: seq<Event>, a: ActorRef): Option<seq<Event>> {
    if events == [] then None
    else
      var e, before := events[|events| - 1], History(events[..|events| - 1], a);
      if e.Restart? || e == Terminated(a) then None
      else if (e.ChannelCreated? || e.ChannelRestored?) && e.actor == a then
        Some((if before.Some? then before.value else []) + [e])
      else if IsUpdate(e) && e.actor == a && before.Some? then Some(before.value + [e])
      else before
  }

  function LastCommitments(h: seq<Event>): Option<Commitments> {
    if h == [] then None
    else
      var e := h[|h| - 1];
      if e.ChannelSignatureReceived? then Some(e.commitments)
      else if e.ChannelStateChanged? && !e.data.WithoutCommitments? then Some(e.data.commitments)
      else LastCommitments(h[..|h| - 1])
  }

  function LastFees(h: seq<Event>): Option<FeeUpdate> {
    if h == [] then None
    else if h[|h| - 1].LocalChannelUpdate? && h[|h| - 1].update.Some? then h[|h| - 1].update
    else LastFees(h[..|h| - 1])
  }

  function LastState(h: seq<Event>): string {
    if h == [] then "N/A"
    else if h[|h| - 1].ChannelStateChanged? then h[|h| - 1].currentState
    else LastState(h[..|h| - 1])
  }

  function LastShortId(h: seq<Event>): Option<string> {
    if h == [] then None
    else if h[|h| - 1].ShortChannelIdAssigned? then Some(h[|h| - 1].shortChannelId)
    else LastShortId(h[..|h| - 1])
  }

  function LastPeer(h: seq<Event>): string {
    if h == [] then ""
    else if h[|h| - 1].ChannelCreated? || h[|h| - 1].ChannelRestored? then h[|h| - 1].remoteNodeId
    else LastPeer(h[..|h| - 1])
  }

  function LastId(h: seq<Event>): string {
    if h == [] then ""
    else
      match h[|h| - 1]
      case ChannelCreated(_, temporaryChannelId, _) => temporaryChannelId
      case ChannelRestored(_, channelId, _, _) => channelId
      case ChannelIdAssigned(_, channelId) => channelId
      case _ => LastId(h[..|h| - 1])
  }

  /** The kinds of transactions in the last closing state, if the channel was in one. */
  function LastClosing(h: seq<Event>): Option<set<Published>> {
    if h == [] then None
    else if h[|h| - 1].ChannelStateChanged? && h[|h| - 1].data.Closing? then Some(PublishedKinds(h[|h| - 1].data))
    else LastClosing(h[..|h| - 1])
  }

  // ---- what a live channel should hold

  predicate AmountsAgree(r: ChannelRow, k: Option<Commitments>) {
    match k
    case Some(k) =>
      r.balanceMsat == k.toLocalMsat && r.capacityMsat == k.totalFundsMsat && r.channelReserveSat == k.localReserveSat
    case None => r.balanceMsat == r.capacityMsat == r.channelReserveSat == 0
  }

  predicate FeesAgree(c: Live, u: Option<FeeUpdate>) {
    match u
    case Some(u) =>
      && c.feeBaseMsat == Some(u.baseMsat)
      && c.feeProportionalMillionths == Some(u.proportionalMillionths)
      && c.cltvExpiryDelta == Some(u.cltvExpiryDelta)
    case None => c.feeBaseMsat == c.feeProportionalMillionths == c.cltvExpiryDelta == None
  }

  predicate ClosingAgrees(r: ChannelRow, kinds: Option<set<Published>>) {
    match kinds
    case Some(kinds) =>
      && r.closingType.Some?
      && (r.closingType == Some(MUTUAL) <==> kinds == {MutualClose})
      && (r.closingType == Some(LOCAL) <==> kinds == {LocalCommit})
      && (r.closingType == Some(REMOTE) <==> kinds == {RemoteCommit})
    case None => r.closingType.None?
  }

  predicate NamesAgree(c: Live, h: seq<Event>) {
    && c.row.channelId == LastId(h) && c.row.peerNodeId == LastPeer(h) && c.row.shortChannelId == LastShortId(h)
    && c.state == LastState(h) && c.row.isActive
  }

  predicate Agrees(c: Live, h: seq<Event>) {
    && AmountsAgree(c.row, LastCommitments(h))
    && FeesAgree(c, LastFees(h))
    && ClosingAgrees(c.row, LastClosing(h))
    && NamesAgree(c, h)
  }

  // ---- the live channels hold it

  lemma OneMore(h: seq<Event>, e: Event)
    ensures (h + [e])[..|h + [e]| - 1] == h && (h + [e])[|h + [e]| - 1] == e
  {
  }

  lemma UpdatedAmountsAgree(c: Live, h: seq<Event>, e: Event)
    requires IsUpdate(e) && AmountsAgree(c.row, LastCommitments(h))
    ensures AmountsAgree(Updated(c, e).row, LastCommitments(h + [e]))
  {
    OneMore(h, e);
  }

  lemma UpdatedFeesAgree(c: Live, h: seq<Event>, e: Event)
    requires IsUpdate(e) && FeesAgree(c, LastFees(h))
    ensures FeesAgree(Updated(c, e), LastFees(h + [e]))
  {
    OneMore(h, e);
  }

  lemma TypeAgrees(r: ChannelRow, d: ChannelStateData)
    requires d.Closing? && r.closingType == Some(TypeOfClosing(d))
    ensures ClosingAgrees(r, Some(PublishedKinds(d)))
  {
    hide PublishedKinds;
  }

  lemma UpdatedClosingAgrees(c: Live, h: seq<Event>, e: Event)
    requires IsUpdate(e) && ClosingAgrees(c.row, LastClosing(h))
    ensures ClosingAgrees(Updated(c, e).row, LastClosing(h + [e]))
  {
    OneMore(h, e);
    if e.ChannelStateChanged? && e.data.Closing? {
      TypeAgrees(Updated(c, e).row, e.data);
    }
    hide PublishedKinds, TypeOfClosing, ClosingAgrees;
    if !e.ChannelStateChanged? || !e.data.Closing? {
      SameClosing(c.row, Updated(c, e).row, LastClosing(h));
    }
  }

  lemma SameClosing(r: ChannelRow, q: ChannelRow, kinds: Option<set<Published>>)
    requires ClosingAgrees(r, kinds) && r.closingType == q.closingType
    ensures ClosingAgrees(q, kinds)
  {
  }

  lemma UpdatedNamesAgree(c: Live, h: seq<Event>, e: Event)
    requires IsUpdate(e) && NamesAgree(c, h)
    ensures NamesAgree(Updated(c, e), h + [e])
  {
    OneMore(h, e);
  }

  lemma EntryAgrees(c: Live, h: seq<Event>, e: Event, id: string, peer: string)
    requires Agrees(c, h)
    requires e.ChannelCreated? || e.ChannelRestored?
    requires id == (if e.ChannelCreated? then e.temporaryChannelId else e.channelId) && peer == e.remoteNodeId
    ensures Agrees(c.(row := c.row.(channelId := id, peerNodeId := peer)), h + [e])
  {
    OneMore(h, e);
  }

  lemma NotesAgree(c: Live, t: ChannelTable, channelId: string, h: seq<Event>)
    requires Agrees(c, h)
    ensures Agrees(WithNotes(c, t, channelId), h)
  {
  }

  lemma SavedAgrees(c: Live, t: ChannelTable, e: Event, h: seq<Event>)
    requires IsUpdate(e) && Agrees(c, h)
    ensures Agrees(UpdatedAndSaved(c, t, e).0, h + [e])
  {
    UpdatedAmountsAgree(c, h, e);
    UpdatedFeesAgree(c, h, e);
    UpdatedClosingAgrees(c, h, e);
    UpdatedNamesAgree(c, h, e);
    hide Updated, LastCommitments, LastFees, LastClosing, LastState, LastId, LastPeer, LastShortId;
  }

  /** The channels of the map are those known, each holding what was said of it. */
  ghost predicate Holds(s: ChannelState, events: seq<Event>, a: ActorRef) {
    var h := History(events, a);
    (a in s.live <==> h.Some?) && (a in s.live ==> Agrees(s.live[a], h.value))
  }

  /** What was known of an actor before it enters the map, again or for the first time. */
  function Known(events: seq<Event>, a: ActorRef): seq<Event> {
    var h := History(events, a);
    if h.Some? then h.value else []
  }

  lemma CreatedAgrees(s: ChannelState, events: seq<Event>, e: Event, id: string)
    requires e.ChannelCreated? || e.ChannelRestored?
    requires Holds(s, events, e.actor) && id == (if e.ChannelCreated? then e.temporaryChannelId else e.channelId)
    ensures Agrees(GetOrCreate(s, e.actor, id, e.remoteNodeId), Known(events, e.actor) + [e])
  {
    var h := Known(events, e.actor);
    if e.actor in s.live {
      EntryAgrees(s.live[e.actor], h, e, id, e.remoteNodeId);
    } else {
      EntryAgrees(NewLive("", ""), h, e, id, e.remoteNodeId);
    }
    hide Agrees, History;
  }

  lemma EntryHistory(events: seq<Event>, e: Event, a: ActorRef)
    requires e.ChannelCreated? || e.ChannelRestored?
    ensures History(events + [e], a) == if e.actor == a then Some(Known(events, a) + [e]) else History(events, a)
  {
    OneMore(events, e);
  }

  lemma EntryHolds(s: ChannelState, events: seq<Event>, e: Event, a: ActorRef)
    requires Holds(s, events, a) && (e.ChannelCreated? || e.ChannelRestored?)
    ensures Holds(ChannelStep(s, e), events + [e], a)
  {
    EntryHistory(events, e, a);
    if e.actor == a {
      var id := if e.ChannelCreated? then e.temporaryChannelId else e.channelId;
      CreatedAgrees(s, events, e, id);
      NotesAgree(GetOrCreate(s, a, id, e.remoteNodeId), s.table, id, Known(events, a) + [e]);
    }
    hide Agrees, History, Known, GetOrCreate, WithNotes;
  }

  lemma UpdateHolds(s: ChannelState, events: seq<Event>, e: Event, a: ActorRef)
    requires Holds(s, events, a) && IsUpdate(e)
    ensures Holds(ChannelStep(s, e), events + [e], a)
  {
    OneMore(events, e);
    if e.actor == a && a in s.live {
      SavedAgrees(s.live[a], s.table, e, History(events, a).value);
    }
    hide Agrees, UpdatedAndSaved;
  }

  lemma LeavingHolds(s: ChannelState, events: seq<Event>, e: Event, a: ActorRef)
    requires Holds(s, events, a) && !IsUpdate(e) && !e.ChannelCreated? && !e.ChannelRestored?
    ensures Holds(ChannelStep(s, e), events + [e], a)
  {
    OneMore(events, e);
    hide Agrees, Terminate;
  }

  lemma StepHolds(s: ChannelState, events: seq<Event>, e: Event, a: ActorRef)
    requires Holds(s, events, a)
    ensures Holds(ChannelStep(s, e), events + [e], a)
  {
    hide Holds, ChannelStep;
    if e.ChannelCreated? || e.ChannelRestored? {
      EntryHolds(s, events, e, a);
    } else if IsUpdate(e) {
      UpdateHolds(s, events, e, a);
    } else {
      LeavingHolds(s, events, e, a);
    }
  }

  lemma {:induction false} RunOneMore(s: ChannelState, events: seq<Event>, e: Event)
    ensures ChannelRun(s, events + [e]) == ChannelStep(ChannelRun(s, events), e)
    decreases |events|
  {
    if events == [] {
      assert (events + [e])[1..] == [];
    } else {
      assert (events + [e])[1..] == events[1..] + [e];
      RunOneMore(ChannelStep(s, events[0]), events[1..], e);
    }
  }

  /** In every reachable map, the channels are those the node made known and did not terminate since the process
      started, and each holds the amounts, fees, names, state and closing that the node said last. */
  lemma {:induction false} MapFollowsHistory(events: seq<Event>, a: ActorRef)
    ensures Holds(ChannelRun(NO_CHANNELS, events), events, a)
    decreases |events|
  {
    if events != [] {
      var front, e := events[..|events| - 1], events[|events| - 1];
      assert events == front + [e];
      MapFollowsHistory(front, a);
      RunOneMore(NO_CHANNELS, front, e);
      hide Holds, ChannelRun, ChannelStep;
      StepHolds(ChannelRun(NO_CHANNELS, front), front, e, a);
    }
  }

  // ---- what is shown and sent

  /** A channel's balance by the last commitments, in a state whose funds count. */
  function CommittedBalance(h: seq<Event>): int {
    if FundsAreAccountedFor(LastState(h)) && LastCommitments(h).Some? then LastCommitments(h).value.toLocalMsat else 0
  }

  /** What the peer could still send: its side of the last commitments, less the reserve. */
  function CommittedReceivable(h: seq<Event>): int {
    if FundsAreUsable(LastState(h)) && LastCommitments(h).Some? then
      var k := LastCommitments(h).value;
      var free := k.totalFundsMsat - k.toLocalMsat - 1000 * k.localReserveSat;
      if free > 0 then free else 0
    else 0
  }

  lemma SharesFollowHistory(events: seq<Event>, a: ActorRef)
    requires a in ChannelRun(NO_CHANNELS, events).live
    ensures History(events, a).Some?
    ensures var c, h := ChannelRun(NO_CHANNELS, events).live[a], History(events, a).value;
            BalanceShare(c) == CommittedBalance(h) && ReceivableShare(c) == CommittedReceivable(h)
  {
    MapFollowsHistory(events, a);
    hide History, FeesAgree, ClosingAgrees, ChannelRun, LastCommitments, LastState, LastId, LastPeer, LastShortId;
    hide FundsAreAccountedFor, FundsAreUsable;
  }

  predicate AreKnown(events: seq<Event>, actors: set<ActorRef>) { forall a :: a in actors ==> History(events, a).Some? }

  function CommittedBalances(events: seq<Event>, actors: set<ActorRef>): map<ActorRef, int>
    requires AreKnown(events, actors)
  {
    map a | a in actors :: CommittedBalance(History(events, a).value)
  }

  function CommittedReceivables(events: seq<Event>, actors: set<ActorRef>): map<ActorRef, int>
    requires AreKnown(events, actors)
  {
    map a | a in actors :: CommittedReceivable(History(events, a).value)
  }

  /** The Lightning balance and the receivable amount are those of the last commitments of the known channels. */
  lemma TotalsFollowHistory(events: seq<Event>)
    ensures var live := ChannelRun(NO_CHANNELS, events).live;
            && (forall a :: a in live <==> History(events, a).Some?)
            && TotalBalance(live) == Sum(CommittedBalances(events, live.Keys))
            && TotalReceivable(live) == Sum(CommittedReceivables(events, live.Keys))
  {
    hide BalanceShare, ReceivableShare, CommittedBalance, CommittedReceivable, History, ChannelRun, Agrees;
    var live := ChannelRun(NO_CHANNELS, events).live;
    forall a ensures a in live <==> History(events, a).Some? {
      MapFollowsHistory(events, a);
    }
    forall a | a in live
      ensures BalanceShare(live[a]) == CommittedBalance(History(events, a).value)
      ensures ReceivableShare(live[a]) == CommittedReceivable(History(events, a).value)
    {
      SharesFollowHistory(events, a);
    }
    assert Shares(live, BalanceShare) == CommittedBalances(events, live.Keys);
    assert Shares(live, ReceivableShare) == CommittedReceivables(events, live.Keys);
  }

  /** Every hint is a known channel: its peer, its short id, and the fees last announced for it. */
  lemma HintsFollowHistory(events: seq<Event>, hops: seq<ExtraHop>, i: nat)
    requires AreHints(hops, ChannelRun(NO_CHANNELS, events).live) && i < |hops|
    ensures exists a ::
              var h := History(events, a);
              && h.Some? && LastPeer(h.value) == hops[i].nodeId && LastShortId(h.value) == Some(hops[i].shortChannelId)
              && LastFees(h.value) == Some(FeeUpdate(
                   hops[i].feeBaseMsat, hops[i].feeProportionalMillionths, hops[i].cltvExpiryDelta))
  {
    var live := ChannelRun(NO_CHANNELS, events).live;
    HintFields(hops, live, i);
    var a :| a in live && IsFrom(hops[i], live[a]);
    MapFollowsHistory(events, a);
    hide History, ChannelRun, AreHints;
    var h := History(events, a);
    assert h.Some? && FeesAgree(live[a], LastFees(h.value));
  }
}
