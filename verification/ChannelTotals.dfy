/** The Lightning balance, the receivable amount and the capacity of the channels, in every reachable map. */
module ChannelTotals {
  import opened Wrappers
  import opened Events
  import opened Channels
  import opened Sums

  predicate StartsWith(s: string, prefix: string) { prefix <= s }

  predicate FundsAreAccountedFor(state: string) {
    !StartsWith(state, "ERR_")
    && state !in {"WAIT_FOR_INIT_INTERNAL", "WAIT_FOR_ACCEPT_CHANNEL", "CLOSING", "CLOSED"}
  }

  predicate FundsAreUsable(state: string) { state in {"NORMAL", "OFFLINE", "SYNCING"} }

  function Receivable(r: ChannelRow): int {
    var free := r.capacityMsat - r.balanceMsat - r.channelReserveSat * 1000;
    if free > 0 then free else 0
  }

  // ---- what each channel adds to each total

  function BalanceShare(c: Live): int { if FundsAreAccountedFor(c.state) then c.row.balanceMsat else 0 }

  function ReceivableShare(c: Live): int { if FundsAreUsable(c.state) then Receivable(c.row) else 0 }

  function CapacityShare(c: Live): int { if FundsAreAccountedFor(c.state) then c.row.capacityMsat else 0 }

  /** The part of an accounted channel that is neither ours nor receivable: the reserve as far as the peer's side
      covers it, or the whole of the peer's side when the channel is not usable. */
  function HeldShare(c: Live): int {
    var peerSide := c.row.capacityMsat - c.row.balanceMsat;
    if !FundsAreAccountedFor(c.state) then 0
    else if FundsAreUsable(c.state) && c.row.channelReserveSat * 1000 < peerSide then c.row.channelReserveSat * 1000
    else peerSide
  }

  function Shares(live: map<ActorRef, Live>, share: Live -> int): map<ActorRef, int> {
    map a | a in live :: share(live[a])
  }

  ghost function TotalBalance(live: map<ActorRef, Live>): int { Sum(Shares(live, BalanceShare)) }

  ghost function TotalReceivable(live: map<ActorRef, Live>): int { Sum(Shares(live, ReceivableShare)) }

  ghost function TotalCapacity(live: map<ActorRef, Live>): int { Sum(Shares(live, CapacityShare)) }

  ghost function TotalHeld(live: map<ActorRef, Live>): int { Sum(Shares(live, HeldShare)) }

  /** The sum so far: the shares of the channels already visited. */
  ghost predicate Summed(total: int, left: set<ActorRef>, live: map<ActorRef, Live>, share: Live -> int) {
    left <= live.Keys && total == Sum(Shares(live, share) - left)
  }

  lemma SummedNone(live: map<ActorRef, Live>, share: Live -> int)
    ensures Summed(0, live.Keys, live, share)
  {
    assert Shares(live, share) - live.Keys == map[];
  }

  lemma SummedOneMore(total: int, left: set<ActorRef>, live: map<ActorRef, Live>, share: Live -> int, a: ActorRef)
    requires Summed(total, left, live, share) && a in left
    ensures Summed(total + share(live[a]), left - {a}, live, share)
  {
    SumTake(Shares(live, share), left, a);
  }

  lemma SummedAll(total: int, live: map<ActorRef, Live>, share: Live -> int)
    requires Summed(total, {}, live, share)
    ensures total == Sum(Shares(live, share))
  {
    assert Shares(live, share) - {} == Shares(live, share);
  }

  // ---- the amounts stay sound

  predicate SoundRow(r: ChannelRow) { 0 <= r.balanceMsat <= r.capacityMsat && r.channelReserveSat >= 0 }

  ghost predicate Sound(s: ChannelState) { forall a :: a in s.live ==> SoundRow(s.live[a].row) }

  predicate SoundCommitments(k: Commitments) { 0 <= k.toLocalMsat <= k.totalFundsMsat && k.localReserveSat >= 0 }

  predicate SoundEvent(e: Event) {
    && (e.ChannelSignatureReceived? ==> SoundCommitments(e.commitments))
    && (e.ChannelStateChanged? && !e.data.WithoutCommitments? ==> SoundCommitments(e.data.commitments))
  }

  lemma StepKeepsSound(s: ChannelState, e: Event)
    requires Sound(s) && SoundEvent(e)
    ensures Sound(ChannelStep(s, e))
  {
    if IsUpdate(e) {
      UpdateKeepsSound(s, e);
      hide Sound, UpdateStep;
    } else {
      EntriesStaySound(s, e);
    }
  }

  lemma UpdateKeepsSound(s: ChannelState, e: Event)
    requires Sound(s) && SoundEvent(e) && IsUpdate(e)
    ensures Sound(UpdateStep(s, e.actor, e))
  {
    if e.actor in s.live {
      UpdatedIsSound(s.live[e.actor], e);
      hide SoundRow, Updated, Saves, SoundEvent;
    }
  }

  /** Channels that come or go bring no amounts. */
  lemma EntriesStaySound(s: ChannelState, e: Event)
    requires Sound(s) && !IsUpdate(e)
    ensures Sound(ChannelStep(s, e))
  {
    hide Terminate, FindRow;
  }

  /** Balance and capacity are only ever set together. */
  lemma UpdatedIsSound(c: Live, e: Event)
    requires IsUpdate(e) && SoundRow(c.row) && SoundEvent(e)
    ensures SoundRow(Updated(c, e).row)
  {
  }

  lemma {:induction false} RunKeepsSound(s: ChannelState, events: seq<Event>)
    requires Sound(s) && forall i :: 0 <= i < |events| ==> SoundEvent(events[i])
    ensures Sound(ChannelRun(s, events))
    decreases |events|
  {
    if events != [] {
      StepKeepsSound(s, events[0]);
      RunKeepsSound(ChannelStep(s, events[0]), events[1..]);
    }
  }

  lemma UsableIsAccountedFor(state: string)
    ensures FundsAreUsable(state) ==> FundsAreAccountedFor(state)
  {
    if StartsWith(state, "ERR_") {
      assert state[0] == "ERR_"[0];
    }
  }

  lemma SharesBalance(c: Live)
    requires SoundRow(c.row)
    ensures BalanceShare(c) + ReceivableShare(c) + HeldShare(c) == CapacityShare(c)
    ensures BalanceShare(c) >= 0 && ReceivableShare(c) >= 0 && HeldShare(c) >= 0
  {
    UsableIsAccountedFor(c.state);
  }

  /** The parts make up the whole, and none is negative. */
  ghost predicate Conserved(live: map<ActorRef, Live>) {
    && TotalBalance(live) + TotalReceivable(live) + TotalHeld(live) == TotalCapacity(live)
    && TotalBalance(live) + TotalReceivable(live) <= TotalCapacity(live)
    && TotalBalance(live) >= 0 && TotalReceivable(live) >= 0 && TotalHeld(live) >= 0
  }

  lemma TotalsBalance(s: ChannelState)
    requires Sound(s)
    ensures Conserved(s.live)
  {
    forall a | a in s.live {
      SharesBalance(s.live[a]);
    }
    var balance, receivable := Shares(s.live, BalanceShare), Shares(s.live, ReceivableShare);
    var held := Shares(s.live, HeldShare);
    var both := map a | a in s.live :: balance[a] + receivable[a];
    SumAdd(balance, receivable, both);
    SumAdd(both, held, Shares(s.live, CapacityShare));
    var zero := map a | a in s.live :: 0;
    SumZero(zero);
    SumMonotone(zero, balance);
    SumMonotone(zero, receivable);
    SumMonotone(zero, held);
  }

  lemma StartIsSound()
    ensures Sound(NO_CHANNELS)
  {
  }

  /** Which funds count, state by state. */
  lemma StatesThatCount()
    ensures forall state ::
              state in {"NORMAL", "OFFLINE", "SYNCING", "SHUTDOWN", "WAIT_FOR_FUNDING_CONFIRMED", "N/A"} ==>
                FundsAreAccountedFor(state)
    ensures forall state ::
              state in {"WAIT_FOR_INIT_INTERNAL", "WAIT_FOR_ACCEPT_CHANNEL", "CLOSING", "CLOSED"} ==>
                !FundsAreAccountedFor(state) && !FundsAreUsable(state)
    ensures forall state ::
              !FundsAreAccountedFor(state) ==>
                || "ERR_" <= state
                || state in {"WAIT_FOR_INIT_INTERNAL", "WAIT_FOR_ACCEPT_CHANNEL", "CLOSING", "CLOSED"}
    ensures forall state :: !FundsAreAccountedFor("ERR_" + state) && !FundsAreUsable("ERR_" + state)
    ensures forall state :: FundsAreUsable(state) <==> state == "NORMAL" || state == "OFFLINE" || state == "SYNCING"
  {
    forall state ensures !FundsAreAccountedFor("ERR_" + state) && !FundsAreUsable("ERR_" + state) {
      assert "ERR_" <= "ERR_" + state;
      assert ("ERR_" + state)[0] == 'E';
    }
    UsableIsAccountedFor("NORMAL");
    UsableIsAccountedFor("OFFLINE");
    UsableIsAccountedFor("SYNCING");
    assert "SHUTDOWN"[0] == 'S' && "WAIT_FOR_FUNDING_CONFIRMED"[0] == 'W' && "N/A"[0] == 'N' && "ERR_"[0] == 'E';
    assert "WAIT_FOR_FUNDING_CONFIRMED"[9] == 'F';
  }

  /** In every reachable map, balance, receivable and held parts make up the capacity exactly: nothing is counted
      twice. */
  lemma FundsAreConserved(events: seq<Event>)
    requires forall i :: 0 <= i < |events| ==> SoundEvent(events[i])
    ensures Conserved(ChannelRun(NO_CHANNELS, events).live)
  {
    hide ChannelRun, Sound, SoundEvent, Conserved;
    StartIsSound();
    RunKeepsSound(NO_CHANNELS, events);
    TotalsBalance(ChannelRun(NO_CHANNELS, events));
  }

  // ---- routing hints

  datatype ExtraHop = ExtraHop(
    nodeId: string, shortChannelId: string, feeBaseMsat: int, feeProportionalMillionths: int, cltvExpiryDelta: int)

  const MAX_ROUTES := 5

  predicate ReceivedChannelUpdate(c: Live) {
    c.feeBaseMsat.Some? && c.feeProportionalMillionths.Some? && c.cltvExpiryDelta.Some?
  }

  predicate IsRoutable(c: Live) {
    c.row.shortChannelId.Some? && c.row.shortChannelId.value != "" && ReceivedChannelUpdate(c)
  }

  function HopOf(c: Live): ExtraHop
    requires IsRoutable(c)
  {
    ExtraHop(
      c.row.peerNodeId, c.row.shortChannelId.value, c.feeBaseMsat.value, c.feeProportionalMillionths.value,
      c.cltvExpiryDelta.value)
  }

  function RoutablePeers(live: map<ActorRef, Live>): set<string> {
    set a | a in live && IsRoutable(live[a]) :: live[a].row.peerNodeId
  }

  function NodeIds(hops: seq<ExtraHop>): set<string> { set i | 0 <= i < |hops| :: hops[i].nodeId }

  /** Hints that a set of channels allows: real channels, one per peer. */
  ghost predicate AreHints(hops: seq<ExtraHop>, live: map<ActorRef, Live>) {
    && (forall i :: 0 <= i < |hops| ==> exists a :: a in live && IsRoutable(live[a]) && hops[i] == HopOf(live[a]))
    && (forall i, j :: 0 <= i < j < |hops| ==> hops[i].nodeId != hops[j].nodeId)
  }

  /** The fields of a hint are those of the channel, one by one. */
  predicate IsFrom(hop: ExtraHop, c: Live) {
    && hop.nodeId == c.row.peerNodeId
    && hop.shortChannelId != "" && c.row.shortChannelId == Some(hop.shortChannelId)
    && c.feeBaseMsat == Some(hop.feeBaseMsat)
    && c.feeProportionalMillionths == Some(hop.feeProportionalMillionths)
    && c.cltvExpiryDelta == Some(hop.cltvExpiryDelta)
  }

  lemma HintFields(hops: seq<ExtraHop>, live: map<ActorRef, Live>, i: nat)
    requires AreHints(hops, live) && i < |hops|
    ensures exists a :: a in live && IsFrom(hops[i], live[a])
  {
    var hop := hops[i];
    var a :| a in live && IsRoutable(live[a]) && hop == HopOf(live[a]);
    assert IsFrom(hop, live[a]);
  }

  /** The peers that can be hinted at: those with a channel that some hint could be from. */
  lemma RoutablePeersHaveHints(live: map<ActorRef, Live>, peer: string)
    ensures peer in RoutablePeers(live) <==> exists a, hop :: a in live && IsFrom(hop, live[a]) && hop.nodeId == peer
  {
    if peer in RoutablePeers(live) {
      var a :| a in live && IsRoutable(live[a]) && live[a].row.peerNodeId == peer;
      assert IsFrom(HopOf(live[a]), live[a]);
    }
  }

  lemma HintsAreDistinct(hops: seq<ExtraHop>, live: map<ActorRef, Live>)
    requires AreHints(hops, live)
    ensures forall hop :: hop in hops ==> exists a :: a in live && IsFrom(hop, live[a])
    ensures forall i, j :: 0 <= i < j < |hops| ==> hops[i].nodeId != hops[j].nodeId
  {
    forall hop | hop in hops ensures exists a :: a in live && IsFrom(hop, live[a]) {
      var i :| 0 <= i < |hops| && hops[i] == hop;
      HintFields(hops, live, i);
    }
  }

  lemma NodeIdsAppend(hops: seq<ExtraHop>, hop: ExtraHop)
    ensures NodeIds(hops + [hop]) == NodeIds(hops) + {hop.nodeId}
  {
    var more := hops + [hop];
    forall n | n in NodeIds(hops) + {hop.nodeId} ensures n in NodeIds(more) {
      if n in NodeIds(hops) {
        var i :| 0 <= i < |hops| && hops[i].nodeId == n;
        assert more[i].nodeId == n;
      } else {
        assert more[|hops|].nodeId == n;
      }
    }
  }

  lemma HintsAppend(hops: seq<ExtraHop>, live: map<ActorRef, Live>, a: ActorRef)
    requires AreHints(hops, live) && a in live && IsRoutable(live[a]) && live[a].row.peerNodeId !in NodeIds(hops)
    ensures AreHints(hops + [HopOf(live[a])], live)
  {
    forall i | 0 <= i < |hops| ensures hops[i].nodeId != live[a].row.peerNodeId {
      assert hops[i].nodeId in NodeIds(hops);
    }
  }

  /** The hints so far: one per peer taken, and below the limit every routable peer already visited is taken. */
  ghost predicate PeersTaken(hops: seq<ExtraHop>, peers: set<string>, left: set<ActorRef>, live: map<ActorRef, Live>) {
    && AreHints(hops, live)
    && peers == NodeIds(hops)
    && |peers| == |hops| <= MAX_ROUTES
    && peers <= RoutablePeers(live)
    && (|hops| < MAX_ROUTES ==>
          forall a :: a in live && a !in left && IsRoutable(live[a]) ==> live[a].row.peerNodeId in peers)
  }

  lemma NoneTaken(live: map<ActorRef, Live>)
    ensures PeersTaken([], {}, live.Keys, live)
  {
  }

  lemma TakePeer(hops: seq<ExtraHop>, peers: set<string>, left: set<ActorRef>, live: map<ActorRef, Live>, a: ActorRef)
    requires PeersTaken(hops, peers, left, live) && a in live && a in left
    requires IsRoutable(live[a]) && live[a].row.peerNodeId !in peers && |hops| < MAX_ROUTES
    ensures PeersTaken(hops + [HopOf(live[a])], peers + {live[a].row.peerNodeId}, left - {a}, live)
  {
    NodeIdsAppend(hops, HopOf(live[a]));
    HintsAppend(hops, live, a);
  }

  lemma SkipPeer(hops: seq<ExtraHop>, peers: set<string>, left: set<ActorRef>, live: map<ActorRef, Live>, a: ActorRef)
    requires PeersTaken(hops, peers, left, live) && a in live && a in left
    requires !(IsRoutable(live[a]) && live[a].row.peerNodeId !in peers && |hops| < MAX_ROUTES)
    ensures PeersTaken(hops, peers, left - {a}, live)
  {
  }

  lemma AllTaken(hops: seq<ExtraHop>, peers: set<string>, live: map<ActorRef, Live>)
    requires PeersTaken(hops, peers, {}, live)
    ensures AreHints(hops, live)
    ensures |hops| == if |RoutablePeers(live)| < MAX_ROUTES then |RoutablePeers(live)| else MAX_ROUTES
  {
    var all := RoutablePeers(live);
    assert all == peers + (all - peers);
    if |hops| < MAX_ROUTES {
      assert all == peers;
    }
  }
}
