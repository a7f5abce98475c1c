/** The loops over the live channel objects. */
module ChannelQueries {
  import opened Events
  import opened Channels
  import opened ChannelObjects
  import opened ChannelTotals

  /** What the objects of the map hold. */
  ghost predicate Hold(channels: map<ActorRef, LocalChannel>, live: map<ActorRef, Live>)
    reads channels.Values
  {
    channels.Keys == live.Keys && forall a :: a in channels ==> channels[a].Value() == live[a]
  }

  method GetChannelsBalance(channels: map<ActorRef, LocalChannel>, ghost live: map<ActorRef, Live>) returns (total: int)
    requires Hold(channels, live)
    ensures total == TotalBalance(live)
  {
    hide Summed, Shares;
    total := 0;
    var left := channels.Keys;
    SummedNone(live, BalanceShare);
    while left != {}
      invariant left <= channels.Keys
      invariant Summed(total, left, live, BalanceShare)
      decreases |left|
    {
      var a :| a in left;
      SummedOneMore(total, left, live, BalanceShare, a);
      if FundsAreAccountedFor(channels[a].state) {
        total := total + channels[a].balanceMsat;
      }
      left := left - {a};
    }
    SummedAll(total, live, BalanceShare);
  }

  method GetMaxReceivable(channels: map<ActorRef, LocalChannel>, ghost live: map<ActorRef, Live>) returns (total: int)
    requires Hold(channels, live)
    ensures total == TotalReceivable(live)
  {
    hide Summed, Shares;
    total := 0;
    var left := channels.Keys;
    SummedNone(live, ReceivableShare);
    while left != {}
      invariant left <= channels.Keys
      invariant Summed(total, left, live, ReceivableShare)
      decreases |left|
    {
      var a :| a in left;
      SummedOneMore(total, left, live, ReceivableShare, a);
      if FundsAreUsable(channels[a].state) {
        total := total + Receivable(channels[a].Row());
      }
      left := left - {a};
    }
    SummedAll(total, live, ReceivableShare);
  }

  /** Whatever the order of iteration: one hint per peer, and as many as the peers and the limit allow. */
  method GetRoutes(channels: map<ActorRef, LocalChannel>, ghost live: map<ActorRef, Live>)
    returns (routes: seq<ExtraHop>)
    requires Hold(channels, live)
    ensures AreHints(routes, live)
    ensures forall hop :: hop in routes ==> exists a :: a in live && IsFrom(hop, live[a])
    ensures forall i, j :: 0 <= i < j < |routes| ==> routes[i].nodeId != routes[j].nodeId
    ensures |routes| == if |RoutablePeers(live)| < 5 then |RoutablePeers(live)| else 5
  {
    hide LocalChannel.Value, LocalChannel.Row, AreHints, PeersTaken, RoutablePeers;
    routes := [];
    var peersInRoute: set<string> := {};
    var left := channels.Keys;
    NoneTaken(live);
    while left != {}
      invariant left <= channels.Keys
      invariant PeersTaken(routes, peersInRoute, left, live)
      decreases |left|
    {
      var a :| a in left;
      var c := channels[a].Value();
      if IsRoutable(c) && c.row.peerNodeId !in peersInRoute && |routes| < MAX_ROUTES {
        TakePeer(routes, peersInRoute, left, live, a);
        routes, peersInRoute := routes + [HopOf(c)], peersInRoute + {c.row.peerNodeId};
      } else {
        SkipPeer(routes, peersInRoute, left, live, a);
      }
      left := left - {a};
    }
    AllTaken(routes, peersInRoute, live);
    HintsAreDistinct(routes, live);
  }
}
