/** The database helper that stores the channels, and the handling of the node's messages about channels,
    in place on the map of live channels. Each message leaves map and table as the step function says. */
module ChannelActors {
  import opened Wrappers
  import opened Events
  import opened Channels
  import opened ChannelObjects

  class ChannelDBHelper {
    var channels: ChannelTable

    constructor ()
      ensures channels == NO_CHANNELS.table
    {
      channels := NO_CHANNELS.table;
    }

    method GetLocalChannel(channelId: string) returns (c: LocalChannel?)
      requires |ChannelQuery(channels, channelId)| <= 1
      ensures c == null <==> FindRow(channels, channelId) == None
      ensures c != null ==> fresh(c) && c.id == FindRow(channels, channelId) && c.Row() == channels.rows[c.id.value]
    {
      var ids := ChannelQuery(channels, channelId);
      if ids == {} {
        c := null;
      } else {
        var i :| i in ids;
        c := new LocalChannel.Load(i, channels.rows[i]);
        SingleId(ids, i, FindRow(channels, channelId));
      }
    }

    method SaveLocalChannel(c: LocalChannel)
      modifies this`channels, c`id
      ensures channels == SaveRow(old(channels), old(c.id), old(c.Row()))
      ensures c.id == IdAfterSave(old(channels), old(c.id), old(c.Row()))
    {
      if c.capacityMsat > 0 {
        channels, c.id := StoreRow(channels, c.id, c.Row()), Some(if c.id.Some? then c.id.value else channels.nextId);
      }
    }

    method ChannelTerminated(channelId: string)
      requires |ChannelQuery(channels, channelId)| <= 1
      modifies this`channels
      ensures channels == Terminate(old(channels), channelId)
    {
      var channel := GetLocalChannel(channelId);
      if channel != null {
        channel.isActive := false;
        SaveLocalChannel(channel);
      }
    }
  }

  class ChannelSupervisor {
    const dbHelper: ChannelDBHelper
    var activeChannelsMap: map<ActorRef, LocalChannel>
    ghost var live: map<ActorRef, Live>

    /** `live` is what the objects hold, but perhaps at one actor; one object per actor. */
    ghost predicate HoldsBut(a: ActorRef)
      reads this, activeChannelsMap.Values
    {
      && live.Keys == activeChannelsMap.Keys
      && (forall b :: b in live && b != a ==> live[b] == activeChannelsMap[b].Value())
      && (forall b, c :: b in live && c in live && b != c ==> activeChannelsMap[b] != activeChannelsMap[c])
    }

    ghost predicate Holds()
      reads this, activeChannelsMap.Values
    {
      && live.Keys == activeChannelsMap.Keys
      && (forall b :: b in live ==> live[b] == activeChannelsMap[b].Value())
      && (forall b, c :: b in live && c in live && b != c ==> activeChannelsMap[b] != activeChannelsMap[c])
    }

    ghost predicate Valid()
      reads this, dbHelper, activeChannelsMap.Values
    {
      TableOk(dbHelper.channels) && Holds()
    }

    ghost function State(): ChannelState
      reads this, dbHelper
    {
      ChannelState(live, dbHelper.channels)
    }

    constructor (dbHelper: ChannelDBHelper)
      requires TableOk(dbHelper.channels)
      ensures Valid() && this.dbHelper == dbHelper && live == map[]
    {
      this.dbHelper := dbHelper;
      activeChannelsMap := map[];
      live := map[];
    }

    // ---- messages

    method GetOrCreateChannel(a: ActorRef, channelId: string, peer: string) returns (c: LocalChannel)
      requires Holds()
      modifies activeChannelsMap.Values
      ensures HoldsBut(a) && c.Value() == GetOrCreate(State(), a, channelId, peer)
      ensures if a in live then c == activeChannelsMap[a] else fresh(c) && c !in activeChannelsMap.Values
    {
      if a in activeChannelsMap {
        c := activeChannelsMap[a];
      } else {
        c := new LocalChannel();
      }
      SetIdAndPeer(c, channelId, peer);
    }

    static method SetIdAndPeer(c: LocalChannel, channelId: string, peer: string)
      modifies c`channelId, c`peerNodeId
      ensures c.Value() == old(c.Value()).(row := old(c.Row()).(channelId := channelId, peerNodeId := peer))
    {
      c.channelId := channelId;
      c.peerNodeId := peer;
    }

    /** The map entry for an actor, new or rewritten. */
    method Register(a: ActorRef, c: LocalChannel)
      requires HoldsBut(a) && (a in live ==> c == activeChannelsMap[a])
               && (a !in live ==> c !in activeChannelsMap.Values)
      modifies this
      ensures Holds() && activeChannelsMap == old(activeChannelsMap)[a := c]
      ensures live == old(live)[a := c.Value()]
    {
      hide LocalChannel.Value, LocalChannel.Row;
      assert forall b :: b in live && b != a ==> activeChannelsMap[b] != c;
      activeChannelsMap := activeChannelsMap[a := c];
      live := live[a := c.Value()];
    }

    method OnChannelCreated(e: Event)
      requires Valid() && e.ChannelCreated?
      modifies this, activeChannelsMap.Values
      ensures Valid() && fresh(activeChannelsMap.Values - old(activeChannelsMap.Values))
      ensures State() == CreatedStep(old(State()), e.actor, e.temporaryChannelId, e.remoteNodeId)
    {
      hide LocalChannel.Value, LocalChannel.Row;
      var c := GetOrCreateChannel(e.actor, e.temporaryChannelId, e.remoteNodeId);
      Register(e.actor, c);
    }

    method OnChannelRestored(e: Event)
      requires Valid() && e.ChannelRestored?
      modifies this, activeChannelsMap.Values
      ensures Valid() && fresh(activeChannelsMap.Values - old(activeChannelsMap.Values))
      ensures State() == RestoredStep(old(State()), e.actor, e.channelId, e.remoteNodeId)
    {
      hide LocalChannel.Value, LocalChannel.Row;
      var c := GetRestoredChannel(e.actor, e.channelId, e.remoteNodeId);
      Register(e.actor, c);
    }

    method GetRestoredChannel(a: ActorRef, channelId: string, peer: string) returns (c: LocalChannel)
      requires Valid()
      modifies activeChannelsMap.Values
      ensures HoldsBut(a)
              && c.Value() == WithNotes(GetOrCreate(State(), a, channelId, peer), dbHelper.channels, channelId)
      ensures if a in live then c == activeChannelsMap[a] else fresh(c) && c !in activeChannelsMap.Values
    {
      hide LocalChannel.Value, LocalChannel.Row;
      c := GetOrCreateChannel(a, channelId, peer);
      RestoreNotes(c, dbHelper, channelId);
    }

    /** What the node tells only once is read back from the database. */
    static method RestoreNotes(c: LocalChannel, dbHelper: ChannelDBHelper, channelId: string)
      requires TableOk(dbHelper.channels)
      modifies c`closingErrorMessage, c`refundAtBlock
      ensures c.Value() == WithNotes(old(c.Value()), dbHelper.channels, channelId)
    {
      QueryIsSingle(dbHelper.channels, channelId);
      var channelInDB := dbHelper.GetLocalChannel(channelId);
      if channelInDB != null {
        c.closingErrorMessage := channelInDB.closingErrorMessage;
        c.refundAtBlock := channelInDB.refundAtBlock;
      }
    }

    static lemma QueryIsSingle(t: ChannelTable, channelId: string)
      requires TableOk(t)
      ensures |ChannelQuery(t, channelId)| <= 1
    {
      var ids := ChannelQuery(t, channelId);
      if ids != {} {
        var i :| i in ids;
        assert ids == {i};
      }
    }

    method OnTerminated(e: Event)
      requires Valid() && e.Terminated?
      modifies this, dbHelper`channels
      ensures Valid() && activeChannelsMap == old(activeChannelsMap) - {e.actor}
      ensures State() == TerminatedStep(old(State()), e.actor)
    {
      if e.actor in activeChannelsMap {
        MarkTerminated(dbHelper, activeChannelsMap[e.actor].channelId);
      }
      Forget(e.actor);
    }

    static method MarkTerminated(dbHelper: ChannelDBHelper, channelId: string)
      requires TableOk(dbHelper.channels)
      modifies dbHelper`channels
      ensures TableOk(dbHelper.channels) && dbHelper.channels == Terminate(old(dbHelper.channels), channelId)
    {
      QueryIsSingle(dbHelper.channels, channelId);
      TerminateKeepsTable(dbHelper.channels, channelId);
      dbHelper.ChannelTerminated(channelId);
    }

    method Forget(a: ActorRef)
      requires Holds()
      modifies this
      ensures Holds() && activeChannelsMap == old(activeChannelsMap) - {a} && live == old(live) - {a}
    {
      hide LocalChannel.Value, LocalChannel.Row;
      activeChannelsMap := activeChannelsMap - {a};
      live := live - {a};
    }

    static lemma TerminateKeepsTable(t: ChannelTable, channelId: string)
      requires TableOk(t)
      ensures TableOk(Terminate(t, channelId))
    {
    }

    /** The messages about a known channel write its object, and most of them store it. */
    method OnChannelUpdate(e: Event)
      requires Valid() && IsUpdate(e)
      modifies this, activeChannelsMap.Values, dbHelper`channels
      ensures Valid() && activeChannelsMap == old(activeChannelsMap)
      ensures State() == UpdateStep(old(State()), e.actor, e)
    {
      hide LocalChannel.Value, LocalChannel.Row, UpdatedAndSaved;
      if e.actor in activeChannelsMap {
        UpdateKnown(e.actor, e);
      }
    }

    /** `live` follows the object of an actor, which alone was written. */
    ghost method Follow(a: ActorRef, after: Live)
      requires HoldsBut(a) && a in live && activeChannelsMap[a].Value() == after
      modifies this`live
      ensures Holds() && live == old(live)[a := after]
    {
      hide LocalChannel.Value, LocalChannel.Row;
      live := live[a := after];
    }

    method UpdateKnown(a: ActorRef, e: Event)
      requires Holds() && TableOk(dbHelper.channels) && IsUpdate(e) && a in live
      modifies this`live, activeChannelsMap[a], dbHelper`channels
      ensures a in live && Holds() && TableOk(dbHelper.channels)
      ensures (live[a], dbHelper.channels) == UpdatedAndSaved(old(live[a]), old(dbHelper.channels), e)
      ensures live == old(live)[a := live[a]]
    {
      hide LocalChannel.Value, LocalChannel.Row;
      ghost var after := WriteAndSave(activeChannelsMap[a], dbHelper, e);
      Follow(a, after);
    }

    static method WriteAndSave(c: LocalChannel, dbHelper: ChannelDBHelper, e: Event) returns (ghost after: Live)
      requires IsUpdate(e) && TableOk(dbHelper.channels)
      modifies c, dbHelper`channels
      ensures TableOk(dbHelper.channels) && c.Value() == after
      ensures (after, dbHelper.channels) == UpdatedAndSaved(old(c.Value()), old(dbHelper.channels), e)
    {
      Write(c, e);
      if Saves(e) {
        StoreKeepsTable(dbHelper.channels, c.id, c.Row());
        dbHelper.SaveLocalChannel(c);
      }
      after := c.Value();
    }

    /** A new process: the map is gone, the table remains. */
    method OnRestart()
      requires Valid()
      modifies this
      ensures Valid() && activeChannelsMap == map[] && State() == old(State()).(live := map[])
    {
      activeChannelsMap := map[];
      live := map[];
    }
  }
}
