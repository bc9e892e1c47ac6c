/**
 * The server's real-time hub: which room each connection is in, the
 * in-memory cache of each agent's last reported location, and the events
 * the handlers emit. Each handler runs to completion before the next one
 * starts, so a handler is one atomic step on this state.
 */
module SocketServer {
  import opened Wrappers
  import opened Text
  import opened Parcels

  /** A connection's socket id. */
  type ConnId = string

  /** The cached report of one agent. */
  datatype Entry = Entry(location: Location, timestamp: Timestamp)

  datatype Event =
    | AgentLocationUpdate(agentId: string, location: Location, timestamp: Timestamp)
    | RequestAgentLocation(agentId: string)

  /** An emitted event and who receives it: every connection, or one. */
  datatype Emission = ToAll(event: Event) | ToConn(conn: ConnId, event: Event)

  /** The room of one user. */
  function UserRoom(userId: string): string
  {
    "user:" + userId
  }

  /** The room of one parcel. */
  function ParcelRoom(parcelId: string): string
  {
    "parcel:" + parcelId
  }

  /**
   * Room names never collide: a user room is never a parcel room, and
   * distinct ids name distinct rooms.
   */
  lemma RoomNamesDistinct(a: string, b: string)
    ensures UserRoom(a) != ParcelRoom(b)
    ensures UserRoom(a) == UserRoom(b) ==> a == b
    ensures ParcelRoom(a) == ParcelRoom(b) ==> a == b
  {
    assert UserRoom(a)[0] == 'u' && ParcelRoom(b)[0] == 'p';
    assert UserRoom(a)[5..] == a && UserRoom(b)[5..] == b;
    assert ParcelRoom(a)[7..] == a && ParcelRoom(b)[7..] == b;
  }

  /** The connections in a room; a room nobody joined is empty. */
  function Members(rooms: map<string, set<ConnId>>, room: string): set<ConnId>
  {
    if room in rooms then rooms[room] else {}
  }

  /** `socket.join(room)`: that room gains the connection, no other room changes. */
  function Join(rooms: map<string, set<ConnId>>, room: string, c: ConnId): (r: map<string, set<ConnId>>)
    ensures Members(r, room) == Members(rooms, room) + {c}
    ensures forall other :: other != room ==> Members(r, other) == Members(rooms, other)
  {
    rooms[room := Members(rooms, room) + {c}]
  }

  /** `socket.leave(room)`: that room loses the connection, no other room changes. */
  function Leave(rooms: map<string, set<ConnId>>, room: string, c: ConnId): (r: map<string, set<ConnId>>)
    ensures Members(r, room) == Members(rooms, room) - {c}
    ensures forall other :: other != room ==> Members(r, other) == Members(rooms, other)
  {
    rooms[room := Members(rooms, room) - {c}]
  }

  /** A closed connection is dropped from every room. */
  function LeaveAll(rooms: map<string, set<ConnId>>, c: ConnId): (r: map<string, set<ConnId>>)
    ensures forall room :: Members(r, room) == Members(rooms, room) - {c}
  {
    map room | room in rooms :: rooms[room] - {c}
  }

  /**
   * Subscribing to a parcel and then unsubscribing from it leaves the
   * connection outside that parcel's room, whatever it was in before, and
   * leaves every other room, user rooms included, as it was.
   */
  lemma SubscribeThenUnsubscribe(rooms: map<string, set<ConnId>>, parcelId: string, c: ConnId)
    ensures var after := Leave(Join(rooms, ParcelRoom(parcelId), c), ParcelRoom(parcelId), c);
      && c !in Members(after, ParcelRoom(parcelId))
      && Members(after, ParcelRoom(parcelId)) == Members(rooms, ParcelRoom(parcelId)) - {c}
      && forall other :: other != ParcelRoom(parcelId) ==> Members(after, other) == Members(rooms, other)
  {
  }

  /**
   * The events a `request:agent:location` produces: the cached report
   * replayed to the requester when there is one, and then, always, the
   * request broadcast to every connection so the agent reports afresh.
   */
  function RequestEmissions(cache: map<string, Entry>, requester: ConnId, agentId: string): (r: seq<Emission>)
    ensures |r| == (if agentId in cache then 2 else 1)
    ensures r[|r| - 1] == ToAll(RequestAgentLocation(agentId))
    ensures agentId in cache ==>
      r[0] == ToConn(requester, AgentLocationUpdate(agentId, cache[agentId].location, cache[agentId].timestamp))
  {
    (if agentId in cache
     then [ToConn(requester, AgentLocationUpdate(agentId, cache[agentId].location, cache[agentId].timestamp))]
     else [])
    + [ToAll(RequestAgentLocation(agentId))]
  }

  /**
   * The cache keeps the report that arrived last, not the newest one:
   * a report with an older timestamp still replaces a newer one.
   */
  lemma LastArrivalWins(cache: map<string, Entry>, agentId: string, first: Entry, second: Entry, c: ConnId)
    ensures var after := cache[agentId := first][agentId := second];
      RequestEmissions(after, c, agentId)[0] == ToConn(c, AgentLocationUpdate(agentId, second.location, second.timestamp))
  {
  }

  class Server {
    /** The last report of each agent; it lives as long as the process. */
    var agentLocations: map<string, Entry>
    var rooms: map<string, set<ConnId>>
    /** Every event emitted so far, in order. */
    var outbox: seq<Emission>

    constructor()
      ensures agentLocations == map[] && rooms == map[] && outbox == []
    {
      agentLocations := map[];
      rooms := map[];
      outbox := [];
    }

    /** A new connection joins its user's room when the handshake names a user. */
    method Connect(conn: ConnId, userId: Option<string>)
      modifies this
      ensures rooms == if Filled(userId) then Join(old(rooms), UserRoom(userId.value), conn) else old(rooms)
      ensures agentLocations == old(agentLocations) && outbox == old(outbox)
    {
      if Filled(userId) {
        rooms := Join(rooms, UserRoom(userId.value), conn);
      }
    }

    /** `subscribe:parcel`: joins the parcel's room unless the id is empty or missing. */
    method SubscribeParcel(conn: ConnId, parcelId: Option<string>)
      modifies this
      ensures rooms == if Filled(parcelId) then Join(old(rooms), ParcelRoom(parcelId.value), conn) else old(rooms)
      ensures agentLocations == old(agentLocations) && outbox == old(outbox)
    {
      if Filled(parcelId) {
        rooms := Join(rooms, ParcelRoom(parcelId.value), conn);
      }
    }

    /** `unsubscribe:parcel`: leaves the parcel's room unless the id is empty or missing. */
    method UnsubscribeParcel(conn: ConnId, parcelId: Option<string>)
      modifies this
      ensures rooms == if Filled(parcelId) then Leave(old(rooms), ParcelRoom(parcelId.value), conn) else old(rooms)
      ensures agentLocations == old(agentLocations) && outbox == old(outbox)
    {
      if Filled(parcelId) {
        rooms := Leave(rooms, ParcelRoom(parcelId.value), conn);
      }
    }

    /**
     * `agent:location:update`: the report replaces whatever the cache held
     * for that agent, whatever its timestamp, and is broadcast to every
     * connection unchanged.
     */
    method ReportLocation(agentId: string, location: Location, timestamp: Timestamp)
      modifies this
      ensures agentLocations == old(agentLocations)[agentId := Entry(location, timestamp)]
      ensures outbox == old(outbox) + [ToAll(AgentLocationUpdate(agentId, location, timestamp))]
      ensures rooms == old(rooms)
    {
      agentLocations := agentLocations[agentId := Entry(location, timestamp)];
      outbox := outbox + [ToAll(AgentLocationUpdate(agentId, location, timestamp))];
    }

    /** `request:agent:location`: replays the cache to the requester and asks the agent to report. */
    method RequestLocation(requester: ConnId, agentId: string)
      modifies this
      ensures outbox == old(outbox) + RequestEmissions(old(agentLocations), requester, agentId)
      ensures agentLocations == old(agentLocations) && rooms == old(rooms)
    {
      if agentId in agentLocations {
        var e := agentLocations[agentId];
        outbox := outbox + [ToConn(requester, AgentLocationUpdate(agentId, e.location, e.timestamp))];
      }
      outbox := outbox + [ToAll(RequestAgentLocation(agentId))];
    }

    /**
     * `disconnect`: Socket.IO drops the connection from its rooms; the
     * handler itself only logs, so the location cache keeps every entry.
     */
    method Disconnect(conn: ConnId)
      modifies this
      ensures rooms == LeaveAll(old(rooms), conn)
      ensures agentLocations == old(agentLocations) && outbox == old(outbox)
    {
      rooms := LeaveAll(rooms, conn);
    }
  }
}
