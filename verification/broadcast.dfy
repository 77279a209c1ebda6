/**
 * The broadcast operator: a builder that accumulates target rooms, excluded rooms
 * and flags in place, and terminal operations that each publish one message built
 * from that state.
 */
module Broadcast {
  import opened Wrappers
  import opened Enums
  import opened Wire
  import opened Naming
  import opened Transport

  /** Event names the Socket.IO protocol keeps for itself. */
  const ReservedEvents: set<string> :=
    {"connect", "connect_error", "disconnect", "disconnecting", "newListener", "removeListener"}

  /**
   * Six distinct names are reserved, and the ordinary event name `message` is
   * not one of them.
   */
  lemma ReservedEventNames()
    ensures |ReservedEvents| == 6
    ensures "message" !in ReservedEvents
  {
  }

  /** The error `Emit` returns for a reserved event name: the name, then a fixed explanation. */
  function ReservedEventError(event: string): (msg: string)
    ensures event <= msg
    ensures msg[|event|..] == " is a reserved event name"
  {
    event + " is a reserved event name"
  }

  // ---------------------------------------------------------------------------
  // Room sets and their listing
  // ---------------------------------------------------------------------------

  /** The rooms named in a list. */
  function Elems(rs: seq<string>): (m: set<string>)
  {
    set r | r in rs
  }

  predicate Distinct(s: seq<string>)
  {
    forall i, j | 0 <= i < j < |s| :: s[i] != s[j]
  }

  /** `s` lists every room of `m` exactly once, in some order. */
  predicate Enumerates(s: seq<string>, m: set<string>)
  {
    Distinct(s) && Elems(s) == m
  }

  /** Appending a room not yet listed keeps a listing free of repeats. */
  lemma DistinctAppend(s: seq<string>, x: string)
    requires Distinct(s) && x !in Elems(s)
    ensures Distinct(s + [x]) && Elems(s + [x]) == Elems(s) + {x}
  {
    var t := s + [x];
    forall i, j | 0 <= i < j < |t| ensures t[i] != t[j] {
      if j == |s| {
        assert t[i] == s[i] && s[i] in Elems(s);
      } else {
        assert t[i] == s[i] && t[j] == s[j];
      }
    }
  }

  /** A listing is as long as the set it lists. */
  lemma {:induction false} EnumerationSize(s: seq<string>, m: set<string>)
    requires Enumerates(s, m)
    ensures |s| == |m|
  {
    if s != [] {
      var rest := s[1..];
      forall x | x in rest ensures x != s[0] {
        var k :| 0 <= k < |rest| && rest[k] == x;
        assert s[k + 1] == x;
      }
      assert Elems(rest) == m - {s[0]} by {
        forall x | x in m - {s[0]} ensures x in rest {
          var k :| 0 <= k < |s| && s[k] == x;
          assert k != 0;
          assert rest[k - 1] == x;
        }
      }
      EnumerationSize(rest, m - {s[0]});
    }
  }

  /** The only listing of no rooms is the empty list. */
  lemma EnumeratesNothing(s: seq<string>)
    ensures Enumerates(s, {}) <==> s == []
  {
    if s != [] {
      assert s[0] in Elems(s);
    }
  }

  /** The room of a set that holds exactly one. */
  ghost function SoleRoom(rooms: set<string>): (r: string)
    requires |rooms| == 1
    ensures rooms == {r}
  {
    var r :| r in rooms;
    assert |rooms - {r}| == 0;
    r
  }

  /**
   * The channel a broadcast goes to depends only on the set of target rooms,
   * not on the order they are listed in: the room's own channel when there is
   * exactly one room, the namespace's broadcast channel otherwise.
   */
  lemma EmitChannelOfRooms(broadcastChannel: string, s: seq<string>, rooms: set<string>)
    requires Enumerates(s, rooms)
    ensures EmitChannel(broadcastChannel, s)
         == if |rooms| == 1 then RoomChannel(broadcastChannel, SoleRoom(rooms)) else broadcastChannel
  {
    EnumerationSize(s, rooms);
    if |rooms| == 1 {
      assert s[0] in Elems(s);
    }
  }

  /** Lists the keys of a Go map, in the unspecified order of its iteration. */
  method MapToArray(m: set<string>) returns (rooms: seq<string>)
    ensures Enumerates(rooms, m)
    ensures |rooms| == |m|
  {
    rooms := [];
    if |m| > 0 {
      var rest := m;
      while rest != {}
        invariant rest <= m
        invariant Distinct(rooms)
        invariant Elems(rooms) == m - rest
        decreases |rest|
      {
        var room :| room in rest;
        DistinctAppend(rooms, room);
        rooms := rooms + [room];
        rest := rest - {room};
      }
    }
    EnumerationSize(rooms, m);
  }

  // ---------------------------------------------------------------------------
  // What a publication carries
  // ---------------------------------------------------------------------------

  /** The last publish call of a non-empty log. */
  function Last(log: seq<Publication>): (p: Publication)
    requires log != []
  {
    log[|log| - 1]
  }

  /** `after` is `before` followed by exactly one more publish call. */
  ghost predicate PublishedOnce(before: seq<Publication>, after: seq<Publication>)
  {
    |after| == |before| + 1 && after[..|before|] == before
  }

  /** The broadcast a receiver reads from a publication, if any. */
  ghost function MessageIn(p: Publication): (m: Option<BroadcastMessage>)
  {
    if p.payload.MsgPack? then DecodeMessage(p.payload.v) else None
  }

  /** The request a receiver reads from a publication, if any. */
  ghost function RequestIn(p: Publication): (r: Option<Request>)
  {
    if p.payload.Json? then DecodeRequest(p.payload.v) else None
  }

  /**
   * `p` broadcasts the event data `data` in namespace `opts.nsp` to the rooms
   * `rooms` minus `exceptRooms` with `flags`, on the channel the receivers
   * expect; the room lists may come in any order.
   */
  ghost predicate IsBroadcast(p: Publication, opts: BroadcastOptions, rooms: set<string>,
                              exceptRooms: set<string>, flags: BroadcastFlags, data: seq<Value>)
  {
    var m := MessageIn(p);
    && m.Some?
    && p.payload == MsgPack(EncodeMessage(m.value))
    && m.value.uid == Uid
    && m.value.packet == Packet(Event, data, opts.nsp)
    && Enumerates(m.value.opts.rooms, rooms)
    && Enumerates(m.value.opts.except, exceptRooms)
    && m.value.opts.flags == flags
    && p.channel == (if |rooms| == 1 then RoomChannel(opts.broadcastChannel, SoleRoom(rooms))
                     else opts.broadcastChannel)
  }

  /** `p` carries a request on the request channel of `opts`. */
  ghost predicate IsRequest(p: Publication, opts: BroadcastOptions)
  {
    && RequestIn(p).Some?
    && p.channel == opts.requestChannel
    && p.payload == Json(EncodeRequest(RequestIn(p).value))
  }

  /** A request filter that selects the sockets in `rooms` and not in `exceptRooms`. */
  ghost predicate FiltersBy(f: RoomFilter, rooms: set<string>, exceptRooms: set<string>)
  {
    Enumerates(f.rooms, rooms) && Enumerates(f.except, exceptRooms)
  }

  /** With no target and no excluded room, a broadcast is fully determined. */
  lemma BroadcastWithoutTargets(p: Publication, opts: BroadcastOptions, flags: BroadcastFlags, data: seq<Value>)
    requires IsBroadcast(p, opts, {}, {}, flags, data)
    ensures p.channel == opts.broadcastChannel
    ensures p.payload == MsgPack(EncodeMessage(
      BroadcastMessage(Uid, Packet(Event, data, opts.nsp), BroadcastOpts([], flags, []))))
  {
    var m := MessageIn(p).value;
    EnumeratesNothing(m.opts.rooms);
    EnumeratesNothing(m.opts.except);
  }

  /** With no target and no excluded room, a request filter is empty. */
  lemma FilterWithoutTargets(f: RoomFilter)
    requires FiltersBy(f, {}, {})
    ensures f == RoomFilter([], [])
  {
    EnumeratesNothing(f.rooms);
    EnumeratesNothing(f.except);
  }

  /** Event data `[event] + args` can be serialized exactly when `args` can. */
  lemma EventDataEncodable(event: string, args: seq<Value>)
    ensures Encodable(List([Str(event)] + args)) <==> Encodable(List(args))
  {
    var data := [Str(event)] + args;
    forall i | 0 <= i < |args| ensures data[i + 1] == args[i] { }
  }

  // ---------------------------------------------------------------------------
  // The operator
  // ---------------------------------------------------------------------------

  class BroadcastOperator {
    /** The bus every terminal operation publishes on. */
    const bus: Bus
    /** Namespace and channel names, fixed for the operator's lifetime. */
    const opts: BroadcastOptions
    /** Rooms a broadcast targets, or the sockets an administrative request selects. */
    var rooms: set<string>
    /** Rooms whose sockets are excluded. */
    var exceptRooms: set<string>
    var flags: BroadcastFlags

    /** A fresh operator: no rooms, no excluded rooms, no flags. */
    constructor (bus: Bus, opts: BroadcastOptions)
      ensures this.bus == bus && this.opts == opts
      ensures rooms == {} && exceptRooms == {} && flags == NoFlags
    {
      this.bus := bus;
      this.opts := opts;
      rooms := {};
      exceptRooms := {};
      flags := BroadcastFlags(false, false);
    }

    /** Adds each of `rs` to the target rooms; repeated rooms collapse. */
    method To(rs: seq<string>) returns (self: BroadcastOperator)
      modifies this
      ensures self == this
      ensures rooms == old(rooms) + Elems(rs)
      ensures exceptRooms == old(exceptRooms) && flags == old(flags)
    {
      for i := 0 to |rs|
        invariant rooms == old(rooms) + Elems(rs[..i])
        invariant exceptRooms == old(exceptRooms) && flags == old(flags)
      {
        assert rs[..i + 1] == rs[..i] + [rs[i]];
        rooms := rooms + {rs[i]};
      }
      assert rs[..|rs|] == rs;
      self := this;
    }

    /** A synonym of `To`. */
    method In(rs: seq<string>) returns (self: BroadcastOperator)
      modifies this
      ensures self == this
      ensures rooms == old(rooms) + Elems(rs)
      ensures exceptRooms == old(exceptRooms) && flags == old(flags)
    {
      self := To(rs);
    }

    /** Adds each of `rs` to the excluded rooms; repeated rooms collapse. */
    method Except(rs: seq<string>) returns (self: BroadcastOperator)
      modifies this
      ensures self == this
      ensures exceptRooms == old(exceptRooms) + Elems(rs)
      ensures rooms == old(rooms) && flags == old(flags)
    {
      for i := 0 to |rs|
        invariant exceptRooms == old(exceptRooms) + Elems(rs[..i])
        invariant rooms == old(rooms) && flags == old(flags)
      {
        assert rs[..i + 1] == rs[..i] + [rs[i]];
        exceptRooms := exceptRooms + {rs[i]};
      }
      assert rs[..|rs|] == rs;
      self := this;
    }

    /** Sets the compress flag to exactly `compress`. */
    method Compress(compress: bool) returns (self: BroadcastOperator)
      modifies this
      ensures self == this
      ensures flags == old(flags).(compress := compress)
      ensures rooms == old(rooms) && exceptRooms == old(exceptRooms)
    {
      flags := flags.(compress := compress);
      self := this;
    }

    /** Marks the broadcast volatile; there is no way back. */
    method Volatile() returns (self: BroadcastOperator)
      modifies this
      ensures self == this
      ensures flags == old(flags).(volatile := true)
      ensures rooms == old(rooms) && exceptRooms == old(exceptRooms)
    {
      flags := flags.(volatile := true);
      self := this;
    }

    /**
     * Broadcasts `event` with `args`. A reserved name or unserializable
     * arguments fail before anything is published; otherwise exactly one
     * publish is made and its error, if any, is returned unchanged.
     */
    method Emit(event: string, args: seq<Value>) returns (ok: bool, err: Option<string>)
      modifies bus
      ensures unchanged(this)
      ensures ok <==> err.None?
      ensures event in ReservedEvents ==>
        err == Some(ReservedEventError(event)) && bus.log == old(bus.log)
      ensures event !in ReservedEvents && !Encodable(List(args)) ==>
        err == Some(UnsupportedValueError) && bus.log == old(bus.log)
      ensures event !in ReservedEvents && Encodable(List(args)) ==>
        && PublishedOnce(old(bus.log), bus.log)
        && IsBroadcast(Last(bus.log), opts, rooms, exceptRooms, flags, [Str(event)] + args)
        && err == Last(bus.log).outcome
    {
      if event in ReservedEvents {
        return false, Some(ReservedEventError(event));
      }
      var data := [Str(event)] + args;
      var roomList := MapToArray(rooms);
      var exceptList := MapToArray(exceptRooms);
      var m := BroadcastMessage(Uid, Packet(Event, data, opts.nsp), BroadcastOpts(roomList, flags, exceptList));
      EventDataEncodable(event, args);
      var msg := MsgPackMarshal(EncodeMessage(m));
      if msg.Failure? {
        return false, Some(msg.error);
      }
      var channel := opts.broadcastChannel;
      if |roomList| == 1 {
        channel := RoomChannel(channel, roomList[0]);
      }
      EmitChannelOfRooms(opts.broadcastChannel, roomList, rooms);
      err := bus.Publish(channel, msg.value);
      if err.Some? {
        return false, err;
      }
      return true, None;
    }

    /**
     * Asks every server to make the sockets selected by the current rooms and
     * excluded rooms join `rs`.
     */
    method SocketsJoin(rs: seq<string>) returns (err: Option<string>)
      modifies bus
      ensures unchanged(this)
      ensures PublishedOnce(old(bus.log), bus.log)
      ensures IsRequest(Last(bus.log), opts)
      ensures RequestIn(Last(bus.log)).value.JoinRequest?
      ensures RequestIn(Last(bus.log)).value.Type() == RemoteJoin
      ensures FiltersBy(RequestIn(Last(bus.log)).value.filter, rooms, exceptRooms)
      ensures RequestIn(Last(bus.log)).value.rooms == rs
      ensures err == Last(bus.log).outcome
    {
      var roomList := MapToArray(rooms);
      var exceptList := MapToArray(exceptRooms);
      var r := JoinRequest(RoomFilter(roomList, exceptList), rs);
      var request := JsonMarshal(EncodeRequest(r));
      if request.Failure? {
        assert false;
      }
      err := bus.Publish(opts.requestChannel, request.value);
    }

    /**
     * Asks every server to make the sockets selected by the current rooms and
     * excluded rooms leave `rs`.
     */
    method SocketsLeave(rs: seq<string>) returns (err: Option<string>)
      modifies bus
      ensures unchanged(this)
      ensures PublishedOnce(old(bus.log), bus.log)
      ensures IsRequest(Last(bus.log), opts)
      ensures RequestIn(Last(bus.log)).value.LeaveRequest?
      ensures RequestIn(Last(bus.log)).value.Type() == RemoteLeave
      ensures FiltersBy(RequestIn(Last(bus.log)).value.filter, rooms, exceptRooms)
      ensures RequestIn(Last(bus.log)).value.rooms == rs
      ensures err == Last(bus.log).outcome
    {
      var roomList := MapToArray(rooms);
      var exceptList := MapToArray(exceptRooms);
      var r := LeaveRequest(RoomFilter(roomList, exceptList), rs);
      var request := JsonMarshal(EncodeRequest(r));
      if request.Failure? {
        assert false;
      }
      err := bus.Publish(opts.requestChannel, request.value);
    }

    /**
     * Asks every server to disconnect the sockets selected by the current rooms
     * and excluded rooms, closing the underlying connection when `close` holds.
     */
    method DisconnectSockets(close: bool) returns (err: Option<string>)
      modifies bus
      ensures unchanged(this)
      ensures PublishedOnce(old(bus.log), bus.log)
      ensures IsRequest(Last(bus.log), opts)
      ensures RequestIn(Last(bus.log)).value.DisconnectRequest?
      ensures RequestIn(Last(bus.log)).value.Type() == RemoteDisconnect
      ensures FiltersBy(RequestIn(Last(bus.log)).value.filter, rooms, exceptRooms)
      ensures RequestIn(Last(bus.log)).value.close == close
      ensures err == Last(bus.log).outcome
    {
      var roomList := MapToArray(rooms);
      var exceptList := MapToArray(exceptRooms);
      var r := DisconnectRequest(RoomFilter(roomList, exceptList), close);
      var request := JsonMarshal(EncodeRequest(r));
      if request.Failure? {
        assert false;
      }
      err := bus.Publish(opts.requestChannel, request.value);
    }

    /**
     * Sends `args` to every server of the cluster, tagged with the emitter's
     * identifier; room targeting plays no part.
     */
    method ServerSideEmit(args: seq<Value>) returns (err: Option<string>)
      modifies bus
      ensures unchanged(this)
      ensures !Encodable(List(args)) ==> err == Some(UnsupportedValueError) && bus.log == old(bus.log)
      ensures Encodable(List(args)) ==>
        && PublishedOnce(old(bus.log), bus.log)
        && IsRequest(Last(bus.log), opts)
        && RequestIn(Last(bus.log)) == Some(ServerSideEmitRequest(Uid, args))
        && err == Last(bus.log).outcome
    {
      var r := ServerSideEmitRequest(Uid, args);
      var request := JsonMarshal(EncodeRequest(r));
      if request.Failure? {
        return Some(request.error);
      }
      err := bus.Publish(opts.requestChannel, request.value);
    }
  }
}
