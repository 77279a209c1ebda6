/**
 * The emitter: the configuration of one namespace under one application key,
 * and the entry points that start every call chain from a fresh broadcast
 * operator.
 */
module Emitters {
  import opened Wrappers
  import opened Enums
  import opened Wire
  import opened Naming
  import opened Transport
  import opened Broadcast

  /** The configuration an emitter is built from (connection settings left out). */
  datatype EmitterOptions = EmitterOptions(key: string, nsp: string)

  class Emitter {
    /** The configuration, with defaults filled in; `Of` overwrites its namespace. */
    var opts: EmitterOptions
    /** The bus this emitter publishes on. */
    const bus: Bus
    /** The namespace and channels derived when the emitter was built. */
    var broadcastOptions: BroadcastOptions

    /** The channels were derived from the configured key. */
    ghost predicate Valid()
      reads this
    {
      && opts.key != ""
      && broadcastOptions == DeriveOptions(opts.key, broadcastOptions.nsp)
    }

    /**
     * Builds an emitter: an empty key becomes `socket.io`, an empty namespace
     * becomes `/`, and both channel names are derived from the result.
     */
    constructor (options: EmitterOptions, bus: Bus)
      ensures Valid()
      ensures opts.key == (if options.key == "" then DefaultKey else options.key)
      ensures opts.nsp == (if options.nsp == "" then DefaultNsp else options.nsp)
      ensures broadcastOptions == DeriveOptions(opts.key, opts.nsp)
      ensures this.bus == bus
    {
      var o := options;
      if o.key == "" {
        o := o.(key := DefaultKey);
      }
      if o.nsp == "" {
        o := o.(nsp := DefaultNsp);
      }
      this.bus := bus;
      broadcastOptions := DeriveOptions(o.key, o.nsp);
      opts := o;
    }

    /**
     * An emitter for the namespace `nsp`, with `/` prepended when missing. The
     * receiver keeps its key and its channels, but its configured namespace is
     * overwritten.
     */
    method Of(nsp: string) returns (e: Emitter)
      requires Valid()
      modifies this
      ensures Valid() && fresh(e) && e.Valid()
      ensures opts == old(opts).(nsp := NormalizeNsp(nsp))
      ensures broadcastOptions == old(broadcastOptions)
      ensures e.bus == bus && e.opts == opts
      ensures e.broadcastOptions == DeriveOptions(opts.key, NormalizeNsp(nsp))
      ensures DefaultNsp <= e.broadcastOptions.nsp
    {
      var n := nsp;
      if !(DefaultNsp <= n) {
        n := DefaultNsp + n;
      }
      opts := opts.(nsp := n);
      e := new Emitter(opts, bus);
    }

    /** Broadcasts `event` with `args` nested as ONE argument, to every room. */
    method Emit(event: string, args: seq<Value>) returns (ok: bool, err: Option<string>)
      modifies bus
      ensures ok <==> err.None?
      ensures event in ReservedEvents ==>
        err == Some(ReservedEventError(event)) && bus.log == old(bus.log)
      ensures event !in ReservedEvents && !Encodable(List(args)) ==>
        err == Some(UnsupportedValueError) && bus.log == old(bus.log)
      ensures event !in ReservedEvents && Encodable(List(args)) ==>
        && PublishedOnce(old(bus.log), bus.log)
        && Last(bus.log) == Publication(
             broadcastOptions.broadcastChannel,
             MsgPack(EncodeMessage(BroadcastMessage(
               Uid,
               Packet(Event, [Str(event), List(args)], broadcastOptions.nsp),
               BroadcastOpts([], NoFlags, [])))),
             err)
    {
      var b := new BroadcastOperator(bus, broadcastOptions);
      EventDataEncodable(event, [List(args)]);
      assert Encodable(List([List(args)])) <==> Encodable(List(args)) by {
        assert [List(args)][0] == List(args);
      }
      ok, err := b.Emit(event, [List(args)]);
      if event !in ReservedEvents && Encodable(List(args)) {
        assert [Str(event)] + [List(args)] == [Str(event), List(args)];
        BroadcastWithoutTargets(Last(bus.log), broadcastOptions, NoFlags, [Str(event), List(args)]);
      }
    }

    /**
     * Broadcasts `event` with `args` spread into the packet data, as the
     * operator's `Emit` does: the forwarding `Emit` evidently meant this.
     */
    method EmitSpreadingArgs(event: string, args: seq<Value>) returns (ok: bool, err: Option<string>)
      modifies bus
      ensures ok <==> err.None?
      ensures event in ReservedEvents ==>
        err == Some(ReservedEventError(event)) && bus.log == old(bus.log)
      ensures event !in ReservedEvents && !Encodable(List(args)) ==>
        err == Some(UnsupportedValueError) && bus.log == old(bus.log)
      ensures event !in ReservedEvents && Encodable(List(args)) ==>
        && PublishedOnce(old(bus.log), bus.log)
        && Last(bus.log) == Publication(
             broadcastOptions.broadcastChannel,
             MsgPack(EncodeMessage(BroadcastMessage(
               Uid,
               Packet(Event, [Str(event)] + args, broadcastOptions.nsp),
               BroadcastOpts([], NoFlags, [])))),
             err)
    {
      var b := new BroadcastOperator(bus, broadcastOptions);
      ok, err := b.Emit(event, args);
      if event !in ReservedEvents && Encodable(List(args)) {
        BroadcastWithoutTargets(Last(bus.log), broadcastOptions, NoFlags, [Str(event)] + args);
      }
    }

    /** A fresh operator targeting `rs`. */
    method To(rs: seq<string>) returns (b: BroadcastOperator)
      ensures fresh(b) && b.bus == bus && b.opts == broadcastOptions
      ensures b.rooms == Elems(rs) && b.exceptRooms == {} && b.flags == NoFlags
    {
      b := new BroadcastOperator(bus, broadcastOptions);
      b := b.To(rs);
    }

    /** A fresh operator targeting `rs`; a synonym of `To`. */
    method In(rs: seq<string>) returns (b: BroadcastOperator)
      ensures fresh(b) && b.bus == bus && b.opts == broadcastOptions
      ensures b.rooms == Elems(rs) && b.exceptRooms == {} && b.flags == NoFlags
    {
      b := new BroadcastOperator(bus, broadcastOptions);
      b := b.In(rs);
    }

    /** A fresh operator excluding `rs`. */
    method Except(rs: seq<string>) returns (b: BroadcastOperator)
      ensures fresh(b) && b.bus == bus && b.opts == broadcastOptions
      ensures b.rooms == {} && b.exceptRooms == Elems(rs) && b.flags == NoFlags
    {
      b := new BroadcastOperator(bus, broadcastOptions);
      b := b.Except(rs);
    }

    /** A fresh operator marked volatile. */
    method Volatile() returns (b: BroadcastOperator)
      ensures fresh(b) && b.bus == bus && b.opts == broadcastOptions
      ensures b.rooms == {} && b.exceptRooms == {} && b.flags == BroadcastFlags(true, false)
    {
      b := new BroadcastOperator(bus, broadcastOptions);
      b := b.Volatile();
    }

    /** A fresh operator with the compress flag set to `compress`. */
    method Compress(compress: bool) returns (b: BroadcastOperator)
      ensures fresh(b) && b.bus == bus && b.opts == broadcastOptions
      ensures b.rooms == {} && b.exceptRooms == {} && b.flags == BroadcastFlags(false, compress)
    {
      b := new BroadcastOperator(bus, broadcastOptions);
      b := b.Compress(compress);
    }

    /** Asks every server to make all of its sockets in this namespace join `rs`. */
    method SocketsJoin(rs: seq<string>) returns (err: Option<string>)
      modifies bus
      ensures bus.log == old(bus.log) + [Publication(
        broadcastOptions.requestChannel,
        Json(EncodeRequest(JoinRequest(RoomFilter([], []), rs))),
        err)]
    {
      var b := new BroadcastOperator(bus, broadcastOptions);
      err := b.SocketsJoin(rs);
      FilterWithoutTargets(RequestIn(Last(bus.log)).value.filter);
    }

    /** Asks every server to make all of its sockets in this namespace leave `rs`. */
    method SocketsLeave(rs: seq<string>) returns (err: Option<string>)
      modifies bus
      ensures bus.log == old(bus.log) + [Publication(
        broadcastOptions.requestChannel,
        Json(EncodeRequest(LeaveRequest(RoomFilter([], []), rs))),
        err)]
    {
      var b := new BroadcastOperator(bus, broadcastOptions);
      err := b.SocketsLeave(rs);
      FilterWithoutTargets(RequestIn(Last(bus.log)).value.filter);
    }

    /** Asks every server to disconnect all of its sockets in this namespace. */
    method DisconnectSockets(close: bool) returns (err: Option<string>)
      modifies bus
      ensures bus.log == old(bus.log) + [Publication(
        broadcastOptions.requestChannel,
        Json(EncodeRequest(DisconnectRequest(RoomFilter([], []), close))),
        err)]
    {
      var b := new BroadcastOperator(bus, broadcastOptions);
      err := b.DisconnectSockets(close);
      FilterWithoutTargets(RequestIn(Last(bus.log)).value.filter);
    }

    /** Sends `args` to every server of the cluster. */
    method ServerSideEmit(args: seq<Value>) returns (err: Option<string>)
      modifies bus
      ensures !Encodable(List(args)) ==> err == Some(UnsupportedValueError) && bus.log == old(bus.log)
      ensures Encodable(List(args)) ==> bus.log == old(bus.log) + [Publication(
        broadcastOptions.requestChannel,
        Json(EncodeRequest(ServerSideEmitRequest(Uid, args))),
        err)]
    {
      var b := new BroadcastOperator(bus, broadcastOptions);
      err := b.ServerSideEmit(args);
    }
  }

  /**
   * The forwarding `Emit` never produces the packet data `[event] + args` that
   * the operator's `Emit` produces for the same arguments: the arguments always
   * arrive nested in one list.
   */
  lemma ForwardedArgsAreNested(event: string, args: seq<Value>)
    ensures [Str(event), List(args)] != [Str(event)] + args
    ensures |[Str(event), List(args)]| == 2
  {
    if |args| == 1 {
      assert args[0] < List(args);
      assert ([Str(event)] + args)[1] == args[0];
    }
  }

  // ---------------------------------------------------------------------------
  // Call chains, as a caller writes them
  // ---------------------------------------------------------------------------

  /** `To("r1").To("r1")`: the repeated room collapses, one room is targeted. */
  method RepeatedTargetCollapses(e: Emitter) returns (b: BroadcastOperator)
    ensures fresh(b) && b.rooms == {"r1"} && |b.rooms| == 1 && b.exceptRooms == {}
  {
    b := e.To(["r1"]);
    b := b.To(["r1"]);
  }

  /** `Of("chat")` and `Of("/chat")`: both emitters address the namespace `/chat` on the same channels. */
  method OfIgnoresLeadingSlash(e: Emitter) returns (a: Emitter, b: Emitter)
    requires e.Valid()
    modifies e
    ensures a.broadcastOptions == b.broadcastOptions
    ensures a.broadcastOptions.nsp == "/chat"
  {
    ghost var key := e.opts.key;
    assert "chat"[0] == 'c' && NormalizeNsp("chat") == "/chat";
    assert DefaultNsp <= "/chat" && NormalizeNsp("/chat") == "/chat";
    a := e.Of("chat");
    assert e.opts.key == key && a.broadcastOptions == DeriveOptions(key, "/chat");
    b := e.Of("/chat");
    assert b.broadcastOptions == DeriveOptions(key, "/chat");
  }

  /** `Volatile().Compress(true)`: both flags are set. */
  method VolatileThenCompress(e: Emitter) returns (b: BroadcastOperator)
    ensures fresh(b) && b.flags == BroadcastFlags(true, true)
  {
    b := e.Volatile();
    b := b.Compress(true);
  }

  /** `To("r1").Emit(event, args...)` publishes on the channel of room `r1`. */
  method SingleRoomEmit(e: Emitter, event: string, args: seq<Value>) returns (ok: bool, err: Option<string>)
    requires event !in ReservedEvents && Encodable(List(args))
    modifies e.bus
    ensures PublishedOnce(old(e.bus.log), e.bus.log)
    ensures Last(e.bus.log).channel == RoomChannel(e.broadcastOptions.broadcastChannel, "r1")
  {
    var b := e.To(["r1"]);
    assert b.rooms == {"r1"} && |b.rooms| == 1;
    assert SoleRoom({"r1"}) == "r1";
    ok, err := b.Emit(event, args);
  }

  /** `To("r1", "r2").Emit(event, args...)` publishes on the namespace's broadcast channel. */
  method TwoRoomEmit(e: Emitter, event: string, args: seq<Value>) returns (ok: bool, err: Option<string>)
    requires event !in ReservedEvents && Encodable(List(args))
    modifies e.bus
    ensures PublishedOnce(old(e.bus.log), e.bus.log)
    ensures Last(e.bus.log).channel == e.broadcastOptions.broadcastChannel
  {
    var b := e.To(["r1", "r2"]);
    assert b.rooms == {"r1", "r2"};
    ok, err := b.Emit(event, args);
  }
}
