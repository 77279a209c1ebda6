/**
 * The messages this emitter puts on the bus, as abstract value trees rather than
 * bytes: the binary (msgpack) envelope of a broadcast and the text (JSON) envelope
 * of an administrative request. Each encoder has a reference decoder standing for
 * a receiver's reading, and the encoder's contract states the round trip.
 */
module Wire {
  import opened Wrappers
  import opened Enums

  /** A serializable value, the shape an encoder sees of a Go `interface{}`. */
  datatype Value =
    | Nil
    | Bool(b: bool)
    | Int(i: int)
    | Float(f: real)
    | Str(s: string)
    | List(items: seq<Value>)
    | Dict(fields: map<string, Value>)
      /** A value no encoder accepts (a channel or a function). */
    | Unsupported

  /** True when the encoders can serialize `v`: it contains no unsupported leaf. */
  predicate Encodable(v: Value)
  {
    match v
    case List(items) => forall i | 0 <= i < |items| :: Encodable(items[i])
    case Dict(fields) => forall k | k in fields :: Encodable(fields[k])
    case Unsupported => false
    case _ => true
  }

  /** A serialized message: the binary envelope or the text envelope. */
  datatype Payload = MsgPack(v: Value) | Json(v: Value)

  /** The error an encoder reports for a value it cannot serialize. */
  const UnsupportedValueError: string := "unsupported value"

  /** The binary encoder: fails exactly on values it cannot serialize. */
  function MsgPackMarshal(v: Value): (r: Result<Payload>)
    ensures r.Success? <==> Encodable(v)
    ensures r.Success? ==> r.value.MsgPack? && r.value.v == v
    ensures r.Failure? ==> r.error == UnsupportedValueError
  {
    if Encodable(v) then Success(MsgPack(v)) else Failure(UnsupportedValueError)
  }

  /** The text encoder: fails exactly on values it cannot serialize. */
  function JsonMarshal(v: Value): (r: Result<Payload>)
    ensures r.Success? <==> Encodable(v)
    ensures r.Success? ==> r.value.Json? && r.value.v == v
    ensures r.Failure? ==> r.error == UnsupportedValueError
  {
    if Encodable(v) then Success(Json(v)) else Failure(UnsupportedValueError)
  }

  /** A three-field mapping is serializable exactly when its three values are. */
  lemma Dict3Encodable(a: string, x: Value, b: string, y: Value, c: string, z: Value)
    requires a != b && a != c && b != c
    ensures Encodable(Dict(map[a := x, b := y, c := z])) <==> Encodable(x) && Encodable(y) && Encodable(z)
  {
    var m := map[a := x, b := y, c := z];
    assert m[a] == x && m[b] == y && m[c] == z;
    assert forall k | k in m :: k == a || k == b || k == c;
  }

  /** The list of room names as a value. */
  function Strings(ss: seq<string>): (v: Value)
  {
    List(StrItems(ss))
  }

  function StrItems(ss: seq<string>): (items: seq<Value>)
    ensures |items| == |ss|
  {
    if ss == [] then [] else [Str(ss[0])] + StrItems(ss[1..])
  }

  /** The room names held by a list of values, if every item is a string. */
  function StringsOf(items: seq<Value>): (r: Option<seq<string>>)
    ensures r.Some? ==> |r.value| == |items|
  {
    if items == [] then Some([])
    else if !items[0].Str? then None
    else match StringsOf(items[1..])
      case None => None
      case Some(rest) => Some([items[0].s] + rest)
  }

  lemma {:induction false} StringsRoundTrip(ss: seq<string>)
    ensures StringsOf(StrItems(ss)) == Some(ss)
    ensures Encodable(Strings(ss))
  {
    if ss != [] {
      StringsRoundTrip(ss[1..]);
      assert StrItems(ss)[1..] == StrItems(ss[1..]);
      assert [ss[0]] + ss[1..] == ss;
      forall i | 0 <= i < |ss| ensures Encodable(StrItems(ss)[i]) {
        if i > 0 {
          assert StrItems(ss)[i] == StrItems(ss[1..])[i - 1];
        }
      }
    }
  }

  /** The field `key` of a mapping value, if present. */
  function Field(v: Value, key: string): (r: Option<Value>)
  {
    if v.Dict? && key in v.fields then Some(v.fields[key]) else None
  }

  /** The list of room names stored under `key`, if present and well formed. */
  function StringsField(v: Value, key: string): (r: Option<seq<string>>)
  {
    match Field(v, key)
    case Some(List(items)) => StringsOf(items)
    case _ => None
  }

  // ---------------------------------------------------------------------------
  // The binary broadcast envelope [uid, packet, opts]
  // ---------------------------------------------------------------------------

  /** One application event: its kind, `[event, args...]` and the namespace. */
  datatype Packet = Packet(kind: PacketType, data: seq<Value>, nsp: string)

  /** The modifiers of one broadcast. */
  datatype BroadcastFlags = BroadcastFlags(volatile: bool, compress: bool)

  /** The flags of a fresh operator: neither volatile nor compressed. */
  const NoFlags: BroadcastFlags := BroadcastFlags(false, false)

  /** Target rooms, flags and excluded rooms sent beside a packet. */
  datatype BroadcastOpts = BroadcastOpts(rooms: seq<string>, flags: BroadcastFlags, except: seq<string>)

  /** The whole broadcast: sender identifier, packet and options. */
  datatype BroadcastMessage = BroadcastMessage(uid: string, packet: Packet, opts: BroadcastOpts)

  function EncodePacket(p: Packet): (v: Value)
  {
    Dict(map["type" := Int(p.kind.Code()), "data" := List(p.data), "nsp" := Str(p.nsp)])
  }

  function EncodeFlags(f: BroadcastFlags): (v: Value)
  {
    Dict(map["volatile" := Bool(f.volatile), "compress" := Bool(f.compress)])
  }

  function EncodeOpts(o: BroadcastOpts): (v: Value)
  {
    Dict(map["rooms" := Strings(o.rooms), "flags" := EncodeFlags(o.flags), "except" := Strings(o.except)])
  }

  /**
   * The three-element tuple published on a broadcast channel. A receiver
   * reconstructs exactly the message that was encoded, and the tuple can be
   * serialized exactly when the event data can.
   */
  function EncodeMessage(m: BroadcastMessage): (v: Value)
    ensures DecodeMessage(v) == Some(m)
    ensures Encodable(v) <==> Encodable(List(m.packet.data))
  {
    PacketRoundTrip(m.packet);
    OptsRoundTrip(m.opts);
    var items := [Str(m.uid), EncodePacket(m.packet), EncodeOpts(m.opts)];
    assert Encodable(List(items)) <==> Encodable(items[0]) && Encodable(items[1]) && Encodable(items[2]);
    List(items)
  }

  function DecodePacket(v: Value): (r: Option<Packet>)
  {
    match (Field(v, "type"), Field(v, "data"), Field(v, "nsp"))
    case (Some(Int(c)), Some(List(data)), Some(Str(nsp))) =>
      (match PacketTypeFromCode(c)
       case Some(kind) => Some(Packet(kind, data, nsp))
       case None => None)
    case _ => None
  }

  function DecodeFlags(v: Value): (r: Option<BroadcastFlags>)
  {
    match (Field(v, "volatile"), Field(v, "compress"))
    case (Some(Bool(volatile)), Some(Bool(compress))) => Some(BroadcastFlags(volatile, compress))
    case _ => None
  }

  function DecodeOpts(v: Value): (r: Option<BroadcastOpts>)
  {
    match (StringsField(v, "rooms"), Field(v, "flags"), StringsField(v, "except"))
    case (Some(rooms), Some(f), Some(except)) =>
      (match DecodeFlags(f)
       case Some(flags) => Some(BroadcastOpts(rooms, flags, except))
       case None => None)
    case _ => None
  }

  /** The reference reading of a broadcast tuple, standing for a receiver's. */
  function DecodeMessage(v: Value): (r: Option<BroadcastMessage>)
  {
    if v.List? && |v.items| == 3 && v.items[0].Str? then
      match (DecodePacket(v.items[1]), DecodeOpts(v.items[2]))
      case (Some(p), Some(o)) => Some(BroadcastMessage(v.items[0].s, p, o))
      case _ => None
    else None
  }

  /** The options mapping always decodes back and can always be serialized. */
  lemma OptsRoundTrip(o: BroadcastOpts)
    ensures DecodeOpts(EncodeOpts(o)) == Some(o)
    ensures Encodable(EncodeOpts(o))
  {
    StringsRoundTrip(o.rooms);
    StringsRoundTrip(o.except);
    var flags := EncodeFlags(o.flags);
    assert DecodeFlags(flags) == Some(o.flags);
    assert forall k | k in flags.fields :: Encodable(flags.fields[k]);
    Dict3Encodable("rooms", Strings(o.rooms), "flags", flags, "except", Strings(o.except));
  }

  /** The packet mapping decodes back, and can be serialized exactly when its data can. */
  lemma PacketRoundTrip(p: Packet)
    ensures DecodePacket(EncodePacket(p)) == Some(p)
    ensures Encodable(EncodePacket(p)) <==> Encodable(List(p.data))
  {
    Dict3Encodable("type", Int(p.kind.Code()), "data", List(p.data), "nsp", Str(p.nsp));
  }

  // ---------------------------------------------------------------------------
  // The text request envelope
  // ---------------------------------------------------------------------------

  /** Which connected sockets an administrative request applies to. */
  datatype RoomFilter = RoomFilter(rooms: seq<string>, except: seq<string>)

  /** The administrative requests this emitter sends. */
  datatype Request =
    | JoinRequest(filter: RoomFilter, rooms: seq<string>)
    | LeaveRequest(filter: RoomFilter, rooms: seq<string>)
    | DisconnectRequest(filter: RoomFilter, close: bool)
    | ServerSideEmitRequest(uid: string, data: seq<Value>)
  {
    /** The request-type discriminant written in the `type` field. */
    function Type(): (t: RequestType)
      ensures Field(EncodeRequest(this), "type") == Some(Int(t.Code()))
    {
      match this
      case JoinRequest(_, _) => RemoteJoin
      case LeaveRequest(_, _) => RemoteLeave
      case DisconnectRequest(_, _) => RemoteDisconnect
      case ServerSideEmitRequest(_, _) => RequestType.ServerSideEmit
    }
  }

  function EncodeFilter(f: RoomFilter): (v: Value)
  {
    Dict(map["rooms" := Strings(f.rooms), "except" := Strings(f.except)])
  }

  /**
   * The mapping published on the request channel for `r`. A receiver
   * reconstructs exactly the request that was encoded; room requests can always
   * be serialized, a server-side emit exactly when its data can.
   */
  function EncodeRequest(r: Request): (v: Value)
    ensures DecodeRequest(v) == Some(r)
    ensures Encodable(v) <==> (r.ServerSideEmitRequest? ==> Encodable(List(r.data)))
  {
    match r
    case JoinRequest(f, rooms) => EncodeRoomsRequest(RemoteJoin, f, rooms)
    case LeaveRequest(f, rooms) => EncodeRoomsRequest(RemoteLeave, f, rooms)
    case DisconnectRequest(f, close) => EncodeDisconnectRequest(f, close)
    case ServerSideEmitRequest(uid, data) => EncodeServerSideEmitRequest(uid, data)
  }

  /** The join and leave requests share one layout and differ in their `type` code. */
  function EncodeRoomsRequest(t: RequestType, f: RoomFilter, rooms: seq<string>): (v: Value)
    requires t == RemoteJoin || t == RemoteLeave
    ensures DecodeRequest(v) == Some(if t == RemoteJoin then JoinRequest(f, rooms) else LeaveRequest(f, rooms))
    ensures Encodable(v)
    ensures Field(v, "type") == Some(Int(t.Code()))
  {
    FilterRoundTrip(f);
    StringsRoundTrip(rooms);
    var v := Dict(map["type" := Int(t.Code()), "opts" := EncodeFilter(f), "rooms" := Strings(rooms)]);
    assert "type" != "opts" && "type" != "rooms" && "opts" != "rooms";
    assert Field(v, "type") == Some(Int(t.Code()));
    assert Field(v, "opts") == Some(EncodeFilter(f));
    assert StringsField(v, "rooms") == Some(rooms);
    Dict3Encodable("type", Int(t.Code()), "opts", EncodeFilter(f), "rooms", Strings(rooms));
    v
  }

  function EncodeDisconnectRequest(f: RoomFilter, close: bool): (v: Value)
    ensures DecodeRequest(v) == Some(DisconnectRequest(f, close))
    ensures Encodable(v)
    ensures Field(v, "type") == Some(Int(RemoteDisconnect.Code()))
  {
    FilterRoundTrip(f);
    var v := Dict(map["type" := Int(RemoteDisconnect.Code()), "opts" := EncodeFilter(f), "close" := Bool(close)]);
    assert "type" != "opts" && "type" != "close" && "opts" != "close";
    assert Field(v, "type") == Some(Int(4));
    assert Field(v, "opts") == Some(EncodeFilter(f));
    assert Field(v, "close") == Some(Bool(close));
    Dict3Encodable("type", Int(4), "opts", EncodeFilter(f), "close", Bool(close));
    v
  }

  function EncodeServerSideEmitRequest(uid: string, data: seq<Value>): (v: Value)
    ensures DecodeRequest(v) == Some(ServerSideEmitRequest(uid, data))
    ensures Encodable(v) <==> Encodable(List(data))
    ensures Field(v, "type") == Some(Int(RequestType.ServerSideEmit.Code()))
  {
    var v := Dict(map["uid" := Str(uid), "type" := Int(RequestType.ServerSideEmit.Code()), "data" := List(data)]);
    assert "uid" != "type" && "uid" != "data" && "type" != "data";
    assert Field(v, "type") == Some(Int(6));
    assert Field(v, "uid") == Some(Str(uid));
    assert Field(v, "data") == Some(List(data));
    Dict3Encodable("uid", Str(uid), "type", Int(6), "data", List(data));
    v
  }

  function DecodeFilter(v: Value): (r: Option<RoomFilter>)
  {
    match (StringsField(v, "rooms"), StringsField(v, "except"))
    case (Some(rooms), Some(except)) => Some(RoomFilter(rooms, except))
    case _ => None
  }

  /** The reference reading of a request, standing for a receiver's: it dispatches on the `type` code. */
  function DecodeRequest(v: Value): (r: Option<Request>)
  {
    match Field(v, "type")
    case Some(Int(c)) =>
      (match RequestTypeFromCode(c)
       case Some(RemoteJoin) =>
         (match (Field(v, "opts"), StringsField(v, "rooms"))
          case (Some(o), Some(rooms)) =>
            (match DecodeFilter(o)
             case Some(f) => Some(JoinRequest(f, rooms))
             case None => None)
          case _ => None)
       case Some(RemoteLeave) =>
         (match (Field(v, "opts"), StringsField(v, "rooms"))
          case (Some(o), Some(rooms)) =>
            (match DecodeFilter(o)
             case Some(f) => Some(LeaveRequest(f, rooms))
             case None => None)
          case _ => None)
       case Some(RemoteDisconnect) =>
         (match (Field(v, "opts"), Field(v, "close"))
          case (Some(o), Some(Bool(close))) =>
            (match DecodeFilter(o)
             case Some(f) => Some(DisconnectRequest(f, close))
             case None => None)
          case _ => None)
       case Some(ServerSideEmit) =>
         (match (Field(v, "uid"), Field(v, "data"))
          case (Some(Str(uid)), Some(List(data))) => Some(ServerSideEmitRequest(uid, data))
          case _ => None)
       case _ => None)
    case _ => None
  }

  lemma FilterRoundTrip(f: RoomFilter)
    ensures DecodeFilter(EncodeFilter(f)) == Some(f)
    ensures Encodable(EncodeFilter(f))
  {
    StringsRoundTrip(f.rooms);
    StringsRoundTrip(f.except);
    var v := EncodeFilter(f);
    assert "rooms" != "except";
    assert StringsField(v, "rooms") == Some(f.rooms);
    assert StringsField(v, "except") == Some(f.except);
  }
}
