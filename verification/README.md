# Socket.IO Redis emitter: a verified model

This project models the core of a Socket.IO emitter written in Go. The emitter
injects events and administrative commands into a cluster of Socket.IO servers
by publishing messages on Redis channels. It never holds a client connection.

The model covers these parts:

- **Enumerations** (`Enums`). The packet types and request types are the integer
  discriminants written on the wire. Each is a datatype with a `Code`. A decoder
  maps codes back, and the lemmas prove the codes run 0 to 6 in declaration order
  and are pairwise distinct.
- **Wire format** (`Wire`). A message is an abstract value tree, not bytes:
  strings, integers, floats, booleans, nil, lists, string-keyed mappings, and an
  `Unsupported` leaf standing for a Go value no encoder accepts (a channel or a
  function). Two envelopes are built on it:
  - the binary (msgpack) broadcast tuple `[uid, packet, opts]`;
  - the text (JSON) administrative request.

  Each envelope has a reference decoder standing for a receiver's reading. Each
  encoder's contract states that this reading reconstructs exactly what was encoded.
  The encoders fail exactly on values that contain `Unsupported`.
- **Naming** (`Naming`). This holds the constants `emitter`, `socket.io` and `/`
  and derives the channel names (`{key}#{nsp}#`, `{key}-request#{nsp}#` and the
  single-room `{broadcastChannel}{room}#`). It also normalises namespaces with a
  leading `/`. Lemmas prove the channel names are injective in their parts, and
  that a broadcast channel never equals a request channel under the same key.
- **Transport** (`Transport`). The Redis client is reduced to `Bus.Publish`. The
  call appends `(channel, payload, outcome)` to a ghost log. Whether it fails is
  nondeterministic, and the error is the bus's own.
- **Broadcast operator** (`Broadcast.BroadcastOperator`). This class has fields
  for the target rooms, the excluded rooms and the flags:
  - `To`, `In` and `Except` loop over their arguments and insert each room in
    place. `Compress` and `Volatile` assign a flag.
  - The terminal operations read that state and make at most one publish each.
  - `mapToArray` is `MapToArray`, a loop that lists a set in an unspecified order.
- **Emitter** (`Emitters.Emitter`). This class models the following:
  - the defaults applied by `NewEmitter` (the constructor);
  - `Of`, which normalises the namespace and overwrites the receiver's configured
    namespace;
  - the forwarding methods, each starting from a fresh operator.

  The `Emitter.Emit` method is modelled as written: it forwards `args` as one
  value, so the packet data is `[event, args]`.

Go maps whose values are all `nil` become Dafny `set<string>`. The model states
every listing of such a map only up to order, through `Enumerates`: each element
appears exactly once, in any order. A publication's payload is stated through
the decoder, `MessageIn` and `RequestIn`, together with the requirement that the
payload is the encoding of what it decodes to. This pins it down completely,
except for the order of the room lists.

## Model

| member | source | states |
|---|---|---|
| Enums.PacketType.Code | enum/packet_type.go:3-11 | every packet type's code is below 7 and decodes back to that type |
| Enums.PacketTypeFromCode | enum/packet_type.go:3-11 | a code names a packet type exactly when it lies in 0..6 |
| Enums.PacketTypeCodesInOrder | enum/packet_type.go:3-11 | the codes are 0..6 in declaration order, and the list covers every packet type |
| Enums.PacketTypeCodeInjective | enum/packet_type.go:3-11 | two packet types share a code only if they are the same type |
| Enums.PacketTypeKnownCodes | enum/packet_type.go:4-10 | Connect=0, Disconnect=1, Event=2, Ack=3, ConnectError=4, BinaryEvent=5, BinaryAck=6 |
| Enums.RequestType.Code | enum/request_type.go:6-14 | every request type's code is below 7 and decodes back to that type |
| Enums.RequestTypeFromCode | enum/request_type.go:6-14 | a code names a request type exactly when it lies in 0..6 |
| Enums.RequestTypeCodesInOrder | enum/request_type.go:6-14 | the codes are 0..6 in declaration order, and the list covers every request type |
| Enums.RequestTypeCodeInjective | enum/request_type.go:6-14 | two request types share a code only if they are the same type |
| Enums.RequestTypeKnownCodes | enum/request_type.go:7-13 | Sockets=0, AllRooms=1, RemoteJoin=2, RemoteLeave=3, RemoteDisconnect=4, RemoteFetch=5, ServerSideEmit=6 |
| Wire.StringsRoundTrip | broadcast.go:134-139 | a list of room names written as a value reads back as the same list, and it always serializes |
| Wire.MsgPackMarshal | broadcast.go:141-144 | the binary encoder succeeds exactly on serializable values, its payload carries the value unchanged, and its failure carries the encoder error |
| Wire.JsonMarshal | broadcast.go:167-178 | the text encoder succeeds exactly on serializable values, its payload carries the value unchanged, and its failure carries the encoder error |
| Wire.PacketRoundTrip | broadcast.go:127-132 | the packet mapping reads back as the same type, data and namespace, and serializes exactly when its data does |
| Wire.OptsRoundTrip | broadcast.go:134-139 | the options mapping reads back as the same rooms, flags and except-rooms, and always serializes |
| Wire.EncodeMessage | broadcast.go:127-141 | decoding the broadcast tuple gives back exactly uid, packet (type, data, nsp) and options (rooms, flags, except); the tuple serializes exactly when the packet data does, so rooms and flags never cause a failure |
| Wire.Request.Type | broadcast.go:166-242 | the discriminant of each request kind is the code written in its `type` field |
| Wire.FilterRoundTrip | broadcast.go:169-172 | the `opts` filter (rooms, except) of a request reads back unchanged and always serializes |
| Wire.EncodeRequest | broadcast.go:166-242 | each of the four request kinds reads back exactly as it was encoded; join, leave and disconnect requests always serialize, a server-side emit exactly when its data does |
| Wire.EncodeRoomsRequest | broadcast.go:166-202 | a remote-join (code 2) or remote-leave (code 3) request reads back with the same kind, filter and destination rooms, and always serializes |
| Wire.EncodeDisconnectRequest | broadcast.go:210-224 | a remote-disconnect request (code 4) reads back with the same filter and `close` flag, and always serializes |
| Wire.EncodeServerSideEmitRequest | broadcast.go:231-242 | a server-side emit (code 6) reads back with the same uid and data, and serializes exactly when its data does |
| Naming.BroadcastChannel | emitter.go:48 | the broadcast channel splits back into the key, a `#`, the namespace and a closing `#` |
| Naming.RequestChannel | emitter.go:49 | the request channel splits back into the key, `-request#`, the namespace and a closing `#` |
| Naming.DeriveOptions | emitter.go:46-50 | the derived options keep the namespace, both channels start with the key, and the two channels differ |
| Naming.NormalizeNsp | emitter.go:65-67 | the result starts with `/`; it equals the input exactly when the input already starts with `/`, and otherwise it is `/` followed by the input |
| Naming.NormalizeNspIdempotent | emitter.go:65-67 | normalising twice is the same as normalising once |
| Naming.NormalizeNspIgnoresLeadingSlash | emitter.go:64-69 | under any key, `chat` and `/chat` normalise to the same namespace and give identical channel names |
| Naming.DefaultChannels | emitter.go:40-50 | the default configuration uses namespace `/`, channel `socket.io#/#` and request channel `socket.io-request#/#` |
| Naming.BroadcastRequestChannelsDiffer | emitter.go:46-50 | under one key, no broadcast channel equals a request channel, whatever the namespaces |
| Naming.ChannelsInjective | emitter.go:46-50 | for keys without `#`, equal broadcast channels (or equal request channels) mean equal key and namespace |
| Naming.RoomChannel | broadcast.go:146-149 | a room channel splits back into the broadcast channel, the room name and a closing `#` |
| Naming.EmitChannel | broadcast.go:146-149 | the chosen channel extends the broadcast channel; it is the broadcast channel itself exactly when the room list does not hold exactly one room, and otherwise carries that room's name |
| Naming.RoomChannelInjective | broadcast.go:146-149 | a room channel extends the broadcast channel, and distinct rooms get distinct channels |
| Naming.RequestKeyAlias | emitter.go:46-50 | keys collide: for every namespace, the request channel of key `k` is the broadcast channel of key `k-request` |
| Broadcast.ReservedEventNames | broadcast.go:24-31 | six distinct event names are reserved, and `message` is not one of them |
| Broadcast.ReservedEventError | broadcast.go:123 | the error message is the event name followed by ` is a reserved event name` |
| Broadcast.EnumerationSize | broadcast.go:244-252 | a listing that names each room once is exactly as long as the room set |
| Broadcast.EnumeratesNothing | broadcast.go:244-252 | the only listing of an empty room set is the empty list |
| Broadcast.MapToArray | broadcast.go:244-252 | the result names each key of the map exactly once, in some order, and its length equals the map's size (so an empty map gives an empty list) |
| Broadcast.EmitChannelOfRooms | broadcast.go:146-149 | the chosen channel depends only on the room set: `broadcastChannel + room + "#"` for exactly one room, the broadcast channel for zero or several |
| Broadcast.EventDataEncodable | broadcast.go:127 | `[event] + args` serializes exactly when `args` does |
| Broadcast.BroadcastWithoutTargets | broadcast.go:134-149 | with no target and no excluded rooms, the broadcast goes to the namespace channel with empty room lists and its payload is fully determined |
| Broadcast.FilterWithoutTargets | broadcast.go:169-172 | with no target and no excluded rooms, a request's filter is `{rooms: [], except: []}` |
| Broadcast.BroadcastOperator.constructor | broadcast.go:41-49 | a fresh operator has both room sets empty, both flags false, and the given bus and options |
| Broadcast.BroadcastOperator.To | broadcast.go:58-63 | adds each argument to `rooms` (repeats collapse), leaves `exceptRooms` and the flags alone, and returns the same operator |
| Broadcast.BroadcastOperator.In | broadcast.go:72-74 | same effect as `To` |
| Broadcast.BroadcastOperator.Except | broadcast.go:83-88 | adds each argument to `exceptRooms`, leaves `rooms` and the flags alone, and returns the same operator |
| Broadcast.BroadcastOperator.Compress | broadcast.go:97-100 | sets `compress` to exactly the argument, leaves `volatile` and the rooms alone, and returns the same operator |
| Broadcast.BroadcastOperator.Volatile | broadcast.go:110-113 | sets `volatile`, leaves `compress` and the rooms alone, and returns the same operator |
| Broadcast.BroadcastOperator.Emit | broadcast.go:121-158 | a reserved name gives `(false, "<event> is a reserved event name")` and no publish; unserializable arguments give `(false, err)` and no publish; otherwise exactly one publish of `[uid, {type: Event, data: [event]+args, nsp}, {rooms, flags, except}]` on the single-room or the broadcast channel, returning that publish's error unchanged; the operator's state never changes |
| Broadcast.BroadcastOperator.SocketsJoin | broadcast.go:166-180 | exactly one publish, on the request channel, of a remote-join request (type code `RemoteJoin`) whose filter lists the current rooms and except-rooms and whose rooms are the arguments; the bus's error is returned unchanged and the state is unchanged |
| Broadcast.BroadcastOperator.SocketsLeave | broadcast.go:188-202 | the same as `SocketsJoin`, with a remote-leave request (type code `RemoteLeave`) |
| Broadcast.BroadcastOperator.DisconnectSockets | broadcast.go:210-224 | exactly one publish, on the request channel, of a remote-disconnect request (type code `RemoteDisconnect`) with the current filter and the `close` flag; the bus's error is returned unchanged and the state is unchanged |
| Broadcast.BroadcastOperator.ServerSideEmit | broadcast.go:231-242 | serializable arguments give exactly one publish on the request channel of `{uid: "emitter", type: ServerSideEmit, data: args}`, with no room fields, returning the bus's error; otherwise the encoder error is returned and nothing is published |
| Transport.Bus.Publish | broadcast.go:151-157 | every publish call is appended to the log with its channel, its payload and the error it returns |
| Emitters.Emitter.constructor | emitter.go:33-56 | an empty key becomes `socket.io` and an empty namespace becomes `/`; the channels are derived from the result |
| Emitters.Emitter.Of | emitter.go:64-70 | the new emitter's namespace starts with `/` (prepended only when missing) and it keeps the key and the bus; the receiver's configured namespace is overwritten, but its channels are unchanged |
| Emitters.Emitter.Emit | emitter.go:78-80 | runs the reserved-name check; otherwise publishes on the broadcast channel with packet data `[event, args]` (the arguments nested as one element), empty room lists and false flags |
| Emitters.Emitter.EmitSpreadingArgs | emitter.go:78-80 | corrected forwarding: publishes packet data `[event] + args`, matching the operator's `Emit` |
| Emitters.ForwardedArgsAreNested | emitter.go:78-80 | the data built by the forwarding `Emit` always has two elements and never equals `[event] + args` |
| Emitters.Emitter.To | emitter.go:89-91 | a fresh operator on this emitter's options, targeting exactly the given rooms, with nothing excluded and both flags false |
| Emitters.Emitter.In | emitter.go:100-102 | the same as `Emitter.To` |
| Emitters.Emitter.Except | emitter.go:111-113 | a fresh operator excluding exactly the given rooms, with no targets and both flags false |
| Emitters.Emitter.Volatile | emitter.go:123-125 | a fresh operator with flags `{volatile: true, compress: false}` and no rooms |
| Emitters.Emitter.Compress | emitter.go:134-136 | a fresh operator with flags `{volatile: false, compress: c}` and no rooms |
| Emitters.Emitter.SocketsJoin | emitter.go:144-146 | publishes exactly the remote-join request with the empty filter and the given rooms, on the request channel |
| Emitters.Emitter.SocketsLeave | emitter.go:154-156 | publishes exactly the remote-leave request with the empty filter and the given rooms, on the request channel |
| Emitters.Emitter.DisconnectSockets | emitter.go:164-166 | publishes exactly the remote-disconnect request with the empty filter and `close`, on the request channel |
| Emitters.Emitter.ServerSideEmit | emitter.go:173-175 | publishes exactly `{uid: "emitter", type: 6, data: args}` on the request channel, or publishes nothing when `args` cannot be serialized |
| Emitters.RepeatedTargetCollapses | broadcast.go:58-63 | `To("r1").To("r1")` targets exactly one room |
| Emitters.OfIgnoresLeadingSlash | emitter.go:64-70 | `Of("chat")` and `Of("/chat")` give emitters with the same namespace `/chat` and the same channels |
| Emitters.VolatileThenCompress | broadcast.go:97-113 | `Volatile().Compress(true)` gives flags `{volatile: true, compress: true}` |
| Emitters.SingleRoomEmit | broadcast.go:146-149 | `To("r1").Emit(...)` publishes on `broadcastChannel + "r1#"` |
| Emitters.TwoRoomEmit | broadcast.go:146-149 | `To("r1", "r2").Emit(...)` publishes on the unscoped broadcast channel |

## Findings

| source | as written | input that shows it | evidently intended | confidence | as-written member | corrected member |
|---|---|---|---|---|---|---|
| emitter.go:78-80 | `Emit(event, args)` forwards the variadic slice without `...`, so the packet data is `[event, [a1, a2, ...]]` | `Emit("ev", 1, 2)` sends data `["ev", [1, 2]]` | data `["ev", 1, 2]`, as `BroadcastOperator.Emit` builds it | high (not executed) | Emitters.ForwardedArgsAreNested | Emitters.Emitter.EmitSpreadingArgs |

`Emitters.Emitter.Emit` keeps the as-written behaviour. `ForwardedArgsAreNested`
proves that its data never matches the operator's. `EmitSpreadingArgs` is the
forwarding that was evidently meant, and it is proved to publish `[event] + args`.

## Left out

- ReservedEvents: in Go this is an exported package-level map (broadcast.go:24-31),
  so an importing package may add or delete reserved names, and `Emit` consults it
  as it stands at call time. The model fixes it as a constant set of its six initial
  names, which nothing in the core changes.
- Redis client construction (emitter.go:34-39) is not modelled. This covers the
  address, password, pool size, the `time.Duration` read timeout and
  `context.Background`. An emitter is given a `Bus` instead. `Of` passes the same
  bus on, where the source builds a second client with identical settings.
- Redis `Publish` is reduced to `Bus.Publish`. Its success or failure is
  nondeterministic. The log records every call, so whether a failed call still
  reached subscribers is not modelled.
- Byte-level msgpack and JSON output is not modelled. A message is a value tree.
  In particular:
  - Go's nil slices (an empty `mapToArray` result, an empty variadic list) are
    written as `null`, not `[]`; the model does not distinguish the two.
  - The flags are written as the mapping `{volatile, compress}`. Whether the
    msgpack encoder emits the unexported fields of `BroadcastFlags` is not modelled.
- Encoder failures are modelled only as the `Unsupported` leaf. Other
  encoder-specific failures, such as JSON rejecting NaN, cannot arise with `real`.
  The error text is the constant `UnsupportedValueError`, not the library's message.
- Go map iteration order is unspecified. Room lists are stated only up to order,
  through `Enumerates`.
- Concurrency is not modelled; the code has none.
- The JSON-error branch of `SocketsJoin`, `SocketsLeave` and `DisconnectSockets`
  is kept, but the model proves it unreachable: these requests hold only
  strings, integers and booleans.
