/**
 * The integer discriminants written on the wire: Socket.IO packet types and the
 * request types exchanged between the servers of a cluster. Each enumeration is a
 * datatype whose `Code` is the value of the matching iota constant.
 */
module Enums {
  import opened Wrappers

  /** Socket.IO packet kinds, in declaration order. */
  datatype PacketType =
    | Connect | Disconnect | Event | Ack | ConnectError | BinaryEvent | BinaryAck
  {
    /** The integer code of this packet type; decoding it gives the type back. */
    function Code(): (c: nat)
      ensures c < 7
      ensures PacketTypeFromCode(c) == Some(this)
    {
      match this
      case Connect => 0
      case Disconnect => 1
      case Event => 2
      case Ack => 3
      case ConnectError => 4
      case BinaryEvent => 5
      case BinaryAck => 6
    }
  }

  /** The packet type a receiver reads from an integer code, if any. */
  function PacketTypeFromCode(c: int): (t: Option<PacketType>)
    ensures t.Some? <==> 0 <= c < 7
  {
    if c == 0 then Some(Connect)
    else if c == 1 then Some(Disconnect)
    else if c == 2 then Some(Event)
    else if c == 3 then Some(Ack)
    else if c == 4 then Some(ConnectError)
    else if c == 5 then Some(BinaryEvent)
    else if c == 6 then Some(BinaryAck)
    else None
  }

  /** The packet types in the order the constants are declared. */
  const PacketTypes: seq<PacketType> :=
    [Connect, Disconnect, Event, Ack, ConnectError, BinaryEvent, BinaryAck]

  /** The codes run from 0 to 6 in declaration order and cover every packet type. */
  lemma PacketTypeCodesInOrder()
    ensures |PacketTypes| == 7
    ensures forall i :: 0 <= i < |PacketTypes| ==> PacketTypes[i].Code() == i
    ensures forall t: PacketType :: t in PacketTypes
  {
    forall t: PacketType ensures t in PacketTypes {
      assert PacketTypes[t.Code()] == t;
    }
  }

  /** Distinct packet types have distinct codes. */
  lemma PacketTypeCodeInjective(a: PacketType, b: PacketType)
    ensures a.Code() == b.Code() <==> a == b
  {
    assert PacketTypeFromCode(a.Code()) == Some(a);
    assert PacketTypeFromCode(b.Code()) == Some(b);
  }

  /** The only packet type the emitter sends, and its neighbours' codes. */
  lemma PacketTypeKnownCodes()
    ensures Connect.Code() == 0 && Disconnect.Code() == 1
    ensures Event.Code() == 2 && Ack.Code() == 3
    ensures ConnectError.Code() == 4 && BinaryEvent.Code() == 5 && BinaryAck.Code() == 6
  {
  }

  /** Kinds of request sent between the servers of a cluster, in declaration order. */
  datatype RequestType =
    | Sockets | AllRooms | RemoteJoin | RemoteLeave | RemoteDisconnect | RemoteFetch
    | ServerSideEmit
  {
    /** The integer code of this request type; decoding it gives the type back. */
    function Code(): (c: nat)
      ensures c < 7
      ensures RequestTypeFromCode(c) == Some(this)
    {
      match this
      case Sockets => 0
      case AllRooms => 1
      case RemoteJoin => 2
      case RemoteLeave => 3
      case RemoteDisconnect => 4
      case RemoteFetch => 5
      case ServerSideEmit => 6
    }
  }

  /** The request type a receiver reads from an integer code, if any. */
  function RequestTypeFromCode(c: int): (t: Option<RequestType>)
    ensures t.Some? <==> 0 <= c < 7
  {
    if c == 0 then Some(Sockets)
    else if c == 1 then Some(AllRooms)
    else if c == 2 then Some(RemoteJoin)
    else if c == 3 then Some(RemoteLeave)
    else if c == 4 then Some(RemoteDisconnect)
    else if c == 5 then Some(RemoteFetch)
    else if c == 6 then Some(ServerSideEmit)
    else None
  }

  /** The request types in the order the constants are declared. */
  const RequestTypes: seq<RequestType> :=
    [Sockets, AllRooms, RemoteJoin, RemoteLeave, RemoteDisconnect, RemoteFetch, ServerSideEmit]

  /** The codes run from 0 to 6 in declaration order and cover every request type. */
  lemma RequestTypeCodesInOrder()
    ensures |RequestTypes| == 7
    ensures forall i :: 0 <= i < |RequestTypes| ==> RequestTypes[i].Code() == i
    ensures forall t: RequestType :: t in RequestTypes
  {
    forall t: RequestType ensures t in RequestTypes {
      assert RequestTypes[t.Code()] == t;
    }
  }

  /** Distinct request types have distinct codes. */
  lemma RequestTypeCodeInjective(a: RequestType, b: RequestType)
    ensures a.Code() == b.Code() <==> a == b
  {
    assert RequestTypeFromCode(a.Code()) == Some(a);
    assert RequestTypeFromCode(b.Code()) == Some(b);
  }

  /** The codes of the request types this emitter sends. */
  lemma RequestTypeKnownCodes()
    ensures Sockets.Code() == 0 && AllRooms.Code() == 1
    ensures RemoteJoin.Code() == 2 && RemoteLeave.Code() == 3 && RemoteDisconnect.Code() == 4
    ensures RemoteFetch.Code() == 5 && ServerSideEmit.Code() == 6
  {
  }
}
