/**
 * Constants of the emitter and the derivation of the channel names that the
 * receiving servers subscribe to. The names must agree with the receivers
 * character for character, so their shape is stated and proved here.
 */
module Naming {

  /** The sender identifier written into every broadcast and server-side emit. */
  const Uid: string := "emitter"

  /** The application key used when none is configured. */
  const DefaultKey: string := "socket.io"

  /** The namespace used when none is configured; also the namespace prefix. */
  const DefaultNsp: string := "/"

  /** A namespace together with the two channels derived for it. */
  datatype BroadcastOptions = BroadcastOptions(nsp: string, broadcastChannel: string, requestChannel: string)

  /** `{key}#{nsp}#`: where broadcasts of the namespace are published. */
  function BroadcastChannel(key: string, nsp: string): (c: string)
    ensures |c| == |key| + |nsp| + 2
    ensures c[..|key|] == key && c[|key|] == '#'
    ensures c[|key| + 1..|c| - 1] == nsp && c[|c| - 1] == '#'
  {
    key + "#" + nsp + "#"
  }

  /** `{key}-request#{nsp}#`: where administrative requests are published. */
  function RequestChannel(key: string, nsp: string): (c: string)
    ensures |c| == |key| + |nsp| + 10
    ensures c[..|key|] == key && c[|key|..|key| + 9] == "-request#"
    ensures c[|key| + 9..|c| - 1] == nsp && c[|c| - 1] == '#'
  {
    key + "-request#" + nsp + "#"
  }

  /** `{broadcastChannel}{room}#`: the channel of a broadcast to a single room. */
  function RoomChannel(broadcastChannel: string, room: string): (c: string)
    ensures |c| == |broadcastChannel| + |room| + 1
    ensures c[..|broadcastChannel|] == broadcastChannel
    ensures c[|broadcastChannel|..|c| - 1] == room && c[|c| - 1] == '#'
  {
    broadcastChannel + room + "#"
  }

  /** The options of the namespace `nsp` under the application key `key`. */
  function DeriveOptions(key: string, nsp: string): (o: BroadcastOptions)
    ensures o.nsp == nsp
    ensures key <= o.broadcastChannel && key <= o.requestChannel
    ensures o.broadcastChannel != o.requestChannel
  {
    BroadcastRequestChannelsDiffer(key, nsp, nsp);
    BroadcastOptions(nsp, BroadcastChannel(key, nsp), RequestChannel(key, nsp))
  }

  /** The channel a broadcast is published on, from the list of its target rooms. */
  function EmitChannel(broadcastChannel: string, rooms: seq<string>): (c: string)
    ensures broadcastChannel <= c
    ensures c == broadcastChannel <==> |rooms| != 1
    ensures |rooms| == 1 ==> c[|broadcastChannel|..|c| - 1] == rooms[0]
  {
    if |rooms| == 1 then RoomChannel(broadcastChannel, rooms[0]) else broadcastChannel
  }

  /** A namespace with `/` prepended unless it already starts with one. */
  function NormalizeNsp(nsp: string): (r: string)
    ensures DefaultNsp <= r
    ensures r == nsp <==> DefaultNsp <= nsp
    ensures r != nsp ==> r == DefaultNsp + nsp
  {
    if DefaultNsp <= nsp then nsp else DefaultNsp + nsp
  }

  /** Normalizing twice is normalizing once. */
  lemma NormalizeNspIdempotent(nsp: string)
    ensures NormalizeNsp(NormalizeNsp(nsp)) == NormalizeNsp(nsp)
  {
  }

  /** `chat` and `/chat` name the same namespace, under any application key. */
  lemma NormalizeNspIgnoresLeadingSlash(key: string, nsp: string)
    ensures !(DefaultNsp <= nsp) ==> NormalizeNsp(nsp) == NormalizeNsp(DefaultNsp + nsp)
    ensures !(DefaultNsp <= nsp) ==> DeriveOptions(key, NormalizeNsp(nsp)) == DeriveOptions(key, NormalizeNsp(DefaultNsp + nsp))
  {
    assert DefaultNsp <= DefaultNsp + nsp;
  }

  /** The channel names of the default configuration. */
  lemma DefaultChannels()
    ensures DeriveOptions(DefaultKey, DefaultNsp)
         == BroadcastOptions("/", "socket.io#/#", "socket.io-request#/#")
  {
    assert BroadcastChannel(DefaultKey, DefaultNsp) == "socket.io" + "#" + "/" + "#" == "socket.io#/#";
    assert RequestChannel(DefaultKey, DefaultNsp) == "socket.io" + "-request#" + "/" + "#" == "socket.io-request#/#";
  }

  /**
   * Under one key, the broadcast channel of any namespace differs from the
   * request channel of any namespace: they part at the character after the key.
   */
  lemma BroadcastRequestChannelsDiffer(key: string, nsp1: string, nsp2: string)
    ensures BroadcastChannel(key, nsp1) != RequestChannel(key, nsp2)
  {
    assert BroadcastChannel(key, nsp1)[|key|] == '#';
    assert RequestChannel(key, nsp2)[|key|] == '-';
  }

  /** In `a # b` with no `#` in `a`, the first `#` stands right after `a`. */
  lemma FirstHash(a: string, b: string)
    requires '#' !in a
    ensures (a + "#" + b)[|a|] == '#'
    ensures forall i | 0 <= i < |a| :: (a + "#" + b)[i] != '#'
  {
    forall i | 0 <= i < |a| ensures (a + "#" + b)[i] != '#' {
      assert (a + "#" + b)[i] == a[i];
    }
  }

  /** Two strings without `#`, each followed by `#`, can be split apart. */
  lemma SplitAtHash(a1: string, b1: string, a2: string, b2: string)
    requires '#' !in a1 && '#' !in a2
    requires a1 + "#" + b1 == a2 + "#" + b2
    ensures a1 == a2 && b1 == b2
  {
    var s := a1 + "#" + b1;
    FirstHash(a1, b1);
    FirstHash(a2, b2);
    assert |a1| == |a2|;
    assert a1 == s[..|a1|];
    assert a2 == (a2 + "#" + b2)[..|a2|];
    assert b1 == s[|a1| + 1..];
    assert b2 == (a2 + "#" + b2)[|a2| + 1..];
  }

  /** A string followed by `#` determines the string. */
  lemma TrailingHashInjective(a: string, b: string)
    requires a + "#" == b + "#"
    ensures a == b
  {
    assert a == (a + "#")[..|a|];
    assert b == (b + "#")[..|b|];
  }

  /**
   * For keys without `#`, the broadcast channel determines the key and the
   * namespace; so does the request channel. Different namespaces never share
   * a channel.
   */
  lemma {:induction false} ChannelsInjective(key1: string, nsp1: string, key2: string, nsp2: string)
    requires '#' !in key1 && '#' !in key2
    ensures BroadcastChannel(key1, nsp1) == BroadcastChannel(key2, nsp2) <==> key1 == key2 && nsp1 == nsp2
    ensures RequestChannel(key1, nsp1) == RequestChannel(key2, nsp2) <==> key1 == key2 && nsp1 == nsp2
  {
    if BroadcastChannel(key1, nsp1) == BroadcastChannel(key2, nsp2) {
      assert BroadcastChannel(key1, nsp1) == key1 + "#" + (nsp1 + "#");
      assert BroadcastChannel(key2, nsp2) == key2 + "#" + (nsp2 + "#");
      SplitAtHash(key1, nsp1 + "#", key2, nsp2 + "#");
      TrailingHashInjective(nsp1, nsp2);
    }
    if RequestChannel(key1, nsp1) == RequestChannel(key2, nsp2) {
      var r1, r2 := key1 + "-request", key2 + "-request";
      assert RequestChannel(key1, nsp1) == r1 + "#" + (nsp1 + "#");
      assert RequestChannel(key2, nsp2) == r2 + "#" + (nsp2 + "#");
      SplitAtHash(r1, nsp1 + "#", r2, nsp2 + "#");
      TrailingHashInjective(nsp1, nsp2);
      assert key1 == r1[..|r1| - 8];
      assert key2 == r2[..|r2| - 8];
    }
  }

  /**
   * A single-room channel extends the namespace's broadcast channel, and
   * different rooms get different channels.
   */
  lemma RoomChannelInjective(broadcastChannel: string, room1: string, room2: string)
    ensures broadcastChannel <= RoomChannel(broadcastChannel, room1)
    ensures RoomChannel(broadcastChannel, room1) == RoomChannel(broadcastChannel, room2) <==> room1 == room2
  {
    var c1, c2 := RoomChannel(broadcastChannel, room1), RoomChannel(broadcastChannel, room2);
    assert c1[..|broadcastChannel|] == broadcastChannel;
    if c1 == c2 {
      assert room1 == c1[|broadcastChannel|..|c1| - 1];
      assert room2 == c2[|broadcastChannel|..|c2| - 1];
    }
  }

  /**
   * Two keys collide: for every namespace, the request channel of key `k` is
   * the broadcast channel of key `k-request`.
   */
  lemma RequestKeyAlias(key: string, nsp: string)
    ensures RequestChannel(key, nsp) == BroadcastChannel(key + "-request", nsp)
  {
  }
}
