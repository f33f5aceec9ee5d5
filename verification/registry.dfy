/**
 The channel-presence registry of the signalling server.

 One process-wide table `channels` maps a channel name to itself; each
 live connection keeps the name of the channel it initiated (or "" when
 it initiated none). Three handlers drive the two: `new-channel`,
 `presence` and `disconnect`. The event loop runs handlers one at a time,
 so each handler is one pure transition on an immutable `State`.
 */
module Registry {

  /** An opaque, process-unique connection (socket) handle. */
  type ConnId = nat

  /** One invocation of the per-channel namespace setup, with its arguments. */
  datatype Setup = Setup(channel: string, sender: string)

  /**
   channels: the process-wide registry, channel name to stored value;
   init:     the initiator channel of every live connection ("" for none);
   setups:   the namespace setups triggered so far, oldest first.
   */
  datatype State = State(
    channels: map<string, string>,
    init: map<ConnId, string>,
    setups: seq<Setup>)

  /** The state at process start: no channels, no connections, no setups. */
  const Start := State(map[], map[], [])

  /** JavaScript truthiness restricted to strings: only "" is falsy. */
  predicate Truthy(v: string)
  {
    v != ""
  }

  /**
   The registry's shape: every entry maps a channel to itself, every live
   connection's non-empty initiator is registered, and no two live
   connections share a non-empty initiator.
   */
  ghost predicate Inv(s: State)
  {
    && (forall k :: k in s.channels ==> s.channels[k] == k)
    && (forall c :: c in s.init && Truthy(s.init[c]) ==> s.init[c] in s.channels)
    && (forall c, d :: c in s.init && d in s.init && c != d && Truthy(s.init[c]) ==> s.init[c] != s.init[d])
  }

  /** The `presence` query: is the stored value for `ch` truthy? */
  function Presence(s: State, ch: string): (present: bool)
    ensures present ==> ch in s.channels
    ensures ch == "" && Inv(s) ==> !present
    ensures ch in s.channels && s.channels[ch] == ch ==> (present <==> ch != "")
  {
    ch in s.channels && Truthy(s.channels[ch])
  }

  /** A new socket arrives; its initiator channel starts out as "". */
  function Connect(s: State, c: ConnId): (r: State)
    requires c !in s.init
    ensures c in r.init && !Truthy(r.init[c])
    ensures r.init.Keys == s.init.Keys + {c}
    ensures forall d :: d in s.init ==> r.init[d] == s.init[d]
    ensures r.channels == s.channels && r.setups == s.setups
  {
    s.(init := s.init[c := ""])
  }

  /**
   The `new-channel` handler of connection `c`. When `ch` is not present,
   `c` becomes its initiator and namespace setup is triggered; in every
   case `ch` is then stored under its own name.
   */
  function NewChannel(s: State, c: ConnId, ch: string, sender: string): (r: State)
    requires c in s.init
    ensures r.channels.Keys == s.channels.Keys + {ch}
    ensures r.channels[ch] == ch
    ensures forall k :: k in s.channels && k != ch ==> r.channels[k] == s.channels[k]
    ensures Presence(r, ch) <==> ch != ""
    ensures r.init.Keys == s.init.Keys
    ensures forall d :: d in s.init && d != c ==> r.init[d] == s.init[d]
    ensures Presence(s, ch) ==> r.init == s.init && r.setups == s.setups
    ensures !Presence(s, ch) ==> r.init[c] == ch && r.setups == s.setups + [Setup(ch, sender)]
  {
    var claims := !Presence(s, ch);
    var init' := if claims then s.init[c := ch] else s.init;
    var setups' := if claims then s.setups + [Setup(ch, sender)] else s.setups;
    State(s.channels[ch := ch], init', setups')
  }

  /**
   The `disconnect` handler of connection `c`: a truthy initiator channel
   is deleted from the registry, and the connection's own record ends.
   */
  function Disconnect(s: State, c: ConnId): (r: State)
    requires c in s.init
    ensures r.init.Keys == s.init.Keys - {c}
    ensures forall d :: d in r.init ==> r.init[d] == s.init[d]
    ensures Truthy(s.init[c]) ==> r.channels.Keys == s.channels.Keys - {s.init[c]}
    ensures !Truthy(s.init[c]) ==> r.channels == s.channels
    ensures forall k :: k in r.channels ==> r.channels[k] == s.channels[k]
    ensures r.setups == s.setups
  {
    var channels' := if Truthy(s.init[c]) then s.channels - {s.init[c]} else s.channels;
    State(channels', s.init - {c}, s.setups)
  }
}
