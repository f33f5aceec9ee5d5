/**
 Properties of the channel registry: the invariant each handler keeps,
 what `new-channel` does on present and absent channels, the empty
 channel name, and what a disconnect may and may not remove.
 */
module RegistryLemmas {
  import opened Registry

  /** At process start the registry has its shape. */
  lemma StartInv()
    ensures Inv(Start)
  {
  }

  /** Under the invariant, presence is exactly "registered under a non-empty name". */
  lemma PresenceMeansRegistered(s: State, ch: string)
    requires Inv(s)
    ensures Presence(s, ch) <==> ch in s.channels && ch != ""
  {
  }

  lemma ConnectPreservesInv(s: State, c: ConnId)
    requires Inv(s) && c !in s.init
    ensures Inv(Connect(s, c))
  {
  }

  lemma NewChannelPreservesInv(s: State, c: ConnId, ch: string, sender: string)
    requires Inv(s) && c in s.init
    ensures Inv(NewChannel(s, c, ch, sender))
  {
  }

  lemma DisconnectPreservesInv(s: State, c: ConnId)
    requires Inv(s) && c in s.init
    ensures Inv(Disconnect(s, c))
  {
  }

  /** `new-channel` on a channel that is already present changes nothing at all. */
  lemma NewChannelOnPresentIsNoop(s: State, c: ConnId, ch: string, sender: string)
    requires Inv(s) && c in s.init && Presence(s, ch)
    ensures NewChannel(s, c, ch, sender) == s
  {
  }

  /** Repeating `new-channel` for a non-empty name, by anyone, is idempotent. */
  lemma NewChannelIdempotent(s: State, c: ConnId, d: ConnId, ch: string, x: string, y: string)
    requires c in s.init && d in s.init && ch != ""
    ensures NewChannel(NewChannel(s, c, ch, x), d, ch, y) == NewChannel(s, c, ch, x)
  {
  }

  /**
   The empty channel name is stored but never reported present; each
   request for it triggers setup again and leaves "" as the caller's
   initiator, which a later disconnect ignores.
   */
  lemma EmptyChannelStoredButAbsent(s: State, c: ConnId, sender: string)
    requires Inv(s) && c in s.init
    ensures var r := NewChannel(s, c, "", sender);
      && "" in r.channels
      && !Presence(r, "")
      && r.init[c] == ""
      && r.setups == s.setups + [Setup("", sender)]
      && Disconnect(r, c).channels == r.channels
  {
  }

  /**
   A disconnect never removes a channel that another live connection
   initiated.
   */
  lemma DisconnectSparesOthers(s: State, c: ConnId, d: ConnId)
    requires Inv(s) && c in s.init && d in s.init && c != d && Truthy(s.init[d])
    ensures Presence(Disconnect(s, c), s.init[d])
  {
  }

  /**
   A connection that initiates a second absent channel loses track of the
   first: its disconnect removes only the second, and the first stays
   present with no live initiator.
   */
  lemma SecondInitiationLeaksFirst(s: State, c: ConnId, a: string, b: string, x: string, y: string)
    requires Inv(s) && c in s.init
    requires a != "" && b != "" && a != b && !Presence(s, a) && !Presence(s, b)
    ensures var t := Disconnect(NewChannel(NewChannel(s, c, a, x), c, b, y), c);
      && Presence(t, a)
      && !Presence(t, b)
      && forall d :: d in t.init ==> t.init[d] != a
  {
  }

  /**
   Once the initiator of a channel disconnects, the next `new-channel` for
   that name, from another connection, triggers namespace setup again and
   makes that connection the initiator.
   */
  lemma RecreateAfterInitiatorLeaves(s: State, c: ConnId, d: ConnId, ch: string, x: string, y: string)
    requires Inv(s) && c in s.init && d in s.init && c != d
    requires ch != "" && !Presence(s, ch)
    ensures var t := NewChannel(Disconnect(NewChannel(s, c, ch, x), c), d, ch, y);
      && t.setups == s.setups + [Setup(ch, x), Setup(ch, y)]
      && t.init[d] == ch
      && Presence(t, ch)
  {
  }
}
