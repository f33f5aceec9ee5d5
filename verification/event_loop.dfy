/**
 The connection handler as an event loop: each inbound socket event runs
 one registry transition to completion before the next one starts.
 */
module EventLoop {
  import opened Registry
  import opened RegistryLemmas

  /** The socket events that reach the registry. */
  datatype Event =
    | Connected(c: ConnId)
    | NewChannelRequest(c: ConnId, channel: string, sender: string)
    | PresenceQuery(c: ConnId, channel: string)
    | Disconnected(c: ConnId)

  /** The `presence` answer emitted back to the asking socket. */
  datatype Reply = PresenceReply(to: ConnId, present: bool)

  datatype Outcome = Outcome(state: State, replies: seq<Reply>)

  /**
   Whether the event can be delivered at all: a connection event needs a
   fresh handle, every other event needs a live socket whose handlers are
   still installed.
   */
  predicate Enabled(s: State, e: Event)
  {
    match e
    case Connected(c) => c !in s.init
    case NewChannelRequest(c, _, _) => c in s.init
    case PresenceQuery(c, _) => c in s.init
    case Disconnected(c) => c in s.init
  }

  /** One handler run; an event that cannot be delivered changes nothing. */
  function Step(s: State, e: Event): (o: Outcome)
    ensures !Enabled(s, e) ==> o == Outcome(s, [])
    ensures e.PresenceQuery? ==> o.state == s
    ensures e.PresenceQuery? && Enabled(s, e) ==> o.replies == [PresenceReply(e.c, Presence(s, e.channel))]
    ensures !e.PresenceQuery? ==> o.replies == []
  {
    if !Enabled(s, e) then Outcome(s, [])
    else
      match e
      case Connected(c) =>
        Outcome(Connect(s, c), [])
      case NewChannelRequest(c, ch, sender) =>
        Outcome(NewChannel(s, c, ch, sender), [])
      case PresenceQuery(c, ch) =>
        Outcome(s, [PresenceReply(c, Presence(s, ch))])
      case Disconnected(c) =>
        Outcome(Disconnect(s, c), [])
  }

  /** Every handler keeps the registry's shape. */
  lemma StepPreservesInv(s: State, e: Event)
    requires Inv(s)
    ensures Inv(Step(s, e).state)
  {
  }

  /** The number of presence queries in a sequence of events. */
  function QueryCount(evs: seq<Event>): nat
  {
    if evs == [] then 0
    else (if evs[0].PresenceQuery? then 1 else 0) + QueryCount(evs[1..])
  }

  /** Handles the events in order, collecting the replies emitted. */
  function Run(s: State, evs: seq<Event>): (o: Outcome)
    ensures |o.replies| <= QueryCount(evs)
    decreases |evs|
  {
    if evs == [] then Outcome(s, [])
    else
      var first := Step(s, evs[0]);
      var rest := Run(first.state, evs[1..]);
      Outcome(rest.state, first.replies + rest.replies)
  }

  /**
   Every presence query from a live socket, wherever it falls in a run, is
   answered with exactly one reply to that socket carrying the presence of
   the channel at that moment.
   */
  lemma {:induction false} RunAnswersQuery(s: State, evs: seq<Event>, c: ConnId, ch: string)
    requires c in Run(s, evs).state.init
    ensures var before := Run(s, evs);
      Run(s, evs + [PresenceQuery(c, ch)])
        == Outcome(before.state, before.replies + [PresenceReply(c, Presence(before.state, ch))])
    decreases |evs|
  {
    var q := PresenceQuery(c, ch);
    if evs == [] {
      assert [q][1..] == [];
    } else {
      var first := Step(s, evs[0]);
      assert (evs + [q])[0] == evs[0];
      assert (evs + [q])[1..] == evs[1..] + [q];
      RunAnswersQuery(first.state, evs[1..], c, ch);
    }
  }

  /** A run of handlers keeps the registry's shape. */
  lemma {:induction false} RunPreservesInv(s: State, evs: seq<Event>)
    requires Inv(s)
    ensures Inv(Run(s, evs).state)
    decreases |evs|
  {
    if evs != [] {
      StepPreservesInv(s, evs[0]);
      RunPreservesInv(Step(s, evs[0]).state, evs[1..]);
    }
  }

  /** Every state reachable from process start has the registry's shape. */
  lemma ReachableInv(evs: seq<Event>)
    ensures Inv(Run(Start, evs).state)
  {
    StartInv();
    RunPreservesInv(Start, evs);
  }

  /** The events of a sequence other than presence queries. */
  function Mutations(evs: seq<Event>): (m: seq<Event>)
    ensures |m| == |evs| - QueryCount(evs)
    ensures forall i :: 0 <= i < |m| ==> !m[i].PresenceQuery?
  {
    if evs == [] then []
    else if evs[0].PresenceQuery? then Mutations(evs[1..])
    else [evs[0]] + Mutations(evs[1..])
  }

  /**
   Presence queries are pure over whole runs: dropping every query leaves
   the final registry, initiators and setup trace unchanged.
   */
  lemma {:induction false} QueriesDoNotChangeState(s: State, evs: seq<Event>)
    ensures Run(s, Mutations(evs)).state == Run(s, evs).state
    decreases |evs|
  {
    if evs != [] {
      var first := Step(s, evs[0]);
      QueriesDoNotChangeState(first.state, evs[1..]);
      if !evs[0].PresenceQuery? {
        var m := Mutations(evs);
        assert m[0] == evs[0] && m[1..] == Mutations(evs[1..]);
      }
    }
  }

  /**
   A session: connection 1 opens "alpha", connection 2 finds it present;
   once 1 leaves, 2 finds it absent.
   */
  lemma AlphaSession()
    ensures var evs := [
        Connected(1), NewChannelRequest(1, "alpha", "x"), Connected(2),
        PresenceQuery(2, "alpha"), Disconnected(1), PresenceQuery(2, "alpha")];
      var o := Run(Start, evs);
      && o.replies == [PresenceReply(2, true), PresenceReply(2, false)]
      && o.state.setups == [Setup("alpha", "x")]
      && "alpha" !in o.state.channels
  {
  }
}
