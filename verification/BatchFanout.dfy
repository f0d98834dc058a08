/** Subscriber fan-out: bounded channels that drop for slow readers, all guarded by one lock. */
module BatchFanout {
  import opened BatchTypes

  type ChanId = nat

  datatype Tagged = Tagged(run: RunId, event: Event)

  const BUFFER := 256

  /** A non-blocking send: the event is dropped when the buffer is full. */
  function Offer(queue: seq<Tagged>, ev: Tagged): seq<Tagged> {
    if |queue| < BUFFER then queue + [ev] else queue
  }

  /**
   * A subscriber channel. `joined` is the number of broadcasts before it was attached, `occupancy`
   * the fill of its buffer at each broadcast since, `taken` what its reader has received, `late`
   * whether its run had already completed when it was attached, `detached` whether it unsubscribed.
   */
  datatype Chan = Chan(run: RunId, joined: nat, occupancy: seq<nat>, taken: seq<Tagged>, queue: seq<Tagged>,
                       closed: bool, late: bool, detached: bool)

  datatype Hub = Hub(log: seq<Tagged>, chans: map<ChanId, Chan>, subs: set<ChanId>)

  /** What a channel has delivered or holds for its reader. */
  function Received(c: Chan): seq<Tagged> {
    c.taken + c.queue
  }

  function Offered(c: Chan, ev: Tagged): Chan {
    c.(occupancy := c.occupancy + [|c.queue|], queue := Offer(c.queue, ev))
  }

  function Broadcast(h: Hub, ev: Tagged): Hub {
    Hub(h.log + [ev], map c | c in h.chans :: if c in h.subs then Offered(h.chans[c], ev) else h.chans[c], h.subs)
  }

  function BroadcastAll(h: Hub, run: RunId, evs: seq<Event>): Hub {
    if evs == [] then h else Broadcast(BroadcastAll(h, run, evs[..|evs| - 1]), Tagged(run, evs[|evs| - 1]))
  }

  function Attach(h: Hub, c: ChanId, run: RunId, late: bool): Hub
    requires c !in h.chans
  {
    h.(chans := h.chans[c := Chan(run, |h.log|, [], [], [], false, late, false)], subs := h.subs + {c})
  }

  function Detach(h: Hub, c: ChanId): Hub
    requires c in h.chans
  {
    h.(chans := h.chans[c := h.chans[c].(detached := true)], subs := h.subs - {c})
  }

  function Take(h: Hub, c: ChanId): Hub
    requires c in h.chans && h.chans[c].queue != []
  {
    var ch := h.chans[c];
    h.(chans := h.chans[c := ch.(taken := ch.taken + [ch.queue[0]], queue := ch.queue[1..])])
  }

  function CloseAll(h: Hub): Hub {
    Hub(h.log, map c | c in h.chans :: if c in h.subs then h.chans[c].(closed := true) else h.chans[c], {})
  }

  /** The events that found room. */
  function Kept(evs: seq<Tagged>, occupancy: seq<nat>): seq<Tagged>
    requires |evs| == |occupancy|
  {
    if evs == [] then []
    else
      var n := |evs| - 1;
      Kept(evs[..n], occupancy[..n]) + if occupancy[n] < BUFFER then [evs[n]] else []
  }

  /** What a channel has delivered is what was broadcast while it was attached, minus what met a full buffer. */
  ghost predicate ChanInv(log: seq<Tagged>, c: Chan) {
    && c.joined + |c.occupancy| <= |log|
    && |c.queue| <= BUFFER
    && (forall i :: 0 <= i < |c.occupancy| ==> c.occupancy[i] <= BUFFER && c.occupancy[i] <= i)
    && |c.queue| <= |c.occupancy|
    && c.taken + c.queue == Kept(log[c.joined..c.joined + |c.occupancy|], c.occupancy)
  }

  /** Attached channels are open, not unsubscribed, and have been offered everything up to now. */
  ghost predicate HubInv(h: Hub) {
    && (forall c :: c in h.subs ==>
          c in h.chans && !h.chans[c].closed && !h.chans[c].detached && h.chans[c].joined + |h.chans[c].occupancy| == |h.log|)
    && (forall c :: c in h.chans ==> ChanInv(h.log, h.chans[c]))
    && (forall c :: c in h.chans ==> c in h.subs || h.chans[c].closed || h.chans[c].detached)
  }

  lemma ChanLogGrows(log: seq<Tagged>, ev: Tagged, c: Chan)
    requires ChanInv(log, c)
    ensures ChanInv(log + [ev], c)
  {
    var j, k := c.joined, c.joined + |c.occupancy|;
    assert (log + [ev])[j..k] == log[j..k];
  }

  lemma ChanOffered(log: seq<Tagged>, ev: Tagged, c: Chan)
    requires ChanInv(log, c) && c.joined + |c.occupancy| == |log|
    ensures ChanInv(log + [ev], Offered(c, ev))
  {
    var c' := Offered(c, ev);
    var n := |c.occupancy|;
    var evs := (log + [ev])[c.joined..c.joined + n + 1];
    assert evs[..n] == log[c.joined..] && c'.occupancy[..n] == c.occupancy && evs[n] == ev;
    assert log[c.joined..] == log[c.joined..c.joined + n];
    assert c'.taken + c'.queue == (c.taken + c.queue) + if |c.queue| < BUFFER then [ev] else [];
  }

  lemma BroadcastInv(h: Hub, ev: Tagged)
    requires HubInv(h)
    ensures HubInv(Broadcast(h, ev))
  {
    forall c | c in h.chans ensures ChanInv(Broadcast(h, ev).log, Broadcast(h, ev).chans[c]) {
      if c in h.subs {
        ChanOffered(h.log, ev, h.chans[c]);
      } else {
        ChanLogGrows(h.log, ev, h.chans[c]);
      }
    }
  }

  lemma {:induction false} BroadcastAllInv(h: Hub, run: RunId, evs: seq<Event>)
    requires HubInv(h)
    ensures HubInv(BroadcastAll(h, run, evs))
    decreases |evs|
  {
    if evs != [] {
      BroadcastAllInv(h, run, evs[..|evs| - 1]);
      BroadcastInv(BroadcastAll(h, run, evs[..|evs| - 1]), Tagged(run, evs[|evs| - 1]));
    }
  }

  lemma AttachInv(h: Hub, c: ChanId, run: RunId, late: bool)
    requires HubInv(h) && c !in h.chans
    ensures HubInv(Attach(h, c, run, late))
  {
    assert h.log[|h.log|..|h.log|] == [];
  }

  lemma DetachInv(h: Hub, c: ChanId)
    requires HubInv(h) && c in h.chans
    ensures HubInv(Detach(h, c))
  {
    DetachedChan(h.log, h.chans[c]);
  }

  lemma DetachedChan(log: seq<Tagged>, c: Chan)
    requires ChanInv(log, c)
    ensures ChanInv(log, c.(detached := true))
  {
  }

  lemma CloseAllInv(h: Hub)
    requires HubInv(h)
    ensures HubInv(CloseAll(h))
  {
    forall d | d in h.chans ensures ChanInv(h.log, CloseAll(h).chans[d]) {
      assert ChanInv(h.log, h.chans[d]);
    }
  }

  lemma TakeChan(log: seq<Tagged>, c: Chan)
    requires ChanInv(log, c) && c.queue != []
    ensures ChanInv(log, c.(taken := c.taken + [c.queue[0]], queue := c.queue[1..]))
  {
    assert c.taken + [c.queue[0]] + c.queue[1..] == c.taken + c.queue;
  }

  lemma TakeInv(h: Hub, c: ChanId)
    requires HubInv(h) && c in h.chans && h.chans[c].queue != []
    ensures HubInv(Take(h, c))
  {
    TakeChan(h.log, h.chans[c]);
  }

  /** Nothing is lost on a channel whose buffer was never full, in particular within the first 256 events. */
  lemma {:induction false} NothingDropped(evs: seq<Tagged>, occupancy: seq<nat>)
    requires |evs| == |occupancy|
    requires forall i :: 0 <= i < |occupancy| ==> occupancy[i] < BUFFER
    ensures Kept(evs, occupancy) == evs
    decreases |evs|
  {
    if evs != [] {
      var n := |evs| - 1;
      NothingDropped(evs[..n], occupancy[..n]);
      assert evs == evs[..n] + [evs[n]];
    }
  }

  lemma FirstEventsArrive(h: Hub, c: ChanId)
    requires HubInv(h) && c in h.subs && |h.log| - h.chans[c].joined <= 256
    ensures h.chans[c].taken + h.chans[c].queue == h.log[h.chans[c].joined..]
  {
    var ch := h.chans[c];
    NothingDropped(h.log[ch.joined..ch.joined + |ch.occupancy|], ch.occupancy);
    assert h.log[ch.joined..ch.joined + |ch.occupancy|] == h.log[ch.joined..];
  }

  // ---- The same operations on heap channels, as the service runs them ----

  /** A buffered Go channel. Sending on or closing a closed channel panics, hence the preconditions. */
  class Channel {
    var buffer: seq<Tagged>
    var closed: bool

    constructor ()
      ensures buffer == [] && !closed
    {
      buffer, closed := [], false;
    }

    method TrySend(ev: Tagged)
      requires !closed
      modifies this`buffer
      ensures buffer == Offer(old(buffer), ev)
    {
      if |buffer| < BUFFER {
        buffer := buffer + [ev];
      }
    }

    method Close()
      requires !closed
      modifies this`closed
      ensures closed
    {
      closed := true;
    }
  }

  class Subscribers {
    var subs: set<Channel>

    ghost predicate Valid() reads this, subs {
      forall ch :: ch in subs ==> !ch.closed
    }

    constructor ()
      ensures Valid() && subs == {}
    {
      subs := {};
    }

    method Subscribe() returns (ch: Channel)
      requires Valid()
      modifies this
      ensures Valid() && fresh(ch) && ch.buffer == [] && subs == old(subs) + {ch}
    {
      ch := new Channel();
      subs := subs + {ch};
    }

    method Unsubscribe(ch: Channel)
      requires Valid()
      modifies this
      ensures Valid() && subs == old(subs) - {ch}
    {
      subs := subs - {ch};
    }

    method Broadcast(ev: Tagged)
      requires Valid()
      modifies subs
      ensures Valid() && subs == old(subs)
      ensures forall ch :: ch in subs ==> ch.buffer == Offer(old(ch.buffer), ev)
    {
      var rest := subs;
      while rest != {}
        invariant rest <= subs && Valid()
        invariant forall ch :: ch in rest ==> ch.buffer == old(ch.buffer)
        invariant forall ch :: ch in subs - rest ==> ch.buffer == Offer(old(ch.buffer), ev)
        decreases rest
      {
        var ch :| ch in rest;
        ch.TrySend(ev);
        rest := rest - {ch};
      }
    }

    /** The completion waiter's sweep: every attached channel is closed exactly once. */
    method CloseAll()
      requires Valid()
      modifies this, subs
      ensures Valid() && subs == {}
      ensures forall ch :: ch in old(subs) ==> ch.closed && ch.buffer == old(ch.buffer)
    {
      var rest := subs;
      while rest != {}
        invariant rest <= subs && subs == old(subs)
        invariant forall ch :: ch in rest ==> !ch.closed
        invariant forall ch :: ch in subs ==> ch.buffer == old(ch.buffer)
        invariant forall ch :: ch in subs - rest ==> ch.closed
        decreases rest
      {
        var ch :| ch in rest;
        ch.Close();
        rest := rest - {ch};
      }
      subs := {};
    }
  }
}
