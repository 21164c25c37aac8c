/** The accumulator: tickets are gathered into a window, which is handed to an asynchronous forwarder when
    it is full or when the timer ticks. The window is a Go slice: a backing array that append may extend in
    place. Handlers and timer hold one mutex, so each of the two methods runs undisturbed. */
module Accumulator {
  import opened Records
  import opened TicketLists
  import P = Protocol
  import opened Invariants
  import C = Conservation
  import L = LocalSteps

  /** A slice handed to a goroutine: the array it points into, and its length. */
  datatype Slice = Slice(arr: array<StreamTicket>, len: nat)

  class Accumulator {
    const queue: string
    const maxTickets: int
    var seen: set<string>
    var window: array<StreamTicket>
    var len: nat
    var forwarded: seq<Slice>
    ghost var batches: seq<seq<StreamTicket>>  // what each forwarded slice held when it was handed over

    ghost predicate Valid()
      reads this, window, set s | s in forwarded :: s.arr
    {
      && len <= window.Length
      && WindowInv(maxTickets, window[..len], seen)
      && Frozen()
    }

    /** Every slice handed over still holds what it held then, apart from the window's array. */
    ghost predicate Frozen()
      reads this`forwarded, this`batches, this`window, set s | s in forwarded :: s.arr
    {
      && |forwarded| == |batches|
      && (forall k :: 0 <= k < |forwarded| ==>
            forwarded[k].arr != window && forwarded[k].len <= forwarded[k].arr.Length
            && forwarded[k].arr[..forwarded[k].len] == batches[k])
    }

    /** The accumulator as a process of the protocol. */
    ghost function AsProc(): P.Proc
      requires len <= window.Length
      reads this, window
    {
      P.Accumulator(queue, maxTickets, window[..len], seen, batches)
    }

    constructor (queue: string, maxTickets: int)
      ensures Valid() && AsProc() == P.Accumulator(queue, maxTickets, [], {}, [])
      ensures this.queue == queue && this.maxTickets == maxTickets && fresh(window) && forwarded == []
    {
      this.queue := queue;
      this.maxTickets := maxTickets;
      seen := {};
      window := new StreamTicket[0];
      len := 0;
      forwarded := [];
      batches := [];
    }

    /** Go's append: in place while there is room, into a new array otherwise. */
    method Append(t: StreamTicket)
      requires len <= window.Length
      requires forall k :: 0 <= k < |forwarded| ==> forwarded[k].arr != window
      modifies this`window, this`len, window
      ensures len == old(len) + 1 <= window.Length
      ensures window[..len] == old(window[..len]) + [t]
      ensures window == old(window) || fresh(window)
    {
      if len == window.Length {
        window := Grow(window, t);
      }
      window[len] := t;
      len := len + 1;
    }

    /** Hands the window to the forwarder and starts a new one in a new array. */
    method Flush()
      requires len <= window.Length && Frozen()
      modifies this
      ensures Frozen() && fresh(window) && len == 0 && seen == {} && window.Length == 0
      ensures forwarded == old(forwarded) + [Slice(old(window), old(len))]
      ensures batches == old(batches) + [old(window[..len])]
    {
      forwarded := forwarded + [Slice(window, len)];
      batches := batches + [window[..len]];
      window := new StreamTicket[0];
      len := 0;
      seen := {};
    }

    /** A ticket not seen in this window joins it. */
    method Add(t: StreamTicket)
      requires len <= window.Length && Frozen() && seen == P.Ids(window[..len])
      modifies this`window, this`len, this`seen, window
      ensures len <= window.Length && Frozen() && seen == P.Ids(window[..len])
      ensures window[..len] == old(window[..len]) + [t] && seen == old(seen) + {t.id}
      ensures window == old(window) || fresh(window)
      ensures forall k :: 0 <= k < |forwarded| ==> forwarded[k].arr[..] == old(forwarded[k].arr[..])
    {
      ghost var before := window[..len];
      Append(t);
      seen := seen + {t.id};
      L.SeenAppend(before, t);
    }

    /** A ticket arrives on the request topic. Slices handed over before stay as they were. */
    method Receive(t: StreamTicket)
      requires Valid()
      modifies this, window
      ensures Valid() && AsProc() == P.Gather(old(AsProc()), t)
      ensures t.id in old(seen) ==> seen == old(seen) && window[..len] == old(window[..len]) && batches == old(batches)
      ensures t.id !in old(seen) && old(len) + 1 < maxTickets ==>
                seen == old(seen) + {t.id} && window[..len] == old(window[..len]) + [t] && batches == old(batches)
      ensures t.id !in old(seen) && old(len) + 1 >= maxTickets ==>
                seen == {} && len == 0 && batches == old(batches) + [old(window[..len]) + [t]]
      ensures old(forwarded) <= forwarded && old(batches) <= batches
      ensures forall k :: 0 <= k < |old(forwarded)| ==> forwarded[k].arr[..] == old(forwarded[k].arr[..])
      ensures window == old(window) || fresh(window)
    {
      if t.id in seen {
        return;
      }
      ghost var p := AsProc();
      Add(t);
      WindowAppend(maxTickets, p.window, p.seen, t);
      if |seen| >= maxTickets {
        Flush();
      }
    }

    /** The timer fires. */
    method Tick()
      requires Valid()
      modifies this
      ensures Valid()
      ensures AsProc() == if old(len) > 0 then P.Flush(old(AsProc())) else old(AsProc())
      ensures old(forwarded) <= forwarded && old(batches) <= batches
      ensures old(len) > 0 ==> seen == {} && len == 0 && batches == old(batches) + [old(window[..len])]
      ensures old(len) == 0 ==> seen == old(seen) && len == 0 && batches == old(batches)
      ensures if old(len) > 0 then fresh(window) else window == old(window)
    {
      if len > 0 {
        Flush();
      }
    }
  }

  /** A larger copy of a full array. */
  method Grow(full: array<StreamTicket>, filler: StreamTicket) returns (bigger: array<StreamTicket>)
    ensures fresh(bigger) && bigger.Length > full.Length && bigger[..full.Length] == full[..]
  {
    bigger := new StreamTicket[2 * full.Length + 1](_ => filler);
    for i := 0 to full.Length
      invariant bigger[..i] == full[..i]
    {
      bigger[i] := full[i];
    }
  }

  /** A window that a new ticket does not fill stays in order. */
  lemma WindowAppend(maxTickets: int, window: seq<StreamTicket>, seen: set<string>, t: StreamTicket)
    requires WindowInv(maxTickets, window, seen) && t.id !in seen
    ensures |seen + {t.id}| < maxTickets ==> WindowInv(maxTickets, window + [t], seen + {t.id})
  {
    L.SeenAppend(window, t);
  }

  // ---- Whole runs ----

  datatype Event = Arrival(ticket: StreamTicket) | Timer

  function Arrivals(events: seq<Event>): seq<StreamTicket> {
    if events == [] then []
    else Arrivals(events[..|events| - 1]) +
         match events[|events| - 1] case Arrival(t) => [t] case Timer => []
  }

  /** The accumulator's state after any interleaving of arrivals and ticks. */
  function StateAfter(queue: string, maxTickets: int, events: seq<Event>): (p: P.Proc)
    ensures p.Accumulator?
  {
    if events == [] then P.Accumulator(queue, maxTickets, [], {}, [])
    else
      var p := StateAfter(queue, maxTickets, events[..|events| - 1]);
      match events[|events| - 1]
      case Arrival(t) => P.Gather(p, t)
      case Timer => if p.window != [] then P.Flush(p) else p
  }

  /** The first ticket of each id, in order. */
  function FirstById(ts: seq<StreamTicket>): seq<StreamTicket> {
    if ts == [] then []
    else
      var front := FirstById(ts[..|ts| - 1]);
      if Mentions(front, ts[|ts| - 1].id) then front else front + [ts[|ts| - 1]]
  }

  function Flatten(parts: seq<seq<StreamTicket>>): seq<StreamTicket> {
    if parts == [] then [] else Flatten(parts[..|parts| - 1]) + parts[|parts| - 1]
  }

  lemma FirstByIdAppend(ts: seq<StreamTicket>, t: StreamTicket)
    ensures FirstById(ts + [t]) == if Mentions(FirstById(ts), t.id) then FirstById(ts) else FirstById(ts) + [t]
  {
    assert (ts + [t])[..|ts|] == ts;
  }

  lemma {:induction false} FirstByIdMentions(ts: seq<StreamTicket>, id: string)
    ensures Mentions(FirstById(ts), id) <==> Mentions(ts, id)
  {
    if ts != [] {
      var n := |ts| - 1;
      var front := FirstById(ts[..n]);
      FirstByIdMentions(ts[..n], id);
      assert ts == ts[..n] + [ts[n]];
      if ts[n].id == id && !Mentions(front, id) {
        assert (front + [ts[n]])[|front|].id == id;
      }
      if k :| 0 <= k < |front| && front[k].id == id {
        assert (front + [ts[n]])[k].id == id;
      }
    }
  }

  /** The positions, in increasing order, of the first occurrence of each id. */
  ghost predicate FirstPositions(ts: seq<StreamTicket>, at: seq<nat>) {
    && (forall k :: 0 <= k < |at| ==> at[k] < |ts| && !Mentions(ts[..at[k]], ts[at[k]].id))
    && (forall k, l :: 0 <= k < l < |at| ==> at[k] < at[l])
  }

  ghost predicate Picks(ts: seq<StreamTicket>, at: seq<nat>, out: seq<StreamTicket>) {
    && |out| == |at|
    && forall k :: 0 <= k < |at| ==> at[k] < |ts| && out[k] == ts[at[k]]
  }

  lemma PositionsExtend(ts: seq<StreamTicket>, t: StreamTicket, at: seq<nat>, out: seq<StreamTicket>)
    requires FirstPositions(ts, at) && Picks(ts, at, out)
    ensures FirstPositions(ts + [t], at) && Picks(ts + [t], at, out)
  {
    forall k | 0 <= k < |at| ensures !Mentions((ts + [t])[..at[k]], (ts + [t])[at[k]].id) && out[k] == (ts + [t])[at[k]] {
      assert (ts + [t])[..at[k]] == ts[..at[k]];
    }
  }

  lemma PositionAppend(ts: seq<StreamTicket>, t: StreamTicket, at: seq<nat>, out: seq<StreamTicket>)
    requires FirstPositions(ts + [t], at) && Picks(ts + [t], at, out)
    requires (forall k :: 0 <= k < |at| ==> at[k] < |ts|) && !Mentions(ts, t.id)
    ensures FirstPositions(ts + [t], at + [|ts|]) && Picks(ts + [t], at + [|ts|], out + [t])
  {
    assert (ts + [t])[..|ts|] == ts;
  }

  lemma {:induction false} FirstByIdPositions(ts: seq<StreamTicket>) returns (at: seq<nat>)
    ensures FirstPositions(ts, at) && Picks(ts, at, FirstById(ts))
  {
    if ts == [] {
      return [];
    }
    var n := |ts| - 1;
    var front := ts[..n];
    assert ts == front + [ts[n]];
    at := FirstByIdPositions(front);
    PositionsExtend(front, ts[n], at, FirstById(front));
    FirstByIdMentions(front, ts[n].id);
    if !Mentions(FirstById(front), ts[n].id) {
      PositionAppend(front, ts[n], at, FirstById(front));
      at := at + [n];
    }
  }

  /** What is kept mentions every id, and is what stands where an id occurs for the first time, in order. */
  lemma FirstByIdKeeps(ts: seq<StreamTicket>) returns (at: seq<nat>)
    ensures FirstPositions(ts, at) && Picks(ts, at, FirstById(ts))
    ensures forall id :: Mentions(FirstById(ts), id) <==> Mentions(ts, id)
  {
    at := FirstByIdPositions(ts);
    forall id ensures Mentions(FirstById(ts), id) <==> Mentions(ts, id) {
      FirstByIdMentions(ts, id);
    }
  }

  lemma FlattenAppend(parts: seq<seq<StreamTicket>>, part: seq<StreamTicket>)
    ensures Flatten(parts + [part]) == Flatten(parts) + part
  {
    assert (parts + [part])[..|parts|] == parts;
  }

  ghost predicate GoodBatch(maxTickets: int, b: seq<StreamTicket>) {
    && 1 <= |b| && |P.Ids(b)| == |b|
    && (|b| <= maxTickets || |b| == 1)
  }

  /** The arrivals split into consecutive stretches, one per batch and one for the window; each batch, and
      the window, is its stretch less the tickets repeated within it. */
  ghost predicate Explains(p: P.Proc, arrivals: seq<StreamTicket>, stretches: seq<seq<StreamTicket>>, current: seq<StreamTicket>)
    requires p.Accumulator?
  {
    && Flatten(stretches) + current == arrivals
    && |stretches| == |p.forwarding|
    && (forall k :: 0 <= k < |stretches| ==> p.forwarding[k] == FirstById(stretches[k]))
    && p.window == FirstById(current)
  }

  ghost predicate InBounds(p: P.Proc)
    requires p.Accumulator?
  {
    && WindowInv(p.maxTickets, p.window, p.seen)
    && forall k :: 0 <= k < |p.forwarding| ==> GoodBatch(p.maxTickets, p.forwarding[k])
  }

  lemma FlushExplained(p: P.Proc, arrivals: seq<StreamTicket>, stretches: seq<seq<StreamTicket>>, current: seq<StreamTicket>)
    requires p.Accumulator? && Explains(p, arrivals, stretches, current)
    ensures Explains(P.Flush(p), arrivals, stretches + [current], [])
  {
    FlattenAppend(stretches, current);
  }

  lemma GatherExplained(p: P.Proc, t: StreamTicket, arrivals: seq<StreamTicket>, stretches: seq<seq<StreamTicket>>, current: seq<StreamTicket>)
      returns (s: seq<seq<StreamTicket>>, c: seq<StreamTicket>)
    requires p.Accumulator? && Explains(p, arrivals, stretches, current) && InBounds(p)
    ensures Explains(P.Gather(p, t), arrivals + [t], s, c)
  {
    s, c := stretches, current + [t];
    FirstByIdAppend(current, t);
    C.WindowSeen(p.maxTickets, p.window, p.seen, t.id);
    assert Flatten(stretches) + (current + [t]) == arrivals + [t];
    if t.id !in p.seen {
      var q := p.(window := p.window + [t], seen := p.seen + {t.id});
      assert Explains(q, arrivals + [t], s, c);
      if |q.seen| >= q.maxTickets {
        FlushExplained(q, arrivals + [t], s, c);
        s, c := s + [c], [];
      }
    }
  }

  lemma GatherInBounds(p: P.Proc, t: StreamTicket)
    requires p.Accumulator? && InBounds(p)
    ensures InBounds(P.Gather(p, t)) && P.Gather(p, t).maxTickets == p.maxTickets
  {
    L.SeenAppend(p.window, t);
  }

  /** The arrivals fall into consecutive stretches: one per batch handed over and one for the window. Each
      batch, and the window, is its stretch less the tickets repeated within it. Nothing else is dropped,
      added or moved. Batches are not empty, have distinct ids and at most max(1, maxTickets) of them; the
      window stays below that; the seen set is the window's. */
  lemma {:induction false} Conserved(queue: string, maxTickets: int, events: seq<Event>)
      returns (stretches: seq<seq<StreamTicket>>, current: seq<StreamTicket>)
    ensures var p := StateAfter(queue, maxTickets, events);
            Explains(p, Arrivals(events), stretches, current) && InBounds(p) && p.maxTickets == maxTickets
  {
    if events == [] {
      stretches, current := [], [];
      return;
    }
    var front := events[..|events| - 1];
    var p := StateAfter(queue, maxTickets, front);
    stretches, current := Conserved(queue, maxTickets, front);
    match events[|events| - 1]
    case Arrival(t) =>
      GatherInBounds(p, t);
      stretches, current := GatherExplained(p, t, Arrivals(front), stretches, current);
    case Timer =>
      if p.window != [] {
        FlushExplained(p, Arrivals(front), stretches, current);
        stretches, current := stretches + [current], [];
      }
  }

  function Max(a: int, b: int): int {
    if a >= b then a else b
  }

  /** Of each batch, whether it was handed over when a ticket arrived and not by the timer. */
  function OnArrival(queue: string, maxTickets: int, events: seq<Event>): seq<bool> {
    if events == [] then []
    else
      var front := events[..|events| - 1];
      OnArrival(queue, maxTickets, front)
      + if |StateAfter(queue, maxTickets, events).forwarding| > |StateAfter(queue, maxTickets, front).forwarding|
        then [events[|events| - 1].Arrival?] else []
  }

  /** An arrival hands the window over exactly when that makes it full; only the timer hands over a smaller one,
      and never a full one. */
  ghost predicate HandedOver(maxTickets: int, forwarding: seq<seq<StreamTicket>>, onArrival: seq<bool>) {
    && |onArrival| == |forwarding|
    && forall k :: 0 <= k < |forwarding| ==>
         if onArrival[k] then |forwarding[k]| == Max(1, maxTickets) else 1 <= |forwarding[k]| < Max(1, maxTickets)
  }

  lemma HandedOverAppend(maxTickets: int, forwarding: seq<seq<StreamTicket>>, onArrival: seq<bool>, b: seq<StreamTicket>, arrival: bool)
    requires HandedOver(maxTickets, forwarding, onArrival)
    requires arrival ==> |b| == Max(1, maxTickets)
    requires !arrival ==> 1 <= |b| && |b| < Max(1, maxTickets)
    ensures HandedOver(maxTickets, forwarding + [b], onArrival + [arrival])
  {
  }

  lemma {:induction false} HandsOverWhenFull(queue: string, maxTickets: int, events: seq<Event>)
    ensures HandedOver(maxTickets, StateAfter(queue, maxTickets, events).forwarding, OnArrival(queue, maxTickets, events))
  {
    if events != [] {
      var front := events[..|events| - 1];
      var p := StateAfter(queue, maxTickets, front);
      HandsOverWhenFull(queue, maxTickets, front);
      var stretches, current := Conserved(queue, maxTickets, front);
      match events[|events| - 1]
      case Arrival(t) =>
        L.SeenAppend(p.window, t);
        HandsOverArrival(p, t, OnArrival(queue, maxTickets, front));
      case Timer =>
        if p.window != [] {
          HandedOverAppend(maxTickets, p.forwarding, OnArrival(queue, maxTickets, front), p.window, false);
        }
    }
  }

  lemma HandsOverArrival(p: P.Proc, t: StreamTicket, onArrival: seq<bool>)
    requires p.Accumulator? && InBounds(p) && HandedOver(p.maxTickets, p.forwarding, onArrival)
    ensures var q := P.Gather(p, t);
            var marks := if |q.forwarding| > |p.forwarding| then [true] else [];
            HandedOver(p.maxTickets, q.forwarding, onArrival + marks)
  {
    assert onArrival + [] == onArrival;
    if t.id !in p.seen && |p.seen + {t.id}| >= p.maxTickets {
      HandedOverAppend(p.maxTickets, p.forwarding, onArrival, p.window + [t], true);
    }
  }

  /** What was handed over stays what it was, whatever comes later. */
  lemma {:induction false} ForwardingGrows(queue: string, maxTickets: int, events: seq<Event>, more: seq<Event>)
    ensures StateAfter(queue, maxTickets, events).forwarding <= StateAfter(queue, maxTickets, events + more).forwarding
  {
    if more == [] {
      assert events + more == events;
    } else {
      ForwardingGrows(queue, maxTickets, events, more[..|more| - 1]);
      assert (events + more)[..|events + more| - 1] == events + more[..|more| - 1];
    }
  }

  /** The whole life of an accumulator: it follows the protocol's steps, the arrays it handed over hold the
      batches they held then, and these and the window account for every ticket that arrived. */
  method Live(queue: string, maxTickets: int, events: seq<Event>)
      returns (a: Accumulator, ghost stretches: seq<seq<StreamTicket>>, ghost current: seq<StreamTicket>)
    ensures fresh(a) && fresh(a.window) && a.Valid() && a.AsProc() == StateAfter(queue, maxTickets, events)
    ensures |a.forwarded| == |a.AsProc().forwarding|
    ensures forall k :: 0 <= k < |a.forwarded| ==>
              a.forwarded[k].len <= a.forwarded[k].arr.Length
              && a.forwarded[k].arr[..a.forwarded[k].len] == a.AsProc().forwarding[k]
    ensures Explains(a.AsProc(), Arrivals(events), stretches, current) && InBounds(a.AsProc())
  {
    a := new Accumulator(queue, maxTickets);
    for i := 0 to |events|
      invariant fresh(a) && fresh(a.window) && a.Valid() && a.AsProc() == StateAfter(queue, maxTickets, events[..i])
    {
      assert events[..i + 1][..i] == events[..i];
      match events[i]
      case Arrival(t) => a.Receive(t);
      case Timer => a.Tick();
    }
    assert events[..|events|] == events;
    stretches, current := Conserved(queue, maxTickets, events);
  }
}
