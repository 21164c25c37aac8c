/** Once a ticket's match is created, the copies of the ticket still in circulation drain away. */
module Draining {
  import opened Records
  import opened TicketLists
  import opened Protocol
  import opened Metrics
  import opened Invariants
  import opened LocalSteps
  import opened Conservation
  import opened Preservation

  // ---- Moves ----

  /** An accumulator receives, flushes or forwards a copy; a window may be flushed by another ticket's arrival. */
  predicate AccumulatorMoves(p: Proc, a: Action, inc: Option<Envelope>, id: string)
    requires p.Accumulator?
  {
    match a
    case ReceiveTicket =>
      inc.Some? && inc.value.payload.TicketPayload?
      && (inc.value.payload.ticket.id == id || (Fills(p, inc.value.payload.ticket) && Mentions(p.window, id)))
    case Tick => Mentions(p.window, id)
    case Forward(k) => k < |p.forwarding| && Mentions(p.forwarding[k], id)
    case _ => false
  }

  /** A matcher receives or fetches a copy, ends the stream it was fetched for, drops it because a snapshot has
      it allocated, publishes it, or gets to the final requeue of the documents it was fetched with. A snapshot
      for a failed match drops no copy: the ticket stays among the fetched documents. */
  predicate MatcherMoves(p: Proc, a: Action, inc: Option<Envelope>, id: string)
    requires p.Matcher?
  {
    match p.ms
    case Idle => a.ReceiveBatch? && inc.Some? && Carried(inc.value, id)
    case Fetching(batch) => a.FetchRequests? && Mentions(batch, id)
    case Streaming => a.EndStream? && Lists(p.subs, id)
    case Reading(ts, next) =>
      a.ReadAllocations? && (match next
                             case Resume => Mentions(ts, id) && !Lists(p.subs, id)
                             case Wrap => Mentions(ts, id) || Lists(p.subs, id)
                             case Rest => Mentions(ts, id))
    case Publishing(ts, next) => a.Republish? && if ts == [] then next.Wrap? && Lists(p.subs, id) else ts[0].id == id
    case Wrapping => a.FinalRequeue? && Lists(p.subs, id)
    case _ => false
  }

  /** The step moves on a copy of the ticket. */
  predicate Moves(p: Proc, a: Action, inc: Option<Envelope>, id: string) {
    if p.Accumulator? then AccumulatorMoves(p, a, inc, id)
    else p.Matcher? && MatcherMoves(p, a, inc, id)
  }

  ghost predicate Drains(w: Store, p: Proc, a: Action, inc: Option<Envelope>, id: string) {
    var o := Act(w, p, a, inc);
    ProcMetric(Weight(id), o.proc) + BagSum(Weight(id), o.out) + Indicator(Moves(p, a, inc, id))
    <= ProcMetric(Weight(id), p) + InMetric(Weight(id), inc)
  }

  lemma OneMessage(m: Metric, e: Envelope)
    ensures BagSum(m, [e]) == EnvMetric(m, e)
  {
    assert [e][..0] == [];
  }

  // ---- Accumulators ----

  lemma ReceiveDrains(w: Store, p: Proc, e: Envelope, id: string)
    requires p.Accumulator? && WindowInv(p.maxTickets, p.window, p.seen) && e.payload.TicketPayload?
    ensures Drains(w, p, ReceiveTicket, Some(e), id)
  {
    GatherWeight(p, e.payload.ticket, id);
  }

  lemma TickDrains(w: Store, p: Proc, id: string)
    requires p.Accumulator?
    ensures Drains(w, p, Tick, None, id)
  {
    FlushMetrics(p, id);
  }

  lemma ForwardDrains(w: Store, p: Proc, k: nat, id: string)
    requires p.Accumulator?
    ensures Drains(w, p, Forward(k), None, id)
  {
    if k < |p.forwarding| {
      BatchesRemove(p.forwarding, k, id);
      OneMessage(Weight(id), BatchEnvelope(p.queue, p.forwarding[k]));
    }
  }

  lemma AccumulatorDrains(w: Store, p: Proc, a: Action, inc: Option<Envelope>, id: string)
    requires p.Accumulator? && LocalPre(w, p, a, inc)
    ensures Drains(w, p, a, inc, id)
  {
    if a.ReceiveTicket? {
      TicketArrives(w, inc.value, p.queue);
      ReceiveDrains(w, p, inc.value, id);
    } else if a.Tick? {
      TickDrains(w, p, id);
    } else if a.Forward? {
      ForwardDrains(w, p, a.k, id);
    }
  }

  // ---- Matchers ----

  lemma FetchDrains(w: Store, p: Proc, a: Action, id: string)
    requires p.Matcher? && LocalPre(w, p, a, None) && p.ms.Fetching? && a.FetchRequests?
    ensures Drains(w, p, a, None, id)
  {
    if a.ok {
      FetchLocal(w, p.queue, p.ms.batch, a.order);
    }
  }

  lemma BatchDrains(w: Store, p: Proc, inc: Envelope, id: string)
    requires p.Matcher? && LocalPre(w, p, ReceiveBatch, Some(inc)) && p.ms.Idle?
    ensures Drains(w, p, ReceiveBatch, Some(inc), id)
  {
    BatchArrives(w, inc, p.queue);
  }

  lemma FailDrains(w: Store, p: Proc, m: Match, id: string)
    requires p.Matcher? && ProcInv(w, p) && (forall x :: x in m.requestIds ==> x in p.live)
    ensures MatcherWeight(p.subs, Fail(p, m).ms, id) == 5 * Indicator(Lists(p.subs, id))
  {
    TicketsOfMentions(p.live, m.requestIds);
  }

  lemma StreamDrains(w: Store, p: Proc, a: Action, id: string)
    requires p.Matcher? && p.ms.Streaming? && (a.Yield? || a.EndStream?)
    ensures Drains(w, p, a, None, id)
  {
    RefsOfMentions(p.subs);
  }

  lemma AllocateDrains(w: Store, p: Proc, ok: bool, id: string)
    requires p.Matcher? && ProcInv(w, p) && p.ms.Allocating?
    ensures Drains(w, p, Allocate(ok), None, id)
  {
    FailDrains(w, p, p.ms.m, id);
  }

  lemma ReleaseDrains(w: Store, p: Proc, id: string)
    requires p.Matcher? && ProcInv(w, p) && p.ms.Releasing?
    ensures Drains(w, p, Release(true), None, id)
  {
    FailDrains(w, p, p.ms.m, id);
  }

  lemma WriteDrains(w: Store, p: Proc, a: Action, id: string)
    requires p.Matcher? && ((p.ms.Writing? && a.WriteRecord?) || (p.ms.DroppingRecord? && a.DropRecord?))
    ensures Drains(w, p, a, None, id)
  {
  }

  lemma SendDrains(w: Store, p: Proc, ok: bool, id: string)
    requires p.Matcher? && p.ms.Sending?
    ensures Drains(w, p, SendMatch(ok), None, id)
  {
    OneMessage(Weight(id), MatchEnvelope(p.ms.m.id));
  }

  lemma ReadDrains(w: Store, p: Proc, id: string)
    requires p.Matcher? && p.ms.Reading? && id in w.allocs
    ensures Drains(w, p, ReadAllocations, None, id)
  {
    UnallocatedKeeps(p.ms.tickets, w.allocs.Keys);
  }

  lemma PublishDrains(w: Store, p: Proc, id: string)
    requires p.Matcher? && ProcInv(w, p) && p.ms.Publishing?
    ensures Drains(w, p, Republish, None, id)
  {
    if p.ms.tickets != [] {
      OneMessage(Weight(id), TicketEnvelope(p.ms.tickets[0]));
    }
  }

  lemma FinalListed(w: Store, p: Proc, order: seq<string>, id: string)
    requires p.Matcher? && ProcInv(w, p) && IsOrdering(order, p.live.Keys)
    ensures Mentions(TicketsOf(p.live, order), id) ==> Lists(p.subs, id)
  {
    TicketsOfMentions(p.live, order);
  }

  lemma RestWeighs(ts: seq<StreamTicket>, id: string)
    ensures MatcherWeight([], Reading(ts, Rest), id) == Indicator(Mentions(ts, id))
  {
    assert !Lists([], id);
  }

  lemma FinalDrains(w: Store, p: Proc, order: seq<string>, id: string)
    requires p.Matcher? && ProcInv(w, p) && p.ms.Wrapping? && IsOrdering(order, p.live.Keys)
    ensures Drains(w, p, FinalRequeue(order), None, id)
  {
    FinalOutcome(w, p, order);
    FinalListed(w, p, order, id);
    RestWeighs(TicketsOf(p.live, order), id);
  }

  lemma CreatingDrains(w: Store, p: Proc, a: Action, id: string)
    requires p.Matcher? && ProcInv(w, p) && Applies(p, a)
    requires p.ms.Allocating? || p.ms.Writing? || p.ms.Sending? || p.ms.DroppingRecord? || p.ms.Releasing?
    ensures Drains(w, p, a, None, id)
  {
    match p.ms
    case Allocating(_) => AllocateDrains(w, p, a.ok, id);
    case Writing(_) => WriteDrains(w, p, a, id);
    case Sending(_) => SendDrains(w, p, a.ok, id);
    case DroppingRecord(_) => WriteDrains(w, p, a, id);
    case Releasing(_) => ReleaseDrains(w, p, id);
  }

  lemma WaitingDrains(w: Store, p: Proc, a: Action, inc: Option<Envelope>, id: string)
    requires p.Matcher? && !Applies(p, a)
    ensures Drains(w, p, a, inc, id)
  {
    NotApplied(w, p, a, inc);
  }

  lemma MatcherDrains(w: Store, p: Proc, a: Action, inc: Option<Envelope>, id: string)
    requires p.Matcher? && LocalPre(w, p, a, inc) && id in w.allocs
    ensures Drains(w, p, a, inc, id)
  {
    if !Applies(p, a) {
      WaitingDrains(w, p, a, inc, id);
    } else {
      match p.ms
      case Idle => BatchDrains(w, p, inc.value, id);
      case Fetching(_) => FetchDrains(w, p, a, id);
      case Streaming => StreamDrains(w, p, a, id);
      case Reading(_, _) => ReadDrains(w, p, id);
      case Publishing(_, _) => PublishDrains(w, p, id);
      case Wrapping => FinalDrains(w, p, a.order, id);
      case _ => CreatingDrains(w, p, a, id);
    }
  }

  // ---- The others ----

  lemma FrontendDrains(w: Store, p: Proc, a: Action, id: string)
    requires p.Frontend? && FrontendInv(w, p.fs) && id in w.published
    ensures Drains(w, p, a, None, id)
  {
    if p.fs.Announcing? && a == Announce(true) {
      OneMessage(Weight(id), TicketEnvelope(p.fs.ticket));
    }
  }

  lemma DispenserDrains(w: Store, p: Proc, a: Action, inc: Option<Envelope>, id: string)
    requires p.Dispenser?
    ensures Drains(w, p, a, inc, id)
  {
    if p.ds.Requeueing? {
      OneMessage(Weight(id), MatchEnvelope(p.ds.m.id));
    }
  }

  // ---- Steps and runs ----

  ghost predicate MovesIn(s: State, st: Step, id: string)
    requires Enabled(s, st)
  {
    Moves(s.procs[st.pid], st.action, Incoming(s, st), id)
  }

  lemma ActDrains(s: State, st: Step, id: string)
    requires Inv(s) && Enabled(s, st) && InCommittedMatch(s.w, id)
    ensures Drains(s.w, s.procs[st.pid], st.action, Incoming(s, st), id)
  {
    StepPre(s, st);
    var p := s.procs[st.pid];
    if p.Accumulator? {
      AccumulatorDrains(s.w, p, st.action, Incoming(s, st), id);
    } else if p.Matcher? {
      MatcherDrains(s.w, p, st.action, Incoming(s, st), id);
    } else if p.Frontend? {
      FrontendDrains(s.w, p, st.action, id);
    } else {
      DispenserDrains(s.w, p, st.action, Incoming(s, st), id);
    }
  }

  /** No step adds to the weight of a matched ticket, and a step that moves a copy of it takes weight away. */
  lemma StepDrains(s: State, st: Step, id: string)
    requires Inv(s) && Enabled(s, st) && InCommittedMatch(s.w, id)
    ensures Total(Weight(id), Next(s, st)) + Indicator(MovesIn(s, st, id)) <= Total(Weight(id), s)
  {
    ActDrains(s, st, id);
    StepTotal(Weight(id), s, st);
  }

  ghost function MoveCount(s: State, steps: seq<Step>, id: string): nat
    requires IsRun(s, steps)
    decreases |steps|
  {
    if steps == [] then 0
    else Indicator(MovesIn(s, steps[0], id)) + MoveCount(Next(s, steps[0]), steps[1..], id)
  }

  /** In any run, however long, the copies of a matched ticket are moved at most as often as their
      weight at the start allows; what is left of the weight bounds what can still happen. */
  lemma {:induction false} StaleCopiesDrain(s: State, steps: seq<Step>, id: string)
    requires Inv(s) && IsRun(s, steps) && InCommittedMatch(s.w, id)
    ensures Total(Weight(id), Final(s, steps)) + MoveCount(s, steps, id) <= Total(Weight(id), s)
    decreases |steps|
  {
    if steps != [] {
      StepDrains(s, steps[0], id);
      ActLocal(s, steps[0]);
      StepKeepsInv(s, steps[0]);
      StaleCopiesDrain(Next(s, steps[0]), steps[1..], id);
    }
  }

  // ---- No weight, no copy ----

  lemma CopiesWeigh(w: Store, p: Proc, id: string)
    requires ProcInv(w, p) && ProcMetric(Copies(id), p) > 0
    ensures ProcMetric(Weight(id), p) > 0
  {
    if p.Matcher? && p.ms.Publishing? {
      CountPositive(p.ms.tickets, id);
    }
  }

  /** Once the weight is used up no copy is left. */
  lemma NoWeightNoCopies(s: State, id: string)
    requires Inv(s) && Total(Weight(id), s) == 0
    ensures Total(Copies(id), s) == 0
  {
    if Total(Copies(id), s) > 0 {
      TotalWitness(Copies(id), s);
      if i :| 0 <= i < |s.bag| && EnvMetric(Copies(id), s.bag[i]) > 0 {
        BagSumBound(Weight(id), s.bag, i);
      } else {
        var p :| 0 <= p < |s.procs| && ProcMetric(Copies(id), s.procs[p]) > 0;
        CopiesWeigh(s.w, s.procs[p], id);
        ProcSumBounds(Weight(id), s.procs, p);
      }
    }
  }
}
