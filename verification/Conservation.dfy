/** What each step does to the summed quantities: match tokens are conserved between creation and
    assignment, and no step drops the last copy of a ticket whose match is still to be made. */
module Conservation {
  import opened Records
  import opened TicketLists
  import opened Protocol
  import opened Metrics
  import opened Invariants
  import opened LocalSteps

  function InMetric(m: Metric, inc: Option<Envelope>): nat {
    if inc.Some? then EnvMetric(m, inc.value) else 0
  }

  // ---- Tokens ----

  /** A match that was created and not served. */
  ghost predicate Pending(w: Store, matchId: string) {
    matchId in w.committed && matchId !in w.served
  }

  lemma MatcherTokens(w: Store, p: Proc, a: Action, inc: Option<Envelope>, x: string)
    requires p.Matcher? && (inc.Some? ==> inc.value.payload.BatchPayload?)
    requires p.ms.Sending? ==> p.ms.m.id !in w.committed && p.ms.m.id !in w.served
    ensures var o := MatcherAct(w, p, a, inc);
            BagSum(Tokens(x), o.out) + Indicator(Pending(w, x)) == InMetric(Tokens(x), inc) + Indicator(Pending(o.w, x))
  {
    if !(p.ms.Sending? && a == SendMatch(true)) {
      MatcherSends(w, p, a, inc);
    }
  }

  /** Apart from announcing a match, a matcher sends at most one ticket, and changes neither the matches created
      nor those served. */
  lemma MatcherSends(w: Store, p: Proc, a: Action, inc: Option<Envelope>)
    requires p.Matcher? && !(p.ms.Sending? && a == SendMatch(true))
    ensures var o := MatcherAct(w, p, a, inc);
            && (o.out == [] || (|o.out| == 1 && o.out[0].payload.TicketPayload?))
            && o.w.committed == w.committed && o.w.served == w.served
  {
  }

  lemma DispenserQuietTokens(w: Store, p: Proc, a: Action, inc: Option<Envelope>, x: string)
    requires p.Dispenser? && DispenserInv(w, p.ds) && !Serves(p, a)
    requires inc.Some? <==> a.ReceiveMatch?
    requires inc.Some? ==> p.ds.Free? && inc.value.payload.MatchPayload?
    requires p.ds.Loading? && p.ds.matchId in w.matches ==> w.matches[p.ds.matchId].id == p.ds.matchId
    ensures var o := DispenserAct(w, p, a, inc);
            o.w == w && ProcMetric(Tokens(x), o.proc) + BagSum(Tokens(x), o.out)
                        == ProcMetric(Tokens(x), p) + InMetric(Tokens(x), inc)
  {
  }

  lemma DispenserTokens(w: Store, p: Proc, a: Action, inc: Option<Envelope>, x: string)
    requires p.Dispenser? && LocalPre(w, p, a, inc)
    ensures var o := DispenserAct(w, p, a, inc);
            ProcMetric(Tokens(x), o.proc) + BagSum(Tokens(x), o.out) + Indicator(Pending(w, x))
            == ProcMetric(Tokens(x), p) + InMetric(Tokens(x), inc) + Indicator(Pending(o.w, x))
  {
    if Serves(p, a) {
      ServeOutcome(w, p, a);
    } else {
      if inc.Some? {
        MatchArrives(w, inc.value);
      } else if p.ds.Loading? {
        assert CommitInv(w, p.ds.matchId);
      }
      DispenserQuietTokens(w, p, a, inc, x);
    }
  }

  lemma FrontendTokens(w: Store, p: Proc, a: Action, x: string)
    requires p.Frontend?
    ensures var o := FrontendAct(w, p, a);
            BagSum(Tokens(x), o.out) == 0 && o.proc.Frontend? && (Pending(w, x) <==> Pending(o.w, x))
  {
  }

  lemma AccumulatorTokens(w: Store, p: Proc, a: Action, inc: Option<Envelope>, x: string)
    requires p.Accumulator?
    requires inc.Some? ==> inc.value.payload.TicketPayload?
    ensures var o := AccumulatorAct(w, p, a, inc);
            BagSum(Tokens(x), o.out) == 0 && InMetric(Tokens(x), inc) == 0 && o.proc.Accumulator? && o.w == w
  {
  }

  lemma TokensLocal(w: Store, p: Proc, a: Action, inc: Option<Envelope>, x: string)
    requires LocalPre(w, p, a, inc)
    ensures var o := Act(w, p, a, inc);
            ProcMetric(Tokens(x), o.proc) + BagSum(Tokens(x), o.out) + Indicator(Pending(w, x))
            == ProcMetric(Tokens(x), p) + InMetric(Tokens(x), inc) + Indicator(Pending(o.w, x))
  {
    if p.Frontend? {
      FrontendTokens(w, p, a, x);
    } else if p.Accumulator? {
      if inc.Some? {
        TicketArrives(w, inc.value, p.queue);
      }
      AccumulatorTokens(w, p, a, inc, x);
    } else if p.Matcher? {
      if inc.Some? {
        BatchArrives(w, inc.value, p.queue);
      }
      MatcherTokens(w, p, a, inc, x);
    } else {
      DispenserTokens(w, p, a, inc, x);
    }
  }

  // ---- Copies ----

  /** Whether anything in hand before a step, or left after it, is bound to deal with the ticket. */
  ghost predicate HasCopy(p: Proc, messages: seq<Envelope>, id: string) {
    ProcMetric(Copies(id), p) + BagSum(Copies(id), messages) > 0
  }

  lemma WindowSeen(maxTickets: int, window: seq<StreamTicket>, seen: set<string>, id: string)
    requires WindowInv(maxTickets, window, seen)
    ensures id in seen <==> Mentions(window, id)
  {
    if id in seen {
      var t :| t in window && t.id == id;
      var i :| 0 <= i < |window| && window[i] == t;
    }
  }

  /** A ticket that joins the window fills it: the batch goes to the forwarder. */
  predicate Fills(p: Proc, t: StreamTicket)
    requires p.Accumulator?
  {
    t.id !in p.seen && |p.seen + {t.id}| >= p.maxTickets
  }

  lemma GatherCopies(p: Proc, t: StreamTicket, id: string)
    requires p.Accumulator? && WindowInv(p.maxTickets, p.window, p.seen)
    ensures ProcMetric(Copies(id), Gather(p, t)) >= ProcMetric(Copies(id), p)
    ensures t.id == id ==> ProcMetric(Copies(id), Gather(p, t)) > 0
  {
    WindowSeen(p.maxTickets, p.window, p.seen, t.id);
    MentionsAppend(p.window, t, id);
    BatchesAppend(p.forwarding, p.window + [t], id);
    assert !Mentions([], id);
  }

  /** A copy of the ticket weighs less in the window than on the topic, and less in a batch than in the window. */
  lemma GatherWeight(p: Proc, t: StreamTicket, id: string)
    requires p.Accumulator? && WindowInv(p.maxTickets, p.window, p.seen)
    ensures ProcMetric(Weight(id), Gather(p, t)) + Indicator(Fills(p, t) && Mentions(p.window, id))
            <= ProcMetric(Weight(id), p) + 9 * Indicator(t.id == id)
  {
    WindowSeen(p.maxTickets, p.window, p.seen, t.id);
    MentionsAppend(p.window, t, id);
    BatchesAppend(p.forwarding, p.window + [t], id);
    assert !Mentions([], id);
  }

  lemma FlushMetrics(p: Proc, id: string)
    requires p.Accumulator?
    ensures ProcMetric(Copies(id), Flush(p)) == ProcMetric(Copies(id), p)
    ensures ProcMetric(Weight(id), Flush(p)) == ProcMetric(Weight(id), p) - Indicator(Mentions(p.window, id))
  {
    BatchesAppend(p.forwarding, p.window, id);
    assert !Mentions([], id);
  }

  lemma AccumulatorCopies(w: Store, p: Proc, a: Action, inc: Option<Envelope>, id: string)
    requires p.Accumulator? && LocalPre(w, p, a, inc)
    requires HasCopy(p, if inc.Some? then [inc.value] else [], id)
    ensures var o := AccumulatorAct(w, p, a, inc); HasCopy(o.proc, o.out, id)
  {
    var o := AccumulatorAct(w, p, a, inc);
    if a.ReceiveTicket? {
      TicketArrives(w, inc.value, p.queue);
      GatherCopies(p, inc.value.payload.ticket, id);
    } else if a.Tick? {
      FlushMetrics(p, id);
    } else if a.Forward? && a.k < |p.forwarding| {
      BatchesRemove(p.forwarding, a.k, id);
    }
  }

  lemma BatchCopies(w: Store, p: Proc, e: Envelope, id: string)
    requires p.Matcher? && LocalPre(w, p, ReceiveBatch, Some(e)) && p.ms.Idle? && HasCopy(p, [e], id)
    ensures var o := MatcherAct(w, p, ReceiveBatch, Some(e)); HasCopy(o.proc, o.out, id)
  {
    BatchArrives(w, e, p.queue);
    assert [e][..0] == [];
  }

  lemma FetchCopies(w: Store, p: Proc, a: Action, id: string)
    requires p.Matcher? && LocalPre(w, p, a, None) && p.ms.Fetching? && a.FetchRequests? && HasCopy(p, [], id)
    ensures var o := MatcherAct(w, p, a, None); HasCopy(o.proc, o.out, id)
  {
    if a.ok {
      FetchLocal(w, p.queue, p.ms.batch, a.order);
    }
  }

  lemma PublishCopies(w: Store, p: Proc, id: string)
    requires p.Matcher? && p.ms.Publishing? && HasCopy(p, [], id)
    ensures var o := MatcherAct(w, p, Republish, None); HasCopy(o.proc, o.out, id)
  {
    var ts := p.ms.tickets;
    if ts != [] && ts[0].id != id && Mentions(ts, id) {
      var i :| 0 <= i < |ts| && ts[i].id == id;
      assert ts[1..][i - 1].id == id;
    }
  }

  lemma ReadCopies(w: Store, p: Proc, id: string)
    requires p.Matcher? && p.ms.Reading? && HasCopy(p, [], id) && id !in w.allocs
    ensures var o := MatcherAct(w, p, ReadAllocations, None); HasCopy(o.proc, o.out, id)
  {
    UnallocatedKeeps(p.ms.tickets, w.allocs.Keys);
  }

  lemma FinalOutcome(w: Store, p: Proc, order: seq<string>)
    requires p.Matcher? && p.ms.Wrapping?
    ensures var o := MatcherAct(w, p, FinalRequeue(order), None);
            && o.proc == Matcher(p.queue, [], map[], if p.live == map[] then Idle else Reading(TicketsOf(p.live, order), Rest), {})
            && o.out == []
  {
  }

  lemma FinalMentions(live: map<string, StreamTicket>, order: seq<string>, id: string)
    requires IsOrdering(order, live.Keys) && id in live && forall x :: x in live ==> live[x].id == x
    ensures live != map[] && Mentions(TicketsOf(live, order), id)
  {
    TicketsOfMentions(live, order);
  }

  lemma FinalCopies(w: Store, p: Proc, order: seq<string>, id: string)
    requires p.Matcher? && p.ms.Wrapping? && IsOrdering(order, p.live.Keys) && HasCopy(p, [], id)
    requires forall x :: x in p.live ==> p.live[x].id == x
    ensures var o := MatcherAct(w, p, FinalRequeue(order), None); HasCopy(o.proc, o.out, id)
  {
    assert id in p.live;
    FinalMentions(p.live, order, id);
    FinalOutcome(w, p, order);
    MentionedIsCopy(MatcherAct(w, p, FinalRequeue(order), None).proc, id);
  }

  lemma MentionedIsCopy(p: Proc, id: string)
    requires p.Matcher? && p.ms.Reading? && Mentions(p.ms.tickets, id)
    ensures ProcMetric(Copies(id), p) > 0
  {
  }

  /** The steps of creating matches: the tickets stay in the map until their match is created. */
  lemma CreationLive(w: Store, p: Proc, a: Action, id: string)
    requires p.Matcher? && id in p.live && (p.ms.Sending? ==> Owns(w, p.ms.m))
    requires !p.ms.Idle? && !p.ms.Fetching? && !p.ms.Reading? && !p.ms.Publishing? && !p.ms.Wrapping?
    requires !InCommittedMatch(MatcherAct(w, p, a, None).w, id)
    ensures id in MatcherAct(w, p, a, None).proc.live
  {
  }

  lemma CreationCopies(w: Store, p: Proc, a: Action, id: string)
    requires p.Matcher? && HasCopy(p, [], id) && AtInv(w, p.queue, p.subs, p.live, p.ms)
    requires !p.ms.Idle? && !p.ms.Fetching? && !p.ms.Reading? && !p.ms.Publishing? && !p.ms.Wrapping?
    requires !InCommittedMatch(MatcherAct(w, p, a, None).w, id)
    ensures var o := MatcherAct(w, p, a, None); HasCopy(o.proc, o.out, id)
  {
    CreationLive(w, p, a, id);
    LiveIsCopy(MatcherAct(w, p, a, None).proc, id);
  }

  lemma LiveIsCopy(p: Proc, id: string)
    requires p.Matcher? && id in p.live
    ensures ProcMetric(Copies(id), p) > 0
  {
  }

  /** A requeue's snapshot may drop the ticket when it is allocated; no other step of a matcher may. */
  lemma InHandKept(w: Store, p: Proc, a: Action, id: string)
    requires p.Matcher? && LocalPre(w, p, a, None) && Applies(p, a) && HasCopy(p, [], id)
    requires !InCommittedMatch(MatcherAct(w, p, a, None).w, id)
    requires p.ms.Reading? ==> id !in w.allocs
    ensures var o := MatcherAct(w, p, a, None); HasCopy(o.proc, o.out, id)
  {
    if p.ms.Fetching? {
      FetchCopies(w, p, a, id);
    } else if p.ms.Reading? {
      ReadCopies(w, p, id);
    } else if p.ms.Publishing? {
      PublishCopies(w, p, id);
    } else if p.ms.Wrapping? {
      FinalCopies(w, p, a.order, id);
    } else {
      CreationCopies(w, p, a, id);
    }
  }

  lemma MatcherKeepsCopy(w: Store, p: Proc, a: Action, inc: Option<Envelope>, id: string)
    requires p.Matcher? && LocalPre(w, p, a, inc)
    requires HasCopy(p, if inc.Some? then [inc.value] else [], id)
    requires !InCommittedMatch(MatcherAct(w, p, a, inc).w, id)
    requires p.ms.Reading? && a.ReadAllocations? ==> id !in w.allocs
    ensures var o := MatcherAct(w, p, a, inc); HasCopy(o.proc, o.out, id)
  {
    if inc.Some? {
      BatchCopies(w, p, inc.value, id);
    } else if Applies(p, a) {
      InHandKept(w, p, a, id);
    } else {
      NotApplied(w, p, a, inc);
    }
  }

  lemma CopiesLocal(w: Store, p: Proc, a: Action, inc: Option<Envelope>, id: string)
    requires LocalPre(w, p, a, inc)
    requires HasCopy(p, if inc.Some? then [inc.value] else [], id)
    requires !InCommittedMatch(Act(w, p, a, inc).w, id)
    requires p.Matcher? && p.ms.Reading? && a.ReadAllocations? ==> id !in w.allocs
    ensures var o := Act(w, p, a, inc); HasCopy(o.proc, o.out, id)
  {
    if p.Accumulator? {
      AccumulatorCopies(w, p, a, inc, id);
    } else if p.Matcher? {
      MatcherKeepsCopy(w, p, a, inc, id);
    } else if inc.Some? {
      MatchArrives(w, inc.value);
    }
  }

  /** Only a frontend publishes a ticket for the first time. */
  lemma FirstPublication(w: Store, p: Proc, a: Action, inc: Option<Envelope>)
    ensures Act(w, p, a, inc).w.published == if p.Frontend? && p.fs.Announcing? && a == Announce(true)
                                             then w.published + {p.fs.ticket.id} else w.published
  {
  }

  /** A first publication puts the ticket on its request topic. */
  lemma FirstCopy(w: Store, p: Proc, a: Action, inc: Option<Envelope>, id: string)
    requires id in Act(w, p, a, inc).w.published && id !in w.published
    ensures var o := Act(w, p, a, inc); HasCopy(o.proc, o.out, id)
  {
    FirstPublication(w, p, a, inc);
  }
}
