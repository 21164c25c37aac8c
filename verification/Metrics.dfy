/** Quantities summed over all messages in flight and all processes. One lemma accounts for a whole
    step, so each property of a sum needs only the local change made by the acting process. */
module Metrics {
  import opened Records
  import opened TicketLists
  import opened Protocol

  datatype Metric =
    | Tokens(matchId: string)  // copies of a match on its way to an assignment
    | Copies(id: string)       // places that are bound to deal with a ticket
    | Weight(id: string)       // how much work stale copies of a ticket can still cause

  function Indicator(b: bool): nat {
    if b then 1 else 0
  }

  function EnvMetric(m: Metric, e: Envelope): nat {
    match m
    case Tokens(matchId) => Indicator(e.payload == MatchPayload(matchId))
    case Copies(id) => Indicator(Carried(e, id))
    case Weight(id) => if e.payload.TicketPayload? then 10 * Indicator(Carried(e, id)) else 7 * Indicator(Carried(e, id))
  }

  /** The message carries the ticket. */
  predicate Carried(e: Envelope, id: string) {
    match e.payload
    case TicketPayload(t) => t.id == id
    case BatchPayload(ts) => Mentions(ts, id)
    case MatchPayload(_) => false
  }

  function Batches(forwarding: seq<seq<StreamTicket>>, id: string): nat {
    if forwarding == [] then 0
    else Batches(forwarding[..|forwarding| - 1], id) + Indicator(Mentions(forwarding[|forwarding| - 1], id))
  }

  predicate Handles(ds: DispenserState, matchId: string) {
    match ds
    case Free => false
    case Loading(x) => x == matchId
    case Assigning(m) => m.id == matchId
    case Requeueing(m) => m.id == matchId
    case ReadingDocs(m, _) => m.id == matchId
    case WritingDocs(m, _, _) => m.id == matchId
  }

  function MatcherCopies(live: map<string, StreamTicket>, ms: MatcherState, id: string): nat {
    Indicator(id in live) +
    match ms
    case Fetching(batch) => Indicator(Mentions(batch, id))
    case Reading(ts, _) => Indicator(Mentions(ts, id))
    case Publishing(ts, _) => Indicator(Mentions(ts, id))
    case _ => 0
  }

  /** What a requeue leaves to be done with the fetched documents. */
  function AfterRequeue(next: Sequel): nat {
    match next case Resume => 5 case Wrap => 3 case Rest => 0
  }

  function MatcherWeight(subs: seq<MatchRequest>, ms: MatcherState, id: string): nat {
    match ms
    case Idle => 0
    case Fetching(batch) => 6 * Indicator(Mentions(batch, id))
    case Reading(ts, next) =>
      (match next case Resume => 5 case Wrap => 4 case Rest => 1) * Indicator(Mentions(ts, id) || Lists(subs, id))
    case Publishing(ts, next) => 11 * Count(ts, id) + AfterRequeue(next) * Indicator(Lists(subs, id))
    case Wrapping => 2 * Indicator(Lists(subs, id))
    case _ => 5 * Indicator(Lists(subs, id))
  }

  function ProcMetric(m: Metric, p: Proc): nat {
    match m
    case Tokens(matchId) => Indicator(p.Dispenser? && Handles(p.ds, matchId))
    case Copies(id) =>
      (match p
       case Accumulator(_, _, window, _, forwarding) => Indicator(Mentions(window, id)) + Batches(forwarding, id)
       case Matcher(_, _, live, ms, _) => MatcherCopies(live, ms, id)
       case _ => 0)
    case Weight(id) =>
      (match p
       case Accumulator(_, _, window, _, forwarding) => 9 * Indicator(Mentions(window, id)) + 8 * Batches(forwarding, id)
       case Matcher(_, subs, _, ms, _) => MatcherWeight(subs, ms, id)
       case _ => 0)
  }

  function BagSum(m: Metric, bag: seq<Envelope>): nat {
    if bag == [] then 0 else BagSum(m, bag[..|bag| - 1]) + EnvMetric(m, bag[|bag| - 1])
  }

  function ProcSum(m: Metric, procs: seq<Proc>): nat {
    if procs == [] then 0 else ProcSum(m, procs[..|procs| - 1]) + ProcMetric(m, procs[|procs| - 1])
  }

  function Total(m: Metric, s: State): nat {
    BagSum(m, s.bag) + ProcSum(m, s.procs)
  }

  lemma {:induction false} BagSumRemove(m: Metric, bag: seq<Envelope>, i: nat)
    requires i < |bag|
    ensures BagSum(m, bag[..i] + bag[i + 1..]) == BagSum(m, bag) - EnvMetric(m, bag[i])
  {
    var n := |bag| - 1;
    var rest := bag[..i] + bag[i + 1..];
    if i == n {
      assert rest == bag[..n];
    } else {
      BagSumRemove(m, bag[..n], i);
      assert rest[..|rest| - 1] == bag[..n][..i] + bag[..n][i + 1..];
      assert rest[|rest| - 1] == bag[n];
    }
  }

  lemma {:induction false} BagSumConcat(m: Metric, a: seq<Envelope>, b: seq<Envelope>)
    ensures BagSum(m, a + b) == BagSum(m, a) + BagSum(m, b)
  {
    if b == [] {
      assert a + b == a;
    } else {
      BagSumConcat(m, a, b[..|b| - 1]);
      assert (a + b)[..|a + b| - 1] == a + b[..|b| - 1];
    }
  }

  lemma {:induction false} ProcSumUpdate(m: Metric, procs: seq<Proc>, i: nat, p: Proc)
    requires i < |procs|
    ensures ProcSum(m, procs[i := p]) == ProcSum(m, procs) - ProcMetric(m, procs[i]) + ProcMetric(m, p)
  {
    var n := |procs| - 1;
    if i == n {
      assert procs[i := p][..n] == procs[..n];
    } else {
      ProcSumUpdate(m, procs[..n], i, p);
      assert procs[i := p][..n] == procs[..n][i := p];
    }
  }

  lemma {:induction false} ProcSumBounds(m: Metric, procs: seq<Proc>, i: nat)
    requires i < |procs|
    ensures ProcSum(m, procs) >= ProcMetric(m, procs[i])
    ensures forall j :: 0 <= j < |procs| && j != i ==>
              ProcSum(m, procs) >= ProcMetric(m, procs[i]) + ProcMetric(m, procs[j])
  {
    var idle := Frontend({}, Waiting);
    var others := procs[i := idle];
    ProcSumUpdate(m, procs, i, idle);
    forall j | 0 <= j < |procs| && j != i
      ensures ProcSum(m, procs) >= ProcMetric(m, procs[i]) + ProcMetric(m, procs[j])
    {
      ProcSumUpdate(m, others, j, idle);
    }
  }

  lemma {:induction false} BagSumBound(m: Metric, bag: seq<Envelope>, i: nat)
    requires i < |bag|
    ensures BagSum(m, bag) >= EnvMetric(m, bag[i])
  {
    BagSumRemove(m, bag, i);
  }

  /** A positive sum has a message or a process to show for it. */
  lemma {:induction false} TotalWitness(m: Metric, s: State)
    requires Total(m, s) > 0
    ensures (exists i :: 0 <= i < |s.bag| && EnvMetric(m, s.bag[i]) > 0)
            || (exists p :: 0 <= p < |s.procs| && ProcMetric(m, s.procs[p]) > 0)
    decreases |s.bag| + |s.procs|
  {
    if BagSum(m, s.bag) > 0 {
      var n := |s.bag| - 1;
      if EnvMetric(m, s.bag[n]) == 0 {
        TotalWitness(m, State(s.w, s.bag[..n], []));
        var i :| 0 <= i < n && EnvMetric(m, s.bag[..n][i]) > 0;
        assert EnvMetric(m, s.bag[i]) > 0;
      }
    } else {
      var n := |s.procs| - 1;
      if ProcMetric(m, s.procs[n]) == 0 {
        TotalWitness(m, State(s.w, [], s.procs[..n]));
        var p :| 0 <= p < n && ProcMetric(m, s.procs[..n][p]) > 0;
        assert ProcMetric(m, s.procs[p]) > 0;
      }
    }
  }

  /** What a step adds to a sum is what the handler adds, and what it removes is what the handler consumes. */
  lemma StepTotal(m: Metric, s: State, st: Step)
    requires Enabled(s, st)
    ensures var p := s.procs[st.pid];
            var inc := Incoming(s, st);
            var o := Act(s.w, p, st.action, inc);
            Total(m, Next(s, st)) + ProcMetric(m, p) + (if inc.Some? then EnvMetric(m, inc.value) else 0)
            == Total(m, s) + ProcMetric(m, o.proc) + BagSum(m, o.out)
  {
    var o := Act(s.w, s.procs[st.pid], st.action, Incoming(s, st));
    ProcSumUpdate(m, s.procs, st.pid, o.proc);
    BagSumConcat(m, Without(s.bag, st.recv), o.out);
    if st.recv.Some? {
      BagSumRemove(m, s.bag, st.recv.value);
    }
  }

  // ---- Pending batches of an accumulator ----

  lemma {:induction false} BatchesRemove(fs: seq<seq<StreamTicket>>, k: nat, id: string)
    requires k < |fs|
    ensures Batches(fs[..k] + fs[k + 1..], id) == Batches(fs, id) - Indicator(Mentions(fs[k], id))
  {
    var n := |fs| - 1;
    var rest := fs[..k] + fs[k + 1..];
    if k == n {
      assert rest == fs[..n];
    } else {
      BatchesRemove(fs[..n], k, id);
      assert rest[..|rest| - 1] == fs[..n][..k] + fs[..n][k + 1..];
      assert rest[|rest| - 1] == fs[n];
    }
  }

  lemma BatchesAppend(fs: seq<seq<StreamTicket>>, b: seq<StreamTicket>, id: string)
    ensures Batches(fs + [b], id) == Batches(fs, id) + Indicator(Mentions(b, id))
  {
    assert (fs + [b])[..|fs + [b]| - 1] == fs;
  }

  lemma MentionsAppend(ts: seq<StreamTicket>, t: StreamTicket, id: string)
    ensures Mentions(ts + [t], id) <==> Mentions(ts, id) || t.id == id
  {
    assert (ts + [t])[|ts|] == t;
    if Mentions(ts, id) {
      var i :| 0 <= i < |ts| && ts[i].id == id;
      assert (ts + [t])[i].id == id;
    }
  }
}
