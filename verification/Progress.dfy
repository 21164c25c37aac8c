/** Stale copies need not stay: from any state the processes of a ticket's queue can work them off. */
module Progress {
  import opened Records
  import opened TicketLists
  import opened Protocol
  import opened Metrics
  import opened Invariants
  import opened LocalSteps
  import opened Preservation
  import opened Draining

  // ---- Runs ----

  lemma {:induction false} RunConcat(s: State, a: seq<Step>, b: seq<Step>)
    requires IsRun(s, a) && IsRun(Final(s, a), b)
    ensures IsRun(s, a + b) && Final(s, a + b) == Final(Final(s, a), b)
    decreases |a|
  {
    if a == [] {
      assert a + b == b;
    } else {
      assert (a + b)[0] == a[0] && (a + b)[1..] == a[1..] + b;
      RunConcat(Next(s, a[0]), a[1..], b);
    }
  }

  lemma OneStep(s: State, st: Step)
    requires Enabled(s, st)
    ensures IsRun(s, [st]) && Final(s, [st]) == Next(s, st)
  {
    assert [st][1..] == [];
  }

  lemma GrowsKeeps(w: Store, v: Store, id: string)
    requires StoreInv(w) && Grows(w, v) && InCommittedMatch(w, id)
    ensures InCommittedMatch(v, id) && id in w.docs && id in v.docs && v.docs[id].queue == w.docs[id].queue
  {
    assert id in w.published;
  }

  lemma CommittedStays(s: State, st: Step, id: string)
    requires Inv(s) && Enabled(s, st) && InCommittedMatch(s.w, id)
    ensures Inv(Next(s, st)) && InCommittedMatch(Next(s, st).w, id)
    ensures id in s.w.docs && id in Next(s, st).w.docs && Next(s, st).w.docs[id].queue == s.w.docs[id].queue
  {
    ActLocal(s, st);
    StepKeepsInv(s, st);
    GrowsKeeps(s.w, Next(s, st).w, id);
  }

  // ---- A matcher left alone finishes its batch ----

  lemma {:induction false} OrderingExists(s: set<string>) returns (order: seq<string>)
    ensures IsOrdering(order, s)
    decreases |s|
  {
    if s == {} {
      order := [];
    } else {
      var x :| x in s;
      var rest := OrderingExists(s - {x});
      order := [x] + rest;
    }
  }

  function Stage(ms: MatcherState): nat {
    match ms
    case Idle => 0
    case Publishing(_, next) => (match next case Rest => 1 case Wrap => 4 case Resume => 7)
    case Reading(_, next) => (match next case Rest => 2 case Wrap => 5 case Resume => 8)
    case Wrapping => 3
    case Streaming => 6
    case Releasing(_) => 9
    case DroppingRecord(_) => 10
    case Sending(_) => 11
    case Writing(_) => 12
    case Allocating(_) => 13
    case Fetching(_) => 14
  }

  function Left(ms: MatcherState): nat {
    if ms.Publishing? then |ms.tickets| else 0
  }

  predicate Closer(ms: MatcherState, to: MatcherState) {
    Stage(to) < Stage(ms) || (Stage(to) == Stage(ms) && Left(to) < Left(ms))
  }

  predicate Creating(ms: MatcherState) {
    ms.Allocating? || ms.Writing? || ms.Sending? || ms.DroppingRecord? || ms.Releasing?
  }

  /** The next call of a creation, when it gets through. */
  function SuccessfulCall(ms: MatcherState): Action {
    match ms
    case Allocating(_) => Allocate(true)
    case Writing(_) => WriteRecord(true)
    case Sending(_) => SendMatch(true)
    case DroppingRecord(_) => DropRecord(true)
    case _ => Release(true)
  }

  lemma CreationOnward(w: Store, p: Proc)
    requires p.Matcher? && Creating(p.ms)
    ensures Closer(p.ms, MatcherAct(w, p, SuccessfulCall(p.ms), None).proc.ms)
  {
  }

  lemma RequeueOnward(w: Store, p: Proc, a: Action)
    requires p.Matcher? && ((p.ms.Reading? && a.ReadAllocations?) || (p.ms.Publishing? && a.Republish?))
    ensures Closer(p.ms, MatcherAct(w, p, a, None).proc.ms)
  {
  }

  lemma BatchOnward(w: Store, p: Proc, a: Action)
    requires p.Matcher?
    requires (p.ms.Fetching? && a.FetchRequests? && a.ok) || (p.ms.Streaming? && a == EndStream(true)) || (p.ms.Wrapping? && a.FinalRequeue?)
    ensures Closer(p.ms, MatcherAct(w, p, a, None).proc.ms)
  {
  }

  /** A step towards the end of the batch: calls get through and the matchmaker yields nothing more. */
  lemma Onward(w: Store, p: Proc) returns (a: Action)
    requires p.Matcher? && !p.ms.Idle?
    ensures Applies(p, a) && Assumed(w, p, a) && !Receives(p, a)
    ensures Closer(p.ms, MatcherAct(w, p, a, None).proc.ms)
  {
    if Creating(p.ms) {
      a := SuccessfulCall(p.ms);
      CreationOnward(w, p);
    } else if p.ms.Reading? || p.ms.Publishing? {
      a := if p.ms.Reading? then ReadAllocations else Republish;
      RequeueOnward(w, p, a);
    } else {
      var order := OrderingExists(if p.ms.Fetching? then Ids(p.ms.batch) * w.docs.Keys else p.live.Keys);
      a := if p.ms.Fetching? then FetchRequests(true, order) else if p.ms.Streaming? then EndStream(true) else FinalRequeue(order);
      BatchOnward(w, p, a);
    }
  }

  /** What a matcher sends without moving a copy of the ticket is no copy of it. */
  lemma OthersSent(w: Store, p: Proc, a: Action, id: string)
    requires p.Matcher? && !MatcherMoves(p, a, None, id)
    ensures BagSum(Weight(id), MatcherAct(w, p, a, None).out) == 0
  {
    if p.ms.Publishing? && a.Republish? && p.ms.tickets != [] {
      OneMessage(Weight(id), TicketEnvelope(p.ms.tickets[0]));
    } else if p.ms.Sending? {
      OneMessage(Weight(id), MatchEnvelope(p.ms.m.id));
    }
  }

  /** Unless a step moves a copy, the weight changes as the process's own does. */
  lemma QuietStep(s: State, st: Step, id: string)
    requires Enabled(s, st) && st.recv.None? && s.procs[st.pid].Matcher? && !MovesIn(s, st, id)
    ensures Total(Weight(id), Next(s, st)) + ProcMetric(Weight(id), s.procs[st.pid])
            == Total(Weight(id), s) + ProcMetric(Weight(id), Next(s, st).procs[st.pid])
  {
    StepTotal(Weight(id), s, st);
    OthersSent(s.w, s.procs[st.pid], st.action, id);
  }

  /** What a run of one matcher's own steps leaves alone. */
  ghost predicate OnlyActed(s: State, t: State, p: nat) {
    && p < |s.procs| == |t.procs| && s.bag <= t.bag
    && forall q :: 0 <= q < |s.procs| && q != p ==> t.procs[q] == s.procs[q]
  }

  lemma OnwardEnabled(s: State, p: nat) returns (st: Step)
    requires p < |s.procs| && s.procs[p].Matcher? && !s.procs[p].ms.Idle?
    ensures st.pid == p && st.recv.None? && Enabled(s, st) && OnlyActed(s, Next(s, st), p)
    ensures var q := Next(s, st).procs[p]; q.Matcher? && q.queue == s.procs[p].queue && Closer(s.procs[p].ms, q.ms)
  {
    var a := Onward(s.w, s.procs[p]);
    st := Step(p, a, None);
  }

  /** One step onward gains no weight, and loses some unless the matcher keeps what it had. */
  lemma OnwardStep(s: State, p: nat, id: string) returns (st: Step)
    requires Inv(s) && InCommittedMatch(s.w, id) && p < |s.procs| && s.procs[p].Matcher? && !s.procs[p].ms.Idle?
    ensures st.pid == p && st.recv.None? && Enabled(s, st) && OnlyActed(s, Next(s, st), p)
    ensures var q := Next(s, st).procs[p]; q.Matcher? && q.queue == s.procs[p].queue && Closer(s.procs[p].ms, q.ms)
    ensures Total(Weight(id), Next(s, st)) <= Total(Weight(id), s)
    ensures ProcMetric(Weight(id), Next(s, st).procs[p]) < ProcMetric(Weight(id), s.procs[p]) ==>
              Total(Weight(id), Next(s, st)) < Total(Weight(id), s)
  {
    st := OnwardEnabled(s, p);
    StepDrains(s, st, id);
    if !MovesIn(s, st, id) {
      QuietStep(s, st, id);
    }
  }

  /** A run of the matcher's own steps to the end of its batch. */
  ghost predicate Finishes(s: State, steps: seq<Step>, p: nat, id: string) {
    && IsRun(s, steps)
    && var t := Final(s, steps);
       && InCommittedMatch(t.w, id) && id in s.w.docs && id in t.w.docs && t.w.docs[id].queue == s.w.docs[id].queue
       && OnlyActed(s, t, p) && s.procs[p].Matcher? && t.procs[p].Matcher? && t.procs[p].ms.Idle?
       && t.procs[p].queue == s.procs[p].queue
       && Total(Weight(id), t) + Indicator(ProcMetric(Weight(id), s.procs[p]) > 0) <= Total(Weight(id), s)
  }

  lemma FinishesFirst(s: State, st: Step, rest: seq<Step>, p: nat, id: string)
    requires st.pid == p && Enabled(s, st) && OnlyActed(s, Next(s, st), p) && Finishes(Next(s, st), rest, p, id)
    requires s.procs[p].Matcher? && Next(s, st).procs[p].queue == s.procs[p].queue
    requires id in s.w.docs && id in Next(s, st).w.docs && Next(s, st).w.docs[id].queue == s.w.docs[id].queue
    requires Total(Weight(id), Next(s, st)) <= Total(Weight(id), s)
    requires ProcMetric(Weight(id), Next(s, st).procs[p]) < ProcMetric(Weight(id), s.procs[p]) ==>
               Total(Weight(id), Next(s, st)) < Total(Weight(id), s)
    ensures Finishes(s, [st] + rest, p, id) && Final(s, [st] + rest) == Final(Next(s, st), rest)
  {
    assert ([st] + rest)[1..] == rest;
  }

  lemma IdleFinishes(s: State, p: nat, id: string)
    requires p < |s.procs| && s.procs[p].Matcher? && s.procs[p].ms.Idle? && InCommittedMatch(s.w, id) && id in s.w.docs
    ensures Finishes(s, [], p, id)
  {
  }

  /** The matcher runs until it is idle. No weight is gained, and some is lost if the matcher had any. */
  lemma {:induction false} RunToIdle(s: State, p: nat, id: string) returns (steps: seq<Step>)
    requires Inv(s) && InCommittedMatch(s.w, id) && p < |s.procs| && s.procs[p].Matcher?
    ensures Finishes(s, steps, p, id) && Inv(Final(s, steps))
    decreases Stage(s.procs[p].ms), Left(s.procs[p].ms)
  {
    if s.procs[p].ms.Idle? {
      steps := [];
      GrowsReflexive(s.w);
      GrowsKeeps(s.w, s.w, id);
      IdleFinishes(s, p, id);
      return;
    }
    var st := OnwardStep(s, p, id);
    CommittedStays(s, st, id);
    var rest := RunToIdle(Next(s, st), p, id);
    FinishesFirst(s, st, rest, p, id);
    steps := [st] + rest;
  }

  // ---- The copies of one ticket ----

  /** An accumulator and a matcher of the ticket's queue. */
  ghost predicate Attended(s: State, id: string, acc: nat, mat: nat) {
    && id in s.w.docs && acc < |s.procs| && mat < |s.procs|
    && s.procs[acc].Accumulator? && s.procs[acc].queue == s.w.docs[id].queue
    && s.procs[mat].Matcher? && s.procs[mat].queue == s.w.docs[id].queue
  }

  lemma AttendedStays(s: State, st: Step, id: string, acc: nat, mat: nat)
    requires Enabled(s, st) && Attended(s, id, acc, mat)
    requires id in Next(s, st).w.docs && Next(s, st).w.docs[id].queue == s.w.docs[id].queue
    ensures Attended(Next(s, st), id, acc, mat)
  {
  }

  lemma CarriedOnOwnTopic(w: Store, e: Envelope, id: string)
    requires StoreInv(w) && EnvInv(w, e) && Carried(e, id)
    ensures id in w.docs
    ensures e.payload.TicketPayload? ==> e.topic == RequestTopic(w.docs[id].queue)
    ensures e.payload.BatchPayload? ==> e.topic == AccumulatedTopic(w.docs[id].queue)
  {
    if e.payload.BatchPayload? {
      var i :| 0 <= i < |e.payload.tickets| && e.payload.tickets[i].id == id;
      assert e.payload.tickets[i] in e.payload.tickets;
    }
  }

  /** After a run that only took weight away, one more step takes away some. */
  ghost predicate Lightens(s: State, steps: seq<Step>, id: string, acc: nat, mat: nat) {
    && IsRun(s, steps)
    && var t := Final(s, steps);
       Inv(t) && InCommittedMatch(t.w, id) && Attended(t, id, acc, mat) && Total(Weight(id), t) < Total(Weight(id), s)
  }

  lemma MoveLightens(s: State, st: Step, id: string, acc: nat, mat: nat)
    requires Inv(s) && Enabled(s, st) && InCommittedMatch(s.w, id) && Attended(s, id, acc, mat) && MovesIn(s, st, id)
    ensures Lightens(s, [st], id, acc, mat)
  {
    OneStep(s, st);
    StepDrains(s, st, id);
    CommittedStays(s, st, id);
    AttendedStays(s, st, id, acc, mat);
  }

  lemma TicketCanMove(s: State, i: nat, id: string, acc: nat, mat: nat) returns (st: Step)
    requires Inv(s) && InCommittedMatch(s.w, id) && Attended(s, id, acc, mat)
    requires i < |s.bag| && s.bag[i].payload.TicketPayload? && Carried(s.bag[i], id)
    ensures Lightens(s, [st], id, acc, mat)
  {
    CarriedOnOwnTopic(s.w, s.bag[i], id);
    st := Step(acc, ReceiveTicket, Some(i));
    MoveLightens(s, st, id, acc, mat);
  }

  lemma BatchCanMove(s: State, i: nat, id: string, acc: nat, mat: nat) returns (st: Step)
    requires Inv(s) && InCommittedMatch(s.w, id) && Attended(s, id, acc, mat) && s.procs[mat].ms.Idle?
    requires i < |s.bag| && s.bag[i].payload.BatchPayload? && Carried(s.bag[i], id)
    ensures Lightens(s, [st], id, acc, mat)
  {
    CarriedOnOwnTopic(s.w, s.bag[i], id);
    st := Step(mat, ReceiveBatch, Some(i));
    MoveLightens(s, st, id, acc, mat);
  }

  lemma FinishedAttends(s: State, t: State, p: nat, id: string, acc: nat, mat: nat)
    requires OnlyActed(s, t, p) && Attended(s, id, acc, mat) && id in t.w.docs && t.w.docs[id].queue == s.w.docs[id].queue
    requires s.procs[p].Matcher? && t.procs[p].Matcher? && t.procs[p].queue == s.procs[p].queue
    ensures Attended(t, id, acc, mat)
  {
  }

  /** A matcher that had weight lightens the whole by finishing its batch. */
  lemma MatcherCanMove(s: State, p: nat, id: string, acc: nat, mat: nat) returns (steps: seq<Step>)
    requires Inv(s) && InCommittedMatch(s.w, id) && Attended(s, id, acc, mat)
    requires p < |s.procs| && s.procs[p].Matcher? && ProcMetric(Weight(id), s.procs[p]) > 0
    ensures Lightens(s, steps, id, acc, mat)
  {
    steps := RunToIdle(s, p, id);
    FinishedAttends(s, Final(s, steps), p, id, acc, mat);
  }

  lemma LightensAfter(s: State, first: seq<Step>, st: Step, p: nat, id: string, acc: nat, mat: nat)
    requires Finishes(s, first, p, id) && Lightens(Final(s, first), [st], id, acc, mat)
    ensures Lightens(s, first + [st], id, acc, mat)
  {
    RunConcat(s, first, [st]);
  }

  /** A message is received by a process of its queue; a busy matcher first finishes its batch. */
  lemma MessageCanMove(s: State, i: nat, id: string, acc: nat, mat: nat) returns (steps: seq<Step>)
    requires Inv(s) && InCommittedMatch(s.w, id) && Attended(s, id, acc, mat) && i < |s.bag| && Carried(s.bag[i], id)
    ensures Lightens(s, steps, id, acc, mat)
  {
    if s.bag[i].payload.TicketPayload? {
      var st := TicketCanMove(s, i, id, acc, mat);
      return [st];
    }
    var first := RunToIdle(s, mat, id);
    var t := Final(s, first);
    FinishedAttends(s, t, mat, id, acc, mat);
    assert t.bag[i] == s.bag[i];
    var st := BatchCanMove(t, i, id, acc, mat);
    LightensAfter(s, first, st, mat, id, acc, mat);
    steps := first + [st];
  }

  lemma {:induction false} BatchIndex(forwarding: seq<seq<StreamTicket>>, id: string) returns (k: nat)
    requires Batches(forwarding, id) > 0
    ensures k < |forwarding| && Mentions(forwarding[k], id)
  {
    k := |forwarding| - 1;
    if !Mentions(forwarding[k], id) {
      k := BatchIndex(forwarding[..k], id);
    }
  }

  lemma WindowCanMove(s: State, p: nat, id: string, acc: nat, mat: nat) returns (st: Step)
    requires Inv(s) && InCommittedMatch(s.w, id) && Attended(s, id, acc, mat)
    requires p < |s.procs| && s.procs[p].Accumulator? && Mentions(s.procs[p].window, id)
    ensures Lightens(s, [st], id, acc, mat)
  {
    st := Step(p, Tick, None);
    MoveLightens(s, st, id, acc, mat);
  }

  lemma BatchCanBeSent(s: State, p: nat, id: string, acc: nat, mat: nat) returns (st: Step)
    requires Inv(s) && InCommittedMatch(s.w, id) && Attended(s, id, acc, mat)
    requires p < |s.procs| && s.procs[p].Accumulator? && Batches(s.procs[p].forwarding, id) > 0
    ensures Lightens(s, [st], id, acc, mat)
  {
    var k := BatchIndex(s.procs[p].forwarding, id);
    st := Step(p, Forward(k), None);
    MoveLightens(s, st, id, acc, mat);
  }

  /** A process that has the ticket in hand can pass it on or be done with it. */
  lemma HolderCanMove(s: State, p: nat, id: string, acc: nat, mat: nat) returns (steps: seq<Step>)
    requires Inv(s) && InCommittedMatch(s.w, id) && Attended(s, id, acc, mat)
    requires p < |s.procs| && ProcMetric(Weight(id), s.procs[p]) > 0
    ensures Lightens(s, steps, id, acc, mat)
  {
    if s.procs[p].Matcher? {
      steps := MatcherCanMove(s, p, id, acc, mat);
    } else if Mentions(s.procs[p].window, id) {
      var st := WindowCanMove(s, p, id, acc, mat);
      steps := [st];
    } else {
      var st := BatchCanBeSent(s, p, id, acc, mat);
      steps := [st];
    }
  }

  lemma SomeMove(s: State, id: string, acc: nat, mat: nat) returns (steps: seq<Step>)
    requires Inv(s) && InCommittedMatch(s.w, id) && Attended(s, id, acc, mat) && Total(Weight(id), s) > 0
    ensures Lightens(s, steps, id, acc, mat)
  {
    TotalWitness(Weight(id), s);
    if i :| 0 <= i < |s.bag| && EnvMetric(Weight(id), s.bag[i]) > 0 {
      steps := MessageCanMove(s, i, id, acc, mat);
    } else {
      var p :| 0 <= p < |s.procs| && ProcMetric(Weight(id), s.procs[p]) > 0;
      steps := HolderCanMove(s, p, id, acc, mat);
    }
  }

  /** Some run uses the weight up. */
  lemma {:induction false} CopiesCanDrain(s: State, id: string, acc: nat, mat: nat) returns (steps: seq<Step>)
    requires Inv(s) && InCommittedMatch(s.w, id) && Attended(s, id, acc, mat)
    ensures IsRun(s, steps) && Inv(Final(s, steps)) && Total(Weight(id), Final(s, steps)) == 0
    decreases Total(Weight(id), s)
  {
    if Total(Weight(id), s) == 0 {
      return [];
    }
    var first := SomeMove(s, id, acc, mat);
    var rest := CopiesCanDrain(Final(s, first), id, acc, mat);
    RunConcat(s, first, rest);
    steps := first + rest;
  }
}
