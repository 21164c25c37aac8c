/** Nothing has to wait forever: from any state a created match can be served, and a ticket outside created
    matches can get into a matcher's hands. */
module Reaching {
  import opened Records
  import opened TicketLists
  import opened Protocol
  import opened Metrics
  import opened Invariants
  import opened LocalSteps
  import opened Conservation
  import opened Preservation
  import opened Progress

  // ---- A dispenser left alone finishes its match ----

  function Rank(ds: DispenserState): nat {
    match ds
    case Free => 0
    case Requeueing(_) => 1
    case WritingDocs(_, _, _) => 1
    case ReadingDocs(_, _) => 2
    case Assigning(_) => 3
    case Loading(_) => 4
  }

  /** The next call, answered and getting through. */
  function NextStep(ds: DispenserState): Action {
    match ds
    case Loading(_) => LoadMatch
    case Assigning(_) => Assign(Some(ApiGameServer("", [])))
    case Requeueing(_) => RequeueMatch
    case ReadingDocs(_, _) => ReadRequests
    case _ => WriteAssignment(true)
  }

  lemma DataIsThere(w: Store, m: Match, server: ApiGameServer)
    requires StoreInv(w) && Due(w, m) && m.requestIds != []
    ensures WithServer(w.docs, m.requestIds, server) != map[]
  {
    assert CommitInv(w, m.id);
    assert m.requestIds[0] in WithServer(w.docs, m.requestIds, server);
  }

  /** Each such step gets closer, and unless it requeues the match keeps handling it or serves it. */
  lemma DispenserOnward(w: Store, p: Proc)
    requires p.Dispenser? && StoreInv(w) && DispenserInv(w, p.ds) && !p.ds.Free?
    ensures var o := DispenserAct(w, p, NextStep(p.ds), None);
            && Rank(o.proc.ds) < Rank(p.ds)
            && forall x :: Handles(p.ds, x) && !p.ds.Requeueing? ==>
                 x in o.w.served || (Handles(o.proc.ds, x) && !o.proc.ds.Requeueing?)
  {
    match p.ds
    case Loading(x) => assert CommitInv(w, x);
    case WritingDocs(m, server, _) => DataIsThere(w, m, server);
    case _ =>
  }

  lemma OwnStep(s: State, p: nat, a: Action)
    requires p < |s.procs| && !Receives(s.procs[p], a) && Assumed(s.w, s.procs[p], a)
    ensures Enabled(s, Step(p, a, None)) && OnlyActed(s, Next(s, Step(p, a, None)), p)
    ensures var o := Act(s.w, s.procs[p], a, None);
            Next(s, Step(p, a, None)).procs[p] == o.proc && Next(s, Step(p, a, None)).w == o.w
            && Next(s, Step(p, a, None)).bag == s.bag + o.out
  {
  }

  lemma DispenserStep(s: State, p: nat) returns (st: Step)
    requires Inv(s) && p < |s.procs| && s.procs[p].Dispenser? && !s.procs[p].ds.Free?
    ensures Enabled(s, st) && OnlyActed(s, Next(s, st), p) && Next(s, st).procs[p].Dispenser?
    ensures Rank(Next(s, st).procs[p].ds) < Rank(s.procs[p].ds)
    ensures forall x :: Handles(s.procs[p].ds, x) && !s.procs[p].ds.Requeueing? ==>
              x in Next(s, st).w.served || (Handles(Next(s, st).procs[p].ds, x) && !Next(s, st).procs[p].ds.Requeueing?)
  {
    st := Step(p, NextStep(s.procs[p].ds), None);
    OwnStep(s, p, NextStep(s.procs[p].ds));
    DispenserOnward(s.w, s.procs[p]);
  }

  ghost predicate Frees(s: State, steps: seq<Step>, p: nat) {
    IsRun(s, steps) && OnlyActed(s, Final(s, steps), p) && Final(s, steps).procs[p].Dispenser? && Final(s, steps).procs[p].ds.Free?
  }

  lemma FirstThen(s: State, st: Step, rest: seq<Step>)
    requires Enabled(s, st) && IsRun(Next(s, st), rest)
    ensures IsRun(s, [st] + rest) && Final(s, [st] + rest) == Final(Next(s, st), rest)
  {
    assert ([st] + rest)[1..] == rest;
  }

  lemma ActedTwice(s: State, t: State, u: State, p: nat)
    requires OnlyActed(s, t, p) && OnlyActed(t, u, p)
    ensures OnlyActed(s, u, p)
  {
  }

  lemma {:induction false} RunToFree(s: State, p: nat) returns (steps: seq<Step>)
    requires Inv(s) && p < |s.procs| && s.procs[p].Dispenser?
    ensures Frees(s, steps, p) && Inv(Final(s, steps))
    decreases Rank(s.procs[p].ds)
  {
    if s.procs[p].ds.Free? {
      return [];
    }
    var st := DispenserStep(s, p);
    StepKeepsInv(s, st);
    var rest := RunToFree(Next(s, st), p);
    FirstThen(s, st, rest);
    ActedTwice(s, Next(s, st), Final(Next(s, st), rest), p);
    steps := [st] + rest;
  }

  // ---- A created match ----

  ghost predicate Serves(s: State, steps: seq<Step>, x: string) {
    IsRun(s, steps) && x in Final(s, steps).w.served
  }

  lemma ServesFirst(s: State, st: Step, rest: seq<Step>, x: string)
    requires Enabled(s, st) && Serves(Next(s, st), rest, x)
    ensures Serves(s, [st] + rest, x)
  {
    FirstThen(s, st, rest);
  }

  lemma {:induction false} HandlerCanServe(s: State, p: nat, x: string) returns (steps: seq<Step>)
    requires Inv(s) && p < |s.procs| && s.procs[p].Dispenser? && Handles(s.procs[p].ds, x) && !s.procs[p].ds.Requeueing?
    ensures Serves(s, steps, x)
    decreases Rank(s.procs[p].ds)
  {
    var st := DispenserStep(s, p);
    StepKeepsInv(s, st);
    var rest := [];
    if x !in Next(s, st).w.served {
      rest := HandlerCanServe(Next(s, st), p, x);
    }
    ServesFirst(s, st, rest, x);
    steps := [st] + rest;
  }

  lemma ReceiverCanServe(s: State, i: nat, x: string, d: nat) returns (steps: seq<Step>)
    requires Inv(s) && i < |s.bag| && s.bag[i].payload == MatchPayload(x)
    requires d < |s.procs| && s.procs[d].Dispenser? && s.procs[d].ds.Free?
    ensures Serves(s, steps, x)
  {
    assert EnvInv(s.w, s.bag[i]);
    var st := Step(d, ReceiveMatch, Some(i));
    StepKeepsInv(s, st);
    var rest := HandlerCanServe(Next(s, st), d, x);
    ServesFirst(s, st, rest, x);
    steps := [st] + rest;
  }

  /** A match on its topic is taken by a dispenser once that is free. */
  lemma TokenCanServe(s: State, i: nat, x: string, d: nat) returns (steps: seq<Step>)
    requires Inv(s) && i < |s.bag| && s.bag[i].payload == MatchPayload(x) && d < |s.procs| && s.procs[d].Dispenser?
    ensures Serves(s, steps, x)
  {
    var first := RunToFree(s, d);
    var t := Final(s, first);
    assert t.bag[i] == s.bag[i];
    var rest := ReceiverCanServe(t, i, x, d);
    RunConcat(s, first, rest);
    steps := first + rest;
  }

  /** A dispenser that has a match serves it, after taking it up again if it was about to put it back. */
  lemma DispenserCanServe(s: State, p: nat, x: string) returns (steps: seq<Step>)
    requires Inv(s) && p < |s.procs| && s.procs[p].Dispenser? && Handles(s.procs[p].ds, x)
    ensures Serves(s, steps, x)
  {
    if !s.procs[p].ds.Requeueing? {
      steps := HandlerCanServe(s, p, x);
    } else {
      var st := Step(p, RequeueMatch, None);
      OwnStep(s, p, RequeueMatch);
      StepKeepsInv(s, st);
      assert Next(s, st).bag[|s.bag|] == MatchEnvelope(x);
      var rest := TokenCanServe(Next(s, st), |s.bag|, x, p);
      ServesFirst(s, st, rest, x);
      steps := [st] + rest;
    }
  }

  // ---- Creating a match ----

  /** A matcher's next step, with what it leaves of the store and itself. */
  lemma MatcherStep(s: State, p: nat, a: Action, w: Store, q: Proc)
    requires Inv(s) && p < |s.procs| && s.procs[p].Matcher? && !a.ReceiveBatch? && Assumed(s.w, s.procs[p], a)
    requires MatcherAct(s.w, s.procs[p], a, None).w == w && MatcherAct(s.w, s.procs[p], a, None).proc == q
    ensures Enabled(s, Step(p, a, None)) && Inv(Next(s, Step(p, a, None)))
    ensures Next(s, Step(p, a, None)).w == w && p < |Next(s, Step(p, a, None)).procs| && Next(s, Step(p, a, None)).procs[p] == q
  {
    OwnStep(s, p, a);
    StepKeepsInv(s, Step(p, a, None));
  }

  /** The run creates the match: its record is stored, its tickets are its own, and it awaits its game server. */
  ghost predicate Makes(s: State, steps: seq<Step>, m: Match) {
    && IsRun(s, steps)
    && var w := Final(s, steps).w;
       && m.id in w.committed && m.id in w.matches && w.matches[m.id] == m
       && forall id :: id in m.requestIds ==> id in w.allocs && w.allocs[id] == m.id
  }

  lemma CreatesFirst(s: State, st: Step, rest: seq<Step>, m: Match)
    requires Enabled(s, st) && Makes(Next(s, st), rest, m)
    ensures Makes(s, [st] + rest, m)
  {
    FirstThen(s, st, rest);
  }

  lemma SendingCreates(s: State, p: nat, m: Match) returns (steps: seq<Step>)
    requires Inv(s) && p < |s.procs| && s.procs[p].Matcher? && s.procs[p].ms == Sending(m)
    ensures Makes(s, steps, m)
  {
    assert ProcInv(s.w, s.procs[p]);
    var st := Step(p, SendMatch(true), None);
    OwnStep(s, p, SendMatch(true));
    OneStep(s, st);
    steps := [st];
  }

  lemma WritingCreates(s: State, p: nat, m: Match) returns (steps: seq<Step>)
    requires Inv(s) && p < |s.procs| && s.procs[p].Matcher? && s.procs[p].ms == Writing(m)
    ensures Makes(s, steps, m)
  {
    MatcherStep(s, p, WriteRecord(true), s.w.(matches := s.w.matches[m.id := m]), s.procs[p].(ms := Sending(m)));
    var st := Step(p, WriteRecord(true), None);
    var rest := SendingCreates(Next(s, st), p, m);
    CreatesFirst(s, st, rest, m);
    steps := [st] + rest;
  }

  lemma AllocateProceeds(w: Store, p: Proc, m: Match)
    requires p.Matcher? && p.ms == Allocating(m) && forall id :: id in m.requestIds ==> id !in w.allocs
    ensures MatcherAct(w, p, Allocate(true), None).proc == p.(ms := Writing(m))
  {
    TakenMeans(w.allocs, m);
  }

  lemma AllocatingCreates(s: State, p: nat, m: Match) returns (steps: seq<Step>)
    requires Inv(s) && p < |s.procs| && s.procs[p].Matcher? && s.procs[p].ms == Allocating(m)
    requires forall id :: id in m.requestIds ==> id !in s.w.allocs
    ensures Makes(s, steps, m)
  {
    AllocateProceeds(s.w, s.procs[p], m);
    MatcherStep(s, p, Allocate(true), MatcherAct(s.w, s.procs[p], Allocate(true), None).w, s.procs[p].(ms := Writing(m)));
    var st := Step(p, Allocate(true), None);
    var rest := WritingCreates(Next(s, st), p, m);
    CreatesFirst(s, st, rest, m);
    steps := [st] + rest;
  }

  /** Whatever match of submitted tickets the matchmaker yields, if none of them is allocated it can be created. */
  lemma YieldedCanBeCreated(s: State, p: nat, m: Match, xid: string) returns (steps: seq<Step>)
    requires Inv(s) && p < |s.procs| && s.procs[p].Matcher? && s.procs[p].ms.Streaming?
    requires MatchWithId(m, xid).id !in s.w.used && NamesSubmitted(s.procs[p], m)
    requires forall id :: id in m.requestIds ==> id !in s.w.allocs
    ensures Makes(s, steps, MatchWithId(m, xid))
  {
    var named := MatchWithId(m, xid);
    MatcherStep(s, p, Yield(m, xid), s.w.(used := s.w.used + {named.id}), s.procs[p].(ms := Allocating(named)));
    var st := Step(p, Yield(m, xid), None);
    var rest := AllocatingCreates(Next(s, st), p, named);
    CreatesFirst(s, st, rest, named);
    steps := [st] + rest;
  }

  // ---- A published ticket ----

  ghost predicate Submitted(s: State, id: string) {
    exists p :: 0 <= p < |s.procs| && s.procs[p].Matcher? && Lists(s.procs[p].subs, id)
  }

  ghost predicate Reaches(s: State, steps: seq<Step>, id: string) {
    IsRun(s, steps) && Submitted(Final(s, steps), id)
  }

  lemma ReachesFirst(s: State, st: Step, rest: seq<Step>, id: string)
    requires Enabled(s, st) && Reaches(Next(s, st), rest, id)
    ensures Reaches(s, [st] + rest, id)
  {
    FirstThen(s, st, rest);
  }

  ghost predicate Idles(s: State, steps: seq<Step>, p: nat) {
    && IsRun(s, steps) && p < |s.procs| && s.procs[p].Matcher?
    && var t := Final(s, steps);
       OnlyActed(s, t, p) && t.procs[p].Matcher? && t.procs[p].ms.Idle? && t.procs[p].queue == s.procs[p].queue
  }

  lemma {:induction false} IdleRun(s: State, p: nat) returns (steps: seq<Step>)
    requires Inv(s) && p < |s.procs| && s.procs[p].Matcher?
    ensures Idles(s, steps, p) && Inv(Final(s, steps))
    decreases Stage(s.procs[p].ms), Left(s.procs[p].ms)
  {
    if s.procs[p].ms.Idle? {
      return [];
    }
    var st := OnwardEnabled(s, p);
    StepKeepsInv(s, st);
    var rest := IdleRun(Next(s, st), p);
    FirstThen(s, st, rest);
    ActedTwice(s, Next(s, st), Final(Next(s, st), rest), p);
    steps := [st] + rest;
  }

  lemma FetchLists(w: Store, p: Proc, order: seq<string>, id: string)
    requires p.Matcher? && StoreInv(w) && ProcInv(w, p) && p.ms.Fetching? && Mentions(p.ms.batch, id)
    requires IsOrdering(order, Ids(p.ms.batch) * w.docs.Keys)
    ensures Lists(MatcherAct(w, p, FetchRequests(true, order), None).proc.subs, id)
  {
    FetchLocal(w, p.queue, p.ms.batch, order);
  }

  lemma FetchingReaches(s: State, p: nat, id: string) returns (st: Step)
    requires Inv(s) && p < |s.procs| && s.procs[p].Matcher? && s.procs[p].ms.Fetching? && Mentions(s.procs[p].ms.batch, id)
    ensures Reaches(s, [st], id)
  {
    var order := OrderingExists(Ids(s.procs[p].ms.batch) * s.w.docs.Keys);
    st := Step(p, FetchRequests(true, order), None);
    OwnStep(s, p, FetchRequests(true, order));
    FetchLists(s.w, s.procs[p], order, id);
    OneStep(s, st);
  }

  lemma ReceivedReaches(s: State, i: nat, id: string, mat: nat) returns (steps: seq<Step>)
    requires Inv(s) && i < |s.bag| && s.bag[i].payload.BatchPayload? && Carried(s.bag[i], id)
    requires mat < |s.procs| && s.procs[mat].Matcher? && s.procs[mat].ms.Idle?
    requires s.bag[i].topic == AccumulatedTopic(s.procs[mat].queue)
    ensures Reaches(s, steps, id)
  {
    var st := Step(mat, ReceiveBatch, Some(i));
    StepKeepsInv(s, st);
    var last := FetchingReaches(Next(s, st), mat, id);
    ReachesFirst(s, st, [last], id);
    steps := [st] + [last];
  }

  lemma BatchReaches(s: State, i: nat, id: string, mat: nat) returns (steps: seq<Step>)
    requires Inv(s) && i < |s.bag| && s.bag[i].payload.BatchPayload? && Carried(s.bag[i], id)
    requires mat < |s.procs| && s.procs[mat].Matcher? && s.bag[i].topic == AccumulatedTopic(s.procs[mat].queue)
    ensures Reaches(s, steps, id)
  {
    var first := IdleRun(s, mat);
    var t := Final(s, first);
    assert t.bag[i] == s.bag[i];
    var rest := ReceivedReaches(t, i, id, mat);
    RunConcat(s, first, rest);
    steps := first + rest;
  }

  /** An accumulator and a matcher of one queue. */
  ghost predicate Pair(s: State, acc: nat, mat: nat) {
    && acc < |s.procs| && mat < |s.procs|
    && s.procs[acc].Accumulator? && s.procs[mat].Matcher? && s.procs[acc].queue == s.procs[mat].queue
  }

  lemma ForwardingReaches(s: State, k: nat, id: string, acc: nat, mat: nat) returns (steps: seq<Step>)
    requires Inv(s) && Pair(s, acc, mat) && k < |s.procs[acc].forwarding| && Mentions(s.procs[acc].forwarding[k], id)
    ensures Reaches(s, steps, id)
  {
    var st := Step(acc, Forward(k), None);
    OwnStep(s, acc, Forward(k));
    StepKeepsInv(s, st);
    assert Next(s, st).bag[|s.bag|] == BatchEnvelope(s.procs[acc].queue, s.procs[acc].forwarding[k]);
    var rest := BatchReaches(Next(s, st), |s.bag|, id, mat);
    ReachesFirst(s, st, rest, id);
    steps := [st] + rest;
  }

  lemma WindowReaches(s: State, id: string, acc: nat, mat: nat) returns (steps: seq<Step>)
    requires Inv(s) && Pair(s, acc, mat) && Mentions(s.procs[acc].window, id)
    ensures Reaches(s, steps, id)
  {
    var st := Step(acc, Tick, None);
    OwnStep(s, acc, Tick);
    StepKeepsInv(s, st);
    var q := Next(s, st).procs[acc];
    assert q.forwarding[|s.procs[acc].forwarding|] == s.procs[acc].window;
    var rest := ForwardingReaches(Next(s, st), |s.procs[acc].forwarding|, id, acc, mat);
    ReachesFirst(s, st, rest, id);
    steps := [st] + rest;
  }

  lemma AccumulatorReaches(s: State, id: string, acc: nat, mat: nat) returns (steps: seq<Step>)
    requires Inv(s) && Pair(s, acc, mat) && ProcMetric(Copies(id), s.procs[acc]) > 0
    ensures Reaches(s, steps, id)
  {
    if Mentions(s.procs[acc].window, id) {
      steps := WindowReaches(s, id, acc, mat);
    } else {
      var k := BatchIndex(s.procs[acc].forwarding, id);
      steps := ForwardingReaches(s, k, id, acc, mat);
    }
  }

  lemma GatheredIsCopy(w: Store, p: Proc, t: StreamTicket, id: string)
    requires p.Accumulator? && AccumulatorInv(w, p) && t.id == id
    ensures ProcMetric(Copies(id), Gather(p, t)) > 0
  {
    GatherCopies(p, t, id);
  }

  lemma ReceiveStep(s: State, i: nat, acc: nat, mat: nat) returns (st: Step)
    requires Pair(s, acc, mat) && i < |s.bag| && s.bag[i].payload.TicketPayload?
    requires s.bag[i].topic == RequestTopic(s.procs[acc].queue)
    ensures Enabled(s, st) && Pair(Next(s, st), acc, mat)
    ensures Next(s, st).procs[acc] == Gather(s.procs[acc], s.bag[i].payload.ticket)
  {
    st := Step(acc, ReceiveTicket, Some(i));
  }

  lemma TicketReaches(s: State, i: nat, id: string, acc: nat, mat: nat) returns (steps: seq<Step>)
    requires Inv(s) && Pair(s, acc, mat) && i < |s.bag| && s.bag[i].payload.TicketPayload? && Carried(s.bag[i], id)
    requires s.bag[i].topic == RequestTopic(s.procs[acc].queue)
    ensures Reaches(s, steps, id)
  {
    var st := ReceiveStep(s, i, acc, mat);
    GatheredIsCopy(s.w, s.procs[acc], s.bag[i].payload.ticket, id);
    StepKeepsInv(s, st);
    var rest := AccumulatorReaches(Next(s, st), id, acc, mat);
    ReachesFirst(s, st, rest, id);
    steps := [st] + rest;
  }

  /** Tickets about to be published go to the topic of the ticket's queue. */
  lemma {:induction false} PublishingReaches(s: State, p: nat, id: string, acc: nat, mat: nat) returns (steps: seq<Step>)
    requires Inv(s) && Pair(s, acc, mat) && p < |s.procs| && s.procs[p].Matcher? && s.procs[p].queue == s.procs[acc].queue
    requires s.procs[p].ms.Publishing? && Mentions(s.procs[p].ms.tickets, id)
    ensures Reaches(s, steps, id)
    decreases |s.procs[p].ms.tickets|
  {
    var ts := s.procs[p].ms.tickets;
    var st := Step(p, Republish, None);
    OwnStep(s, p, Republish);
    StepKeepsInv(s, st);
    var rest;
    if ts[0].id == id {
      HeadIsOwn(s.w, s.procs[p]);
      assert Next(s, st).bag[|s.bag|] == TicketEnvelope(ts[0]);
      rest := TicketReaches(Next(s, st), |s.bag|, id, acc, mat);
    } else {
      MentionsTail(ts, id);
      rest := PublishingReaches(Next(s, st), p, id, acc, mat);
    }
    ReachesFirst(s, st, rest, id);
    steps := [st] + rest;
  }

  lemma HeadIsOwn(w: Store, p: Proc)
    requires p.Matcher? && ProcInv(w, p) && p.ms.Publishing? && p.ms.tickets != []
    ensures p.ms.tickets[0].queue == p.queue
  {
    assert p.ms.tickets[0] in p.ms.tickets;
  }

  lemma MentionsTail(ts: seq<StreamTicket>, id: string)
    requires Mentions(ts, id) && ts[0].id != id
    ensures Mentions(ts[1..], id)
  {
    var i :| 0 <= i < |ts| && ts[i].id == id;
    assert ts[1..][i - 1].id == id;
  }

  lemma UnallocatedStays(ts: seq<StreamTicket>, taken: set<string>, id: string)
    requires Mentions(ts, id) && id !in taken
    ensures Mentions(Unallocated(ts, taken), id)
  {
    UnallocatedKeeps(ts, taken);
  }

  /** A requeue that finds the ticket allocated drops it; then the matcher that holds it has it submitted. */
  lemma ReadingReaches(s: State, p: nat, id: string, acc: nat, mat: nat) returns (steps: seq<Step>)
    requires Inv(s) && Pair(s, acc, mat) && p < |s.procs| && s.procs[p].Matcher? && s.procs[p].queue == s.procs[acc].queue
    requires s.procs[p].ms.Reading? && Mentions(s.procs[p].ms.tickets, id) && !InCommittedMatch(s.w, id)
    ensures Reaches(s, steps, id)
  {
    if id in s.w.allocs {
      steps := OwnerReaches(s, id);
    } else {
      var st := SnapshotKeeps(s, p, id);
      StepKeepsInv(s, st);
      var rest := PublishingReaches(Next(s, st), p, id, acc, mat);
      ReachesFirst(s, st, rest, id);
      steps := [st] + rest;
    }
  }

  lemma SnapshotKeeps(s: State, p: nat, id: string) returns (st: Step)
    requires p < |s.procs| && s.procs[p].Matcher? && s.procs[p].ms.Reading?
    requires Mentions(s.procs[p].ms.tickets, id) && id !in s.w.allocs
    ensures Enabled(s, st) && OnlyActed(s, Next(s, st), p)
    ensures var q := Next(s, st).procs[p];
            q.Matcher? && q.queue == s.procs[p].queue && q.ms.Publishing? && Mentions(q.ms.tickets, id)
  {
    st := Step(p, ReadAllocations, None);
    OwnStep(s, p, ReadAllocations);
    UnallocatedStays(s.procs[p].ms.tickets, s.w.allocs.Keys, id);
  }

  lemma OwnerReaches(s: State, id: string) returns (steps: seq<Step>)
    requires Inv(s) && id in s.w.allocs && s.w.allocs[id] !in s.w.committed
    ensures Reaches(s, steps, id)
  {
    var q := OwnerHolds(s, id);
    HolderHasLive(s.w, s.procs[q], id);
    LiveIsListed(s.w, s.procs[q], id);
    steps := [];
  }

  lemma LiveIsListed(w: Store, p: Proc, id: string)
    requires p.Matcher? && ProcInv(w, p) && id in p.live
    ensures Lists(p.subs, id)
  {
  }

  lemma MatcherReaches(s: State, p: nat, id: string, acc: nat, mat: nat) returns (steps: seq<Step>)
    requires Inv(s) && Pair(s, acc, mat) && !InCommittedMatch(s.w, id)
    requires p < |s.procs| && s.procs[p].Matcher? && ProcMetric(Copies(id), s.procs[p]) > 0
    requires s.procs[p].queue == s.procs[acc].queue
    ensures Reaches(s, steps, id)
  {
    if id in s.procs[p].live {
      LiveIsListed(s.w, s.procs[p], id);
      steps := [];
    } else if s.procs[p].ms.Fetching? {
      var st := FetchingReaches(s, p, id);
      steps := [st];
    } else if s.procs[p].ms.Reading? {
      steps := ReadingReaches(s, p, id, acc, mat);
    } else {
      steps := PublishingReaches(s, p, id, acc, mat);
    }
  }

  /** A copy in hand belongs to the queue of the process that has it. */
  lemma CopyIsOfQueue(w: Store, p: Proc, id: string)
    requires ProcInv(w, p) && ProcMetric(Copies(id), p) > 0
    ensures id in w.docs && (p.Accumulator? || p.Matcher?) && p.queue == w.docs[id].queue
  {
    if p.Accumulator? {
      WindowOfQueue(w, p, id);
    } else {
      MatcherOfQueue(w, p, id);
    }
  }

  lemma MentionedIsCanonical(w: Store, queue: string, ts: seq<StreamTicket>, id: string)
    requires CanonicalIn(w, queue, ts) && Mentions(ts, id)
    ensures id in w.docs && w.docs[id].queue == queue
  {
    var i :| 0 <= i < |ts| && ts[i].id == id;
    assert ts[i] in ts;
  }

  lemma WindowOfQueue(w: Store, p: Proc, id: string)
    requires p.Accumulator? && AccumulatorInv(w, p) && ProcMetric(Copies(id), p) > 0
    ensures id in w.docs && p.queue == w.docs[id].queue
  {
    if Mentions(p.window, id) {
      MentionedIsCanonical(w, p.queue, p.window, id);
    } else {
      var k := BatchIndex(p.forwarding, id);
      assert p.forwarding[k] in p.forwarding;
      MentionedIsCanonical(w, p.queue, p.forwarding[k], id);
    }
  }

  lemma MatcherOfQueue(w: Store, p: Proc, id: string)
    requires p.Matcher? && ProcInv(w, p) && ProcMetric(Copies(id), p) > 0
    ensures id in w.docs && p.queue == w.docs[id].queue
  {
    if id in p.live {
      assert Canonical(w, p.live[id]) && p.live[id].queue == p.queue;
    } else {
      var ts := if p.ms.Fetching? then p.ms.batch else p.ms.tickets;
      MentionedIsCanonical(w, p.queue, ts, id);
    }
  }

  /** A published ticket outside created matches can get submitted to a matchmaker, if its queue has an
      accumulator and a matcher. */
  lemma TicketCanBeSubmitted(s: State, id: string, acc: nat, mat: nat) returns (steps: seq<Step>)
    requires Inv(s) && id in s.w.published && !InCommittedMatch(s.w, id) && Attended(s, id, acc, mat)
    ensures Reaches(s, steps, id)
  {
    TotalWitness(Copies(id), s);
    if i :| 0 <= i < |s.bag| && EnvMetric(Copies(id), s.bag[i]) > 0 {
      CarriedOnOwnTopic(s.w, s.bag[i], id);
      if s.bag[i].payload.TicketPayload? {
        steps := TicketReaches(s, i, id, acc, mat);
      } else {
        steps := BatchReaches(s, i, id, mat);
      }
    } else {
      var p :| 0 <= p < |s.procs| && ProcMetric(Copies(id), s.procs[p]) > 0;
      CopyIsOfQueue(s.w, s.procs[p], id);
      if s.procs[p].Matcher? {
        steps := MatcherReaches(s, p, id, acc, mat);
      } else {
        steps := AccumulatorReaches(s, id, p, mat);
      }
    }
  }
}
