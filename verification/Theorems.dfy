/** What holds in every reachable state and over every run of the protocol. */
module Theorems {
  import opened Records
  import opened TicketLists
  import opened Protocol
  import opened Metrics
  import opened Invariants
  import opened LocalSteps
  import opened Interference
  import opened Conservation
  import opened Preservation
  import opened Draining
  import opened Progress
  import opened Reaching

  /** A state some run leads to from an empty store and idle processes. */
  ghost predicate Reachable(s: State) {
    exists start: State, steps: seq<Step> :: Init(start) && IsRun(start, steps) && s == Final(start, steps)
  }

  lemma ReachableInv(s: State)
    requires Reachable(s)
    ensures Inv(s)
  {
    var start: State, steps: seq<Step> :| Init(start) && IsRun(start, steps) && s == Final(start, steps);
    InitInv(start);
    RunKeepsInv(start, steps);
  }

  // ---- No ticket is lost ----

  /** A message that carries the ticket, on the topic of the ticket's own queue. */
  ghost predicate InTransit(e: Envelope, id: string, queue: string) {
    match e.payload
    case TicketPayload(t) => t.id == id && e.topic == RequestTopic(queue)
    case BatchPayload(ts) => Mentions(ts, id) && e.topic == AccumulatedTopic(queue)
    case MatchPayload(_) => false
  }

  /** A process that has the ticket in hand and is bound to pass it on. */
  ghost predicate InHand(p: Proc, id: string) {
    match p
    case Accumulator(_, _, window, _, forwarding) =>
      Mentions(window, id) || exists b :: b in forwarding && Mentions(b, id)
    case Matcher(_, _, live, ms, _) =>
      id in live || (match ms
                     case Fetching(batch) => Mentions(batch, id)
                     case Reading(ts, _) => Mentions(ts, id)
                     case Publishing(ts, _) => Mentions(ts, id)
                     case _ => false)
    case _ => false
  }

  lemma CopyInHand(p: Proc, id: string)
    requires ProcMetric(Copies(id), p) > 0
    ensures InHand(p, id)
  {
    if p.Accumulator? && !Mentions(p.window, id) {
      var k := BatchIndex(p.forwarding, id);
      assert p.forwarding[k] in p.forwarding;
    }
  }

  lemma CopyInTransit(w: Store, e: Envelope, id: string)
    requires StoreInv(w) && EnvInv(w, e) && EnvMetric(Copies(id), e) > 0
    ensures id in w.docs && InTransit(e, id, w.docs[id].queue)
  {
    match e.payload
    case TicketPayload(_) =>
    case BatchPayload(ts) =>
      var i :| 0 <= i < |ts| && ts[i].id == id;
      assert ts[i] in ts;
    case MatchPayload(_) =>
  }

  /** Every published ticket belongs to a created match, or travels on a topic of its own queue, or is in
      the hands of an accumulator or a matcher. */
  lemma NoTicketIsLost(s: State, id: string)
    requires Reachable(s) && id in s.w.published
    ensures id in s.w.docs
    ensures || InCommittedMatch(s.w, id)
            || (exists i :: 0 <= i < |s.bag| && InTransit(s.bag[i], id, s.w.docs[id].queue))
            || (exists p :: 0 <= p < |s.procs| && InHand(s.procs[p], id))
  {
    ReachableInv(s);
    if !InCommittedMatch(s.w, id) {
      TotalWitness(Copies(id), s);
      if i :| 0 <= i < |s.bag| && EnvMetric(Copies(id), s.bag[i]) > 0 {
        CopyInTransit(s.w, s.bag[i], id);
      } else {
        var p :| 0 <= p < |s.procs| && ProcMetric(Copies(id), s.procs[p]) > 0;
        CopyInHand(s.procs[p], id);
      }
    }
  }

  // ---- Ownership ----

  /** The ticket is listed by a created match, or by a match some matcher holds while creating it. */
  ghost predicate Belongs(s: State, id: string, x: string) {
    || (x in s.w.committed && x in s.w.matches && id in s.w.matches[x].requestIds)
    || (exists p :: 0 <= p < |s.procs| && Creates(s.procs[p], x) && id in s.procs[p].ms.m.requestIds)
  }

  /** The allocations are exactly the ownership of tickets by created and unfinished matches. */
  lemma AllocationIsOwnership(s: State, id: string, x: string)
    requires Reachable(s)
    ensures Belongs(s, id, x) <==> id in s.w.allocs && s.w.allocs[id] == x
  {
    ReachableInv(s);
    if x in s.w.committed {
      assert CommitInv(s.w, x);
    }
    if p :| 0 <= p < |s.procs| && Creates(s.procs[p], x) {
      assert ProcInv(s.w, s.procs[p]);
    }
  }

  /** No ticket belongs to two matches. */
  lemma MatchesAreDisjoint(s: State, id: string, x: string, y: string)
    requires Reachable(s) && Belongs(s, id, x) && Belongs(s, id, y)
    ensures x == y
  {
    AllocationIsOwnership(s, id, x);
    AllocationIsOwnership(s, id, y);
  }

  /** A step takes back an allocation only from the match its own matcher failed to create. */
  lemma ReleaseIsOwn(s: State, st: Step, id: string)
    requires Reachable(s) && Enabled(s, st)
    requires id in s.w.allocs && id !in Next(s, st).w.allocs
    ensures Creates(s.procs[st.pid], s.w.allocs[id]) && s.w.allocs[id] !in s.w.committed
  {
    ReachableInv(s);
    assert ProcInv(s.w, s.procs[st.pid]);
    var x := s.w.allocs[id];
    ActFootprint(s.w, s.procs[st.pid], st.action, Incoming(s, st));
    assert !MatchUntouched(s.w, Next(s, st).w, x);
    assert ClaimOf(s.procs[st.pid]) == Some(MatchClaim(x));
  }

  // ---- What never changes again ----

  lemma GrowsTransitive(a: Store, b: Store, c: Store)
    requires Grows(a, b) && Grows(b, c)
    ensures Grows(a, c)
  {
    assert forall id :: InCommittedMatch(a, id) ==> InCommittedMatch(b, id);
  }

  lemma {:induction false} RunGrows(s: State, steps: seq<Step>)
    requires Inv(s) && IsRun(s, steps)
    ensures Grows(s.w, Final(s, steps).w)
    decreases |steps|
  {
    if steps == [] {
      GrowsReflexive(s.w);
    } else {
      ActLocal(s, steps[0]);
      StepKeepsInv(s, steps[0]);
      RunGrows(Next(s, steps[0]), steps[1..]);
      GrowsTransitive(s.w, Next(s, steps[0]).w, Final(s, steps).w);
    }
  }

  /** However a run continues, a created match keeps its record, its tickets and its server, and each of
      its tickets keeps the server it was given. */
  lemma MatchesAreFinal(s: State, steps: seq<Step>, x: string)
    requires Reachable(s) && IsRun(s, steps) && x in s.w.committed
    ensures var w := Final(s, steps).w;
            && x in s.w.matches && x in w.matches && w.matches[x] == s.w.matches[x]
            && (forall id :: id in w.matches[x].requestIds ==> id in w.allocs && w.allocs[id] == x)
            && (x in s.w.served ==> x in w.served && w.served[x] == s.w.served[x])
    ensures forall id :: id in s.w.docs && s.w.docs[id].gameServer.Some? ==>
              id in Final(s, steps).w.docs && Final(s, steps).w.docs[id].gameServer == s.w.docs[id].gameServer
  {
    ReachableInv(s);
    RunGrows(s, steps);
    RunKeepsInv(s, steps);
    var w := Final(s, steps).w;
    assert CommitInv(s.w, x) && CommitInv(w, x);
    forall id | id in s.w.docs && s.w.docs[id].gameServer.Some?
      ensures id in w.docs && w.docs[id].gameServer == s.w.docs[id].gameServer
    {
      assert DocInv(s.w, id);
      assert InCommittedMatch(s.w, id) && id in s.w.published;
      assert DocInv(w, id);
    }
  }

  // ---- Assignments ----

  /** Either no ticket of a created match has a game server, or all have the one its assignment gave. */
  lemma ServedAllOrNone(s: State, x: string)
    requires Reachable(s) && x in s.w.committed
    ensures x in s.w.matches
    ensures forall id :: id in s.w.matches[x].requestIds ==>
              (id in s.w.docs && s.w.docs[id].gameServer == if x in s.w.served then Some(ToDb(s.w.served[x])) else None)
  {
    ReachableInv(s);
    assert CommitInv(s.w, x);
    forall id | id in s.w.matches[x].requestIds
      ensures id in s.w.docs && s.w.docs[id].gameServer == if x in s.w.served then Some(ToDb(s.w.served[x])) else None
    {
      assert DocInv(s.w, id);
    }
  }

  /** A ticket with a game server is allocated to a stored match that lists it. */
  lemma ServerHasMatch(s: State, id: string)
    requires Reachable(s) && id in s.w.docs && s.w.docs[id].gameServer.Some?
    ensures id in s.w.allocs && s.w.allocs[id] in s.w.matches && id in s.w.matches[s.w.allocs[id]].requestIds
  {
    ReachableInv(s);
    assert DocInv(s.w, id);
    assert InCommittedMatch(s.w, id);
    assert CommitInv(s.w, s.w.allocs[id]);
  }

  /** A client is sent exactly what the assignment service returned for the match its ticket is in. */
  lemma ResponseIsAssignment(s: State, id: string, server: ApiGameServer)
    requires Reachable(s) && (id, server) in s.w.responses
    ensures exists x :: x in s.w.served && x in s.w.matches && id in s.w.matches[x].requestIds && s.w.served[x] == server
  {
    ReachableInv(s);
    var r := (id, server);
    assert CommitInv(s.w, s.w.allocs[r.0]);
  }

  // ---- Tokens ----

  /** Where a match on its way to an assignment can be. */
  datatype Place = InTopic(i: nat) | AtDispenser(p: nat)

  ghost predicate Holds(s: State, h: Place, x: string) {
    match h
    case InTopic(i) => i < |s.bag| && s.bag[i].payload == MatchPayload(x)
    case AtDispenser(p) => p < |s.procs| && s.procs[p].Dispenser? && Handles(s.procs[p].ds, x)
  }

  lemma {:induction false} BagSumTwo(m: Metric, bag: seq<Envelope>, i: nat, j: nat)
    requires i < j < |bag|
    ensures BagSum(m, bag) >= EnvMetric(m, bag[i]) + EnvMetric(m, bag[j])
  {
    BagSumRemove(m, bag, j);
    BagSumBound(m, bag[..j] + bag[j + 1..], i);
  }

  lemma HoldersAgree(s: State, x: string, h: Place, k: Place)
    requires TokensInv(s) && Holds(s, h, x) && Holds(s, k, x)
    ensures h == k
  {
    var m := Tokens(x);
    assert BagSum(m, s.bag) + ProcSum(m, s.procs) <= 1;
    match (h, k)
    case (InTopic(i), InTopic(j)) =>
      if i < j {
        BagSumTwo(m, s.bag, i, j);
      } else if j < i {
        BagSumTwo(m, s.bag, j, i);
      }
    case (InTopic(i), AtDispenser(p)) =>
      BagSumBound(m, s.bag, i);
      ProcSumBounds(m, s.procs, p);
    case (AtDispenser(p), InTopic(i)) =>
      BagSumBound(m, s.bag, i);
      ProcSumBounds(m, s.procs, p);
    case (AtDispenser(p), AtDispenser(q)) =>
      ProcSumBounds(m, s.procs, p);
  }

  lemma HolderIsPending(s: State, x: string, h: Place)
    requires TokensInv(s) && Holds(s, h, x)
    ensures Pending(s.w, x)
  {
    match h
    case InTopic(i) => BagSumBound(Tokens(x), s.bag, i);
    case AtDispenser(p) => ProcSumBounds(Tokens(x), s.procs, p);
  }

  lemma PendingHasHolder(s: State, x: string) returns (h: Place)
    requires TokensInv(s) && Pending(s.w, x)
    ensures Holds(s, h, x)
  {
    var m := Tokens(x);
    assert Total(m, s) > 0;
    TotalWitness(m, s);
    if i :| 0 <= i < |s.bag| && EnvMetric(m, s.bag[i]) > 0 {
      h := InTopic(i);
    } else {
      var p :| 0 <= p < |s.procs| && ProcMetric(m, s.procs[p]) > 0;
      h := AtDispenser(p);
    }
  }

  /** A match created and not yet served is in exactly one place; any other match is in none. */
  lemma OneTokenPerMatch(s: State, x: string)
    requires Reachable(s)
    ensures Pending(s.w, x) <==> exists h :: Holds(s, h, x)
    ensures forall h, k :: Holds(s, h, x) && Holds(s, k, x) ==> h == k
  {
    ReachableInv(s);
    TokenPlaces(s, x);
  }

  lemma TokenPlaces(s: State, x: string)
    requires TokensInv(s)
    ensures Pending(s.w, x) <==> exists h :: Holds(s, h, x)
    ensures forall h, k :: Holds(s, h, x) && Holds(s, k, x) ==> h == k
  {
    if h :| Holds(s, h, x) {
      HolderIsPending(s, x, h);
    }
    if Pending(s.w, x) {
      var h := PendingHasHolder(s, x);
    }
    forall h, k | Holds(s, h, x) && Holds(s, k, x) ensures h == k {
      HoldersAgree(s, x, h, k);
    }
  }

  /** A dispenser that asks for the match it was told about finds the record. */
  lemma RecordIsThere(s: State, p: nat)
    requires Reachable(s) && p < |s.procs| && s.procs[p].Dispenser? && s.procs[p].ds.Loading?
    ensures var x := s.procs[p].ds.matchId; x in s.w.matches && s.w.matches[x].id == x
  {
    ReachableInv(s);
    assert ProcInv(s.w, s.procs[p]);
    assert CommitInv(s.w, s.procs[p].ds.matchId);
  }

  /** The dispenser gets an answer for the match from the assignment service. */
  predicate Assigns(p: Proc, a: Action, x: string) {
    p.Dispenser? && p.ds.Assigning? && p.ds.m.id == x && a.Assign? && a.outcome.Some?
  }

  predicate HasAnswer(p: Proc, x: string) {
    p.Dispenser? && (p.ds.ReadingDocs? || p.ds.WritingDocs?) && p.ds.m.id == x
  }

  /** The match was assigned: its answer is written, or a dispenser is about to write it. */
  ghost predicate Answered(s: State, x: string) {
    x in s.w.served || exists p :: 0 <= p < |s.procs| && HasAnswer(s.procs[p], x)
  }

  lemma AssignsNew(s: State, st: Step, x: string)
    requires Inv(s) && Enabled(s, st) && Assigns(s.procs[st.pid], st.action, x)
    ensures !Answered(s, x) && Answered(Next(s, st), x)
  {
    assert ProcInv(s.w, s.procs[st.pid]);
    HandlersDistinct(s, st.pid, x);
    assert HasAnswer(Next(s, st).procs[st.pid], x);
  }

  lemma AnswerKept(w: Store, p: Proc, a: Action, inc: Option<Envelope>, x: string)
    requires HasAnswer(p, x)
    ensures var o := Act(w, p, a, inc); HasAnswer(o.proc, x) || x in o.w.served
  {
  }

  lemma AnsweredStays(s: State, st: Step, x: string)
    requires Inv(s) && Enabled(s, st) && Answered(s, x)
    ensures Answered(Next(s, st), x)
  {
    ActLocal(s, st);
    if x !in s.w.served {
      var p :| 0 <= p < |s.procs| && HasAnswer(s.procs[p], x);
      if p == st.pid {
        AnswerKept(s.w, s.procs[p], st.action, Incoming(s, st), x);
      }
      assert HasAnswer(Next(s, st).procs[p], x) || x in Next(s, st).w.served;
    }
  }

  ghost function AssignCount(s: State, steps: seq<Step>, x: string): nat
    requires IsRun(s, steps)
    decreases |steps|
  {
    if steps == [] then 0
    else Indicator(Assigns(s.procs[steps[0].pid], steps[0].action, x)) + AssignCount(Next(s, steps[0]), steps[1..], x)
  }

  lemma {:induction false} AssignmentsCounted(s: State, steps: seq<Step>, x: string)
    requires Inv(s) && IsRun(s, steps)
    ensures AssignCount(s, steps, x) + Indicator(Answered(s, x)) <= Indicator(Answered(Final(s, steps), x))
    decreases |steps|
  {
    if steps != [] {
      var st := steps[0];
      if Answered(s, x) {
        AnsweredStays(s, st, x);
      }
      if Assigns(s.procs[st.pid], st.action, x) {
        AssignsNew(s, st, x);
      }
      StepKeepsInv(s, st);
      AssignmentsCounted(Next(s, st), steps[1..], x);
    }
  }

  /** No match is assigned twice: over any run the assignment service answers for a match at most once, and not
      at all if it did before. */
  lemma AssignedAtMostOnce(s: State, steps: seq<Step>, x: string)
    requires Reachable(s) && IsRun(s, steps)
    ensures AssignCount(s, steps, x) + Indicator(Answered(s, x)) <= 1
  {
    ReachableInv(s);
    AssignmentsCounted(s, steps, x);
  }

  /** Wherever a run has led, if a matcher's matchmaker yields a match of submitted tickets that are not allocated,
      the run can be continued so that the match is created, with just these tickets. */
  lemma MatchesCanBeCreated(s: State, p: nat, m: Match, xid: string) returns (steps: seq<Step>)
    requires Reachable(s) && p < |s.procs| && s.procs[p].Matcher? && s.procs[p].ms.Streaming?
    requires MatchWithId(m, xid).id !in s.w.used
    requires forall id :: id in m.requestIds ==>
               Lists(s.procs[p].subs, id) && id !in s.procs[p].made && id !in s.w.allocs
    ensures IsRun(s, steps)
    ensures var x := if |m.id| > 0 then m.id else xid;
            var w := Final(s, steps).w;
            && x in w.committed && x in w.matches && w.matches[x] == m.(id := x)
            && forall id :: id in m.requestIds ==> id in w.allocs && w.allocs[id] == x
  {
    ReachableInv(s);
    MatchWithIdKeeps(m, xid);
    steps := YieldedCanBeCreated(s, p, m, xid);
  }

  /** Wherever a run has led, if there is a dispenser, the run can be continued until a created match has its
      game server. */
  lemma MatchesCanBeServed(s: State, x: string, d: nat) returns (steps: seq<Step>)
    requires Reachable(s) && x in s.w.committed && d < |s.procs| && s.procs[d].Dispenser?
    ensures IsRun(s, steps) && x in Final(s, steps).w.served
  {
    ReachableInv(s);
    if x in s.w.served {
      return [];
    }
    var h := PendingHasHolder(s, x);
    match h
    case InTopic(i) => steps := TokenCanServe(s, i, x, d);
    case AtDispenser(p) => steps := DispenserCanServe(s, p, x);
  }

  /** Wherever a run has led, if the queue of a published ticket outside created matches has an accumulator and a
      matcher, the run can be continued until some matcher has the ticket among what it submits. */
  lemma TicketsCanBeSubmitted(s: State, id: string, acc: nat, mat: nat) returns (steps: seq<Step>)
    requires Reachable(s) && id in s.w.published && !InCommittedMatch(s.w, id) && Attended(s, id, acc, mat)
    ensures IsRun(s, steps) && Submitted(Final(s, steps), id)
  {
    ReachableInv(s);
    steps := TicketCanBeSubmitted(s, id, acc, mat);
  }

  // ---- Queues and references ----

  /** All tickets of a match were submitted to the queue of the matcher that created it. */
  lemma QueuesStaySeparate(s: State, x: string, id: string)
    requires Reachable(s) && x in s.w.committed
    ensures x in s.w.matches
    ensures id in s.w.matches[x].requestIds ==> id in s.w.docs && s.w.docs[id].queue == s.w.committed[x]
  {
    ReachableInv(s);
    assert CommitInv(s.w, x);
  }

  /** Whatever a subscriber is handed decodes as what its topic is for, and belongs to its queue. */
  lemma MessagesMatchTopics(s: State, i: nat, queue: string)
    requires Reachable(s) && i < |s.bag|
    ensures s.bag[i].topic == RequestTopic(queue) ==>
              s.bag[i].payload.TicketPayload? && s.bag[i].payload.ticket.queue == queue
    ensures s.bag[i].topic == AccumulatedTopic(queue) ==>
              s.bag[i].payload.BatchPayload? && forall t :: t in s.bag[i].payload.tickets ==> t.queue == queue
    ensures s.bag[i].topic == UNASSIGNED_MATCHES ==>
              s.bag[i].payload.MatchPayload? && s.bag[i].payload.matchId in s.w.matches
  {
    ReachableInv(s);
    var e := s.bag[i];
    if e.topic == RequestTopic(queue) {
      TicketArrives(s.w, e, queue);
    } else if e.topic == AccumulatedTopic(queue) {
      BatchArrives(s.w, e, queue);
    } else if e.topic == UNASSIGNED_MATCHES {
      MatchArrives(s.w, e);
      assert CommitInv(s.w, e.payload.matchId);
    }
    TopicsSeparate(queue, queue);
  }

  lemma {:induction false} DistinctCount<T>(xs: seq<T>)
    requires Distinct(xs)
    ensures |xs| == |set x | x in xs|
  {
    if xs != [] {
      var rest := xs[1..];
      DistinctCount(rest);
      var s := set x | x in rest;
      assert xs[0] !in rest;
      assert (set x | x in xs) == s + {xs[0]};
    }
  }

  ghost predicate Has(p: Proc, t: StreamTicket) {
    match p
    case Accumulator(_, _, window, _, forwarding) => t in window || exists b :: b in forwarding && t in b
    case Matcher(_, _, live, ms, _) =>
      (exists id :: id in live && t == live[id])
      || (match ms
          case Fetching(batch) => t in batch
          case Reading(ts, _) => t in ts
          case Publishing(ts, _) => t in ts
          case _ => false)
    case _ => false
  }

  ghost predicate Carries(e: Envelope, t: StreamTicket) {
    match e.payload
    case TicketPayload(u) => t == u
    case BatchPayload(ts) => t in ts
    case MatchPayload(_) => false
  }

  /** The ticket references messages and processes have. */
  ghost predicate Circulates(s: State, t: StreamTicket) {
    || (exists i :: 0 <= i < |s.bag| && Carries(s.bag[i], t))
    || (exists p :: 0 <= p < |s.procs| && Has(s.procs[p], t))
  }

  lemma HeldIsCanonical(w: Store, p: Proc, t: StreamTicket)
    requires ProcInv(w, p) && Has(p, t)
    ensures Canonical(w, t)
  {
  }

  lemma CarriedIsCanonical(w: Store, e: Envelope, t: StreamTicket)
    requires EnvInv(w, e) && Carries(e, t)
    ensures Canonical(w, t)
  {
  }

  lemma CirculatingIsCanonical(s: State, t: StreamTicket)
    requires Inv(s) && Circulates(s, t)
    ensures Canonical(s.w, t)
  {
    if i :| 0 <= i < |s.bag| && Carries(s.bag[i], t) {
      CarriedIsCanonical(s.w, s.bag[i], t);
    } else {
      var p :| 0 <= p < |s.procs| && Has(s.procs[p], t);
      HeldIsCanonical(s.w, s.procs[p], t);
    }
  }

  lemma PlayersCounted(doc: MatchRequest)
    requires doc.members != [] && Distinct(doc.members)
    ensures var members := set x | x in doc.members;
            members != {} && (|members| < INT32_LIMIT ==> TicketOf(doc).players == |members|)
  {
    DistinctCount(doc.members);
    assert doc.members[0] in doc.members;
  }

  /** Every reference in circulation, published once or requeued often, is the one its document gives
      rise to, and counts the distinct players of the ticket as an int32. */
  lemma ReferencesAreCanonical(s: State, t: StreamTicket)
    requires Reachable(s) && Circulates(s, t)
    ensures t.id in s.w.docs && t == TicketOf(s.w.docs[t.id])
    ensures var members := set x | x in s.w.docs[t.id].members;
            members != {} && (|members| < INT32_LIMIT ==> t.players == |members|)
  {
    ReachableInv(s);
    CirculatingIsCanonical(s, t);
    assert DocInv(s.w, t.id);
    PlayersCounted(s.w.docs[t.id]);
  }

  /** A matchmaker that names only submitted tickets, none of them in a match already created from the batch,
      never makes the matcher look up a nil ticket: whatever the outcome of creating the match, its tickets are
      in the matcher's map. Only creating a match takes tickets out of it. */
  lemma NoNilTicket(s: State, p: nat)
    requires Reachable(s) && p < |s.procs| && s.procs[p].Matcher?
    ensures forall id :: Lists(s.procs[p].subs, id) && id !in s.procs[p].made ==> id in s.procs[p].live
    ensures ClaimOf(s.procs[p]).Some? ==>
              forall id :: id in s.procs[p].ms.m.requestIds ==> id in s.procs[p].live && s.procs[p].live[id].id == id
  {
    ReachableInv(s);
    assert ProcInv(s.w, s.procs[p]);
  }

  /** Every document a matcher submits has members, so taking the first one is safe. */
  lemma SubmissionsHaveMembers(s: State, p: nat, d: MatchRequest)
    requires Reachable(s) && p < |s.procs| && s.procs[p].Matcher? && d in s.procs[p].subs
    ensures d.members != [] && d.queue == s.procs[p].queue
  {
    ReachableInv(s);
    assert ProcInv(s.w, s.procs[p]);
  }

  // ---- Stale copies ----

  lemma {:induction false} BatchCounted(forwarding: seq<seq<StreamTicket>>, id: string, k: nat)
    requires k < |forwarding| && Mentions(forwarding[k], id)
    ensures Batches(forwarding, id) > 0
  {
    var n := |forwarding| - 1;
    if k < n {
      BatchCounted(forwarding[..n], id, k);
    }
  }

  lemma InHandIsCopy(p: Proc, id: string)
    requires InHand(p, id)
    ensures ProcMetric(Copies(id), p) > 0
  {
    if p.Accumulator? && !Mentions(p.window, id) {
      var b :| b in p.forwarding && Mentions(b, id);
      var k :| 0 <= k < |p.forwarding| && p.forwarding[k] == b;
      BatchCounted(p.forwarding, id, k);
    }
  }

  /** No message carries the ticket and no process has it. */
  ghost predicate Gone(s: State, id: string) {
    && (forall i, queue :: 0 <= i < |s.bag| ==> !InTransit(s.bag[i], id, queue))
    && (forall p :: 0 <= p < |s.procs| ==> !InHand(s.procs[p], id))
  }

  lemma NoCopiesIsGone(s: State, id: string)
    requires Total(Copies(id), s) == 0
    ensures Gone(s, id)
  {
    forall i, queue | 0 <= i < |s.bag| ensures !InTransit(s.bag[i], id, queue) {
      BagSumBound(Copies(id), s.bag, i);
    }
    forall p | 0 <= p < |s.procs| ensures !InHand(s.procs[p], id) {
      if InHand(s.procs[p], id) {
        InHandIsCopy(s.procs[p], id);
        ProcSumBounds(Copies(id), s.procs, p);
      }
    }
  }

  /** After a ticket's match is created, every further run moves copies of the ticket at most as often as their
      weight allows; once the weight is used up, the ticket is nowhere any more. */
  lemma MatchedTicketsSettle(s: State, steps: seq<Step>, id: string)
    requires Reachable(s) && IsRun(s, steps) && InCommittedMatch(s.w, id)
    ensures MoveCount(s, steps, id) <= Total(Weight(id), s) - Total(Weight(id), Final(s, steps))
    ensures Total(Weight(id), Final(s, steps)) == 0 ==> Gone(Final(s, steps), id)
  {
    ReachableInv(s);
    StaleCopiesDrain(s, steps, id);
    RunKeepsInv(s, steps);
    if Total(Weight(id), Final(s, steps)) == 0 {
      NoWeightNoCopies(Final(s, steps), id);
      NoCopiesIsGone(Final(s, steps), id);
    }
  }

  /** Wherever a run has led, if the queue of a ticket in a created match has an accumulator and a matcher, the
      run can be continued until the ticket is nowhere any more. */
  lemma MatchedTicketsCanSettle(s: State, id: string, acc: nat, mat: nat) returns (steps: seq<Step>)
    requires Reachable(s) && InCommittedMatch(s.w, id) && Attended(s, id, acc, mat)
    ensures IsRun(s, steps) && Gone(Final(s, steps), id)
  {
    ReachableInv(s);
    steps := CopiesCanDrain(s, id, acc, mat);
    NoWeightNoCopies(Final(s, steps), id);
    NoCopiesIsGone(Final(s, steps), id);
  }
}
