/** The match-request lifecycle as an asynchronous system: frontends, accumulators, matchers and
    dispensers interleave in any order, each step making at most one call to the store or a stream.

    A step is a function of the shared store, the acting process and the message it receives. */
module Protocol {
  import opened Records
  import opened TicketLists

  // ---- Shared state ----

  datatype Payload =
    | TicketPayload(ticket: StreamTicket)
    | BatchPayload(tickets: seq<StreamTicket>)
    | MatchPayload(matchId: string)

  /** A message in flight. All topics share one namespace of names. */
  datatype Envelope = Envelope(topic: string, payload: Payload)

  datatype Store = Store(
    // the three collections
    docs: map<string, MatchRequest>,
    allocs: map<string, string>,
    matches: map<string, Match>,
    // history: no step reads these, except that match ids are fresh
    published: set<string>,                      // tickets whose first publication succeeded
    used: set<string>,                           // match ids chosen so far
    committed: map<string, string>,              // matches created, with their matcher's queue
    served: map<string, ApiGameServer>,          // matches whose assignment was written
    responses: set<(string, ApiGameServer)>)     // what clients were sent, by ticket

  // ---- Processes ----

  datatype FrontendState =
    | Waiting
    | Storing(doc: MatchRequest)
    | Announcing(ticket: StreamTicket)
    | Dropping(id: string)
    | Watching(id: string)

  datatype Sequel = Resume | Wrap | Rest

  datatype MatcherState =
    | Idle
    | Fetching(batch: seq<StreamTicket>)
    | Streaming
    | Allocating(m: Match)
    | Writing(m: Match)
    | Sending(m: Match)
    | DroppingRecord(m: Match)
    | Releasing(m: Match)
    | Reading(tickets: seq<StreamTicket>, next: Sequel)
    | Publishing(tickets: seq<StreamTicket>, next: Sequel)
    | Wrapping

  datatype DispenserState =
    | Free
    | Loading(matchId: string)
    | Assigning(m: Match)
    | Requeueing(m: Match)
    | ReadingDocs(m: Match, server: ApiGameServer)
    | WritingDocs(m: Match, server: ApiGameServer, data: map<string, MatchRequest>)

  datatype Proc =
    | Frontend(queues: set<string>, fs: FrontendState)
    | Accumulator(queue: string, maxTickets: int, window: seq<StreamTicket>, seen: set<string>,
                  forwarding: seq<seq<StreamTicket>>)
    // `made` is history: the tickets of the matches created from the batch at hand
    | Matcher(queue: string, subs: seq<MatchRequest>, live: map<string, StreamTicket>, ms: MatcherState, made: set<string>)
    | Dispenser(ds: DispenserState)

  datatype State = State(w: Store, bag: seq<Envelope>, procs: seq<Proc>)

  // ---- Actions; a flag or an order is the part the environment decides ----

  datatype Action =
    | Submit(req: ApiRequest, xid: string, members: seq<string>, now: int)
    | StoreRequest(ok: bool)
    | Announce(ok: bool)
    | DropRequest(ok: bool)
    | Poll
    | Leave
    | ReceiveTicket
    | Tick
    | Forward(k: nat)
    | ReceiveBatch
    | FetchRequests(ok: bool, order: seq<string>)
    | Yield(m: Match, xid: string)
    | Allocate(ok: bool)
    | WriteRecord(ok: bool)
    | SendMatch(ok: bool)
    | DropRecord(ok: bool)
    | Release(ok: bool)
    | EndStream(ok: bool)
    | ReadAllocations
    | Republish
    | FinalRequeue(order: seq<string>)
    | ReceiveMatch
    | LoadMatch
    | Assign(outcome: Option<ApiGameServer>)
    | RequeueMatch
    | ReadRequests
    | WriteAssignment(ok: bool)

  /** What a handler leaves behind: the store, its own state, and the messages it sent. */
  datatype Outcome = Outcome(w: Store, proc: Proc, out: seq<Envelope>)

  function TicketEnvelope(t: StreamTicket): Envelope {
    Envelope(RequestTopic(t.queue), TicketPayload(t))
  }

  function TicketEnvelopes(ts: seq<StreamTicket>): (out: seq<Envelope>)
    ensures |out| == |ts|
    ensures forall i :: 0 <= i < |ts| ==> out[i].topic == RequestTopic(ts[i].queue) && out[i].payload == TicketPayload(ts[i])
  {
    if ts == [] then [] else [TicketEnvelope(ts[0])] + TicketEnvelopes(ts[1..])
  }

  lemma {:induction false} TicketEnvelopesAppend(ts: seq<StreamTicket>, t: StreamTicket)
    ensures TicketEnvelopes(ts + [t]) == TicketEnvelopes(ts) + [TicketEnvelope(t)]
  {
    if ts != [] {
      TicketEnvelopesAppend(ts[1..], t);
      assert (ts + [t])[1..] == ts[1..] + [t];
    }
  }

  function BatchEnvelope(queue: string, tickets: seq<StreamTicket>): Envelope {
    Envelope(AccumulatedTopic(queue), BatchPayload(tickets))
  }

  function MatchEnvelope(matchId: string): Envelope {
    Envelope(UNASSIGNED_MATCHES, MatchPayload(matchId))
  }

  // ---- Frontend ----

  function PartyOf(req: ApiRequest): set<string> {
    (match req.party case None => {} case Some(ms) => set x | x in ms) + {req.playerId}
  }

  /** The document stored for a request; `members` is the party in the order the set yields it. */
  function RequestDoc(req: ApiRequest, members: seq<string>, now: int): MatchRequest {
    MatchRequest(req.id, members, Some(match req.data case None => NO_DATA case Some(d) => d),
                 req.queue, req.rtts, now, None)
  }

  function WithId(req: ApiRequest, xid: string): ApiRequest {
    if req.id == "" then req.(id := xid) else req
  }

  /** An id the client chose is kept; a missing one is filled in; nothing else changes. */
  lemma WithIdKeeps(req: ApiRequest, xid: string)
    ensures var named := WithId(req, xid);
            && named.id == (if |req.id| > 0 then req.id else xid)
            && named.playerId == req.playerId && named.party == req.party && named.data == req.data
            && named.queue == req.queue && named.rtts == req.rtts
  {
  }

  /** The document holds what the request says: the same id, queue and latencies, the request's data or empty
      data, and as members the player and everyone listed, each once. It has no game server yet. */
  ghost predicate Represents(doc: MatchRequest, req: ApiRequest, now: int) {
    && doc.id == req.id && doc.queue == req.queue && doc.rtts == req.rtts && doc.createTime == now
    && doc.gameServer.None?
    && doc.data.Some? && (req.data.Some? ==> doc.data == req.data) && (req.data.None? ==> doc.data.value == NO_DATA)
    && (forall x :: x in doc.members <==> x == req.playerId || (req.party.Some? && x in req.party.value))
    && (forall i, j :: 0 <= i < j < |doc.members| ==> doc.members[i] != doc.members[j])
  }

  lemma RequestDocRepresents(req: ApiRequest, members: seq<string>, now: int)
    requires IsOrdering(members, PartyOf(req))
    ensures Represents(RequestDoc(req, members, now), req, now)
  {
  }

  function FrontendAct(w: Store, p: Proc, a: Action): (o: Outcome)
    requires p.Frontend?
    ensures o.proc.Frontend?
    ensures o.w == w.(docs := o.w.docs, published := o.w.published, responses := o.w.responses)
    ensures o.out == [] || (p.fs.Announcing? && o.out == [TicketEnvelope(p.fs.ticket)])
  {
    match p.fs
    case Waiting =>
      if !a.Submit? || a.req.queue !in p.queues || WithId(a.req, a.xid).id == "" then Outcome(w, p, [])
      else Outcome(w, p.(fs := Storing(RequestDoc(WithId(a.req, a.xid), a.members, a.now))), [])
    case Storing(doc) =>
      if !a.StoreRequest? then Outcome(w, p, [])
      else if !a.ok || doc.id in w.docs then Outcome(w, p.(fs := Waiting), [])
      else Outcome(w.(docs := w.docs[doc.id := doc]), p.(fs := Announcing(TicketOf(doc))), [])
    case Announcing(t) =>
      if !a.Announce? then Outcome(w, p, [])
      else if a.ok then Outcome(w.(published := w.published + {t.id}), p.(fs := Watching(t.id)), [TicketEnvelope(t)])
      else Outcome(w, p.(fs := Dropping(t.id)), [])
    case Dropping(id) =>
      if !a.DropRequest? then Outcome(w, p, [])
      else Outcome(if a.ok then w.(docs := w.docs - {id}) else w, p.(fs := Waiting), [])
    case Watching(id) =>
      if a.Poll? && id in w.docs && w.docs[id].gameServer.Some? then
        Outcome(w.(responses := w.responses + {(id, ToApi(w.docs[id].gameServer.value))}), p.(fs := Waiting), [])
      else Outcome(w, if a.Leave? then p.(fs := Waiting) else p, [])
  }

  // ---- Accumulator ----

  function Flush(p: Proc): Proc
    requires p.Accumulator?
  {
    p.(window := [], seen := {}, forwarding := p.forwarding + [p.window])
  }

  function Gather(p: Proc, t: StreamTicket): Proc
    requires p.Accumulator?
  {
    if t.id in p.seen then p
    else
      var q := p.(window := p.window + [t], seen := p.seen + {t.id});
      if |q.seen| >= q.maxTickets then Flush(q) else q
  }

  function AccumulatorAct(w: Store, p: Proc, a: Action, inc: Option<Envelope>): (o: Outcome)
    requires p.Accumulator?
    ensures o.proc.Accumulator? && o.w == w
  {
    match a
    case ReceiveTicket =>
      // a message that does not decode as a ticket is logged and dropped
      if inc.Some? && inc.value.payload.TicketPayload? then Outcome(w, Gather(p, inc.value.payload.ticket), [])
      else Outcome(w, p, [])
    case Tick => Outcome(w, if p.window != [] then Flush(p) else p, [])
    case Forward(k) =>
      if k < |p.forwarding| then
        Outcome(w, p.(forwarding := p.forwarding[..k] + p.forwarding[k + 1..]),
                [BatchEnvelope(p.queue, p.forwarding[k])])
      else Outcome(w, p, [])
    case _ => Outcome(w, p, [])
  }

  // ---- Matcher ----

  function Ids(tickets: seq<StreamTicket>): set<string> {
    set t | t in tickets :: t.id
  }

  /** MGet: the documents present among the listed ids. */
  function Present(docs: map<string, MatchRequest>, ids: seq<string>): seq<MatchRequest> {
    if ids == [] then []
    else (if ids[0] in docs then [docs[ids[0]]] else []) + Present(docs, ids[1..])
  }

  lemma {:induction false} PresentMembers(docs: map<string, MatchRequest>, order: seq<string>)
    requires forall id :: id in docs ==> docs[id].id == id
    ensures forall d :: d in Present(docs, order) <==> d.id in docs && d == docs[d.id] && d.id in order
  {
    if order != [] {
      PresentMembers(docs, order[1..]);
      assert order == [order[0]] + order[1..];
    }
  }

  /** Of ids that are all present the documents come in the order of the ids. */
  lemma {:induction false} PresentInOrder(docs: map<string, MatchRequest>, order: seq<string>)
    requires forall i :: 0 <= i < |order| ==> order[i] in docs
    ensures |Present(docs, order)| == |order|
    ensures forall i :: 0 <= i < |order| ==> Present(docs, order)[i] == docs[order[i]]
  {
    if order != [] {
      PresentInOrder(docs, order[1..]);
    }
  }

  /** AssignMatchRequestsToMatch: all ids taken for the match, or none when any is taken already. */
  function Taken(allocs: map<string, string>, m: Match): Option<map<string, string>> {
    if exists id :: id in m.requestIds && id in allocs then None
    else Some(allocs + map id | id in m.requestIds :: m.id)
  }

  /** The tickets are taken exactly when none of them is taken already, and then for this match, each of them and
      no others. */
  lemma TakenMeans(allocs: map<string, string>, m: Match)
    ensures Taken(allocs, m).Some? <==> forall id :: id in m.requestIds ==> id !in allocs
    ensures Taken(allocs, m).Some? ==>
              && (forall id :: id in m.requestIds ==> id in Taken(allocs, m).value && Taken(allocs, m).value[id] == m.id)
              && (forall id :: id !in m.requestIds ==> (id in Taken(allocs, m).value <==> id in allocs))
              && (forall id :: id in allocs ==> id in Taken(allocs, m).value && Taken(allocs, m).value[id] == allocs[id])
  {
  }

  function Released(allocs: map<string, string>, m: Match): map<string, string> {
    allocs - set id | id in m.requestIds
  }

  /** The match's tickets lose their allocations, and no others. */
  lemma ReleasedMeans(allocs: map<string, string>, m: Match)
    ensures forall id :: id in Released(allocs, m) <==> id in allocs && id !in m.requestIds
    ensures forall id :: id in Released(allocs, m) ==> Released(allocs, m)[id] == allocs[id]
  {
  }

  /** Where the matcher goes once a requeue has published its last ticket. */
  function Continue(next: Sequel): MatcherState {
    match next case Resume => Streaming case Wrap => Wrapping case Rest => Idle
  }

  function Fail(p: Proc, m: Match): Proc
    requires p.Matcher?
  {
    p.(ms := Reading(TicketsOf(p.live, m.requestIds), Resume))
  }

  function MatchWithId(m: Match, xid: string): Match {
    if m.id == "" then m.(id := xid) else m
  }

  /** An id the matchmaker chose is kept; a missing one is filled in; nothing else changes. */
  lemma MatchWithIdKeeps(m: Match, xid: string)
    ensures var named := MatchWithId(m, xid);
            && named.id == (if |m.id| > 0 then m.id else xid)
            && named.queue == m.queue && named.requestIds == m.requestIds
            && named.playerIds == m.playerIds && named.rtts == m.rtts
  {
  }

  function MatcherAct(w: Store, p: Proc, a: Action, inc: Option<Envelope>): (o: Outcome)
    requires p.Matcher?
    ensures o.proc.Matcher? && o.proc.queue == p.queue
    ensures o.w == w.(allocs := o.w.allocs, matches := o.w.matches, used := o.w.used, committed := o.w.committed)
    ensures o.out == [] || (|o.out| == 1 && (o.out[0].payload.TicketPayload? || o.out[0].payload.MatchPayload?))
  {
    match p.ms
    case Idle =>
      if a.ReceiveBatch? && inc.Some? && inc.value.payload.BatchPayload? then
        Outcome(w, p.(subs := [], live := map[], made := {}, ms := Fetching(inc.value.payload.tickets)), [])
      else Outcome(w, p, [])
    case Fetching(batch) =>
      if !a.FetchRequests? then Outcome(w, p, [])
      else if a.ok then
        var subs := Present(w.docs, a.order);
        Outcome(w, p.(subs := subs, live := LiveMap(subs), ms := Streaming), [])
      else
        // the batch is requeued, and the matchmaker is then run on no submissions
        Outcome(w, p.(subs := [], live := map[], ms := Reading(batch, Resume)), [])
    case Streaming =>
      if a.Yield? then
        var named := MatchWithId(a.m, a.xid);
        Outcome(w.(used := w.used + {named.id}), p.(ms := Allocating(named)), [])
      else if a.EndStream? then
        Outcome(w, p.(ms := if a.ok then Wrapping else Reading(RefsOf(p.subs), Wrap)), [])
      else Outcome(w, p, [])
    case Allocating(m) =>
      if !a.Allocate? then Outcome(w, p, [])
      else if m.requestIds == [] then Outcome(w, p.(ms := Writing(m)), [])
      else if !a.ok || Taken(w.allocs, m).None? then Outcome(w, Fail(p, m), [])
      else Outcome(w.(allocs := Taken(w.allocs, m).value), p.(ms := Writing(m)), [])
    case Writing(m) =>
      if !a.WriteRecord? then Outcome(w, p, [])
      else if a.ok then Outcome(w.(matches := w.matches[m.id := m]), p.(ms := Sending(m)), [])
      else Outcome(w, p.(ms := Releasing(m)), [])
    case Sending(m) =>
      if !a.SendMatch? then Outcome(w, p, [])
      else if a.ok then
        var ids := set id | id in m.requestIds;
        Outcome(w.(committed := w.committed[m.id := p.queue]),
                p.(live := p.live - ids, made := p.made + ids, ms := Streaming), [MatchEnvelope(m.id)])
      else Outcome(w, p.(ms := DroppingRecord(m)), [])
    case DroppingRecord(m) =>
      if !a.DropRecord? then Outcome(w, p, [])
      else Outcome(if a.ok then w.(matches := w.matches - {m.id}) else w, p.(ms := Releasing(m)), [])
    case Releasing(m) =>
      if !a.Release? then Outcome(w, p, [])
      else Outcome(if a.ok then w.(allocs := Released(w.allocs, m)) else w, Fail(p, m), [])
    case Reading(ts, next) =>
      if !a.ReadAllocations? then Outcome(w, p, [])
      else Outcome(w, p.(ms := Publishing(Unallocated(ts, w.allocs.Keys), next)), [])
    case Publishing(ts, next) =>
      if !a.Republish? then Outcome(w, p, [])
      else if ts == [] then Outcome(w, p.(ms := Continue(next)), [])
      else Outcome(w, p.(ms := Publishing(ts[1..], next)), [TicketEnvelope(ts[0])])
    case Wrapping =>
      // the map and the fetched documents go out of scope with the last requeue
      if !a.FinalRequeue? then Outcome(w, p, [])
      else
        var last := if p.live == map[] then Idle else Reading(TicketsOf(p.live, a.order), Rest);
        Outcome(w, p.(subs := [], live := map[], made := {}, ms := last), [])
  }

  // ---- Dispenser ----

  /** The documents AddAssignmentToMatchRequests is about to write. */
  function WithServer(docs: map<string, MatchRequest>, ids: seq<string>, server: ApiGameServer): map<string, MatchRequest> {
    map id | id in ids && id in docs :: docs[id].(gameServer := Some(ToDb(server)))
  }

  /** The documents written are those present of the match's tickets, each as it was but for the server. */
  lemma WithServerMeans(docs: map<string, MatchRequest>, ids: seq<string>, server: ApiGameServer)
    ensures forall id :: id in WithServer(docs, ids, server) <==> id in ids && id in docs
    ensures forall id :: id in WithServer(docs, ids, server) ==>
              WithServer(docs, ids, server)[id] == docs[id].(gameServer := Some(ToDb(server)))
    ensures WithServer(docs, ids, server).Keys != {} <==> exists id :: id in ids && id in docs
  {
    if id :| id in ids && id in docs {
      assert id in WithServer(docs, ids, server).Keys;
    }
  }

  function DispenserAct(w: Store, p: Proc, a: Action, inc: Option<Envelope>): (o: Outcome)
    requires p.Dispenser?
    ensures o.proc.Dispenser?
    ensures o.w == w.(docs := o.w.docs, served := o.w.served)
    ensures o.out == [] || (p.ds.Requeueing? && o.out == [MatchEnvelope(p.ds.m.id)])
  {
    match p.ds
    case Free =>
      if a.ReceiveMatch? && inc.Some? && inc.value.payload.MatchPayload? then
        Outcome(w, Dispenser(Loading(inc.value.payload.matchId)), [])
      else Outcome(w, p, [])
    case Loading(matchId) =>
      // a record that is not there is asked for again
      if a.LoadMatch? && matchId in w.matches then Outcome(w, Dispenser(Assigning(w.matches[matchId])), [])
      else Outcome(w, p, [])
    case Assigning(m) =>
      if !a.Assign? then Outcome(w, p, [])
      else if a.outcome.Some? then Outcome(w, Dispenser(ReadingDocs(m, a.outcome.value)), [])
      else Outcome(w, Dispenser(Requeueing(m)), [])
    case Requeueing(m) =>
      if a.RequeueMatch? then Outcome(w, Dispenser(Free), [MatchEnvelope(m.id)]) else Outcome(w, p, [])
    case ReadingDocs(m, server) =>
      if !a.ReadRequests? then Outcome(w, p, [])
      else if m.requestIds == [] then Outcome(w.(served := w.served[m.id := server]), Dispenser(Free), [])
      else Outcome(w, Dispenser(WritingDocs(m, server, WithServer(w.docs, m.requestIds, server))), [])
    case WritingDocs(m, server, data) =>
      // the store refuses an empty MSet; a failed write starts over with the read
      if !a.WriteAssignment? then Outcome(w, p, [])
      else if !a.ok || data == map[] then Outcome(w, Dispenser(ReadingDocs(m, server)), [])
      else Outcome(w.(docs := w.docs + data, served := w.served[m.id := server]), Dispenser(Free), [])
  }

  // ---- The system ----

  function Act(w: Store, p: Proc, a: Action, inc: Option<Envelope>): Outcome {
    if p.Frontend? then FrontendAct(w, p, a)
    else if p.Accumulator? then AccumulatorAct(w, p, a, inc)
    else if p.Matcher? then MatcherAct(w, p, a, inc)
    else DispenserAct(w, p, a, inc)
  }

  /** The topic on which a process that is ready for a message waits. */
  function Subscription(p: Proc): Option<string> {
    match p
    case Frontend(_, _) => None
    case Accumulator(queue, _, _, _, _) => Some(RequestTopic(queue))
    case Matcher(queue, _, _, ms, _) => if ms.Idle? then Some(AccumulatedTopic(queue)) else None
    case Dispenser(ds) => if ds.Free? then Some(UNASSIGNED_MATCHES) else None
  }

  /** The receive action of each kind of process. */
  predicate Receives(p: Proc, a: Action) {
    (p.Accumulator? && a.ReceiveTicket?) || (p.Matcher? && a.ReceiveBatch?) || (p.Dispenser? && a.ReceiveMatch?)
  }

  /** A match of tickets submitted with the batch at hand, none of them in a match created from it before. */
  predicate NamesSubmitted(p: Proc, m: Match)
    requires p.Matcher?
  {
    forall id :: id in m.requestIds ==> Lists(p.subs, id) && id !in p.made
  }

  /** What the model assumes of its environment. A release gets through. Orders are those of a set or a map; a match id is
      new when it is chosen; and a match names tickets that were submitted to the matchmaker and are
      not in a match it already made from this batch. */
  ghost predicate Assumed(w: Store, p: Proc, a: Action) {
    match a
    case Submit(req, _, members, _) => IsOrdering(members, PartyOf(req))
    case FetchRequests(_, order) =>
      p.Matcher? && p.ms.Fetching? ==> IsOrdering(order, Ids(p.ms.batch) * w.docs.Keys)
    case Yield(m, xid) =>
      && MatchWithId(m, xid).id !in w.used
      && (p.Matcher? && p.ms.Streaming? ==> NamesSubmitted(p, m))
    case Release(ok) => ok
    case FinalRequeue(order) => p.Matcher? ==> IsOrdering(order, p.live.Keys)
    case _ => true
  }

  datatype Step = Step(pid: nat, action: Action, recv: Option<nat>)

  ghost predicate Enabled(s: State, st: Step) {
    && st.pid < |s.procs|
    && var p := s.procs[st.pid];
    && Assumed(s.w, p, st.action)
    && (st.recv.Some? <==> Receives(p, st.action))
    && (st.recv.Some? ==> st.recv.value < |s.bag| && Subscription(p) == Some(s.bag[st.recv.value].topic))
  }

  function Incoming(s: State, st: Step): Option<Envelope>
    requires st.recv.Some? ==> st.recv.value < |s.bag|
  {
    if st.recv.Some? then Some(s.bag[st.recv.value]) else None
  }

  function Without(bag: seq<Envelope>, recv: Option<nat>): seq<Envelope>
    requires recv.Some? ==> recv.value < |bag|
  {
    if recv.Some? then bag[..recv.value] + bag[recv.value + 1..] else bag
  }

  ghost function Next(s: State, st: Step): State
    requires Enabled(s, st)
  {
    var o := Act(s.w, s.procs[st.pid], st.action, Incoming(s, st));
    State(o.w, Without(s.bag, st.recv) + o.out, s.procs[st.pid := o.proc])
  }

  ghost predicate Init(s: State) {
    && s.w == Store(map[], map[], map[], {}, {}, map[], map[], {})
    && s.bag == []
    && forall p :: 0 <= p < |s.procs| ==>
         match s.procs[p]
         case Frontend(_, fs) => fs.Waiting?
         case Accumulator(_, _, window, seen, forwarding) => window == [] && seen == {} && forwarding == []
         case Matcher(_, subs, live, ms, _) => subs == [] && live == map[] && ms.Idle?
         case Dispenser(ds) => ds.Free?
  }

  /** A run: every step is enabled where it is taken. */
  ghost predicate IsRun(s: State, steps: seq<Step>)
    decreases |steps|
  {
    steps == [] || (Enabled(s, steps[0]) && IsRun(Next(s, steps[0]), steps[1..]))
  }

  ghost function Final(s: State, steps: seq<Step>): State
    requires IsRun(s, steps)
    decreases |steps|
  {
    if steps == [] then s else Final(Next(s, steps[0]), steps[1..])
  }
}
