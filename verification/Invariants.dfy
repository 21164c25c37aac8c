/** The inductive invariant of the protocol. */
module Invariants {
  import opened Records
  import opened TicketLists
  import opened Protocol
  import opened Metrics

  /** A ticket that was published and equals the reference its stored document gives rise to. */
  ghost predicate Canonical(w: Store, t: StreamTicket) {
    t.id in w.published && t.id in w.docs && t == TicketOf(w.docs[t.id])
  }

  ghost predicate CanonicalIn(w: Store, queue: string, ts: seq<StreamTicket>) {
    forall t :: t in ts ==> Canonical(w, t) && t.queue == queue
  }

  /** The ticket belongs to a match that was created. */
  ghost predicate InCommittedMatch(w: Store, id: string) {
    id in w.allocs && w.allocs[id] in w.committed
  }

  /** The game server a ticket must carry: that of its match, once the match has one. */
  ghost function ServerDue(w: Store, id: string): Option<DbGameServer> {
    if id in w.allocs && w.allocs[id] in w.served then Some(ToDb(w.served[w.allocs[id]])) else None
  }

  ghost predicate DocInv(w: Store, id: string)
    requires id in w.docs
  {
    && w.docs[id].id == id && w.docs[id].members != [] && Distinct(w.docs[id].members)
    && w.docs[id].gameServer == ServerDue(w, id)
  }

  /** A created match has its record, and holds exactly the tickets the record lists. */
  ghost predicate CommitInv(w: Store, matchId: string)
    requires matchId in w.committed
  {
    && matchId in w.matches && w.matches[matchId].id == matchId
    && forall id :: id in w.matches[matchId].requestIds ==>
         id in w.allocs && w.allocs[id] == matchId && id in w.docs && w.docs[id].queue == w.committed[matchId]
  }

  ghost predicate StoreInv(w: Store) {
    && (forall id :: id in w.docs ==> DocInv(w, id))
    && w.published <= w.docs.Keys
    && w.allocs.Keys <= w.published
    && (forall id :: id in w.allocs ==> w.allocs[id] in w.used)
    && w.committed.Keys <= w.used
    && w.served.Keys <= w.committed.Keys
    && (forall matchId :: matchId in w.committed ==> CommitInv(w, matchId))
    && (forall id :: InCommittedMatch(w, id) ==> id in w.matches[w.allocs[id]].requestIds)
    && (forall r :: r in w.responses ==>
          InCommittedMatch(w, r.0) && w.allocs[r.0] in w.served && r.1 == w.served[w.allocs[r.0]])
  }

  ghost predicate EnvInv(w: Store, e: Envelope) {
    match e.payload
    case TicketPayload(t) => e.topic == RequestTopic(t.queue) && Canonical(w, t)
    case BatchPayload(ts) => ts != [] && forall t :: t in ts ==> e.topic == AccumulatedTopic(t.queue) && Canonical(w, t)
    case MatchPayload(matchId) => e.topic == UNASSIGNED_MATCHES && matchId in w.committed
  }

  ghost predicate FrontendInv(w: Store, fs: FrontendState) {
    match fs
    case Waiting => true
    case Storing(doc) => doc.members != [] && Distinct(doc.members) && doc.gameServer.None?
    case Announcing(t) => t.id !in w.published && t.id in w.docs && t == TicketOf(w.docs[t.id])
    case Dropping(id) => id !in w.published && id in w.docs
    case Watching(id) => id in w.published
  }

  ghost predicate WindowInv(maxTickets: int, window: seq<StreamTicket>, seen: set<string>) {
    && seen == Ids(window)
    && |seen| == |window|
    && (window != [] ==> |window| < maxTickets)
  }

  ghost predicate AccumulatorInv(w: Store, p: Proc)
    requires p.Accumulator?
  {
    && WindowInv(p.maxTickets, p.window, p.seen)
    && CanonicalIn(w, p.queue, p.window)
    && forall b :: b in p.forwarding ==> b != [] && CanonicalIn(w, p.queue, b)
  }

  /** The fetched documents and the map the matcher shrinks as its matches are created. */
  ghost predicate FetchedInv(w: Store, queue: string, subs: seq<MatchRequest>, live: map<string, StreamTicket>) {
    && (forall d :: d in subs ==>
          Canonical(w, TicketOf(d)) && d.queue == queue && d.members != [] && (d.id in live || InCommittedMatch(w, d.id)))
    && (forall id :: id in live ==>
          live[id].id == id && Canonical(w, live[id]) && live[id].queue == queue && Lists(subs, id))
  }

  /** Only creating a match takes tickets out of the map. */
  ghost predicate LiveOrMade(subs: seq<MatchRequest>, live: map<string, StreamTicket>, made: set<string>) {
    forall id :: Lists(subs, id) ==> id in live || id in made
  }

  /** A match being created names live tickets and has an id of its own. */
  ghost predicate Held(w: Store, live: map<string, StreamTicket>, m: Match) {
    && m.id in w.used && m.id !in w.committed
    && forall id :: id in m.requestIds ==> id in live
  }

  /** Exactly the match's tickets are allocated to it. */
  ghost predicate Owns(w: Store, m: Match) {
    && (forall id :: id in m.requestIds ==> id in w.allocs && w.allocs[id] == m.id)
    && (forall id :: id in w.allocs && w.allocs[id] == m.id ==> id in m.requestIds)
  }

  ghost predicate AtInv(w: Store, queue: string, subs: seq<MatchRequest>, live: map<string, StreamTicket>, ms: MatcherState) {
    match ms
    case Idle => subs == [] && live == map[]
    case Fetching(batch) => subs == [] && live == map[] && CanonicalIn(w, queue, batch)
    case Streaming => true
    case Allocating(m) => Held(w, live, m) && forall id :: id in w.allocs ==> w.allocs[id] != m.id
    case Writing(m) => Held(w, live, m) && Owns(w, m)
    case Sending(m) => Held(w, live, m) && Owns(w, m) && m.id in w.matches && w.matches[m.id] == m
    case DroppingRecord(m) => Held(w, live, m) && Owns(w, m)
    case Releasing(m) => Held(w, live, m) && Owns(w, m)
    case Reading(ts, next) => CanonicalIn(w, queue, ts) && (next.Rest? ==> subs == [] && live == map[])
    case Publishing(ts, next) => CanonicalIn(w, queue, ts) && (next.Rest? ==> subs == [] && live == map[])
    case Wrapping => true
  }

  /** A match a dispenser handles: created, read from its record, and not served yet. */
  ghost predicate Due(w: Store, m: Match) {
    m.id in w.committed && m.id !in w.served && m.id in w.matches && w.matches[m.id] == m
  }

  ghost predicate DispenserInv(w: Store, ds: DispenserState) {
    match ds
    case Free => true
    case Loading(matchId) => matchId in w.committed && matchId !in w.served
    case Assigning(m) => Due(w, m)
    case Requeueing(m) => Due(w, m)
    case ReadingDocs(m, _) => Due(w, m)
    case WritingDocs(m, server, data) => Due(w, m) && m.requestIds != [] && data == WithServer(w.docs, m.requestIds, server)
  }

  ghost predicate ProcInv(w: Store, p: Proc) {
    match p
    case Frontend(_, fs) => FrontendInv(w, fs)
    case Accumulator(_, _, _, _, _) => AccumulatorInv(w, p)
    case Matcher(queue, subs, live, ms, made) => FetchedInv(w, queue, subs, live) && AtInv(w, queue, subs, live, ms) && LiveOrMade(subs, live, made)
    case Dispenser(ds) => DispenserInv(w, ds)
  }

  // ---- Across processes ----

  /** What at most one process may be working on. */
  datatype Claim = TicketClaim(id: string) | MatchClaim(matchId: string)

  function ClaimOf(p: Proc): Option<Claim> {
    match p
    case Frontend(_, Announcing(t)) => Some(TicketClaim(t.id))
    case Frontend(_, Dropping(id)) => Some(TicketClaim(id))
    case Matcher(_, _, _, ms, _) =>
      (match ms
       case Allocating(m) => Some(MatchClaim(m.id))
       case Writing(m) => Some(MatchClaim(m.id))
       case Sending(m) => Some(MatchClaim(m.id))
       case DroppingRecord(m) => Some(MatchClaim(m.id))
       case Releasing(m) => Some(MatchClaim(m.id))
       case _ => None)
    case _ => None
  }

  ghost predicate ClaimsDistinct(procs: seq<Proc>) {
    forall p, q :: 0 <= p < |procs| && 0 <= q < |procs| && p != q && ClaimOf(procs[p]).Some? ==>
      ClaimOf(procs[p]) != ClaimOf(procs[q])
  }

  /** The matcher holds the tickets of this match while it creates it. */
  predicate Creates(p: Proc, matchId: string) {
    p.Matcher? && match p.ms
                  case Writing(m) => m.id == matchId
                  case Sending(m) => m.id == matchId
                  case DroppingRecord(m) => m.id == matchId
                  case Releasing(m) => m.id == matchId
                  case _ => false
  }

  /** Every allocation belongs to a created match or to a match some matcher is creating. */
  ghost predicate Owned(s: State) {
    forall id :: id in s.w.allocs ==>
      s.w.allocs[id] in s.w.committed || exists p :: 0 <= p < |s.procs| && Creates(s.procs[p], s.w.allocs[id])
  }

  /** One token per match from its creation to its assignment, none before and none after. */
  ghost predicate TokensInv(s: State) {
    forall matchId: string :: Total(Tokens(matchId), s)
                              == Indicator(matchId in s.w.committed && matchId !in s.w.served)
  }

  ghost predicate NothingLost(s: State) {
    forall id :: id in s.w.published ==> InCommittedMatch(s.w, id) || Total(Copies(id), s) > 0
  }

  ghost predicate Inv(s: State) {
    && StoreInv(s.w)
    && (forall i :: 0 <= i < |s.bag| ==> EnvInv(s.w, s.bag[i]))
    && (forall p :: 0 <= p < |s.procs| ==> ProcInv(s.w, s.procs[p]))
    && ClaimsDistinct(s.procs)
    && Owned(s)
    && TokensInv(s)
    && NothingLost(s)
  }
}
