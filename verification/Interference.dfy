/** What one step does to the other processes: nothing they rely on. */
module Interference {
  import opened Records
  import opened Protocol
  import opened Metrics
  import opened Invariants
  import opened LocalSteps

  // ---- What each kind of process needs from the store ----

  ghost predicate MatchUntouched(w: Store, v: Store, x: string) {
    && (x in w.committed <==> x in v.committed)
    && (forall id :: id in w.allocs && w.allocs[id] == x ==> id in v.allocs && v.allocs[id] == x)
    && (forall id :: id in v.allocs && v.allocs[id] == x ==> id in w.allocs && w.allocs[id] == x)
    && (x in w.matches ==> x in v.matches && v.matches[x] == w.matches[x])
  }

  ghost predicate TicketUntouched(w: Store, v: Store, id: string) {
    && (id in w.published <==> id in v.published)
    && (id in w.docs ==> id in v.docs && TicketOf(v.docs[id]) == TicketOf(w.docs[id]))
  }

  ghost predicate ServiceUntouched(w: Store, v: Store, x: string) {
    && (x in w.served <==> x in v.served)
    && forall id :: InCommittedMatch(w, id) && w.allocs[id] == x && id in w.docs ==> id in v.docs && v.docs[id] == w.docs[id]
  }

  lemma AccumulatorStable(w: Store, v: Store, q: Proc)
    requires q.Accumulator? && AccumulatorInv(w, q) && Grows(w, v)
    ensures AccumulatorInv(v, q)
  {
  }

  lemma FrontendStable(w: Store, v: Store, q: Proc)
    requires q.Frontend? && FrontendInv(w, q.fs) && Grows(w, v)
    requires forall id :: ClaimOf(q) == Some(TicketClaim(id)) ==> TicketUntouched(w, v, id)
    ensures FrontendInv(v, q.fs)
  {
    match q.fs
    case Announcing(t) => assert ClaimOf(q) == Some(TicketClaim(t.id)) && TicketUntouched(w, v, t.id);
    case Dropping(id) => assert ClaimOf(q) == Some(TicketClaim(id)) && TicketUntouched(w, v, id);
    case _ =>
  }

  lemma AtStable(w: Store, v: Store, q: Proc)
    requires q.Matcher? && AtInv(w, q.queue, q.subs, q.live, q.ms) && Grows(w, v)
    requires forall x :: ClaimOf(q) == Some(MatchClaim(x)) ==> MatchUntouched(w, v, x)
    ensures AtInv(v, q.queue, q.subs, q.live, q.ms)
  {
    if ClaimOf(q).Some? {
      assert MatchUntouched(w, v, q.ms.m.id);
    }
  }

  lemma MatcherStable(w: Store, v: Store, q: Proc)
    requires q.Matcher? && ProcInv(w, q) && Grows(w, v)
    requires forall x :: ClaimOf(q) == Some(MatchClaim(x)) ==> MatchUntouched(w, v, x)
    ensures ProcInv(v, q)
  {
    FetchedStable(w, v, q.queue, q.subs, q.live);
    AtStable(w, v, q);
  }

  lemma DataStable(w: Store, v: Store, m: Match, server: ApiGameServer)
    requires ListsOwn(w, m) && Grows(w, v) && ServiceUntouched(w, v, m.id)
    ensures WithServer(v.docs, m.requestIds, server) == WithServer(w.docs, m.requestIds, server)
  {
  }

  /** The part of a created match's invariant that its assignment depends on. */
  ghost predicate ListsOwn(w: Store, m: Match) {
    m.id in w.committed && forall id :: id in m.requestIds ==> id in w.allocs && w.allocs[id] == m.id && id in w.docs
  }

  lemma DispenserStable(w: Store, v: Store, q: Proc)
    requires q.Dispenser? && StoreInv(w) && DispenserInv(w, q.ds) && Grows(w, v)
    requires forall x :: Handles(q.ds, x) ==> ServiceUntouched(w, v, x)
    ensures DispenserInv(v, q.ds)
  {
    match q.ds
    case Free =>
    case Loading(x) => assert ServiceUntouched(w, v, x);
    case Assigning(m) => assert ServiceUntouched(w, v, m.id);
    case Requeueing(m) => assert ServiceUntouched(w, v, m.id);
    case ReadingDocs(m, _) => assert ServiceUntouched(w, v, m.id);
    case WritingDocs(m, server, data) =>
      assert ServiceUntouched(w, v, m.id);
      assert CommitInv(w, m.id);
      DataStable(w, v, m, server);
  }

  lemma EnvStable(w: Store, v: Store, e: Envelope)
    requires EnvInv(w, e) && Grows(w, v)
    ensures EnvInv(v, e)
  {
  }

  // ---- What each kind of process leaves alone ----

  ghost predicate Footprint(w: Store, v: Store, p: Proc) {
    && (forall x :: ClaimOf(p) != Some(MatchClaim(x)) ==> MatchUntouched(w, v, x))
    && (forall id :: ClaimOf(p) != Some(TicketClaim(id)) ==> TicketUntouched(w, v, id))
    && (forall x :: !(p.Dispenser? && Handles(p.ds, x)) ==> ServiceUntouched(w, v, x))
  }

  /** All a frontend touches is the ticket it claims. */
  ghost predicate LeavesTicket(w: Store, v: Store, id: string) {
    && (id in w.published <==> id in v.published)
    && (id in w.docs ==> id in v.docs && v.docs[id] == w.docs[id])
  }

  ghost predicate LeavesMatches(w: Store, v: Store) {
    v.allocs == w.allocs && v.matches == w.matches && v.committed == w.committed && v.served == w.served
  }

  ghost predicate LeavesOthers(w: Store, v: Store, p: Proc) {
    LeavesMatches(w, v) && forall id :: ClaimOf(p) != Some(TicketClaim(id)) ==> LeavesTicket(w, v, id)
  }

  lemma FrontendLeaves(w: Store, p: Proc, a: Action)
    requires p.Frontend? && FrontendInv(w, p.fs)
    ensures LeavesOthers(w, FrontendAct(w, p, a).w, p)
  {
    if !FrontendTouches(w, p, a) {
      FrontendQuietStore(w, p, a);
    } else if p.fs.Announcing? || p.fs.Dropping? {
      assert ClaimOf(p) == Some(TicketClaim(if p.fs.Announcing? then p.fs.ticket.id else p.fs.id));
      ClaimedTicketLeaves(w, p, a);
    } else {
      StoreLeaves(w, p, a);
    }
  }

  lemma FrontendQuietStore(w: Store, p: Proc, a: Action)
    requires p.Frontend? && !FrontendTouches(w, p, a)
    ensures FrontendAct(w, p, a).w == w
  {
  }

  lemma ClaimedTicketLeaves(w: Store, p: Proc, a: Action)
    requires p.Frontend? && (p.fs.Announcing? || p.fs.Dropping?)
    ensures LeavesOthers(w, FrontendAct(w, p, a).w, p)
  {
  }

  lemma StoreLeaves(w: Store, p: Proc, a: Action)
    requires p.Frontend? && (p.fs.Storing? || p.fs.Watching?)
    ensures LeavesOthers(w, FrontendAct(w, p, a).w, p)
  {
  }

  lemma TicketFootprint(w: Store, v: Store, p: Proc)
    requires p.Frontend? && w.allocs.Keys <= w.published && FrontendInv(w, p.fs) && LeavesOthers(w, v, p)
    ensures Footprint(w, v, p)
  {
    forall id | ClaimOf(p) != Some(TicketClaim(id)) ensures TicketUntouched(w, v, id) {
      assert LeavesTicket(w, v, id);
    }
    forall x ensures ServiceUntouched(w, v, x) {
      forall id | InCommittedMatch(w, id) && id in w.docs ensures id in v.docs && v.docs[id] == w.docs[id] {
        assert id in w.published;
        assert LeavesTicket(w, v, id);
      }
    }
  }

  lemma FrontendFootprint(w: Store, p: Proc, a: Action)
    requires p.Frontend? && w.allocs.Keys <= w.published && FrontendInv(w, p.fs)
    ensures Footprint(w, FrontendAct(w, p, a).w, p)
  {
    FrontendLeaves(w, p, a);
    TicketFootprint(w, FrontendAct(w, p, a).w, p);
  }

  ghost predicate LeavesTickets(w: Store, v: Store) {
    v.docs == w.docs && v.published == w.published && v.served == w.served
  }

  /** All a matcher touches is the match it claims. */
  ghost predicate LeavesOtherMatches(w: Store, v: Store, p: Proc) {
    LeavesTickets(w, v) && forall x :: ClaimOf(p) != Some(MatchClaim(x)) ==> MatchUntouched(w, v, x)
  }

  lemma MatcherLeaves(w: Store, p: Proc, a: Action, inc: Option<Envelope>)
    requires p.Matcher? && AtInv(w, p.queue, p.subs, p.live, p.ms)
    ensures LeavesOtherMatches(w, MatcherAct(w, p, a, inc).w, p)
  {
    if !Touches(p, a) {
      MatcherQuietStore(w, p, a, inc);
    } else if p.ms.Allocating? || p.ms.Releasing? {
      AllocationLeaves(w, p, a);
    } else {
      RecordLeaves(w, p, a);
    }
  }

  lemma MatcherQuietStore(w: Store, p: Proc, a: Action, inc: Option<Envelope>)
    requires p.Matcher? && !Touches(p, a)
    ensures MatcherAct(w, p, a, inc).w == w
  {
  }

  lemma RecordLeaves(w: Store, p: Proc, a: Action)
    requires Touches(p, a) && !p.ms.Allocating? && !p.ms.Releasing?
    ensures LeavesOtherMatches(w, MatcherAct(w, p, a, None).w, p)
  {
  }

  lemma AllocationLeaves(w: Store, p: Proc, a: Action)
    requires p.Matcher? && AtInv(w, p.queue, p.subs, p.live, p.ms)
    requires (p.ms.Allocating? && a.Allocate?) || (p.ms.Releasing? && a.Release?)
    ensures LeavesOtherMatches(w, MatcherAct(w, p, a, None).w, p)
  {
    assert ClaimOf(p) == Some(MatchClaim(p.ms.m.id));
    if p.ms.Allocating? {
      TakingLeaves(w, p.ms.m);
    } else {
      ReleasingLeaves(w, p.ms.m);
    }
  }

  lemma TakingLeaves(w: Store, m: Match)
    requires Taken(w.allocs, m).Some? ==> forall id :: id in w.allocs ==> w.allocs[id] != m.id
    ensures Taken(w.allocs, m).Some? ==>
              forall x :: x != m.id ==> MatchUntouched(w, w.(allocs := Taken(w.allocs, m).value), x)
  {
  }

  lemma ReleasingLeaves(w: Store, m: Match)
    requires Owns(w, m)
    ensures forall x :: x != m.id ==> MatchUntouched(w, w.(allocs := Released(w.allocs, m)), x)
  {
  }

  lemma MatcherFootprint(w: Store, p: Proc, a: Action, inc: Option<Envelope>)
    requires p.Matcher? && AtInv(w, p.queue, p.subs, p.live, p.ms)
    ensures Footprint(w, MatcherAct(w, p, a, inc).w, p)
  {
    MatcherLeaves(w, p, a, inc);
    MatchFootprint(w, MatcherAct(w, p, a, inc).w, p);
  }

  lemma MatchFootprint(w: Store, v: Store, p: Proc)
    requires p.Matcher? && LeavesOtherMatches(w, v, p)
    ensures Footprint(w, v, p)
  {
  }

  lemma DispenserFootprint(w: Store, p: Proc, a: Action, inc: Option<Envelope>)
    requires p.Dispenser? && StoreInv(w) && DispenserInv(w, p.ds)
    ensures Footprint(w, DispenserAct(w, p, a, inc).w, p)
  {
    if Serves(p, a) {
      ServeOutcome(w, p, a);
      ServedFootprint(w, p.ds.m, p.ds.server, p);
    } else {
      DispenserQuietStore(w, p, a, inc);
    }
  }

  lemma DispenserQuietStore(w: Store, p: Proc, a: Action, inc: Option<Envelope>)
    requires p.Dispenser? && !Serves(p, a)
    ensures DispenserAct(w, p, a, inc).w == w
  {
  }

  lemma ServedFootprint(w: Store, m: Match, server: ApiGameServer, p: Proc)
    requires StoreInv(w) && Due(w, m) && p.Dispenser? && Handles(p.ds, m.id)
    ensures Footprint(w, ServedStore(w, m, server), p)
  {
    var v := ServedStore(w, m, server);
    ServeDocs(w, m, server);
    assert CommitInv(w, m.id);
    forall id ensures TicketUntouched(w, v, id) {
      assert id in w.docs ==> SameButServer(w.docs[id], v.docs[id]);
    }
    forall x | !Handles(p.ds, x) ensures ServiceUntouched(w, v, x) {
      assert x != m.id;
    }
  }

  lemma ActFootprint(w: Store, p: Proc, a: Action, inc: Option<Envelope>)
    requires StoreInv(w) && ProcInv(w, p)
    ensures Footprint(w, Act(w, p, a, inc).w, p)
  {
    if p.Frontend? {
      FrontendFootprint(w, p, a);
    } else if p.Matcher? {
      MatcherFootprint(w, p, a, inc);
    } else if p.Dispenser? {
      DispenserFootprint(w, p, a, inc);
    }
  }

  /** Two processes with different claims and different matches to serve do not disturb each other. */
  lemma OthersKeep(w: Store, v: Store, p: Proc, q: Proc)
    requires StoreInv(w) && ProcInv(w, q) && Grows(w, v) && Footprint(w, v, p)
    requires ClaimOf(q).Some? ==> ClaimOf(p) != ClaimOf(q)
    requires forall x :: q.Dispenser? && Handles(q.ds, x) ==> !(p.Dispenser? && Handles(p.ds, x))
    ensures ProcInv(v, q)
  {
    match q
    case Frontend(_, _) => FrontendStable(w, v, q);
    case Accumulator(_, _, _, _, _) => AccumulatorStable(w, v, q);
    case Matcher(_, _, _, _, _) => MatcherStable(w, v, q);
    case Dispenser(_) => DispenserStable(w, v, q);
  }

  // ---- Claims ----

  /** A process claims only what exists, and a new claim is on something that did not. */
  lemma ClaimRange(w: Store, q: Proc)
    requires ProcInv(w, q)
    ensures forall id :: ClaimOf(q) == Some(TicketClaim(id)) ==> id in w.docs
    ensures forall x :: ClaimOf(q) == Some(MatchClaim(x)) ==> x in w.used
  {
  }

  ghost predicate ClaimMoves(w: Store, p: Proc, r: Proc) {
    || ClaimOf(r).None?
    || ClaimOf(r) == ClaimOf(p)
    || (exists id :: ClaimOf(r) == Some(TicketClaim(id)) && id !in w.docs)
    || (exists x :: ClaimOf(r) == Some(MatchClaim(x)) && x !in w.used)
  }

  lemma FrontendClaim(w: Store, p: Proc, a: Action)
    requires p.Frontend?
    ensures ClaimMoves(w, p, FrontendAct(w, p, a).proc)
  {
    if p.fs.Storing? {
      assert p.fs.doc.id !in w.docs ==> ClaimOf(FrontendAct(w, p, StoreRequest(true)).proc) == Some(TicketClaim(p.fs.doc.id));
    }
  }

  lemma MatcherClaimKept(w: Store, p: Proc, a: Action, inc: Option<Envelope>)
    requires p.Matcher? && !(p.ms.Streaming? && a.Yield?)
    ensures var r := MatcherAct(w, p, a, inc).proc; ClaimOf(r).None? || ClaimOf(r) == ClaimOf(p)
  {
  }

  lemma MatcherClaim(w: Store, p: Proc, a: Action, inc: Option<Envelope>)
    requires p.Matcher? && Assumed(w, p, a)
    ensures ClaimMoves(w, p, MatcherAct(w, p, a, inc).proc)
  {
    if p.ms.Streaming? && a.Yield? {
      assert ClaimOf(MatcherAct(w, p, a, inc).proc) == Some(MatchClaim(MatchWithId(a.m, a.xid).id));
    } else {
      MatcherClaimKept(w, p, a, inc);
    }
  }

  lemma ClaimStep(w: Store, p: Proc, a: Action, inc: Option<Envelope>)
    requires Assumed(w, p, a)
    ensures ClaimMoves(w, p, Act(w, p, a, inc).proc)
  {
    if p.Frontend? {
      FrontendClaim(w, p, a);
    } else if p.Matcher? {
      MatcherClaim(w, p, a, inc);
    }
  }

  // ---- Owners of allocations ----

  /** Each allocation after a step was there before and keeps its owner, or is owned by the process that acted. */
  ghost predicate OwnerMoves(w: Store, v: Store, p: Proc, r: Proc) {
    forall id :: id in v.allocs ==>
      || Creates(r, v.allocs[id])
      || (id in w.allocs && w.allocs[id] == v.allocs[id] && (Creates(p, w.allocs[id]) ==> w.allocs[id] in v.committed))
  }

  lemma TakingOwns(w: Store, p: Proc, a: Action)
    requires p.Matcher? && p.ms.Allocating? && a.Allocate? && AtInv(w, p.queue, p.subs, p.live, p.ms)
    ensures var o := MatcherAct(w, p, a, None); OwnerMoves(w, o.w, p, o.proc)
  {
  }

  lemma ReleasingOwns(w: Store, p: Proc, a: Action)
    requires p.Matcher? && p.ms.Releasing? && a == Release(true) && AtInv(w, p.queue, p.subs, p.live, p.ms)
    ensures var o := MatcherAct(w, p, a, None); OwnerMoves(w, o.w, p, o.proc)
  {
  }

  lemma RecordOwns(w: Store, p: Proc, a: Action)
    requires Touches(p, a) && !p.ms.Allocating? && !p.ms.Releasing?
    ensures var o := MatcherAct(w, p, a, None); OwnerMoves(w, o.w, p, o.proc)
  {
  }

  /** A matcher that holds a match either keeps holding it or does nothing to the allocations. */
  lemma QuietOwns(w: Store, p: Proc, a: Action, inc: Option<Envelope>)
    requires p.Matcher? && !Touches(p, a)
    ensures var o := MatcherAct(w, p, a, inc); o.w == w && forall x :: Creates(p, x) ==> Creates(o.proc, x)
  {
  }

  lemma MatcherOwner(w: Store, p: Proc, a: Action, inc: Option<Envelope>)
    requires p.Matcher? && AtInv(w, p.queue, p.subs, p.live, p.ms) && Assumed(w, p, a)
    ensures var o := MatcherAct(w, p, a, inc); OwnerMoves(w, o.w, p, o.proc)
  {
    if !Touches(p, a) {
      QuietOwns(w, p, a, inc);
    } else if p.ms.Allocating? {
      TakingOwns(w, p, a);
    } else if p.ms.Releasing? {
      ReleasingOwns(w, p, a);
    } else {
      RecordOwns(w, p, a);
    }
  }

  lemma OthersAllocs(w: Store, p: Proc, a: Action, inc: Option<Envelope>)
    requires !p.Matcher?
    ensures Act(w, p, a, inc).w.allocs == w.allocs
  {
  }

  lemma OwnerStep(w: Store, p: Proc, a: Action, inc: Option<Envelope>)
    requires ProcInv(w, p) && Assumed(w, p, a)
    ensures var o := Act(w, p, a, inc); OwnerMoves(w, o.w, p, o.proc)
  {
    if p.Matcher? {
      MatcherOwner(w, p, a, inc);
    } else {
      OthersAllocs(w, p, a, inc);
    }
  }
}
