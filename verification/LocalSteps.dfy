/** What one step does on its own: it keeps the store consistent, leaves the acting process in order,
    sends only well-formed messages, and never takes back anything the rest of the system relies on. */
module LocalSteps {
  import opened Records
  import opened TicketLists
  import opened Protocol
  import opened Invariants

  /** Two versions of a document that differ at most in the game server. */
  predicate SameButServer(d: MatchRequest, e: MatchRequest)
    ensures SameButServer(d, e) ==> TicketOf(d) == TicketOf(e)
  {
    d.(gameServer := None) == e.(gameServer := None)
  }

  /** The store only grows in what other processes depend on. */
  ghost predicate Grows(w: Store, v: Store) {
    && w.published <= v.published
    && w.used <= v.used
    && (forall x :: x in w.committed ==> x in v.committed && v.committed[x] == w.committed[x]
                                         && x in w.matches && x in v.matches && v.matches[x] == w.matches[x])
    && (forall x :: x in w.served ==> x in v.served && v.served[x] == w.served[x])
    && (forall id :: id in w.published ==> id in w.docs && id in v.docs && SameButServer(w.docs[id], v.docs[id]))
    && (forall id :: InCommittedMatch(w, id) ==> id in v.allocs && v.allocs[id] == w.allocs[id])
  }

  ghost predicate LocalPre(w: Store, p: Proc, a: Action, inc: Option<Envelope>) {
    && StoreInv(w)
    && ProcInv(w, p)
    && Assumed(w, p, a)
    && (inc.Some? <==> Receives(p, a))
    && (inc.Some? ==> EnvInv(w, inc.value) && Subscription(p) == Some(inc.value.topic))
  }

  ghost predicate LocalPost(w: Store, o: Outcome) {
    StoreInv(o.w) && ProcInv(o.w, o.proc) && (forall e :: e in o.out ==> EnvInv(o.w, e)) && Grows(w, o.w)
  }

  lemma GrowsReflexive(w: Store)
    requires StoreInv(w)
    ensures Grows(w, w)
  {
    assert forall x :: x in w.committed ==> CommitInv(w, x);
  }

  // ---- Frontend ----

  lemma StoreRequestInv(w: Store, doc: MatchRequest)
    requires StoreInv(w) && doc.id !in w.docs && doc.members != [] && Distinct(doc.members) && doc.gameServer.None?
    ensures StoreInv(w.(docs := w.docs[doc.id := doc]))
  {
    var v := w.(docs := w.docs[doc.id := doc]);
    assert doc.id !in w.allocs;
    forall id | id in v.docs ensures DocInv(v, id) {
      assert id in w.docs ==> DocInv(w, id);
    }
    forall x | x in v.committed ensures CommitInv(v, x) {
      assert CommitInv(w, x);
    }
  }

  lemma StoreRequestGrows(w: Store, doc: MatchRequest)
    requires StoreInv(w) && doc.id !in w.docs
    ensures Grows(w, w.(docs := w.docs[doc.id := doc]))
  {
    GrowsReflexive(w);
  }

  lemma DropRequestLocal(w: Store, id: string)
    requires StoreInv(w) && id !in w.published
    ensures StoreInv(w.(docs := w.docs - {id})) && Grows(w, w.(docs := w.docs - {id}))
  {
    GrowsReflexive(w);
    var v := w.(docs := w.docs - {id});
    forall x | x in v.docs ensures DocInv(v, x) {
      assert DocInv(w, x);
    }
    forall x | x in v.committed ensures CommitInv(v, x) {
      assert CommitInv(w, x);
    }
  }

  lemma PublishLocal(w: Store, id: string)
    requires StoreInv(w) && id in w.docs
    ensures StoreInv(w.(published := w.published + {id})) && Grows(w, w.(published := w.published + {id}))
  {
    GrowsReflexive(w);
    var v := w.(published := w.published + {id});
    forall x | x in v.docs ensures DocInv(v, x) {
      assert DocInv(w, x);
    }
    forall x | x in v.committed ensures CommitInv(v, x) {
      assert CommitInv(w, x);
    }
  }

  lemma RespondLocal(w: Store, id: string)
    requires StoreInv(w) && id in w.docs && w.docs[id].gameServer.Some?
    ensures var r := (id, ToApi(w.docs[id].gameServer.value));
            StoreInv(w.(responses := w.responses + {r})) && Grows(w, w.(responses := w.responses + {r}))
  {
    GrowsReflexive(w);
    var v := w.(responses := w.responses + {(id, ToApi(w.docs[id].gameServer.value))});
    assert DocInv(w, id);
    ServerRoundTrip(w.served[w.allocs[id]]);
    forall x | x in v.docs ensures DocInv(v, x) {
      assert DocInv(w, x);
    }
    forall x | x in v.committed ensures CommitInv(v, x) {
      assert CommitInv(w, x);
    }
  }

  /** A step that leaves the store alone only has to leave the process in order. */
  lemma QuietLocal(w: Store, o: Outcome)
    requires StoreInv(w) && o.w == w && ProcInv(w, o.proc) && forall e :: e in o.out ==> EnvInv(w, e)
    ensures LocalPost(w, o)
  {
    GrowsReflexive(w);
  }

  lemma FrontendStores(w: Store, p: Proc, a: Action)
    requires p.Frontend? && LocalPre(w, p, a, None) && p.fs.Storing? && a == StoreRequest(true) && p.fs.doc.id !in w.docs
    ensures LocalPost(w, FrontendAct(w, p, a))
  {
    StoreRequestInv(w, p.fs.doc);
    StoreRequestGrows(w, p.fs.doc);
  }

  lemma FrontendPublishes(w: Store, p: Proc, a: Action)
    requires p.Frontend? && LocalPre(w, p, a, None) && p.fs.Announcing? && a == Announce(true)
    ensures LocalPost(w, FrontendAct(w, p, a))
  {
    PublishLocal(w, p.fs.ticket.id);
  }

  lemma FrontendDrops(w: Store, p: Proc, a: Action)
    requires p.Frontend? && LocalPre(w, p, a, None) && p.fs.Dropping? && a == DropRequest(true)
    ensures LocalPost(w, FrontendAct(w, p, a))
  {
    DropRequestLocal(w, p.fs.id);
  }

  lemma FrontendResponds(w: Store, p: Proc, a: Action)
    requires p.Frontend? && LocalPre(w, p, a, None) && p.fs.Watching? && FrontendTouches(w, p, a)
    ensures LocalPost(w, FrontendAct(w, p, a))
  {
    RespondLocal(w, p.fs.id);
  }

  lemma FrontendQuiet(w: Store, p: Proc, a: Action)
    requires p.Frontend? && LocalPre(w, p, a, None) && !FrontendTouches(w, p, a)
    ensures var o := FrontendAct(w, p, a); o.w == w && ProcInv(w, o.proc) && o.out == []
  {
    if p.fs.Waiting? && a.Submit? {
      assert a.req.playerId in a.members;
    }
  }

  /** The frontend's steps that change the store or send the ticket. */
  predicate FrontendTouches(w: Store, p: Proc, a: Action)
    requires p.Frontend?
  {
    match p.fs
    case Storing(doc) => a == StoreRequest(true) && doc.id !in w.docs
    case Announcing(_) => a == Announce(true)
    case Dropping(_) => a == DropRequest(true)
    case Watching(id) => a.Poll? && id in w.docs && w.docs[id].gameServer.Some?
    case Waiting => false
  }

  lemma FrontendLocal(w: Store, p: Proc, a: Action)
    requires p.Frontend? && LocalPre(w, p, a, None)
    ensures LocalPost(w, FrontendAct(w, p, a))
  {
    if !FrontendTouches(w, p, a) {
      FrontendQuiet(w, p, a);
      QuietLocal(w, FrontendAct(w, p, a));
    } else {
      match p.fs
      case Storing(_) => FrontendStores(w, p, a);
      case Announcing(_) => FrontendPublishes(w, p, a);
      case Dropping(_) => FrontendDrops(w, p, a);
      case Watching(_) => FrontendResponds(w, p, a);
    }
  }

  // ---- Accumulator ----

  lemma SeenAppend(window: seq<StreamTicket>, t: StreamTicket)
    ensures Ids(window + [t]) == Ids(window) + {t.id}
  {
    assert forall x :: x in window + [t] <==> x in window || x == t;
  }

  lemma CanonicalAppend(w: Store, queue: string, window: seq<StreamTicket>, t: StreamTicket)
    requires CanonicalIn(w, queue, window) && Canonical(w, t) && t.queue == queue
    ensures CanonicalIn(w, queue, window + [t])
  {
  }

  lemma GatherKeeps(w: Store, p: Proc, t: StreamTicket)
    requires p.Accumulator? && AccumulatorInv(w, p) && Canonical(w, t) && t.queue == p.queue
    ensures AccumulatorInv(w, Gather(p, t))
  {
    if t.id !in p.seen {
      SeenAppend(p.window, t);
      CanonicalAppend(w, p.queue, p.window, t);
      var q := p.(window := p.window + [t], seen := p.seen + {t.id});
      if |q.seen| >= q.maxTickets {
        BatchAppend(w, p.queue, p.forwarding, q.window);
      }
    }
  }

  lemma BatchAppend(w: Store, queue: string, forwarding: seq<seq<StreamTicket>>, b: seq<StreamTicket>)
    requires forall c :: c in forwarding ==> c != [] && CanonicalIn(w, queue, c)
    requires b != [] && CanonicalIn(w, queue, b)
    ensures forall c :: c in forwarding + [b] ==> c != [] && CanonicalIn(w, queue, c)
  {
    assert forall c :: c in forwarding + [b] ==> c in forwarding || c == b;
  }

  lemma FlushKeeps(w: Store, p: Proc)
    requires p.Accumulator? && AccumulatorInv(w, p) && p.window != []
    ensures AccumulatorInv(w, Flush(p))
  {
    BatchAppend(w, p.queue, p.forwarding, p.window);
  }

  lemma ForwardKeeps(w: Store, p: Proc, k: nat)
    requires p.Accumulator? && AccumulatorInv(w, p) && k < |p.forwarding|
    ensures AccumulatorInv(w, p.(forwarding := p.forwarding[..k] + p.forwarding[k + 1..]))
    ensures EnvInv(w, BatchEnvelope(p.queue, p.forwarding[k]))
  {
    var rest := p.forwarding[..k] + p.forwarding[k + 1..];
    assert p.forwarding[k] in p.forwarding;
    forall b | b in rest ensures b in p.forwarding {
      assert b in p.forwarding[..k] || b in p.forwarding[k + 1..];
    }
    assert p.(forwarding := rest).forwarding == rest;
  }

  /** What arrives on a queue's request topic is a ticket of that queue. */
  lemma TicketArrives(w: Store, e: Envelope, queue: string)
    requires EnvInv(w, e) && e.topic == RequestTopic(queue)
    ensures e.payload.TicketPayload? && Canonical(w, e.payload.ticket) && e.payload.ticket.queue == queue
  {
    match e.payload
    case TicketPayload(t) => TopicsSeparate(t.queue, queue);
    case BatchPayload(ts) =>
      assert ts[0] in ts;
      TopicsSeparate(queue, ts[0].queue);
    case MatchPayload(_) => TopicsSeparate(queue, queue);
  }

  /** What arrives on a queue's accumulated topic is a batch of tickets of that queue. */
  lemma BatchArrives(w: Store, e: Envelope, queue: string)
    requires EnvInv(w, e) && e.topic == AccumulatedTopic(queue)
    ensures e.payload.BatchPayload? && CanonicalIn(w, queue, e.payload.tickets)
  {
    match e.payload
    case TicketPayload(t) => TopicsSeparate(t.queue, queue);
    case BatchPayload(ts) =>
      forall t | t in ts ensures t.queue == queue {
        TopicsSeparate(t.queue, queue);
      }
    case MatchPayload(_) => TopicsSeparate(queue, queue);
  }

  /** What arrives on the topic of unassigned matches is the id of a created match. */
  lemma MatchArrives(w: Store, e: Envelope)
    requires EnvInv(w, e) && e.topic == UNASSIGNED_MATCHES
    ensures e.payload.MatchPayload? && e.payload.matchId in w.committed
  {
    match e.payload
    case TicketPayload(t) => TopicsSeparate(t.queue, t.queue);
    case BatchPayload(ts) =>
      assert ts[0] in ts;
      TopicsSeparate(ts[0].queue, ts[0].queue);
    case MatchPayload(_) =>
  }

  lemma AccumulatorLocal(w: Store, p: Proc, a: Action, inc: Option<Envelope>)
    requires p.Accumulator? && LocalPre(w, p, a, inc)
    ensures LocalPost(w, AccumulatorAct(w, p, a, inc))
  {
    if a.ReceiveTicket? {
      TicketArrives(w, inc.value, p.queue);
      GatherKeeps(w, p, inc.value.payload.ticket);
    } else if a.Tick? && p.window != [] {
      FlushKeeps(w, p);
    } else if a.Forward? && a.k < |p.forwarding| {
      ForwardKeeps(w, p, a.k);
    }
    QuietLocal(w, AccumulatorAct(w, p, a, inc));
  }

  // ---- Matcher ----

  lemma PresentLists(docs: map<string, MatchRequest>, order: seq<string>)
    requires forall id :: id in docs ==> docs[id].id == id
    ensures forall id :: Lists(Present(docs, order), id) <==> id in order && id in docs
  {
    var subs := Present(docs, order);
    PresentMembers(docs, order);
    forall id ensures Lists(subs, id) <==> id in order && id in docs {
      if Lists(subs, id) {
        var i :| 0 <= i < |subs| && subs[i].id == id;
        assert subs[i] in subs;
      }
      if id in order && id in docs {
        assert docs[id] in subs;
        var i :| 0 <= i < |subs| && subs[i] == docs[id];
      }
    }
  }

  lemma FetchLocal(w: Store, queue: string, batch: seq<StreamTicket>, order: seq<string>)
    requires StoreInv(w) && CanonicalIn(w, queue, batch) && IsOrdering(order, Ids(batch) * w.docs.Keys)
    ensures FetchedInv(w, queue, Present(w.docs, order), LiveMap(Present(w.docs, order)))
    ensures forall id :: id in LiveMap(Present(w.docs, order)) <==> Mentions(batch, id)
    ensures forall id :: Lists(Present(w.docs, order), id) <==> Mentions(batch, id)
  {
    assert forall id :: id in w.docs ==> DocInv(w, id);
    var subs := Present(w.docs, order);
    PresentMembers(w.docs, order);
    PresentLists(w.docs, order);
    LiveMapKeys(subs);
    forall id ensures Mentions(batch, id) <==> id in order {
      if Mentions(batch, id) {
        var i :| 0 <= i < |batch| && batch[i].id == id;
        assert batch[i] in batch && id in Ids(batch);
      }
      if id in order {
        var t :| t in batch && t.id == id;
        var i :| 0 <= i < |batch| && batch[i] == t;
      }
    }
    forall d | d in subs ensures Canonical(w, TicketOf(d)) && d.queue == queue && d.members != [] && d.id in LiveMap(subs) {
      var i :| 0 <= i < |subs| && subs[i] == d;
      var t :| t in batch && t.id == d.id;
    }
    forall id | id in LiveMap(subs)
      ensures LiveMap(subs)[id].id == id && Canonical(w, LiveMap(subs)[id]) && LiveMap(subs)[id].queue == queue && Lists(subs, id)
    {
      var d :| d in subs && d.id == id && LiveMap(subs)[id] == TicketOf(d);
    }
  }

  lemma TicketsOfCanonical(w: Store, queue: string, subs: seq<MatchRequest>, live: map<string, StreamTicket>, ids: seq<string>)
    requires FetchedInv(w, queue, subs, live) && forall id :: id in ids ==> id in live
    ensures CanonicalIn(w, queue, TicketsOf(live, ids))
  {
    var out := TicketsOf(live, ids);
    forall t | t in out ensures Canonical(w, t) && t.queue == queue {
      var i :| 0 <= i < |out| && out[i] == t;
      assert ids[i] in ids;
    }
  }

  lemma RefsOfCanonical(w: Store, queue: string, subs: seq<MatchRequest>, live: map<string, StreamTicket>)
    requires FetchedInv(w, queue, subs, live)
    ensures CanonicalIn(w, queue, RefsOf(subs))
  {
    var out := RefsOf(subs);
    forall t | t in out ensures Canonical(w, t) && t.queue == queue {
      var i :| 0 <= i < |out| && out[i] == t;
      assert subs[i] in subs;
    }
  }

  lemma YieldLocal(w: Store, x: string)
    requires StoreInv(w)
    ensures StoreInv(w.(used := w.used + {x})) && Grows(w, w.(used := w.used + {x}))
  {
    GrowsReflexive(w);
    var v := w.(used := w.used + {x});
    forall id | id in v.docs ensures DocInv(v, id) {
      assert DocInv(w, id);
    }
    forall y | y in v.committed ensures CommitInv(v, y) {
      assert CommitInv(w, y);
    }
  }

  /** Changing allocations that no created match relies on. */
  ghost predicate FreesOnly(w: Store, allocs: map<string, string>, x: string) {
    && x in w.used && x !in w.committed && allocs.Keys <= w.published
    && (forall id :: id in w.allocs && w.allocs[id] != x ==> id in allocs && allocs[id] == w.allocs[id])
    && (forall id :: id in allocs && allocs[id] != x ==> id in w.allocs && allocs[id] == w.allocs[id])
  }

  lemma AllocsInv(w: Store, allocs: map<string, string>, x: string)
    requires StoreInv(w) && FreesOnly(w, allocs, x)
    ensures StoreInv(w.(allocs := allocs))
  {
    var v := w.(allocs := allocs);
    forall id | id in v.docs ensures DocInv(v, id) {
      assert DocInv(w, id);
    }
    forall y | y in v.committed ensures CommitInv(v, y) {
      assert CommitInv(w, y);
    }
  }

  lemma AllocsGrow(w: Store, allocs: map<string, string>, x: string)
    requires StoreInv(w) && FreesOnly(w, allocs, x)
    ensures Grows(w, w.(allocs := allocs))
  {
    GrowsReflexive(w);
  }

  lemma AllocateFrees(w: Store, p: Proc, m: Match)
    requires StoreInv(w) && p.Matcher? && ProcInv(w, p) && p.ms == Allocating(m) && Taken(w.allocs, m).Some?
    ensures FreesOnly(w, Taken(w.allocs, m).value, m.id)
  {
    var allocs := Taken(w.allocs, m).value;
    forall id | id in allocs ensures id in w.published {
      assert id in w.allocs || id in m.requestIds;
    }
  }

  lemma AllocateOwns(w: Store, p: Proc, m: Match)
    requires StoreInv(w) && p.Matcher? && ProcInv(w, p) && p.ms == Allocating(m) && Taken(w.allocs, m).Some?
    ensures AtInv(w.(allocs := Taken(w.allocs, m).value), p.queue, p.subs, p.live, Writing(m))
  {
  }

  lemma AllocsLocal(w: Store, p: Proc, allocs: map<string, string>, x: string, ms: MatcherState)
    requires StoreInv(w) && p.Matcher? && ProcInv(w, p) && FreesOnly(w, allocs, x)
    requires AtInv(w.(allocs := allocs), p.queue, p.subs, p.live, ms)
    ensures LocalPost(w, Outcome(w.(allocs := allocs), p.(ms := ms), []))
  {
    AllocsInv(w, allocs, x);
    AllocsGrow(w, allocs, x);
    FetchedStable(w, w.(allocs := allocs), p.queue, p.subs, p.live);
  }

  lemma ReleaseFrees(w: Store, p: Proc, m: Match)
    requires StoreInv(w) && p.Matcher? && ProcInv(w, p) && p.ms == Releasing(m)
    ensures FreesOnly(w, Released(w.allocs, m), m.id)
  {
  }

  lemma ReleaseLocal(w: Store, p: Proc, m: Match)
    requires StoreInv(w) && p.Matcher? && ProcInv(w, p) && p.ms == Releasing(m)
    ensures LocalPost(w, Outcome(w.(allocs := Released(w.allocs, m)), Fail(p, m), []))
  {
    var allocs := Released(w.allocs, m);
    ReleaseFrees(w, p, m);
    TicketsOfCanonical(w, p.queue, p.subs, p.live, m.requestIds);
    AllocsLocal(w, p, allocs, m.id, Reading(TicketsOf(p.live, m.requestIds), Resume));
  }

  /** A record no created match relies on may be written or removed. */
  ghost predicate RecordsKept(w: Store, matches: map<string, Match>, x: string) {
    x !in w.committed && forall y :: y != x && y in w.matches ==> y in matches && matches[y] == w.matches[y]
  }

  lemma RecordInv(w: Store, matches: map<string, Match>, x: string)
    requires StoreInv(w) && RecordsKept(w, matches, x)
    ensures StoreInv(w.(matches := matches))
  {
    var v := w.(matches := matches);
    forall id | id in v.docs ensures DocInv(v, id) {
      assert DocInv(w, id);
    }
    forall y | y in v.committed ensures CommitInv(v, y) {
      assert CommitInv(w, y);
    }
  }

  lemma RecordGrows(w: Store, matches: map<string, Match>, x: string)
    requires StoreInv(w) && RecordsKept(w, matches, x)
    ensures Grows(w, w.(matches := matches))
  {
    GrowsReflexive(w);
  }

  ghost function CommitStore(w: Store, p: Proc, m: Match): Store
    requires p.Matcher?
  {
    w.(committed := w.committed[m.id := p.queue])
  }

  ghost function CommitProc(p: Proc, m: Match): Proc
    requires p.Matcher?
  {
    var ids := set id | id in m.requestIds;
    p.(live := p.live - ids, made := p.made + ids, ms := Streaming)
  }

  lemma CommitStoreInv(w: Store, p: Proc, m: Match)
    requires StoreInv(w) && p.Matcher? && ProcInv(w, p) && p.ms == Sending(m)
    ensures StoreInv(CommitStore(w, p, m))
  {
    var v := CommitStore(w, p, m);
    forall id | id in v.docs ensures DocInv(v, id) {
      assert DocInv(w, id);
    }
    forall y | y in v.committed ensures CommitInv(v, y) {
      if y in w.committed {
        assert CommitInv(w, y);
      } else {
        forall id | id in m.requestIds ensures v.docs[id].queue == p.queue {
          assert Canonical(w, p.live[id]);
        }
      }
    }
  }

  lemma CommitGrows(w: Store, p: Proc, m: Match)
    requires StoreInv(w) && p.Matcher? && ProcInv(w, p) && p.ms == Sending(m)
    ensures Grows(w, CommitStore(w, p, m))
  {
    GrowsReflexive(w);
  }

  /** Once its match is created, what the matcher still has to deal with shrinks by the match's tickets. */
  lemma CommitFetched(w: Store, p: Proc, m: Match)
    requires p.Matcher? && ProcInv(w, p) && p.ms == Sending(m) && Grows(w, CommitStore(w, p, m))
    ensures ProcInv(CommitStore(w, p, m), CommitProc(p, m))
  {
    var v := CommitStore(w, p, m);
    var q := CommitProc(p, m);
    forall d | d in p.subs ensures d.id in q.live || InCommittedMatch(v, d.id) {
      assert d.id in p.live || InCommittedMatch(w, d.id);
    }
  }

  lemma CommitLocal(w: Store, p: Proc, m: Match)
    requires p.Matcher? && StoreInv(w) && ProcInv(w, p) && p.ms == Sending(m)
    ensures LocalPost(w, Outcome(CommitStore(w, p, m), CommitProc(p, m), [MatchEnvelope(m.id)]))
  {
    CommitStoreInv(w, p, m);
    CommitGrows(w, p, m);
    CommitFetched(w, p, m);
    assert EnvInv(CommitStore(w, p, m), MatchEnvelope(m.id));
  }

  /** Fetched documents stay in order whatever else the store gains. */
  lemma FetchedStable(w: Store, v: Store, queue: string, subs: seq<MatchRequest>, live: map<string, StreamTicket>)
    requires Grows(w, v) && FetchedInv(w, queue, subs, live)
    ensures FetchedInv(v, queue, subs, live)
  {
  }

  lemma AllocatingLocal(w: Store, p: Proc, a: Action)
    requires p.Matcher? && LocalPre(w, p, a, None) && p.ms.Allocating? && a.Allocate?
    ensures LocalPost(w, MatcherAct(w, p, a, None))
  {
    var m := p.ms.m;
    if m.requestIds != [] && a.ok && Taken(w.allocs, m).Some? {
      AllocateFrees(w, p, m);
      AllocateOwns(w, p, m);
      AllocsLocal(w, p, Taken(w.allocs, m).value, m.id, Writing(m));
    } else {
      NotAllocatedLocal(w, p, a);
    }
  }

  /** A match without tickets, a refused allocation, or a failed call: the store stays as it is. */
  lemma NotAllocatedLocal(w: Store, p: Proc, a: Action)
    requires p.Matcher? && LocalPre(w, p, a, None) && p.ms.Allocating? && a.Allocate?
    requires p.ms.m.requestIds == [] || !a.ok || Taken(w.allocs, p.ms.m).None?
    ensures LocalPost(w, MatcherAct(w, p, a, None))
  {
    TicketsOfCanonical(w, p.queue, p.subs, p.live, p.ms.m.requestIds);
    QuietLocal(w, MatcherAct(w, p, a, None));
  }

  lemma RecordLocal(w: Store, p: Proc, matches: map<string, Match>, x: string, ms: MatcherState)
    requires StoreInv(w) && p.Matcher? && ProcInv(w, p) && RecordsKept(w, matches, x)
    requires AtInv(w.(matches := matches), p.queue, p.subs, p.live, ms)
    ensures LocalPost(w, Outcome(w.(matches := matches), p.(ms := ms), []))
  {
    RecordInv(w, matches, x);
    RecordGrows(w, matches, x);
    FetchedStable(w, w.(matches := matches), p.queue, p.subs, p.live);
  }

  lemma YieldStepLocal(w: Store, p: Proc, a: Action)
    requires p.Matcher? && LocalPre(w, p, a, None) && p.ms.Streaming? && a.Yield?
    ensures LocalPost(w, MatcherAct(w, p, a, None))
  {
    var x := MatchWithId(a.m, a.xid).id;
    YieldLocal(w, x);
    FetchedStable(w, w.(used := w.used + {x}), p.queue, p.subs, p.live);
  }

  lemma MatcherFetchQuiet(w: Store, p: Proc, a: Action, inc: Option<Envelope>)
    requires p.Matcher? && LocalPre(w, p, a, inc) && (a.ReceiveBatch? || (p.ms.Fetching? && a.FetchRequests?))
    ensures ProcInv(w, MatcherAct(w, p, a, inc).proc)
  {
    if a.ReceiveBatch? {
      BatchArrives(w, inc.value, p.queue);
    } else if a.ok {
      FetchLocal(w, p.queue, p.ms.batch, a.order);
    }
  }

  lemma UnallocatedCanonical(w: Store, queue: string, ts: seq<StreamTicket>, taken: set<string>)
    requires CanonicalIn(w, queue, ts)
    ensures CanonicalIn(w, queue, Unallocated(ts, taken))
  {
    UnallocatedKeeps(ts, taken);
  }

  lemma ReadAllocationsKeeps(w: Store, p: Proc)
    requires p.Matcher? && ProcInv(w, p) && p.ms.Reading?
    ensures ProcInv(w, p.(ms := Publishing(Unallocated(p.ms.tickets, w.allocs.Keys), p.ms.next)))
  {
    UnallocatedCanonical(w, p.queue, p.ms.tickets, w.allocs.Keys);
  }

  lemma RepublishKeeps(w: Store, p: Proc)
    requires p.Matcher? && ProcInv(w, p) && p.ms.Publishing?
    ensures p.ms.tickets == [] ==> ProcInv(w, p.(ms := Continue(p.ms.next)))
    ensures p.ms.tickets != [] ==> ProcInv(w, p.(ms := Publishing(p.ms.tickets[1..], p.ms.next)))
    ensures p.ms.tickets != [] ==> EnvInv(w, TicketEnvelope(p.ms.tickets[0]))
  {
  }

  lemma EndStreamKeeps(w: Store, p: Proc, ok: bool)
    requires p.Matcher? && ProcInv(w, p)
    ensures ProcInv(w, p.(ms := if ok then Wrapping else Reading(RefsOf(p.subs), Wrap)))
  {
    RefsOfCanonical(w, p.queue, p.subs, p.live);
  }

  lemma FinalRequeueKeeps(w: Store, p: Proc, order: seq<string>)
    requires p.Matcher? && ProcInv(w, p) && IsOrdering(order, p.live.Keys)
    ensures ProcInv(w, p.(subs := [], live := map[], made := {}, ms := Idle))
    ensures ProcInv(w, p.(subs := [], live := map[], made := {}, ms := Reading(TicketsOf(p.live, order), Rest)))
  {
    TicketsOfCanonical(w, p.queue, p.subs, p.live, order);
  }

  lemma MatcherRequeueQuiet(w: Store, p: Proc, a: Action)
    requires p.Matcher? && ProcInv(w, p) && Assumed(w, p, a)
    requires (p.ms.Streaming? && a.EndStream?) || (p.ms.Reading? && a.ReadAllocations?)
             || (p.ms.Publishing? && a.Republish?) || (p.ms.Wrapping? && a.FinalRequeue?)
    ensures ProcInv(w, MatcherAct(w, p, a, None).proc)
    ensures forall e :: e in MatcherAct(w, p, a, None).out ==> EnvInv(w, e)
  {
    if a.EndStream? {
      EndStreamKeeps(w, p, a.ok);
    } else if a.ReadAllocations? {
      ReadAllocationsKeeps(w, p);
    } else if a.Republish? {
      RepublishKeeps(w, p);
    } else {
      FinalRequeueKeeps(w, p, a.order);
    }
  }

  /** The matcher's steps that do not change the store. */
  lemma MatcherQuiet(w: Store, p: Proc, a: Action, inc: Option<Envelope>)
    requires p.Matcher? && LocalPre(w, p, a, inc) && !Touches(p, a)
    ensures var o := MatcherAct(w, p, a, inc);
            o.w == w && ProcInv(w, o.proc) && forall e :: e in o.out ==> EnvInv(w, e)
  {
    if !Applies(p, a) {
      NotApplied(w, p, a, inc);
    } else if p.ms.Idle? || p.ms.Fetching? {
      MatcherFetchQuiet(w, p, a, inc);
    } else if p.ms.Writing? || p.ms.Sending? || p.ms.DroppingRecord? {
      MatcherFailureQuiet(w, p, a, inc);
    } else {
      MatcherRequeueQuiet(w, p, a);
    }
  }

  /** The matcher waits for this kind of action; any other leaves everything as it is. */
  predicate Applies(p: Proc, a: Action)
    requires p.Matcher?
  {
    match p.ms
    case Idle => a.ReceiveBatch?
    case Fetching(_) => a.FetchRequests?
    case Streaming => a.Yield? || a.EndStream?
    case Allocating(_) => a.Allocate?
    case Writing(_) => a.WriteRecord?
    case Sending(_) => a.SendMatch?
    case DroppingRecord(_) => a.DropRecord?
    case Releasing(_) => a.Release?
    case Reading(_, _) => a.ReadAllocations?
    case Publishing(_, _) => a.Republish?
    case Wrapping => a.FinalRequeue?
  }

  lemma NotApplied(w: Store, p: Proc, a: Action, inc: Option<Envelope>)
    requires p.Matcher? && !Applies(p, a)
    ensures MatcherAct(w, p, a, inc) == Outcome(w, p, [])
  {
  }

  /** Failures that start an undo: the store stays as it is. */
  lemma MatcherFailureQuiet(w: Store, p: Proc, a: Action, inc: Option<Envelope>)
    requires p.Matcher? && LocalPre(w, p, a, inc)
    requires (p.ms.Writing? && a == WriteRecord(false)) || (p.ms.Sending? && a == SendMatch(false))
             || (p.ms.DroppingRecord? && a == DropRecord(false))
    ensures var o := MatcherAct(w, p, a, inc); o.w == w && ProcInv(w, o.proc) && o.out == []
  {
  }

  /** The matcher's steps that may change the store. */
  predicate Touches(p: Proc, a: Action) {
    && p.Matcher?
    && ((p.ms.Sending? && a.SendMatch? && a.ok) || (p.ms.Releasing? && a.Release?)
        || (p.ms.Allocating? && a.Allocate?) || (p.ms.Writing? && a.WriteRecord? && a.ok)
        || (p.ms.DroppingRecord? && a.DropRecord? && a.ok) || (p.ms.Streaming? && a.Yield?))
  }

  lemma CommitStep(w: Store, p: Proc, a: Action)
    requires p.Matcher? && LocalPre(w, p, a, None) && p.ms.Sending? && a == SendMatch(true)
    ensures LocalPost(w, MatcherAct(w, p, a, None))
  {
    CommitLocal(w, p, p.ms.m);
  }

  lemma ReleaseOutcome(w: Store, p: Proc, m: Match)
    requires p.Matcher? && p.ms == Releasing(m)
    ensures MatcherAct(w, p, Release(true), None) == Outcome(w.(allocs := Released(w.allocs, m)), Fail(p, m), [])
  {
  }

  lemma ReleaseStep(w: Store, p: Proc)
    requires p.Matcher? && StoreInv(w) && ProcInv(w, p) && p.ms.Releasing?
    ensures LocalPost(w, MatcherAct(w, p, Release(true), None))
  {
    ReleaseLocal(w, p, p.ms.m);
    ReleaseOutcome(w, p, p.ms.m);
  }

  lemma RecordStep(w: Store, p: Proc, a: Action)
    requires p.Matcher? && LocalPre(w, p, a, None)
    requires (p.ms.Writing? && a == WriteRecord(true)) || (p.ms.DroppingRecord? && a == DropRecord(true))
    ensures LocalPost(w, MatcherAct(w, p, a, None))
  {
    var m := p.ms.m;
    if p.ms.Writing? {
      RecordLocal(w, p, w.matches[m.id := m], m.id, Sending(m));
    } else {
      RecordLocal(w, p, w.matches - {m.id}, m.id, Releasing(m));
    }
  }

  /** The steps after the tickets are taken. */
  lemma OwningLocal(w: Store, p: Proc, a: Action)
    requires Touches(p, a) && LocalPre(w, p, a, None) && !p.ms.Allocating? && !p.ms.Streaming?
    ensures LocalPost(w, MatcherAct(w, p, a, None))
  {
    match p.ms
    case Sending(_) => CommitStep(w, p, a);
    case Releasing(_) =>
      assert a == Release(true);
      ReleaseStep(w, p);
    case _ => RecordStep(w, p, a);
  }

  lemma MatcherStoreLocal(w: Store, p: Proc, a: Action)
    requires Touches(p, a) && LocalPre(w, p, a, None)
    ensures LocalPost(w, MatcherAct(w, p, a, None))
  {
    if p.ms.Allocating? {
      AllocatingLocal(w, p, a);
    } else if p.ms.Streaming? {
      YieldStepLocal(w, p, a);
    } else {
      OwningLocal(w, p, a);
    }
  }

  lemma MatcherLocal(w: Store, p: Proc, a: Action, inc: Option<Envelope>)
    requires p.Matcher? && LocalPre(w, p, a, inc)
    ensures LocalPost(w, MatcherAct(w, p, a, inc))
  {
    if Touches(p, a) {
      MatcherStoreLocal(w, p, a);
    } else {
      MatcherQuiet(w, p, a, inc);
      QuietLocal(w, MatcherAct(w, p, a, inc));
    }
  }

  // ---- Dispenser ----

  /** The store once a match's documents carry its game server. */
  function ServedStore(w: Store, m: Match, server: ApiGameServer): Store {
    w.(docs := w.docs + WithServer(w.docs, m.requestIds, server), served := w.served[m.id := server])
  }

  lemma ServeDocs(w: Store, m: Match, server: ApiGameServer)
    requires StoreInv(w) && Due(w, m)
    ensures var v := ServedStore(w, m, server);
            v.docs.Keys == w.docs.Keys
            && forall id :: id in w.docs ==> DocInv(v, id) && SameButServer(w.docs[id], v.docs[id])
  {
    var v := ServedStore(w, m, server);
    assert CommitInv(w, m.id);
    assert v.docs.Keys == w.docs.Keys;
    forall id | id in w.docs
      ensures DocInv(v, id) && SameButServer(w.docs[id], v.docs[id])
    {
      assert DocInv(w, id);
      assert id in m.requestIds <==> id in w.allocs && w.allocs[id] == m.id;
    }
  }

  lemma ServeCommits(w: Store, m: Match, server: ApiGameServer)
    requires StoreInv(w) && Due(w, m)
    ensures var v := ServedStore(w, m, server);
            forall y :: y in v.committed ==> CommitInv(v, y)
  {
    var v := ServedStore(w, m, server);
    ServeDocs(w, m, server);
    forall y | y in v.committed ensures CommitInv(v, y) {
      assert CommitInv(w, y);
    }
  }

  lemma ServeResponses(w: Store, m: Match, server: ApiGameServer)
    requires StoreInv(w) && Due(w, m)
    ensures var v := ServedStore(w, m, server);
            forall r :: r in v.responses ==>
              InCommittedMatch(v, r.0) && v.allocs[r.0] in v.served && r.1 == v.served[v.allocs[r.0]]
  {
  }

  lemma ServeInv(w: Store, m: Match, server: ApiGameServer)
    requires StoreInv(w) && Due(w, m)
    ensures StoreInv(ServedStore(w, m, server))
  {
    ServeDocs(w, m, server);
    ServeCommits(w, m, server);
    ServeResponses(w, m, server);
  }

  lemma ServeGrows(w: Store, m: Match, server: ApiGameServer)
    requires StoreInv(w) && Due(w, m)
    ensures Grows(w, ServedStore(w, m, server))
  {
    GrowsReflexive(w);
    ServeDocs(w, m, server);
  }

  lemma LoadQuiet(w: Store, p: Proc)
    requires p.Dispenser? && StoreInv(w) && DispenserInv(w, p.ds) && p.ds.Loading?
    ensures var o := DispenserAct(w, p, LoadMatch, None);
            o.w == w && ProcInv(w, o.proc) && o.out == []
  {
    assert CommitInv(w, p.ds.matchId);
  }

  lemma ReceiveQuiet(w: Store, p: Proc, inc: Option<Envelope>)
    requires p.Dispenser? && p.ds.Free? && inc.Some? && EnvInv(w, inc.value) && inc.value.topic == UNASSIGNED_MATCHES
    requires inc.value.payload.MatchPayload? ==> inc.value.payload.matchId !in w.served
    ensures var o := DispenserAct(w, p, ReceiveMatch, inc); ProcInv(w, o.proc) && o.out == []
  {
    MatchArrives(w, inc.value);
  }

  lemma AssignQuiet(w: Store, p: Proc, a: Action)
    requires p.Dispenser? && DispenserInv(w, p.ds) && !p.ds.Free? && !p.ds.Loading? && !Serves(p, a)
    ensures var o := DispenserAct(w, p, a, None);
            ProcInv(w, o.proc) && forall e :: e in o.out ==> EnvInv(w, e)
  {
  }

  lemma DispenserQuiet(w: Store, p: Proc, a: Action, inc: Option<Envelope>)
    requires p.Dispenser? && LocalPre(w, p, a, inc) && DispenserAct(w, p, a, inc).w == w
    requires inc.Some? && inc.value.payload.MatchPayload? ==> inc.value.payload.matchId !in w.served
    requires !Serves(p, a)
    ensures ProcInv(w, DispenserAct(w, p, a, inc).proc)
    ensures forall e :: e in DispenserAct(w, p, a, inc).out ==> EnvInv(w, e)
  {
    if inc.Some? {
      ReceiveQuiet(w, p, inc);
    } else if p.ds.Loading? && a.LoadMatch? {
      LoadQuiet(w, p);
    } else if !p.ds.Free? && !p.ds.Loading? {
      AssignQuiet(w, p, a);
    }
  }

  lemma ServedPost(w: Store, m: Match, server: ApiGameServer)
    requires StoreInv(w) && Due(w, m)
    ensures LocalPost(w, Outcome(ServedStore(w, m, server), Dispenser(Free), []))
  {
    ServeInv(w, m, server);
    ServeGrows(w, m, server);
  }

  /** The step that serves a match, with or without tickets. */
  predicate Serves(p: Proc, a: Action) {
    && p.Dispenser?
    && ((p.ds.ReadingDocs? && a.ReadRequests? && p.ds.m.requestIds == [])
        || (p.ds.WritingDocs? && a.WriteAssignment? && a.ok && p.ds.data != map[]))
  }

  lemma ServeOutcome(w: Store, p: Proc, a: Action)
    requires Serves(p, a) && DispenserInv(w, p.ds)
    ensures DispenserAct(w, p, a, None) == Outcome(ServedStore(w, p.ds.m, p.ds.server), Dispenser(Free), [])
  {
    if p.ds.ReadingDocs? {
      assert w.docs + WithServer(w.docs, p.ds.m.requestIds, p.ds.server) == w.docs;
    }
  }

  lemma DispenserLocal(w: Store, p: Proc, a: Action, inc: Option<Envelope>)
    requires p.Dispenser? && LocalPre(w, p, a, inc)
    requires inc.Some? && inc.value.payload.MatchPayload? ==> inc.value.payload.matchId !in w.served
    ensures LocalPost(w, DispenserAct(w, p, a, inc))
  {
    if Serves(p, a) {
      ServeOutcome(w, p, a);
      ServedPost(w, p.ds.m, p.ds.server);
    } else {
      DispenserQuiet(w, p, a, inc);
      QuietLocal(w, DispenserAct(w, p, a, inc));
    }
  }
}
