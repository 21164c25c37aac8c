/** The ticket manager: what the frontend, the accumulator, the matcher and the dispenser do to tickets.
    Each call to the store or the stream takes a flag, or one flag per retry, saying whether it gets through. */
module Tickets {
  import opened Records
  import opened TicketLists
  import opened Backend
  import P = Protocol

  datatype CreateResult = Created | MissingId | Duplicate | StoreFailed | StreamFailed

  /** Iterating over a Go set: its elements once each, in some order. */
  method ToSlice(s: set<string>) returns (xs: seq<string>)
    ensures IsOrdering(xs, s)
  {
    xs := [];
    var todo := s;
    while todo != {}
      invariant todo <= s && Distinct(xs)
      invariant forall x :: x in xs <==> x in s - todo
      decreases todo
    {
      var x :| x in todo;
      assert x !in xs;
      xs := xs + [x];
      todo := todo - {x};
    }
  }

  /** backoff.Retry around one call: attempts are made until one gets through or patience runs out. */
  predicate Eventually(attempts: seq<bool>)
    ensures Eventually(attempts) <==> exists i :: 0 <= i < |attempts| && attempts[i]
  {
    true in attempts
  }

  /** What the matchmaker is told of a ticket. */
  function SubmissionOf(request: MatchRequest): Submission {
    Submission(request.id, request.members, (match request.data case None => NO_DATA case Some(d) => d),
               request.queue, request.rtts, request.createTime)
  }

  method SubmissionFromDBRequest(request: MatchRequest) returns (s: Submission)
    ensures s == SubmissionOf(request)
    ensures s.id == request.id && s.queue == request.queue && s.members == request.members
    ensures s.rtts == request.rtts && s.createTime == request.createTime
    ensures (request.data.Some? ==> s.data == request.data.value) && (request.data.None? ==> s.data == NO_DATA)
  {
    var rtts := CopyRtts(request.rtts);
    var md := NO_DATA;
    if request.data.Some? {
      md := request.data.value;
    }
    s := Submission(request.id, request.members, md, request.queue, rtts, request.createTime);
  }

  class Manager {
    const store: Store
    const stream: Stream
    const pubsub: PubSub

    constructor (store: Store, stream: Stream, pubsub: PubSub)
      ensures this.store == store && this.stream == stream && this.pubsub == pubsub
    {
      this.store := store;
      this.stream := stream;
      this.pubsub := pubsub;
    }

    method PublishStreamTicket(t: StreamTicket, attempts: seq<bool>) returns (ok: bool)
      modifies stream
      ensures ok == Eventually(attempts)
      ensures stream.sent == if ok then old(stream.sent) + [P.TicketEnvelope(t)] else old(stream.sent)
      ensures ok ==> stream.sent == old(stream.sent) + [P.Envelope(RequestTopic(t.queue), P.TicketPayload(t))]
    {
      ok := false;
      var i := 0;
      while i < |attempts| && !ok
        invariant i <= |attempts|
        invariant ok == (true in attempts[..i])
        invariant stream.sent == if ok then old(stream.sent) + [P.TicketEnvelope(t)] else old(stream.sent)
      {
        assert attempts[..i + 1] == attempts[..i] + [attempts[i]];
        ok := stream.SendMessage(RequestTopic(t.queue), P.TicketPayload(t), attempts[i]);
        i := i + 1;
      }
      assert attempts == attempts[..i] + attempts[i..];
    }

    /** The party as a set: everyone listed, and the player who asks. */
    method Members(req: ApiRequest) returns (party: set<string>)
      ensures party == P.PartyOf(req)
    {
      party := {};
      if req.party.Some? {
        var listed := req.party.value;
        for i := 0 to |listed|
          invariant party == set x | x in listed[..i]
        {
          assert listed[..i + 1] == listed[..i] + [listed[i]];
          party := party + {listed[i]};
        }
        assert listed[..|listed|] == listed;
      }
      party := party + {req.playerId};
    }

    /** Stores a new ticket and publishes it; when it cannot be published it is removed again. */
    method CreateMatchRequest(req: ApiRequest, now: int, setUp: bool, attempts: seq<bool>, delUp: bool)
        returns (r: CreateResult, ghost members: seq<string>)
      requires store.Valid()
      modifies store, store.kv, stream
      ensures store.Valid() && IsOrdering(members, P.PartyOf(req))
      ensures r == if req.id == "" then MissingId
                   else if !setUp then StoreFailed
                   else if req.id in old(store.db).docs then Duplicate
                   else if Eventually(attempts) then Created else StreamFailed
      ensures var doc := P.RequestDoc(req, members, now);
              && store.db == (if r.Created? || (r.StreamFailed? && !delUp)
                                   then old(store.db).(docs := old(store.db).docs[req.id := doc])
                                   else old(store.db))
              && stream.sent == old(stream.sent) + (if r.Created? then [P.TicketEnvelope(TicketOf(doc))] else [])
      ensures r.Created? ==> req.id in store.db.docs && P.Represents(store.db.docs[req.id], req, now)
      ensures r.Created? ==> stream.sent == old(stream.sent)
                             + [P.Envelope(RequestTopic(req.queue), P.TicketPayload(TicketOf(store.db.docs[req.id])))]
    {
      var party := Members(req);
      var slice := ToSlice(party);
      members := slice;
      if |req.id| == 0 {
        return MissingId, members;
      }
      var rtts := CopyRtts(req.rtts);
      var data := if req.data.None? then NO_DATA else req.data.value;
      P.RequestDocRepresents(req, members, now);
      var doc := MatchRequest(req.id, slice, Some(data), req.queue, rtts, now, None);
      var streamTicket := TicketOf(doc);
      ghost var before := store.db;
      var wasSet, ok := store.SetNXDoc(doc, setUp);
      if !ok {
        return StoreFailed, members;
      }
      if !wasSet {
        return Duplicate, members;
      }
      var sent := PublishStreamTicket(streamTicket, attempts);
      if !sent {
        assert before.docs[doc.id := doc] - {doc.id} == before.docs;
        var deleted := store.DelDoc(req.id, delUp);
        return StreamFailed, members;
      }
      r := Created;
    }

    /** Hands a batch to the matchers of a queue. */
    method PublishAccumulatedMatchRequests(queue: string, tickets: seq<StreamTicket>, attempts: seq<bool>) returns (ok: bool)
      modifies stream
      ensures ok == Eventually(attempts)
      ensures stream.sent == old(stream.sent) + (if ok then [P.BatchEnvelope(queue, tickets)] else [])
      ensures ok ==> stream.sent == old(stream.sent) + [P.Envelope(AccumulatedTopic(queue), P.BatchPayload(tickets))]
    {
      ok := false;
      var i := 0;
      while i < |attempts| && !ok
        invariant i <= |attempts|
        invariant ok == (true in attempts[..i])
        invariant stream.sent == old(stream.sent) + (if ok then [P.BatchEnvelope(queue, tickets)] else [])
      {
        assert attempts[..i + 1] == attempts[..i] + [attempts[i]];
        ok := stream.SendMessage(AccumulatedTopic(queue), P.BatchPayload(tickets), attempts[i]);
        i := i + 1;
      }
      assert attempts == attempts[..i] + attempts[i..];
    }

    method GetMatchRequest(id: string, up: bool) returns (r: Option<MatchRequest>)
      requires store.Valid()
      ensures r == if up && id in store.db.docs then Some(store.db.docs[id]) else None
    {
      var got := store.GetDoc(id, up);
      r := if got.Found? then Some(got.value) else None;
    }

    /** The documents found among the ids, in whatever order the result map yields them. */
    method GetMatchRequests(ids: seq<string>, up: bool) returns (requests: seq<MatchRequest>, ok: bool, ghost order: seq<string>)
      requires store.Valid()
      ensures ok == (up || ids == [])
      ensures ok ==> IsOrdering(order, (set id | id in ids) * store.db.docs.Keys)
                     && requests == P.Present(store.db.docs, order)
      ensures ok ==> |requests| == |order| && forall i :: 0 <= i < |order| ==>
                       order[i] in store.db.docs && requests[i] == store.db.docs[order[i]]
      ensures !ok ==> requests == []
    {
      requests, order := [], [];
      var data;
      data, ok := store.MGetDocs(ids, up);
      if !ok {
        return;
      }
      var keys := ToSlice(data.Keys);
      order := keys;
      ghost var docs := store.db.docs;
      for i := 0 to |keys|
        invariant requests == P.Present(docs, keys[..i])
      {
        assert keys[i] in data;
        PresentAppend(docs, keys[..i], keys[i]);
        assert keys[..i + 1] == keys[..i] + [keys[i]];
        requests := requests + [data[keys[i]]];
      }
      assert keys[..|keys|] == keys;
      assert forall i :: 0 <= i < |keys| ==> keys[i] in keys;
      P.PresentInOrder(docs, keys);
    }

    /** Allocates all tickets of a match to it, or none. */
    method AssignMatchRequestsToMatch(m: Match, up: bool) returns (taken: bool, ok: bool)
      requires store.Valid()
      modifies store, store.kv
      ensures store.Valid()
      ensures ok == (up || m.requestIds == [])
      ensures taken == (m.requestIds == [] || (up && P.Taken(old(store.db).allocs, m).Some?))
      ensures store.db == if taken && m.requestIds != []
                               then old(store.db).(allocs := P.Taken(old(store.db).allocs, m).value)
                               else old(store.db)
      ensures taken <==> m.requestIds == [] || (up && forall id :: id in m.requestIds ==> id !in old(store.db).allocs)
      ensures taken ==> forall id :: id in m.requestIds ==> id in store.db.allocs && store.db.allocs[id] == m.id
      ensures forall id :: id !in m.requestIds ==> (id in store.db.allocs <==> id in old(store.db).allocs)
      ensures forall id :: id in old(store.db).allocs ==> id in store.db.allocs && store.db.allocs[id] == old(store.db).allocs[id]
    {
      if |m.requestIds| == 0 {
        return true, true;
      }
      P.TakenMeans(store.db.allocs, m);
      var allocations := AllocationsOf(m);
      assert m.requestIds[0] in allocations;
      taken, ok := store.MSetNXAllocs(allocations, up);
    }

    /** Gives up a match's allocations. */
    method ReleaseMatchRequestsFromMatch(m: Match, up: bool) returns (ok: bool)
      requires store.Valid()
      modifies store, store.kv
      ensures store.Valid()
      ensures ok == (up || m.requestIds == [])
      ensures store.db == if ok then old(store.db).(allocs := P.Released(old(store.db).allocs, m))
                               else old(store.db)
      ensures ok ==> forall id :: id in store.db.allocs <==> id in old(store.db).allocs && id !in m.requestIds
      ensures forall id :: id in store.db.allocs ==> id in old(store.db).allocs && store.db.allocs[id] == old(store.db).allocs[id]
    {
      P.ReleasedMeans(store.db.allocs, m);
      if |m.requestIds| == 0 {
        assert P.Released(store.db.allocs, m) == store.db.allocs;
        return true;
      }
      var ts := CopyIds(m.requestIds);
      ok := store.DelAllocs(ts, up);
    }

    /** Writes a game server into the documents of a match and notifies its tickets. A notification may give up;
        the assignment stands. */
    method AddAssignmentToMatchRequests(server: ApiGameServer, m: Match, readUp: bool, writeUp: bool, through: seq<nat>)
        returns (ok: bool)
      requires store.Valid() && SomeOf(m.requestIds, through)
      modifies store, store.kv, pubsub
      ensures store.Valid()
      ensures var data := P.WithServer(old(store.db).docs, m.requestIds, server);
              && ok == (m.requestIds == [] || (readUp && writeUp && data.Keys != {}))
              && store.db == (if ok then old(store.db).(docs := old(store.db).docs + data) else old(store.db))
      ensures ok <==> m.requestIds == []
                      || (readUp && writeUp && exists id :: id in m.requestIds && id in old(store.db).docs)
      ensures store.db.docs.Keys == old(store.db).docs.Keys
      ensures forall id :: id in store.db.docs ==>
                store.db.docs[id] == if ok && id in m.requestIds then old(store.db).docs[id].(gameServer := Some(ToDb(server)))
                                     else old(store.db).docs[id]
      ensures pubsub.published == if ok then old(pubsub.published) + Notices(m.requestIds, through) else old(pubsub.published)
    {
      AssignedMeans(store.db.docs, m.requestIds, server);
      if |m.requestIds| == 0 {
        SomeOfNone(m.requestIds, through);
        assert store.db.docs + P.WithServer(store.db.docs, m.requestIds, server) == store.db.docs;
        return true;
      }
      var data, read := ReadForAssignment(server, m.requestIds, readUp);
      if !read {
        return false;
      }
      ok := store.MSetDocs(data, writeUp);
      if !ok {
        return;
      }
      Notify(m.requestIds, through);
    }

    /** The documents of the ids, read and filled in with the server. */
    method ReadForAssignment(server: ApiGameServer, ids: seq<string>, up: bool) returns (data: map<string, MatchRequest>, ok: bool)
      requires store.Valid()
      ensures ok == (up || ids == [])
      ensures ok ==> data == P.WithServer(store.db.docs, ids, server) && forall k :: k in data ==> data[k].id == k
    {
      data := map[];
      var requests, read, order := GetMatchRequests(ids, up);
      ok := read;
      if !ok {
        return;
      }
      var gs := ServerToStore(server);
      DocsKeyed(store);
      P.PresentMembers(store.db.docs, order);
      data := AssignedDocuments(requests, gs);
      AssignedIsWithServer(store.db.docs, ids, order, server, data);
    }

    /** One goroutine per ticket notifies it, and each may give up: `through` lists those that get through, in
        the order in which they do. */
    method Notify(ids: seq<string>, through: seq<nat>)
      requires SomeOf(ids, through)
      modifies pubsub
      ensures pubsub.published == old(pubsub.published) + Notices(ids, through)
    {
      for i := 0 to |through|
        invariant pubsub.published == old(pubsub.published) + Notices(ids, through)[..i]
      {
        pubsub.Publish(Subject(ids[through[i]]));
      }
    }

    /** The allocations of a batch, asked for until the store answers. */
    method ReadAllocations(ids: seq<string>, attempts: seq<bool>) returns (allocations: map<string, string>, ok: bool)
      requires store.Valid()
      ensures ok == (Eventually(attempts) || (ids == [] && attempts != []))
      ensures ok ==> allocations == map k | k in ids && k in store.db.allocs :: store.db.allocs[k]
    {
      allocations, ok := map[], false;
      var i := 0;
      while i < |attempts| && !ok
        invariant i <= |attempts|
        invariant ok == (true in attempts[..i] || (ids == [] && i > 0))
        invariant ok ==> allocations == map k | k in ids && k in store.db.allocs :: store.db.allocs[k]
      {
        assert attempts[..i + 1] == attempts[..i] + [attempts[i]];
        allocations, ok := store.MGetAllocs(ids, attempts[i]);
        i := i + 1;
      }
      assert attempts == attempts[..i] + attempts[i..];
    }

    /** Publishes again those of the tickets that have no allocation in one snapshot, and no others, in order. */
    method RequeueMatchRequests(tickets: seq<StreamTicket>, readAttempts: seq<bool>, attempts: seq<seq<bool>>) returns (ok: bool)
      requires store.Valid() && |attempts| == |tickets|
      modifies stream
      ensures ok == (Eventually(readAttempts) || (tickets == [] && readAttempts != []))
      ensures stream.sent == old(stream.sent) +
                P.TicketEnvelopes(if ok then Delivered(tickets, attempts, store.db.allocs.Keys) else [])
    {
      var ids := IdsOf(tickets);
      var allocations;
      allocations, ok := ReadAllocations(ids, readAttempts);
      if !ok {
        return;
      }
      ghost var taken := store.db.allocs.Keys;
      var requeueIds := Absent(ids, allocations);
      assert forall i :: 0 <= i < |tickets| ==> (tickets[i].id in requeueIds <==> tickets[i].id !in taken) by {
        forall i | 0 <= i < |tickets| ensures tickets[i].id in ids {
          assert ids[i] in ids;
        }
      }
      if requeueIds == {} {
        NoneDelivered(tickets, attempts, taken);
        return;
      }
      Republish(tickets, requeueIds, attempts, taken);
    }

    method Republish(tickets: seq<StreamTicket>, requeueIds: set<string>, attempts: seq<seq<bool>>, ghost taken: set<string>)
      requires |attempts| == |tickets|
      requires forall i :: 0 <= i < |tickets| ==> (tickets[i].id in requeueIds <==> tickets[i].id !in taken)
      modifies stream
      ensures stream.sent == old(stream.sent) + P.TicketEnvelopes(Delivered(tickets, attempts, taken))
    {
      ghost var done := [];
      for i := 0 to |tickets|
        invariant done == Delivered(tickets[..i], attempts[..i], taken)
        invariant stream.sent == old(stream.sent) + P.TicketEnvelopes(done)
      {
        DeliveredNext(tickets, attempts, i, taken);
        P.TicketEnvelopesAppend(done, tickets[i]);
        if tickets[i].id in requeueIds {
          var sent := PublishStreamTicket(tickets[i], attempts[i]);
          done := if sent then done + [tickets[i]] else done;
        }
      }
      assert tickets[..|tickets|] == tickets && attempts[..|attempts|] == attempts;
    }
  }

  /** Every ticket of the match mapped to the match. */
  method AllocationsOf(m: Match) returns (allocations: map<string, string>)
    ensures allocations == map id | id in m.requestIds :: m.id
  {
    allocations := map[];
    for i := 0 to |m.requestIds|
      invariant allocations == map id | id in m.requestIds[..i] :: m.id
    {
      assert m.requestIds[..i + 1] == m.requestIds[..i] + [m.requestIds[i]];
      allocations := allocations[m.requestIds[i] := m.id];
    }
    assert m.requestIds[..|m.requestIds|] == m.requestIds;
  }

  lemma DocsKeyed(store: Store)
    requires store.Valid()
    ensures forall k :: k in store.db.docs ==> store.db.docs[k].id == k
  {
  }

  method CopyIds(ids: seq<string>) returns (out: seq<string>)
    ensures out == ids
  {
    var ts := new string[|ids|];
    for i := 0 to |ids|
      invariant forall j :: 0 <= j < i ==> ts[j] == ids[j]
    {
      ts[i] := ids[i];
    }
    assert ts[..] == ids;
    out := ts[..];
  }

  method IdsOf(tickets: seq<StreamTicket>) returns (out: seq<string>)
    ensures |out| == |tickets| && forall i :: 0 <= i < |tickets| ==> out[i] == tickets[i].id
  {
    var ids := new string[|tickets|];
    for i := 0 to |tickets|
      invariant forall j :: 0 <= j < i ==> ids[j] == tickets[j].id
    {
      ids[i] := tickets[i].id;
    }
    out := ids[..];
  }

  /** The ids that have no entry in the snapshot. */
  method Absent(ids: seq<string>, allocations: map<string, string>) returns (out: set<string>)
    ensures out == set id | id in ids && id !in allocations
  {
    out := {};
    for i := 0 to |ids|
      invariant out == set id | id in ids[..i] && id !in allocations
    {
      assert ids[..i + 1] == ids[..i] + [ids[i]];
      if ids[i] !in allocations {
        out := out + {ids[i]};
      }
    }
    assert ids[..|ids|] == ids;
  }

  method CopyRtts(rtts: seq<Rtt>) returns (out: seq<Rtt>)
    ensures out == rtts
  {
    var copy := new Rtt[|rtts|](_ => Rtt("", 0));
    for i := 0 to |rtts|
      invariant forall j :: 0 <= j < i ==> copy[j] == rtts[j]
    {
      copy[i] := Rtt(rtts[i].host, rtts[i].milliseconds);
    }
    assert copy[..] == rtts;
    out := copy[..];
  }

  /** The documents to write for an assignment, keyed by the id each carries. */
  method AssignedDocuments(requests: seq<MatchRequest>, gs: DbGameServer) returns (data: map<string, MatchRequest>)
    requires forall d, e :: d in requests && e in requests && d.id == e.id ==> d == e
    ensures forall k :: k in data <==> exists d :: d in requests && d.id == k
    ensures forall d :: d in requests ==> d.id in data && data[d.id] == d.(gameServer := Some(gs))
  {
    data := map[];
    for i := 0 to |requests|
      invariant forall k :: k in data <==> exists d :: d in requests[..i] && d.id == k
      invariant forall d :: d in requests[..i] ==> d.id in data && data[d.id] == d.(gameServer := Some(gs))
    {
      assert requests[..i + 1] == requests[..i] + [requests[i]];
      assert requests[i] in requests;
      data := data[requests[i].id := requests[i].(gameServer := Some(gs))];
    }
    assert requests[..|requests|] == requests;
  }

  /** Writing these documents changes no document but those of the listed ids, and these only in their server. */
  lemma AssignedMeans(docs: map<string, MatchRequest>, ids: seq<string>, server: ApiGameServer)
    ensures var data := P.WithServer(docs, ids, server);
            && (data.Keys != {} <==> exists id :: id in ids && id in docs)
            && (docs + data).Keys == docs.Keys
            && forall id :: id in docs ==>
                 (docs + data)[id] == if id in ids then docs[id].(gameServer := Some(ToDb(server))) else docs[id]
  {
    P.WithServerMeans(docs, ids, server);
  }

  /** Written from a batch read, these are the documents of the listed ids with the server filled in. */
  lemma AssignedIsWithServer(docs: map<string, MatchRequest>, ids: seq<string>, order: seq<string>,
                             server: ApiGameServer, data: map<string, MatchRequest>)
    requires forall k :: k in docs ==> docs[k].id == k
    requires forall id :: id in order <==> id in ids && id in docs
    requires var requests := P.Present(docs, order);
             && (forall k :: k in data <==> exists d :: d in requests && d.id == k)
             && (forall d :: d in requests ==> d.id in data && data[d.id] == d.(gameServer := Some(ToDb(server))))
    ensures data == P.WithServer(docs, ids, server)
  {
    P.PresentMembers(docs, order);
    var requests := P.Present(docs, order);
    forall id | id in ids && id in docs ensures id in data && data[id] == docs[id].(gameServer := Some(ToDb(server))) {
      assert docs[id] in requests;
    }
    forall id | id in data ensures id in ids && id in docs {
      var d :| d in requests && d.id == id;
    }
  }

  method ServerToStore(server: ApiGameServer) returns (gs: DbGameServer)
    ensures gs == ToDb(server)
  {
    var ports := [];
    for i := 0 to |server.ports|
      invariant |ports| == i && forall j :: 0 <= j < i ==> ports[j] == DbPort(server.ports[j].name, server.ports[j].port)
    {
      ports := ports + [DbPort(server.ports[i].name, server.ports[i].port)];
    }
    assert ports == DbPorts(server.ports);
    gs := DbGameServer(server.ip, ports);
  }

  /** The tickets a requeue gets through: those not taken whose publication does not give up. */
  function Delivered(tickets: seq<StreamTicket>, attempts: seq<seq<bool>>, taken: set<string>): seq<StreamTicket>
    requires |attempts| == |tickets|
  {
    if tickets == [] then []
    else (if tickets[0].id !in taken && Eventually(attempts[0]) then [tickets[0]] else [])
         + Delivered(tickets[1..], attempts[1..], taken)
  }

  /** What gets through is what stands where the id is not allocated and some attempt gets through, in order. */
  lemma {:induction false} DeliveredSelects(tickets: seq<StreamTicket>, attempts: seq<seq<bool>>, taken: set<string>, keep: seq<bool>)
      returns (at: seq<nat>)
    requires |attempts| == |tickets| == |keep|
    requires forall i :: 0 <= i < |tickets| ==>
               (keep[i] <==> tickets[i].id !in taken && exists k :: 0 <= k < |attempts[i]| && attempts[i][k])
    ensures Selects(tickets, keep, Delivered(tickets, attempts, taken), at)
  {
    if tickets == [] {
      return [];
    }
    var rest := DeliveredSelects(tickets[1..], attempts[1..], taken, keep[1..]);
    at := SelectsFirst(tickets, keep, Delivered(tickets[1..], attempts[1..], taken), rest);
  }

  /** When no publication gives up, a requeue publishes the filter of the batch by the snapshot. */
  lemma {:induction false} DeliveredIsFilter(tickets: seq<StreamTicket>, attempts: seq<seq<bool>>, taken: set<string>)
    requires |attempts| == |tickets| && forall i :: 0 <= i < |attempts| ==> Eventually(attempts[i])
    ensures Delivered(tickets, attempts, taken) == Unallocated(tickets, taken)
  {
    if tickets != [] {
      DeliveredIsFilter(tickets[1..], attempts[1..], taken);
    }
  }

  lemma {:induction false} DeliveredAppend(ts: seq<StreamTicket>, attempts: seq<seq<bool>>, t: StreamTicket, a: seq<bool>, taken: set<string>)
    requires |attempts| == |ts|
    ensures Delivered(ts + [t], attempts + [a], taken)
            == Delivered(ts, attempts, taken) + (if t.id !in taken && Eventually(a) then [t] else [])
  {
    if ts != [] {
      DeliveredAppend(ts[1..], attempts[1..], t, a, taken);
      assert (ts + [t])[1..] == ts[1..] + [t] && (attempts + [a])[1..] == attempts[1..] + [a];
    }
  }

  lemma DeliveredNext(ts: seq<StreamTicket>, attempts: seq<seq<bool>>, i: nat, taken: set<string>)
    requires |attempts| == |ts| && i < |ts|
    ensures Delivered(ts[..i + 1], attempts[..i + 1], taken)
            == Delivered(ts[..i], attempts[..i], taken)
               + (if ts[i].id !in taken && Eventually(attempts[i]) then [ts[i]] else [])
  {
    DeliveredAppend(ts[..i], attempts[..i], ts[i], attempts[i], taken);
    assert ts[..i + 1] == ts[..i] + [ts[i]] && attempts[..i + 1] == attempts[..i] + [attempts[i]];
  }

  lemma {:induction false} NoneDelivered(ts: seq<StreamTicket>, attempts: seq<seq<bool>>, taken: set<string>)
    requires |attempts| == |ts| && forall j :: 0 <= j < |ts| ==> ts[j].id in taken
    ensures Delivered(ts, attempts, taken) == []
  {
    if ts != [] {
      NoneDelivered(ts[1..], attempts[1..], taken);
    }
  }

  const TICKET_UPDATES_PREFIX: string := "ticket_updates_"

  function Subject(ticketId: string): string {
    TICKET_UPDATES_PREFIX + ticketId
  }

  /** Some positions of a list, each at most once, in any order. */
  ghost predicate SomeOf(ids: seq<string>, through: seq<nat>) {
    Distinct(through) && forall j :: 0 <= j < |through| ==> through[j] < |ids|
  }

  lemma SomeOfNone(ids: seq<string>, through: seq<nat>)
    requires SomeOf(ids, through)
    ensures ids == [] ==> through == []
  {
    if |through| > 0 {
      assert through[0] < |ids|;
    }
  }

  function Notices(ids: seq<string>, through: seq<nat>): (out: seq<string>)
    requires forall j :: 0 <= j < |through| ==> through[j] < |ids|
    ensures |out| == |through| && forall i :: 0 <= i < |through| ==> out[i] == Subject(ids[through[i]])
  {
    seq(|through|, i requires 0 <= i < |through| => Subject(ids[through[i]]))
  }

  /** With distinct tickets no ticket is notified twice, and only tickets of the match are. */
  lemma NoticesDistinct(ids: seq<string>, through: seq<nat>)
    requires SomeOf(ids, through) && Distinct(ids)
    ensures Distinct(Notices(ids, through))
    ensures forall n :: n in Notices(ids, through) ==> exists id :: id in ids && n == Subject(id)
  {
    forall i, j | 0 <= i < j < |through| ensures Notices(ids, through)[i] != Notices(ids, through)[j] {
      assert through[i] != through[j];
      SubjectInjective(ids[through[i]], ids[through[j]]);
    }
  }

  lemma SubjectInjective(id: string, other: string)
    ensures Subject(id) == Subject(other) ==> id == other
  {
    assert id == Subject(id)[|TICKET_UPDATES_PREFIX|..];
    assert other == Subject(other)[|TICKET_UPDATES_PREFIX|..];
  }

  lemma {:induction false} PresentAppend(docs: map<string, MatchRequest>, ids: seq<string>, id: string)
    ensures P.Present(docs, ids + [id]) == P.Present(docs, ids) + (if id in docs then [docs[id]] else [])
  {
    if ids != [] {
      PresentAppend(docs, ids[1..], id);
      assert (ids + [id])[1..] == ids[1..] + [id];
    }
  }
}
