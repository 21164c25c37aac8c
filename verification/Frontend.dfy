/** The frontend's handling of one client: validate, create the ticket, wait for its game server, answer. */
module Frontend {
  import opened Records
  import Matches
  import Tickets
  import P = Protocol

  datatype Status =
    | Done
    | InvalidQueue
    | AlreadyExists
    | CreateFailed(why: Tickets.CreateResult)
    | ReadFailed

  /** A ticket document that carries a game server is answered with it. */
  method ProcessTicket(doc: MatchRequest) returns (response: Option<ApiGameServer>, done: bool)
    ensures response == if doc.gameServer.Some? then Some(ToApi(doc.gameServer.value)) else None
    ensures done == doc.gameServer.Some?
  {
    response, done := None, false;
    if doc.gameServer.Some? {
      var server := doc.gameServer.value;
      var ports := new ApiPort[|server.ports|](_ => ApiPort("", 0));
      for i := 0 to |server.ports|
        invariant forall j :: 0 <= j < i ==> ports[j] == ApiPort(server.ports[j].name, server.ports[j].port)
      {
        ports[i] := ApiPort(server.ports[i].name, server.ports[i].port);
      }
      assert ports[..] == ApiPorts(server.ports);
      response, done := Some(ApiGameServer(server.ip, ports[..])), true;
    }
  }

  /** The first document read that carries a game server; a read that fails is passed over. */
  function FirstServed(seen: seq<Option<MatchRequest>>): Option<ApiGameServer> {
    if seen == [] then None
    else if seen[0].Some? && seen[0].value.gameServer.Some? then Some(ToApi(seen[0].value.gameServer.value))
    else FirstServed(seen[1..])
  }

  /** Nothing is answered exactly when no read finds a server; otherwise the first one found is. */
  lemma {:induction false} FirstServedMeans(seen: seq<Option<MatchRequest>>)
    ensures FirstServed(seen).None? <==> forall i :: 0 <= i < |seen| ==> seen[i].None? || seen[i].value.gameServer.None?
    ensures forall i :: 0 <= i < |seen| && seen[i].Some? && seen[i].value.gameServer.Some?
                        && (forall j :: 0 <= j < i ==> seen[j].None? || seen[j].value.gameServer.None?) ==>
              FirstServed(seen) == Some(ToApi(seen[i].value.gameServer.value))
  {
    if seen != [] {
      var rest := seen[1..];
      FirstServedMeans(rest);
      assert forall i :: 0 <= i < |rest| ==> rest[i] == seen[i + 1];
      if seen[0].None? || seen[0].value.gameServer.None? {
        assert FirstServed(seen) == FirstServed(rest);
        forall i | 0 <= i < |seen| && seen[i].Some? && seen[i].value.gameServer.Some?
                   && (forall j :: 0 <= j < i ==> seen[j].None? || seen[j].value.gameServer.None?)
          ensures FirstServed(seen) == Some(ToApi(seen[i].value.gameServer.value))
        {
          assert rest[i - 1] == seen[i];
        }
      }
    }
  }

  /** What the assignment wrote is what the client is answered, whatever was read before. */
  lemma {:induction false} AnswerIsAssignment(seen: seq<Option<MatchRequest>>, server: ApiGameServer)
    requires forall i :: 0 <= i < |seen| && seen[i].Some? ==>
               seen[i].value.gameServer.None? || seen[i].value.gameServer == Some(ToDb(server))
    ensures FirstServed(seen) == None || FirstServed(seen) == Some(server)
    ensures FirstServed(seen) == Some(server) <==> exists i :: 0 <= i < |seen| && seen[i].Some? && seen[i].value.gameServer.Some?
  {
    ServerRoundTrip(server);
    if seen != [] {
      assert forall i :: 1 <= i < |seen| ==> seen[i] == seen[1..][i - 1];
      AnswerIsAssignment(seen[1..], server);
      if i :| 0 <= i < |seen[1..]| && seen[1..][i].Some? && seen[1..][i].value.gameServer.Some? {
        assert seen[i + 1].Some? && seen[i + 1].value.gameServer.Some?;
      }
    }
  }

  /** One call of Match. `first` and `later` are what the reads of the document find, which other processes
      decide: the read after creation, then one read per notification. */
  method Match(tickets: Tickets.Manager, queues: set<string>, req: ApiRequest, xid: string, now: int,
               setUp: bool, attempts: seq<bool>, delUp: bool,
               first: Option<MatchRequest>, later: seq<Option<MatchRequest>>)
      returns (status: Status, response: Option<ApiGameServer>, ghost members: seq<string>)
    requires tickets.store.Valid() && xid != ""
    modifies tickets.store, tickets.store.kv, tickets.stream
    ensures tickets.store.Valid()
    ensures var named := P.WithId(req, xid);
            var doc := P.RequestDoc(named, members, now);
            var db := old(tickets.store.db);
            var published := req.queue in queues && setUp && named.id !in db.docs && Tickets.Eventually(attempts);
            && (req.queue in queues ==> IsOrdering(members, P.PartyOf(req)))
            && status == (if req.queue !in queues then InvalidQueue
                          else if !setUp then CreateFailed(Tickets.StoreFailed)
                          else if named.id in db.docs then AlreadyExists
                          else if !Tickets.Eventually(attempts) then CreateFailed(Tickets.StreamFailed)
                          else if first.None? then ReadFailed
                          else Done)
            && tickets.stream.sent == old(tickets.stream.sent) + (if published then [P.TicketEnvelope(TicketOf(doc))] else [])
            && tickets.store.db == (if published || (status == CreateFailed(Tickets.StreamFailed) && !delUp)
                                    then db.(docs := db.docs[named.id := doc]) else db)
    ensures var id := if |req.id| > 0 then req.id else xid;
            status.Done? ==> id in tickets.store.db.docs && P.Represents(tickets.store.db.docs[id], req.(id := id), now)
    ensures response == if status.Done? then FirstServed([first] + later) else None
  {
    response, members := None, [];
    var named := if |req.id| == 0 then req.(id := xid) else req;
    if req.queue !in queues {
      status := InvalidQueue;
      return;
    }
    var created;
    created, members := tickets.CreateMatchRequest(named, now, setUp, attempts, delUp);
    if !created.Created? {
      status := if created.Duplicate? then AlreadyExists else CreateFailed(created);
      return;
    }
    if first.None? {
      status := ReadFailed;
      return;
    }
    status := Done;
    var done;
    response, done := ProcessTicket(first.value);
    response := Watch(response, done, first, later);
  }

  /** Reads the document on each notification until it carries a game server. */
  method Watch(start: Option<ApiGameServer>, begun: bool, ghost first: Option<MatchRequest>, later: seq<Option<MatchRequest>>)
      returns (response: Option<ApiGameServer>)
    requires first.Some? && begun == first.value.gameServer.Some?
    requires start == if begun then Some(ToApi(first.value.gameServer.value)) else None
    ensures response == FirstServed([first] + later)
  {
    response := start;
    var done := begun;
    ghost var seen := [first] + later;
    assert seen[1..] == later;
    var i := 0;
    while i < |later| && !done
      invariant i <= |later| && done == response.Some?
      invariant FirstServed(seen) == if done then response else FirstServed(later[i..])
    {
      if later[i].Some? {
        response, done := ProcessTicket(later[i].value);
      }
      i := i + 1;
    }
  }

  // ---- The same calls as steps of the protocol ----

  /** The frontend's steps for one request, up to where it waits for the game server. */
  function SubmitAlone(w: P.Store, queues: set<string>, req: ApiRequest, xid: string, members: seq<string>, now: int,
                       setUp: bool, announced: bool, delUp: bool): P.Outcome {
    var submitted := P.FrontendAct(w, P.Frontend(queues, P.Waiting), P.Submit(req, xid, members, now));
    var stored := P.FrontendAct(submitted.w, submitted.proc, P.StoreRequest(setUp));
    var sent := AnnounceAlone(stored.w, stored.proc, announced, delUp);
    P.Outcome(sent.w, sent.proc, submitted.out + stored.out + sent.out)
  }

  function AnnounceAlone(w: P.Store, p: P.Proc, announced: bool, delUp: bool): P.Outcome
    requires p.Frontend?
  {
    var sent := P.FrontendAct(w, p, P.Announce(announced));
    var dropped := P.FrontendAct(sent.w, sent.proc, P.DropRequest(delUp));
    P.Outcome(dropped.w, dropped.proc, sent.out + dropped.out)
  }

  lemma AnnounceIsSteps(w: P.Store, queues: set<string>, doc: MatchRequest, announced: bool, delUp: bool)
    requires doc.id !in w.docs
    ensures var o := AnnounceAlone(w.(docs := w.docs[doc.id := doc]), P.Frontend(queues, P.Announcing(TicketOf(doc))), announced, delUp);
            && o.out == (if announced then [P.TicketEnvelope(TicketOf(doc))] else [])
            && Matches.DbOf(o.w) == (if announced || !delUp then Matches.DbOf(w).(docs := w.docs[doc.id := doc]) else Matches.DbOf(w))
            && o.proc == P.Frontend(queues, if announced then P.Watching(doc.id) else P.Waiting)
            && o.w.published == (if announced then w.published + {doc.id} else w.published)
  {
    assert w.docs[doc.id := doc] - {doc.id} == w.docs;
  }

  /** Uninterrupted, they come to what Match does until its first read. */
  lemma MatchIsSteps(w: P.Store, queues: set<string>, req: ApiRequest, xid: string, members: seq<string>, now: int,
                     setUp: bool, attempts: seq<bool>, delUp: bool)
    requires xid != ""
    ensures var o := SubmitAlone(w, queues, req, xid, members, now, setUp, Tickets.Eventually(attempts), delUp);
            var named := P.WithId(req, xid);
            var doc := P.RequestDoc(named, members, now);
            var created := req.queue in queues && setUp && named.id !in w.docs;
            var published := created && Tickets.Eventually(attempts);
            && o.out == (if published then [P.TicketEnvelope(TicketOf(doc))] else [])
            && Matches.DbOf(o.w) == (if published || (created && !delUp) then Matches.DbOf(w).(docs := w.docs[named.id := doc])
                                     else Matches.DbOf(w))
            && o.proc == P.Frontend(queues, if published then P.Watching(named.id) else P.Waiting)
            && o.w.published == (if published then w.published + {named.id} else w.published)
  {
    var named := P.WithId(req, xid);
    if req.queue in queues && setUp && named.id !in w.docs {
      AnnounceIsSteps(w, queues, P.RequestDoc(named, members, now), Tickets.Eventually(attempts), delUp);
    }
  }

  /** A read of the ticket's document is a step that answers exactly when ProcessTicket does, with the same server. */
  lemma ReadIsStep(w: P.Store, queues: set<string>, id: string)
    requires id in w.docs
    ensures var o := P.FrontendAct(w, P.Frontend(queues, P.Watching(id)), P.Poll);
            match FirstServed([Some(w.docs[id])])
            case Some(server) => o.w.responses == w.responses + {(id, server)} && o.proc == P.Frontend(queues, P.Waiting)
            case None => o == P.Outcome(w, P.Frontend(queues, P.Watching(id)), [])
  {
  }
}
