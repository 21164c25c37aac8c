/** The dispenser's handling of one match: an assignment is obtained and written, or the match goes back. */
module Dispenser {
  import opened Records
  import opened Backend
  import Tickets
  import Matches
  import P = Protocol

  /** What the assignment service comes to after retries: its first answer, if any. */
  function FirstAnswer(replies: seq<Option<ApiGameServer>>): Option<ApiGameServer> {
    if replies == [] then None
    else if replies[0].Some? then replies[0] else FirstAnswer(replies[1..])
  }

  /** Some attempt to write the assignment gets through: it reads the documents, finds some, and writes them.
      A match without tickets needs no call. */
  ghost predicate Written(db: Db, m: Match, server: ApiGameServer, attempts: seq<(bool, bool)>) {
    attempts != [] && (m.requestIds == []
                       || (P.WithServer(db.docs, m.requestIds, server).Keys != {}
                           && (true, true) in attempts))
  }

  /** The assignment is written exactly when some attempt reads and writes and finds one of the documents, or the
      match has no tickets and there is an attempt at all. */
  lemma WrittenMeans(db: Db, m: Match, server: ApiGameServer, attempts: seq<(bool, bool)>)
    ensures Written(db, m, server, attempts) <==>
            exists i :: 0 <= i < |attempts|
              && (m.requestIds == [] || (attempts[i].0 && attempts[i].1 && exists id :: id in m.requestIds && id in db.docs))
  {
    P.WithServerMeans(db.docs, m.requestIds, server);
    if i :| 0 <= i < |attempts| && attempts[i].0 && attempts[i].1 {
      assert attempts[i] == (true, true);
    }
    if (true, true) in attempts {
      var i :| 0 <= i < |attempts| && attempts[i] == (true, true);
      assert attempts[i].0 && attempts[i].1;
    }
    if attempts != [] && m.requestIds == [] {
      assert attempts[0] == attempts[0];
    }
  }

  lemma WrittenAppend(db: Db, m: Match, server: ApiGameServer, attempts: seq<(bool, bool)>, a: (bool, bool))
    ensures Written(db, m, server, attempts + [a])
            == (Written(db, m, server, attempts) || m.requestIds == []
                || (a == (true, true) && P.WithServer(db.docs, m.requestIds, server).Keys != {}))
  {
  }

  lemma WrittenPrefix(db: Db, m: Match, server: ApiGameServer, attempts: seq<(bool, bool)>, more: seq<(bool, bool)>)
    ensures Written(db, m, server, attempts) ==> Written(db, m, server, attempts + more)
  {
  }

  /** The store with the server written into the documents of the match. */
  function AssignedDb(db: Db, m: Match, server: ApiGameServer): Db {
    db.(docs := db.docs + P.WithServer(db.docs, m.requestIds, server))
  }

  method MakeAssignment(replies: seq<Option<ApiGameServer>>) returns (server: Option<ApiGameServer>)
    ensures server == FirstAnswer(replies)
    ensures server.None? <==> forall i :: 0 <= i < |replies| ==> replies[i].None?
    ensures forall i :: 0 <= i < |replies| && replies[i].Some? && (forall j :: 0 <= j < i ==> replies[j].None?) ==>
              server == replies[i]
  {
    server := None;
    var i := 0;
    while i < |replies| && server.None?
      invariant i <= |replies|
      invariant server.None? ==> forall j :: 0 <= j < i ==> replies[j].None?
      invariant server.Some? ==> i > 0 && server == replies[i - 1] && forall j :: 0 <= j < i - 1 ==> replies[j].None?
      invariant FirstAnswer(replies) == if server.Some? then server else FirstAnswer(replies[i..])
    {
      server := replies[i];
      i := i + 1;
    }
  }

  method RequeueMatch(matches: Matches.Manager, m: Match, attempts: seq<bool>) returns (ok: bool)
    modifies matches.stream
    ensures ok == Tickets.Eventually(attempts)
    ensures matches.stream.sent == old(matches.stream.sent) + (if ok then [P.MatchEnvelope(m.id)] else [])
  {
    ok := false;
    var i := 0;
    while i < |attempts| && !ok
      invariant i <= |attempts|
      invariant ok == (true in attempts[..i])
      invariant matches.stream.sent == old(matches.stream.sent) + (if ok then [P.MatchEnvelope(m.id)] else [])
    {
      assert attempts[..i + 1] == attempts[..i] + [attempts[i]];
      ok := matches.Requeue(m.id, attempts[i]);
      i := i + 1;
    }
    assert attempts == attempts[..i] + attempts[i..];
  }

  method AddAssignmentToTickets(tickets: Tickets.Manager, m: Match, server: ApiGameServer, attempts: seq<(bool, bool)>,
                                through: seq<nat>)
      returns (ok: bool)
    requires tickets.store.Valid() && Tickets.SomeOf(m.requestIds, through)
    modifies tickets.store, tickets.store.kv, tickets.pubsub
    ensures tickets.store.Valid()
    ensures ok == Written(old(tickets.store.db), m, server, attempts)
    ensures tickets.store.db == if ok then AssignedDb(old(tickets.store.db), m, server) else old(tickets.store.db)
    ensures tickets.pubsub.published == old(tickets.pubsub.published) + (if ok then Tickets.Notices(m.requestIds, through) else [])
  {
    ok := false;
    var i := 0;
    ghost var db := tickets.store.db;
    while i < |attempts| && !ok
      invariant i <= |attempts| && tickets.store.Valid()
      invariant ok == Written(db, m, server, attempts[..i])
      invariant tickets.store.db == if ok then AssignedDb(db, m, server) else db
      invariant tickets.pubsub.published == old(tickets.pubsub.published) + (if ok then Tickets.Notices(m.requestIds, through) else [])
    {
      assert attempts[..i + 1] == attempts[..i] + [attempts[i]];
      WrittenAppend(db, m, server, attempts[..i], attempts[i]);
      ok := tickets.AddAssignmentToMatchRequests(server, m, attempts[i].0, attempts[i].1, through);
      i := i + 1;
    }
    assert attempts == attempts[..i] + attempts[i..];
    WrittenPrefix(db, m, server, attempts[..i], attempts[i..]);
  }

  /** One match from the topic. Without an answer from the assignment service the match goes back to the
      topic and no document changes; with one, nothing is sent and the match's documents get the server. */
  method HandleMatch(tickets: Tickets.Manager, matches: Matches.Manager, m: Match, replies: seq<Option<ApiGameServer>>,
                     requeue: seq<bool>, writes: seq<(bool, bool)>, through: seq<nat>)
      returns (server: Option<ApiGameServer>, settled: bool)
    requires tickets.store.Valid() && Tickets.SomeOf(m.requestIds, through)
    modifies tickets.store, tickets.store.kv, tickets.pubsub, matches.stream
    ensures tickets.store.Valid()
    ensures server == FirstAnswer(replies)
    ensures server.None? <==> forall i :: 0 <= i < |replies| ==> replies[i].None?
    ensures forall i :: 0 <= i < |replies| && replies[i].Some? && (forall j :: 0 <= j < i ==> replies[j].None?) ==>
              server == replies[i]
    ensures settled == if server.Some? then Written(old(tickets.store.db), m, server.value, writes) else Tickets.Eventually(requeue)
    ensures matches.stream.sent == old(matches.stream.sent) + (if server.None? && settled then [P.MatchEnvelope(m.id)] else [])
    ensures tickets.store.db == if server.Some? && settled
                                then AssignedDb(old(tickets.store.db), m, server.value)
                                else old(tickets.store.db)
    ensures tickets.pubsub.published == old(tickets.pubsub.published)
                                        + (if server.Some? && settled then Tickets.Notices(m.requestIds, through) else [])
  {
    server := MakeAssignment(replies);
    if server.None? {
      settled := RequeueMatch(matches, m, requeue);
      return;
    }
    settled := AddAssignmentToTickets(tickets, m, server.value, writes, through);
  }

  // ---- The same calls as steps of the protocol ----

  /** The dispenser's steps while it writes an assignment, one read and one write for each attempt; an attempt
      whose read fails makes no step. */
  function WriteAlone(w: P.Store, p: P.Proc, attempts: seq<(bool, bool)>): P.Outcome
    requires p.Dispenser?
    decreases |attempts|
  {
    if attempts == [] || !p.ds.ReadingDocs? then P.Outcome(w, p, [])
    else if !attempts[0].0 && p.ds.m.requestIds != [] then WriteAlone(w, p, attempts[1..])
    else
      var read := P.DispenserAct(w, p, P.ReadRequests, None);
      var wrote := P.DispenserAct(read.w, read.proc, P.WriteAssignment(attempts[0].1), None);
      var rest := WriteAlone(wrote.w, wrote.proc, attempts[1..]);
      P.Outcome(rest.w, rest.proc, read.out + wrote.out + rest.out)
  }

  lemma OneWrite(w: P.Store, m: Match, server: ApiGameServer, ok: bool)
    ensures var read := P.DispenserAct(w, P.Dispenser(P.ReadingDocs(m, server)), P.ReadRequests, None);
            var wrote := P.DispenserAct(read.w, read.proc, P.WriteAssignment(ok), None);
            var data := P.WithServer(w.docs, m.requestIds, server);
            read.out + wrote.out == [] &&
            if m.requestIds == [] || (ok && data.Keys != {})
            then wrote.proc == P.Dispenser(P.Free)
                 && Matches.DbOf(wrote.w) == Matches.DbOf(w).(docs := w.docs + data) && wrote.w.served == w.served[m.id := server]
            else wrote.proc == P.Dispenser(P.ReadingDocs(m, server)) && wrote.w == w
  {
    var data := P.WithServer(w.docs, m.requestIds, server);
    if m.requestIds == [] {
      assert w.docs + data == w.docs;
    }
    assert data == map[] <==> data.Keys == {};
  }

  /** Uninterrupted, these steps come to what AddAssignmentToTickets does. */
  lemma {:induction false} WriteIsSteps(w: P.Store, m: Match, server: ApiGameServer, attempts: seq<(bool, bool)>)
    ensures var o := WriteAlone(w, P.Dispenser(P.ReadingDocs(m, server)), attempts);
            var ok := Written(Matches.DbOf(w), m, server, attempts);
            && o.out == []
            && o.proc == P.Dispenser(if ok then P.Free else P.ReadingDocs(m, server))
            && Matches.DbOf(o.w) == (if ok then AssignedDb(Matches.DbOf(w), m, server) else Matches.DbOf(w))
            && o.w.served == (if ok then w.served[m.id := server] else w.served)
  {
    if attempts != [] {
      OneWrite(w, m, server, attempts[0].1);
      WriteIsSteps(w, m, server, attempts[1..]);
      assert attempts == [attempts[0]] + attempts[1..];
    }
  }

  /** The dispenser's steps for one match, from the question to the assignment service on. */
  function HandleAlone(w: P.Store, m: Match, replies: seq<Option<ApiGameServer>>, requeue: seq<bool>, writes: seq<(bool, bool)>)
      : P.Outcome
  {
    var asked := P.DispenserAct(w, P.Dispenser(P.Assigning(m)), P.Assign(FirstAnswer(replies)), None);
    if FirstAnswer(replies).Some? then WriteAlone(asked.w, asked.proc, writes)
    else if Tickets.Eventually(requeue) then P.DispenserAct(asked.w, asked.proc, P.RequeueMatch, None)
    else asked
  }

  /** Uninterrupted, the protocol's steps come to what HandleMatch does, whichever calls get through. */
  lemma HandleMatchIsSteps(w: P.Store, m: Match, replies: seq<Option<ApiGameServer>>, requeue: seq<bool>, writes: seq<(bool, bool)>)
    ensures var o := HandleAlone(w, m, replies, requeue, writes);
            var server := FirstAnswer(replies);
            var settled := if server.Some? then Written(Matches.DbOf(w), m, server.value, writes) else Tickets.Eventually(requeue);
            && o.out == (if server.None? && settled then [P.MatchEnvelope(m.id)] else [])
            && Matches.DbOf(o.w) == (if server.Some? && settled then AssignedDb(Matches.DbOf(w), m, server.value)
                                     else Matches.DbOf(w))
            && (settled <==> o.proc == P.Dispenser(P.Free))
            && o.w.served == (if server.Some? && settled then w.served[m.id := server.value] else w.served)
  {
    if FirstAnswer(replies).Some? {
      WriteIsSteps(w, m, FirstAnswer(replies).value, writes);
    }
  }
}
