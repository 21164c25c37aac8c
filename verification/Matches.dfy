/** The match manager: creating a match with compensation on failure, looking matches up, requeueing them. */
module Matches {
  import opened Records
  import opened Backend
  import Tickets
  import P = Protocol

  /** Which of CreateMatch's calls get through. */
  datatype Calls = Calls(alloc: bool, write: bool, send: bool, drop: bool, release: bool)

  datatype CreateResult = Created | Refused | AllocFailed | WriteFailed | SendFailed

  function ResultOf(db: Db, m: Match, c: Calls): CreateResult {
    if m.requestIds != [] && !c.alloc then AllocFailed
    else if m.requestIds != [] && P.Taken(db.allocs, m).None? then Refused
    else if !c.write then WriteFailed
    else if !c.send then SendFailed
    else Created
  }

  /** The allocations once the match has its tickets. */
  function Allocated(db: Db, m: Match): map<string, string> {
    if P.Taken(db.allocs, m).Some? then P.Taken(db.allocs, m).value else db.allocs
  }

  /** The store CreateMatch leaves behind: nothing changes on refusal; a failure undoes in reverse order
      what was done, as far as the undoing calls get through. */
  function CreatedDb(db: Db, m: Match, c: Calls): Db {
    var kept := if c.release || m.requestIds == [] then db.allocs else Allocated(db, m);
    match ResultOf(db, m, c)
    case AllocFailed => db
    case Refused => db
    case WriteFailed => db.(allocs := kept)
    case SendFailed => db.(allocs := kept, matches := if c.drop then db.matches - {m.id} else db.matches[m.id := m])
    case Created => db.(allocs := Allocated(db, m), matches := db.matches[m.id := m])
  }

  lemma TakenReleased(allocs: map<string, string>, m: Match)
    requires P.Taken(allocs, m).Some?
    ensures P.Released(P.Taken(allocs, m).value, m) == allocs
  {
  }

  lemma TakenNothing(allocs: map<string, string>, m: Match)
    requires m.requestIds == []
    ensures P.Taken(allocs, m) == Some(allocs)
  {
    assert allocs + (map id | id in m.requestIds :: m.id) == allocs;
  }

  /** All or nothing. A created match has all its tickets and its record. A refused one changes nothing. A
      failure restores the allocations exactly when the release gets through or there is nothing to release,
      and restores the records unless the message could not be sent: then they are restored exactly when the
      record could be removed and the id was new. */
  lemma AllOrNothing(db: Db, m: Match, c: Calls)
    ensures ResultOf(db, m, c).Created? ==>
              && (forall id :: id in m.requestIds ==> id in CreatedDb(db, m, c).allocs && CreatedDb(db, m, c).allocs[id] == m.id)
              && (forall id :: id !in m.requestIds ==> (id in CreatedDb(db, m, c).allocs <==> id in db.allocs))
              && m.id in CreatedDb(db, m, c).matches && CreatedDb(db, m, c).matches[m.id] == m
    ensures ResultOf(db, m, c).AllocFailed? || ResultOf(db, m, c).Refused? ==> CreatedDb(db, m, c) == db
    ensures ResultOf(db, m, c).WriteFailed? || ResultOf(db, m, c).SendFailed? ==>
              (CreatedDb(db, m, c).allocs == db.allocs <==> c.release || m.requestIds == [])
    ensures !ResultOf(db, m, c).Created? && !ResultOf(db, m, c).SendFailed? ==> CreatedDb(db, m, c).matches == db.matches
    ensures ResultOf(db, m, c).SendFailed? ==>
              (CreatedDb(db, m, c).matches == db.matches <==>
               if c.drop then m.id !in db.matches else m.id in db.matches && db.matches[m.id] == m)
  {
    if ResultOf(db, m, c).SendFailed? {
      if m.id in db.matches {
        assert m.id !in db.matches - {m.id};
      } else {
        assert db.matches - {m.id} == db.matches;
      }
      if m.id in db.matches && db.matches[m.id] == m {
        assert db.matches[m.id := m] == db.matches;
      }
      assert m.id in db.matches[m.id := m] && db.matches[m.id := m][m.id] == m;
    }
    if m.requestIds == [] {
      TakenNothing(db.allocs, m);
    } else if P.Taken(db.allocs, m).Some? {
      assert m.requestIds[0] in Allocated(db, m) && m.requestIds[0] !in db.allocs;
    }
  }

  /** The allocations after the deferred release; a match without tickets needs no call. */
  function AfterRelease(allocs: map<string, string>, m: Match, c: Calls): map<string, string> {
    if c.release || m.requestIds == [] then P.Released(allocs, m) else allocs
  }

  /** What writing the record and announcing the match, or undoing them, make of a store that has the tickets taken. */
  function AnnouncedOr(db: Db, m: Match, c: Calls): Db {
    if !c.write then db.(allocs := AfterRelease(db.allocs, m, c))
    else if !c.send then
      db.(allocs := AfterRelease(db.allocs, m, c), matches := if c.drop then db.matches - {m.id} else db.matches[m.id := m])
    else db.(matches := db.matches[m.id := m])
  }

  /** Taking the tickets comes first: either that ends the creation, or it leaves the store with them taken. */
  lemma AllocatedDb(db: Db, m: Match, c: Calls)
    ensures ResultOf(db, m, c).AllocFailed? || ResultOf(db, m, c).Refused? ==> CreatedDb(db, m, c) == db
    ensures m.requestIds == [] ==> Allocated(db, m) == db.allocs
  {
    if m.requestIds == [] {
      TakenNothing(db.allocs, m);
    }
  }

  lemma AnnouncedDb(db: Db, m: Match, c: Calls)
    requires !ResultOf(db, m, c).AllocFailed? && !ResultOf(db, m, c).Refused?
    ensures CreatedDb(db, m, c) == AnnouncedOr(db.(allocs := Allocated(db, m)), m, c)
  {
    if m.requestIds == [] {
      TakenNothing(db.allocs, m);
      assert P.Released(db.allocs, m) == db.allocs;
    } else {
      TakenReleased(db.allocs, m);
    }
  }

  /** Which way a creation ends, by the calls and by whether one of the tickets is taken already. */
  lemma ResultMeans(db: Db, m: Match, c: Calls)
    ensures ResultOf(db, m, c).AllocFailed? <==> m.requestIds != [] && !c.alloc
    ensures ResultOf(db, m, c).Refused? <==> c.alloc && exists id :: id in m.requestIds && id in db.allocs
    ensures ResultOf(db, m, c).Created? <==>
              c.write && c.send && (m.requestIds == [] || (c.alloc && forall id :: id in m.requestIds ==> id !in db.allocs))
    ensures ResultOf(db, m, c).WriteFailed? <==>
              !c.write && (m.requestIds == [] || (c.alloc && forall id :: id in m.requestIds ==> id !in db.allocs))
  {
    P.TakenMeans(db.allocs, m);
  }

  // ---- The same calls as steps of the protocol ----

  /** The action that makes the matcher's next call while it creates a match. */
  function NextCall(ms: P.MatcherState, c: Calls): P.Action {
    match ms
    case Allocating(_) => P.Allocate(c.alloc)
    case Writing(_) => P.WriteRecord(c.write)
    case Sending(_) => P.SendMatch(c.send)
    case DroppingRecord(_) => P.DropRecord(c.drop)
    case _ => P.Release(c.release)
  }

  function Remaining(ms: P.MatcherState): nat {
    match ms
    case Allocating(_) => 5
    case Writing(_) => 4
    case Sending(_) => 3
    case DroppingRecord(_) => 2
    case Releasing(_) => 1
    case _ => 0
  }

  /** The matcher's steps, taken without interruption until the match is created or given up. */
  function Alone(w: P.Store, p: P.Proc, c: Calls): P.Outcome
    requires p.Matcher?
    decreases Remaining(p.ms)
  {
    if Remaining(p.ms) == 0 then P.Outcome(w, p, [])
    else
      var o := P.MatcherAct(w, p, NextCall(p.ms, c), None);
      var rest := Alone(o.w, o.proc, c);
      P.Outcome(rest.w, rest.proc, o.out + rest.out)
  }

  function DbOf(w: P.Store): Db {
    Db(w.docs, w.allocs, w.matches)
  }

  lemma AloneFromReleasing(w: P.Store, p: P.Proc, m: Match, c: Calls)
    requires p.Matcher? && p.ms == P.Releasing(m)
    ensures Alone(w, p, c) == P.Outcome(w.(allocs := AfterRelease(w.allocs, m, c)), P.Fail(p, m), [])
  {
    if m.requestIds == [] {
      assert P.Released(w.allocs, m) == w.allocs;
    }
    assert w.(allocs := w.allocs) == w;
  }

  lemma AloneFromDropping(w: P.Store, p: P.Proc, m: Match, c: Calls)
    requires p.Matcher? && p.ms == P.DroppingRecord(m)
    ensures var matches := if c.drop then w.matches - {m.id} else w.matches;
            Alone(w, p, c) == P.Outcome(w.(allocs := AfterRelease(w.allocs, m, c), matches := matches), P.Fail(p, m), [])
  {
    var o := P.MatcherAct(w, p, P.DropRecord(c.drop), None);
    AloneFromReleasing(o.w, o.proc, m, c);
    assert P.Fail(o.proc, m) == P.Fail(p, m);
  }

  lemma AloneFromSending(w: P.Store, p: P.Proc, m: Match, c: Calls)
    requires p.Matcher? && p.ms == P.Sending(m)
    ensures var o := Alone(w, p, c);
            if c.send
            then DbOf(o.w) == DbOf(w) && o.out == [P.MatchEnvelope(m.id)] && o.proc.Matcher? && o.proc.ms == P.Streaming
            else DbOf(o.w) == DbOf(w).(allocs := AfterRelease(w.allocs, m, c), matches := if c.drop then w.matches - {m.id} else w.matches)
                 && o.out == [] && o.proc == P.Fail(p, m)
  {
    var o := P.MatcherAct(w, p, P.SendMatch(c.send), None);
    if !c.send {
      AloneFromDropping(o.w, o.proc, m, c);
      assert P.Fail(o.proc, m) == P.Fail(p, m);
    } else {
      assert Alone(o.w, o.proc, c) == P.Outcome(o.w, o.proc, []);
    }
  }

  lemma AloneFromWriting(w: P.Store, p: P.Proc, m: Match, c: Calls)
    requires p.Matcher? && p.ms == P.Writing(m)
    ensures var o := Alone(w, p, c);
            && DbOf(o.w) == AnnouncedOr(DbOf(w), m, c)
            && o.out == (if c.write && c.send then [P.MatchEnvelope(m.id)] else [])
            && o.proc.Matcher? && o.proc.ms == (if c.write && c.send then P.Streaming else P.Fail(p, m).ms)
  {
    var o := P.MatcherAct(w, p, P.WriteRecord(c.write), None);
    if c.write {
      assert w.matches[m.id := m] - {m.id} == w.matches - {m.id};
      AloneFromSending(o.w, o.proc, m, c);
    } else {
      AloneFromReleasing(o.w, o.proc, m, c);
    }
    assert P.Fail(o.proc, m) == P.Fail(p, m);
  }

  lemma AllocateStep(w: P.Store, p: P.Proc, m: Match, c: Calls)
    requires p.Matcher? && p.ms == P.Allocating(m)
    ensures var r := ResultOf(DbOf(w), m, c);
            P.MatcherAct(w, p, P.Allocate(c.alloc), None)
            == if r.AllocFailed? || r.Refused? then P.Outcome(w, P.Fail(p, m), [])
               else P.Outcome(w.(allocs := Allocated(DbOf(w), m)), p.(ms := P.Writing(m)), [])
  {
    if m.requestIds == [] {
      TakenNothing(w.allocs, m);
      assert w.(allocs := w.allocs) == w;
    }
  }

  /** Uninterrupted, the protocol's steps come to what CreateMatch does, whichever calls get through. */
  lemma CreateMatchIsSteps(w: P.Store, p: P.Proc, m: Match, c: Calls)
    requires p.Matcher? && p.ms == P.Allocating(m)
    ensures var o := Alone(w, p, c);
            var created := ResultOf(DbOf(w), m, c).Created?;
            && DbOf(o.w) == CreatedDb(DbOf(w), m, c)
            && o.out == (if created then [P.MatchEnvelope(m.id)] else [])
            && o.proc.Matcher?
            && o.proc.ms == (if created then P.Streaming else P.Fail(p, m).ms)
  {
    AllocateStep(w, p, m, c);
    AllocatedDb(DbOf(w), m, c);
    var o := P.MatcherAct(w, p, P.Allocate(c.alloc), None);
    var r := ResultOf(DbOf(w), m, c);
    if r.AllocFailed? || r.Refused? {
      assert Alone(o.w, o.proc, c) == P.Outcome(o.w, o.proc, []);
    } else {
      AllocatedIsSteps(w, p, m, c);
      assert Alone(w, p, c) == Alone(o.w, o.proc, c);
    }
  }

  lemma AllocatedIsSteps(w: P.Store, p: P.Proc, m: Match, c: Calls)
    requires p.Matcher? && p.ms == P.Allocating(m)
    requires var r := ResultOf(DbOf(w), m, c); !r.AllocFailed? && !r.Refused?
    ensures var o := Alone(w.(allocs := Allocated(DbOf(w), m)), p.(ms := P.Writing(m)), c);
            && DbOf(o.w) == CreatedDb(DbOf(w), m, c)
            && o.out == (if c.write && c.send then [P.MatchEnvelope(m.id)] else [])
            && o.proc.Matcher?
            && o.proc.ms == (if c.write && c.send then P.Streaming else P.Fail(p, m).ms)
  {
    var q := p.(ms := P.Writing(m));
    AnnouncedDb(DbOf(w), m, c);
    AloneFromWriting(w.(allocs := Allocated(DbOf(w), m)), q, m, c);
    assert P.Fail(q, m) == P.Fail(p, m);
  }

  class Manager {
    const tickets: Tickets.Manager
    const store: Store
    const stream: Stream

    constructor (tickets: Tickets.Manager, store: Store, stream: Stream)
      ensures this.tickets == tickets && this.store == store && this.stream == stream
    {
      this.tickets := tickets;
      this.store := store;
      this.stream := stream;
    }

    /** Takes the tickets, stores the record, announces the match; undoes in reverse order what went before a failure. */
    method CreateMatch(m: Match, xid: string, c: Calls) returns (named: Match, successful: bool, err: bool)
      requires store.Valid() && tickets.store == store && tickets.stream == stream
      modifies store, store.kv, stream
      ensures store.Valid()
      ensures named == P.MatchWithId(m, xid)
      ensures var r := ResultOf(old(store.db), named, c);
              && successful == r.Created?
              && err == (r.AllocFailed? || r.WriteFailed? || r.SendFailed?)
              && store.db == CreatedDb(old(store.db), named, c)
              && stream.sent == old(stream.sent) + (if r.Created? then [P.MatchEnvelope(named.id)] else [])
      ensures named.id == (if |m.id| > 0 then m.id else xid) && named.requestIds == m.requestIds
      ensures successful <==>
                c.write && c.send
                && (m.requestIds == [] || (c.alloc && forall id :: id in m.requestIds ==> id !in old(store.db).allocs))
      ensures successful ==> forall id :: id in m.requestIds ==> id in store.db.allocs && store.db.allocs[id] == named.id
      ensures successful ==> named.id in store.db.matches && store.db.matches[named.id] == named
      ensures successful ==> stream.sent == old(stream.sent) + [P.Envelope(UNASSIGNED_MATCHES, P.MatchPayload(named.id))]
      ensures err <==> !successful && !(c.alloc && exists id :: id in m.requestIds && id in old(store.db).allocs)
    {
      named := if |m.id| == 0 then m.(id := xid) else m;
      ghost var before := store.db;
      AllocatedDb(before, named, c);
      ResultMeans(before, named, c);
      AllOrNothing(before, named, c);
      var taken, ok := tickets.AssignMatchRequestsToMatch(named, c.alloc);
      if !ok {
        return named, false, true;
      }
      if !taken {
        return named, false, false;
      }
      successful := Announce(named, c);
      err := !successful;
      AnnouncedDb(before, named, c);
    }

    /** The part of CreateMatch after the tickets are taken. */
    method Announce(m: Match, c: Calls) returns (sent: bool)
      requires store.Valid() && tickets.store == store && tickets.stream == stream
      modifies store, store.kv, stream
      ensures store.Valid()
      ensures sent == (c.write && c.send)
      ensures store.db == AnnouncedOr(old(store.db), m, c)
      ensures stream.sent == old(stream.sent) + (if sent then [P.MatchEnvelope(m.id)] else [])
    {
      ghost var before := store.db;
      var wrote := store.SetMatch(m, c.write);
      sent := false;
      if wrote {
        sent := stream.SendMessage(UNASSIGNED_MATCHES, P.MatchPayload(m.id), c.send);
      }
      if !sent {
        assert before.matches[m.id := m] - {m.id} == before.matches - {m.id};
        Undo(m, wrote, c);
      }
    }

    /** The deferred calls of a failed creation, last in first out. */
    method Undo(m: Match, wrote: bool, c: Calls)
      requires store.Valid() && tickets.store == store
      modifies store, store.kv
      ensures store.Valid()
      ensures store.db == old(store.db).(
        allocs := AfterRelease(old(store.db).allocs, m, c),
        matches := if wrote && c.drop then old(store.db).matches - {m.id} else old(store.db).matches)
    {
      if wrote {
        var dropped := store.DelMatch(m.id, c.drop);
      }
      var released := tickets.ReleaseMatchRequestsFromMatch(m, c.release);
    }

    /** Looks a match up until the store answers; a record that is not there is an error like any other. */
    method GetMatch(matchId: string, attempts: seq<bool>) returns (m: Option<Match>)
      requires store.Valid()
      ensures m == if Tickets.Eventually(attempts) && matchId in store.db.matches then Some(store.db.matches[matchId]) else None
    {
      m := None;
      var i := 0;
      while i < |attempts| && m.None?
        invariant i <= |attempts|
        invariant m == if true in attempts[..i] && matchId in store.db.matches then Some(store.db.matches[matchId]) else None
      {
        assert attempts[..i + 1] == attempts[..i] + [attempts[i]];
        var got := store.GetMatch(matchId, attempts[i]);
        if got.Found? {
          m := Some(got.value);
        }
        i := i + 1;
      }
      assert attempts == attempts[..i] + attempts[i..];
    }

    method Requeue(matchId: string, up: bool) returns (ok: bool)
      modifies stream
      ensures ok == up
      ensures stream.sent == if ok then old(stream.sent) + [P.MatchEnvelope(matchId)] else old(stream.sent)
    {
      ok := stream.SendMessage(UNASSIGNED_MATCHES, P.MatchPayload(matchId), up);
    }
  }
}
