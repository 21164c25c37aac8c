/** The protocol's matcher does what the handler's specification says, whatever runs in between: each of its
    steps may find a different store, and yet what it publishes for a batch is what Matcher.MakeMatches
    promises, with the same matches, snapshots and orders. */
module Refinement {
  import opened Records
  import opened TicketLists
  import opened Matcher
  import opened P = Protocol
  import opened Invariants

  /** One step of a matcher: the store other processes left it with, and the action. */
  datatype Turn = Turn(w: Store, a: Action)

  /** The matcher after some steps, with the messages it sent. */
  function After(p: Proc, turns: seq<Turn>): (r: (Proc, seq<Envelope>))
    requires p.Matcher?
    ensures r.0.Matcher?
  {
    if turns == [] then (p, [])
    else
      var last := turns[|turns| - 1];
      var (q, out) := After(p, turns[..|turns| - 1]);
      var o := MatcherAct(last.w, q, last.a, None);
      (o.proc, out + o.out)
  }

  ghost predicate Allowed(p: Proc, turns: seq<Turn>)
    requires p.Matcher?
  {
    turns == [] ||
    (var last := turns[|turns| - 1];
     Allowed(p, turns[..|turns| - 1]) && Assumed(last.w, After(p, turns[..|turns| - 1]).0, last.a))
  }

  /** A matcher that begins with the documents it fetched. */
  function Begin(queue: string, start: seq<MatchRequest>): (p: Proc)
    ensures p.Matcher?
  {
    Matcher(queue, start, LiveMap(start), Streaming, {})
  }

  /** The matches the matchmaker yielded. */
  function Yields(p: Proc, turns: seq<Turn>): seq<Match>
    requires p.Matcher?
  {
    if turns == [] then []
    else
      var last := turns[|turns| - 1];
      Yields(p, turns[..|turns| - 1]) + YieldOf(After(p, turns[..|turns| - 1]).0, last)
  }

  function YieldOf(p: Proc, t: Turn): seq<Match>
    requires p.Matcher?
  {
    if p.ms.Streaming? && t.a.Yield? then [MatchWithId(t.a.m, t.a.xid)] else []
  }

  /** What is assumed of everything but the matchmaker's choice of tickets. */
  ghost predicate Orderly(p: Proc, turns: seq<Turn>)
    requires p.Matcher?
  {
    turns == [] ||
    (var last := turns[|turns| - 1];
     && Orderly(p, turns[..|turns| - 1])
     && if last.a.Yield? then MatchWithId(last.a.m, last.a.xid).id !in last.w.used
        else Assumed(last.w, After(p, turns[..|turns| - 1]).0, last.a))
  }

  /** The tickets among the messages sent. */
  function TicketsIn(out: seq<Envelope>): seq<StreamTicket> {
    if out == [] then []
    else TicketsIn(out[..|out| - 1]) + match out[|out| - 1].payload case TicketPayload(t) => [t] case _ => []
  }

  /** The matches announced among them. */
  function MatchesIn(out: seq<Envelope>): seq<string> {
    if out == [] then []
    else MatchesIn(out[..|out| - 1]) + match out[|out| - 1].payload case MatchPayload(x) => [x] case _ => []
  }

  function CreatedIds(found: seq<Yielded>): seq<string> {
    if found == [] then []
    else CreatedIds(found[..|found| - 1]) + if found[|found| - 1].created then [found[|found| - 1].m.id] else []
  }

  lemma SentAppend(out: seq<Envelope>, more: seq<Envelope>)
    requires |more| <= 1
    ensures TicketsIn(out + more) == TicketsIn(out) + TicketsIn(more)
    ensures MatchesIn(out + more) == MatchesIn(out) + MatchesIn(more)
  {
    if more == [] {
      assert out + more == out;
    } else {
      assert (out + more)[..|out|] == out;
      assert more[..0] == [];
    }
  }

  lemma {:induction false} LiveAppend(live: map<string, StreamTicket>, found: seq<Yielded>, y: Yielded)
    ensures LiveAfter(live, found + [y]) == if y.created then LiveAfter(live, found) - IdSet(y.m) else LiveAfter(live, found)
  {
    if found == [] {
      assert found + [y] == [y] && [y][1..] == [];
    } else {
      LiveAppend(if found[0].created then live - IdSet(found[0].m) else live, found[1..], y);
      assert (found + [y])[1..] == found[1..] + [y];
    }
  }

  /** What one more match adds to what the failed matches publish again. */
  function Again(live: map<string, StreamTicket>, y: Yielded): seq<StreamTicket> {
    if y.created then [] else Unallocated(TicketsOf(live, y.m.requestIds), y.taken)
  }

  lemma {:induction false} RequeuedAppend(live: map<string, StreamTicket>, found: seq<Yielded>, y: Yielded)
    ensures RequeuedBy(live, found + [y]) == RequeuedBy(live, found) + Again(LiveAfter(live, found), y)
  {
    if found == [] {
      assert found + [y] == [y] && [y][1..] == [];
    } else {
      RequeuedAppend(if found[0].created then live - IdSet(found[0].m) else live, found[1..], y);
      assert (found + [y])[1..] == found[1..] + [y];
    }
  }

  lemma CreatedAppend(found: seq<Yielded>, y: Yielded)
    ensures CreatedIds(found + [y]) == CreatedIds(found) + if y.created then [y.m.id] else []
  {
    assert (found + [y])[..|found|] == found;
  }

  /** What the matcher has been through: the matches yielded so far with their outcomes, the one that just
      failed, how the stream ended, and the snapshots and the order of the requeues at the end. */
  datatype Log = Log(found: seq<Yielded>, failed: Option<Match>, streamOk: bool,
                     takenAll: set<string>, takenEnd: set<string>, order: seq<string>)

  /** How far a batch has come: what was published, and what is about to be, is accounted for by the log. */
  ghost predicate Follows(start: seq<MatchRequest>, p: Proc, tickets: seq<StreamTicket>, announced: seq<string>, log: Log)
    requires p.Matcher?
  {
    var live := LiveAfter(LiveMap(start), log.found);
    var made := RequeuedBy(LiveMap(start), log.found);
    var all := made + if log.streamOk then [] else Unallocated(RefsOf(start), log.takenAll);
    && announced == CreatedIds(log.found)
    && match p.ms
       case Idle => IsRequeued(start, log.found, log.streamOk, log.takenAll, log.takenEnd, log.order, tickets)
       case Fetching(_) => false
       case Reading(ts, Resume) =>
         p.subs == start && p.live == live && tickets == made
         && log.failed.Some? && ts == TicketsOf(live, log.failed.value.requestIds)
       case Publishing(ts, Resume) => p.subs == start && p.live == live && tickets + ts == made
       case Reading(ts, Wrap) => p.live == live && tickets == made && !log.streamOk && ts == RefsOf(start)
       case Publishing(ts, Wrap) => p.live == live && tickets + ts == all
       case Wrapping => p.live == live && tickets == all
       case Reading(ts, Rest) => IsOrdering(log.order, live.Keys) && tickets == all && ts == TicketsOf(live, log.order)
       case Publishing(ts, Rest) =>
         IsOrdering(log.order, live.Keys) && tickets + ts == all + Unallocated(TicketsOf(live, log.order), log.takenEnd)
       case _ => p.subs == start && p.live == live && tickets == made
  }

  /** The log after a step. */
  function Logged(p: Proc, t: Turn, log: Log): Log
    requires p.Matcher?
  {
    match (p.ms, t.a)
    case (Allocating(m), Allocate(_)) => log.(failed := Some(m))
    case (Releasing(m), Release(_)) => log.(failed := Some(m))
    case (Sending(m), SendMatch(ok)) => if ok then log.(found := log.found + [Yielded(m, true, {})]) else log
    case (Reading(_, Resume), ReadAllocations) =>
      if log.failed.Some? then log.(found := log.found + [Yielded(log.failed.value, false, t.w.allocs.Keys)]) else log
    case (Streaming, EndStream(ok)) => log.(streamOk := ok)
    case (Reading(_, Wrap), ReadAllocations) => log.(takenAll := t.w.allocs.Keys)
    case (Wrapping, FinalRequeue(order)) => log.(order := order)
    case (Reading(_, Rest), ReadAllocations) => log.(takenEnd := t.w.allocs.Keys)
    case _ => log
  }

  lemma OneSent(e: Envelope)
    ensures TicketsIn([e]) == match e.payload case TicketPayload(t) => [t] case _ => []
    ensures MatchesIn([e]) == match e.payload case MatchPayload(x) => [x] case _ => []
  {
    assert [e][..0] == [];
  }

  /** The log accounts for the matcher after a step, with what the step sent. */
  ghost predicate StillFollows(start: seq<MatchRequest>, o: Outcome, tickets: seq<StreamTicket>, announced: seq<string>, log: Log)
    requires o.proc.Matcher?
  {
    |o.out| <= 1 && Follows(start, o.proc, tickets + TicketsIn(o.out), announced + MatchesIn(o.out), log)
  }

  lemma SilentFollows(start: seq<MatchRequest>, o: Outcome, tickets: seq<StreamTicket>, announced: seq<string>, log: Log)
    requires o.proc.Matcher? && o.out == [] && Follows(start, o.proc, tickets, announced, log)
    ensures StillFollows(start, o, tickets, announced, log)
  {
    assert tickets + [] == tickets && announced + [] == announced;
  }

  lemma CommitFollows(start: seq<MatchRequest>, p: Proc, tickets: seq<StreamTicket>, announced: seq<string>, log: Log, t: Turn)
    requires p.Matcher? && Follows(start, p, tickets, announced, log) && p.ms.Sending? && t.a == SendMatch(true)
    ensures StillFollows(start, MatcherAct(t.w, p, t.a, None), tickets, announced, Logged(p, t, log))
  {
    var y := Yielded(p.ms.m, true, {});
    LiveAppend(LiveMap(start), log.found, y);
    RequeuedAppend(LiveMap(start), log.found, y);
    CreatedAppend(log.found, y);
    OneSent(MatchEnvelope(p.ms.m.id));
    assert tickets + [] == tickets;
  }

  lemma OutcomeLog(p: Proc, t: Turn, log: Log)
    requires p.Matcher? && p.ms.Reading? && p.ms.next.Resume? && t.a.ReadAllocations? && log.failed.Some?
    ensures Logged(p, t, log) == log.(found := log.found + [Yielded(log.failed.value, false, t.w.allocs.Keys)])
    ensures MatcherAct(t.w, p, t.a, None)
            == Outcome(t.w, p.(ms := Publishing(Unallocated(p.ms.tickets, t.w.allocs.Keys), Resume)), [])
  {
  }

  lemma FailedIsLogged(start: seq<MatchRequest>, p: Proc, tickets: seq<StreamTicket>, announced: seq<string>, log: Log)
    requires p.Matcher? && p.ms.Reading? && p.ms.next.Resume? && Follows(start, p, tickets, announced, log)
    ensures log.failed.Some?
  {
  }

  lemma OutcomeFollows(start: seq<MatchRequest>, p: Proc, tickets: seq<StreamTicket>, announced: seq<string>, log: Log, t: Turn)
    requires p.Matcher? && Follows(start, p, tickets, announced, log) && p.ms.Reading? && t.a.ReadAllocations? && p.ms.next.Resume?
    ensures Follows(start, MatcherAct(t.w, p, t.a, None).proc, tickets, announced, Logged(p, t, log))
  {
    FailedIsLogged(start, p, tickets, announced, log);
    var y := Yielded(log.failed.value, false, t.w.allocs.Keys);
    LiveAppend(LiveMap(start), log.found, y);
    RequeuedAppend(LiveMap(start), log.found, y);
    CreatedAppend(log.found, y);
    FollowsOutcome(start, p, tickets, announced, log, y);
    OutcomeLog(p, t, log);
  }

  lemma FollowsOutcome(start: seq<MatchRequest>, p: Proc, tickets: seq<StreamTicket>, announced: seq<string>, log: Log, y: Yielded)
    requires p.Matcher? && p.ms.Reading? && p.ms.next.Resume? && Follows(start, p, tickets, announced, log)
    requires !y.created && log.failed == Some(y.m)
    requires LiveAfter(LiveMap(start), log.found + [y]) == LiveAfter(LiveMap(start), log.found)
    requires RequeuedBy(LiveMap(start), log.found + [y])
             == RequeuedBy(LiveMap(start), log.found) + Again(LiveAfter(LiveMap(start), log.found), y)
    requires CreatedIds(log.found + [y]) == CreatedIds(log.found) + []
    ensures Follows(start, p.(ms := Publishing(Unallocated(p.ms.tickets, y.taken), Resume)), tickets, announced,
                    log.(found := log.found + [y]))
  {
  }

  lemma EndSnapshotFollows(start: seq<MatchRequest>, p: Proc, tickets: seq<StreamTicket>, announced: seq<string>, log: Log, t: Turn)
    requires p.Matcher? && Follows(start, p, tickets, announced, log) && p.ms.Reading? && t.a.ReadAllocations? && !p.ms.next.Resume?
    ensures Follows(start, MatcherAct(t.w, p, t.a, None).proc, tickets, announced, Logged(p, t, log))
  {
  }

  lemma SnapshotFollows(start: seq<MatchRequest>, p: Proc, tickets: seq<StreamTicket>, announced: seq<string>, log: Log, t: Turn)
    requires p.Matcher? && Follows(start, p, tickets, announced, log) && p.ms.Reading? && t.a.ReadAllocations?
    ensures StillFollows(start, MatcherAct(t.w, p, t.a, None), tickets, announced, Logged(p, t, log))
  {
    if p.ms.next.Resume? {
      OutcomeFollows(start, p, tickets, announced, log, t);
    } else {
      EndSnapshotFollows(start, p, tickets, announced, log, t);
    }
    SilentFollows(start, MatcherAct(t.w, p, t.a, None), tickets, announced, Logged(p, t, log));
  }

  lemma PublishFollows(start: seq<MatchRequest>, p: Proc, tickets: seq<StreamTicket>, announced: seq<string>, log: Log, t: Turn)
    requires p.Matcher? && Follows(start, p, tickets, announced, log) && p.ms.Publishing? && t.a.Republish?
    requires p.ms.tickets != []
    ensures StillFollows(start, MatcherAct(t.w, p, t.a, None), tickets, announced, log)
  {
    var ts := p.ms.tickets;
    assert tickets + ts == (tickets + [ts[0]]) + ts[1..];
    OneSent(TicketEnvelope(ts[0]));
    assert announced + [] == announced;
  }

  lemma PublishedFollows(start: seq<MatchRequest>, p: Proc, tickets: seq<StreamTicket>, announced: seq<string>, log: Log, t: Turn)
    requires p.Matcher? && Follows(start, p, tickets, announced, log) && p.ms.Publishing? && t.a.Republish?
    requires p.ms.tickets == []
    ensures StillFollows(start, MatcherAct(t.w, p, t.a, None), tickets, announced, log)
  {
    assert tickets + p.ms.tickets == tickets;
    SilentFollows(start, MatcherAct(t.w, p, t.a, None), tickets, announced, log);
  }

  lemma NothingToOrder(order: seq<string>, s: set<string>)
    requires IsOrdering(order, s)
    ensures order == [] <==> s == {}
  {
    if order != [] {
      assert order[0] in s;
    }
  }

  lemma EndFollows(start: seq<MatchRequest>, p: Proc, tickets: seq<StreamTicket>, announced: seq<string>, log: Log, t: Turn)
    requires p.Matcher? && Follows(start, p, tickets, announced, log) && Assumed(t.w, p, t.a)
    requires (p.ms.Streaming? && t.a.EndStream?) || (p.ms.Wrapping? && t.a.FinalRequeue?)
    ensures StillFollows(start, MatcherAct(t.w, p, t.a, None), tickets, announced, Logged(p, t, log))
  {
    if p.ms.Streaming? {
      var made := RequeuedBy(LiveMap(start), log.found);
      assert made + [] == made;
    } else if p.live == map[] {
      NothingToOrder(t.a.order, p.live.Keys);
    }
    SilentFollows(start, MatcherAct(t.w, p, t.a, None), tickets, announced, Logged(p, t, log));
  }

  lemma NothingApplies(p: Proc, t: Turn, log: Log)
    requires p.Matcher? && (p.ms.Idle? || p.ms.Reading? || p.ms.Publishing? || p.ms.Wrapping?)
    requires !(p.ms.Reading? && t.a.ReadAllocations?) && !(p.ms.Publishing? && t.a.Republish?)
             && !(p.ms.Wrapping? && t.a.FinalRequeue?)
    ensures MatcherAct(t.w, p, t.a, None) == Outcome(t.w, p, []) && Logged(p, t, log) == log
  {
  }

  /** A match given up: its tickets, looked up in the map, are about to be published again. */
  lemma GivenUpFollows(start: seq<MatchRequest>, p: Proc, tickets: seq<StreamTicket>, announced: seq<string>, log: Log, m: Match)
    requires p.Matcher? && (p.ms == Allocating(m) || p.ms == Releasing(m)) && Follows(start, p, tickets, announced, log)
    ensures Follows(start, Fail(p, m), tickets, announced, log.(failed := Some(m)))
  {
  }

  lemma ProceedFollows(start: seq<MatchRequest>, p: Proc, tickets: seq<StreamTicket>, announced: seq<string>, log: Log, m: Match)
    requires p.Matcher? && p.ms == Allocating(m) && Follows(start, p, tickets, announced, log)
    ensures Follows(start, p.(ms := Writing(m)), tickets, announced, log.(failed := Some(m)))
  {
  }

  lemma FailFollows(start: seq<MatchRequest>, p: Proc, tickets: seq<StreamTicket>, announced: seq<string>, log: Log, t: Turn)
    requires p.Matcher? && Follows(start, p, tickets, announced, log)
    requires (p.ms.Allocating? && t.a.Allocate?) || (p.ms.Releasing? && t.a.Release?)
    ensures var o := MatcherAct(t.w, p, t.a, None);
            o.out == [] && Follows(start, o.proc, tickets, announced, Logged(p, t, log))
  {
    GivenUpFollows(start, p, tickets, announced, log, p.ms.m);
    if p.ms.Allocating? {
      ProceedFollows(start, p, tickets, announced, log, p.ms.m);
    }
  }

  /** The other steps on the way to a match leave the map and the log alone. */
  lemma CreatingFollows(start: seq<MatchRequest>, p: Proc, tickets: seq<StreamTicket>, announced: seq<string>, log: Log, t: Turn)
    requires p.Matcher? && Follows(start, p, tickets, announced, log)
    requires !p.ms.Idle? && !p.ms.Reading? && !p.ms.Publishing? && !p.ms.Wrapping?
    requires !(p.ms.Sending? && t.a == SendMatch(true)) && !(p.ms.Streaming? && t.a.EndStream?)
    requires !(p.ms.Allocating? && t.a.Allocate?) && !(p.ms.Releasing? && t.a.Release?)
    ensures var o := MatcherAct(t.w, p, t.a, None);
            o.out == [] && Follows(start, o.proc, tickets, announced, Logged(p, t, log))
  {
  }

  lemma OtherFollows(start: seq<MatchRequest>, p: Proc, tickets: seq<StreamTicket>, announced: seq<string>, log: Log, t: Turn)
    requires p.Matcher? && Follows(start, p, tickets, announced, log)
    requires !(p.ms.Sending? && t.a == SendMatch(true)) && !(p.ms.Reading? && t.a.ReadAllocations?)
             && !(p.ms.Publishing? && t.a.Republish?)
             && !(p.ms.Streaming? && t.a.EndStream?) && !(p.ms.Wrapping? && t.a.FinalRequeue?)
    ensures StillFollows(start, MatcherAct(t.w, p, t.a, None), tickets, announced, Logged(p, t, log))
  {
    if p.ms.Idle? || p.ms.Reading? || p.ms.Publishing? || p.ms.Wrapping? {
      NothingApplies(p, t, log);
    } else if (p.ms.Allocating? && t.a.Allocate?) || (p.ms.Releasing? && t.a.Release?) {
      FailFollows(start, p, tickets, announced, log, t);
    } else {
      CreatingFollows(start, p, tickets, announced, log, t);
    }
    SilentFollows(start, MatcherAct(t.w, p, t.a, None), tickets, announced, Logged(p, t, log));
  }

  lemma StepFollows(start: seq<MatchRequest>, p: Proc, tickets: seq<StreamTicket>, announced: seq<string>, log: Log, t: Turn)
    requires p.Matcher? && Follows(start, p, tickets, announced, log) && Assumed(t.w, p, t.a)
    ensures StillFollows(start, MatcherAct(t.w, p, t.a, None), tickets, announced, Logged(p, t, log))
  {
    if p.ms.Sending? && t.a == SendMatch(true) {
      CommitFollows(start, p, tickets, announced, log, t);
    } else if p.ms.Reading? && t.a.ReadAllocations? {
      SnapshotFollows(start, p, tickets, announced, log, t);
    } else if p.ms.Publishing? && t.a.Republish? {
      assert Logged(p, t, log) == log;
      if p.ms.tickets == [] {
        PublishedFollows(start, p, tickets, announced, log, t);
      } else {
        PublishFollows(start, p, tickets, announced, log, t);
      }
    } else if (p.ms.Streaming? && t.a.EndStream?) || (p.ms.Wrapping? && t.a.FinalRequeue?) {
      EndFollows(start, p, tickets, announced, log, t);
    } else {
      OtherFollows(start, p, tickets, announced, log, t);
    }
  }

  // ---- Nil tickets ----

  /** The match being created, or just given up. */
  function InProgress(p: Proc, log: Log): seq<Match>
    requires p.Matcher?
  {
    match p.ms
    case Allocating(m) => [m]
    case Writing(m) => [m]
    case Sending(m) => [m]
    case DroppingRecord(m) => [m]
    case Releasing(m) => [m]
    case Reading(_, next) => if next.Resume? && log.failed.Some? then [log.failed.value] else []
    case _ => []
  }

  /** The matchmaker's stream has not ended. */
  predicate Open(ms: MatcherState) {
    match ms
    case Idle => false
    case Fetching(_) => false
    case Reading(_, next) => next.Resume?
    case Publishing(_, next) => next.Resume?
    case Wrapping => false
    case _ => true
  }

  predicate NamedIn(ms: seq<Match>, id: string) {
    exists k :: 0 <= k < |ms| && id in ms[k].requestIds
  }

  /** The matches yielded are those of the log and the one in progress; none of them looked up a nil ticket, and
      the one in progress will not. */
  ghost predicate Sound(start: seq<MatchRequest>, p: Proc, named: seq<Match>, log: Log)
    requires p.Matcher?
  {
    && !LooksUpNil(LiveMap(start), log.found)
    && named == MatchesOf(log.found) + InProgress(p, log)
    && (forall m, id :: m in InProgress(p, log) && id in m.requestIds ==> id in p.live)
    && (Open(p.ms) ==> p.subs == start && p.live == LiveAfter(LiveMap(start), log.found) && LiveOrMade(start, p.live, p.made))
    && (forall id :: id in p.made ==> NamedIn(named, id))
  }

  lemma {:induction false} NilAppend(live: map<string, StreamTicket>, found: seq<Yielded>, y: Yielded)
    requires !LooksUpNil(live, found)
    requires !y.created ==> forall id :: id in y.m.requestIds ==> id in LiveAfter(live, found)
    ensures !LooksUpNil(live, found + [y])
  {
    if found == [] {
      assert found + [y] == [y] && [y][1..] == [];
    } else {
      NilAppend(if found[0].created then live - IdSet(found[0].m) else live, found[1..], y);
      assert (found + [y])[1..] == found[1..] + [y];
    }
  }

  lemma NamedAppend(ms: seq<Match>, m: Match, id: string)
    ensures NamedIn(ms + [m], id) <==> NamedIn(ms, id) || id in m.requestIds
  {
    assert (ms + [m])[|ms|] == m;
    if k :| 0 <= k < |ms| && id in ms[k].requestIds {
      assert (ms + [m])[k] == ms[k];
    }
  }

  lemma YieldSound(start: seq<MatchRequest>, p: Proc, named: seq<Match>, log: Log, t: Turn)
    requires p.Matcher? && Sound(start, p, named, log) && Assumed(t.w, p, t.a) && p.ms.Streaming? && t.a.Yield?
    ensures Sound(start, MatcherAct(t.w, p, t.a, None).proc, named + YieldOf(p, t), Logged(p, t, log))
  {
    var m := MatchWithId(t.a.m, t.a.xid);
    forall id | id in p.made ensures NamedIn(named + [m], id) {
      NamedAppend(named, m, id);
    }
  }

  lemma OutcomeLogged(found: seq<Yielded>, y: Yielded)
    ensures MatchesOf(found + [y]) == MatchesOf(found) + [y.m]
  {
  }

  lemma CommitSound(start: seq<MatchRequest>, p: Proc, named: seq<Match>, log: Log, t: Turn)
    requires p.Matcher? && Sound(start, p, named, log) && p.ms.Sending? && t.a == SendMatch(true)
    ensures Sound(start, MatcherAct(t.w, p, t.a, None).proc, named, Logged(p, t, log))
  {
    var y := Yielded(p.ms.m, true, {});
    OutcomeLogged(log.found, y);
    NilAppend(LiveMap(start), log.found, y);
    LiveAppend(LiveMap(start), log.found, y);
    assert named == MatchesOf(log.found) + [p.ms.m];
    forall id | id in p.ms.m.requestIds ensures NamedIn(named, id) {
      NamedAppend(MatchesOf(log.found), p.ms.m, id);
    }
  }

  lemma SnapshotSound(start: seq<MatchRequest>, p: Proc, named: seq<Match>, log: Log, t: Turn)
    requires p.Matcher? && Sound(start, p, named, log) && p.ms.Reading? && p.ms.next.Resume? && t.a.ReadAllocations?
    requires log.failed.Some?
    ensures Sound(start, MatcherAct(t.w, p, t.a, None).proc, named, Logged(p, t, log))
  {
    var y := Yielded(log.failed.value, false, t.w.allocs.Keys);
    OutcomeLogged(log.found, y);
    assert y.m in InProgress(p, log);
    NilAppend(LiveMap(start), log.found, y);
    LiveAppend(LiveMap(start), log.found, y);
  }

  /** The step that leaves the batch's matches, map and outcomes alone, or ends the batch. */
  ghost predicate Quiet(p: Proc, q: Proc, log: Log, after: Log)
    requires p.Matcher? && q.Matcher?
  {
    && after.found == log.found && InProgress(q, after) == InProgress(p, log)
    && q.made <= p.made && (Open(q.ms) ==> Open(p.ms) && q.subs == p.subs && q.live == p.live && q.made == p.made)
    && (InProgress(p, log) != [] ==> q.live == p.live)
  }

  lemma CreatingQuiet(p: Proc, t: Turn, log: Log)
    requires p.Matcher? && !(p.ms.Sending? && t.a == SendMatch(true))
    requires p.ms.Allocating? || p.ms.Writing? || p.ms.Sending? || p.ms.DroppingRecord? || p.ms.Releasing?
    ensures Quiet(p, MatcherAct(t.w, p, t.a, None).proc, log, Logged(p, t, log))
  {
  }

  lemma EndingQuiet(p: Proc, t: Turn, log: Log)
    requires p.Matcher? && !(p.ms.Streaming? && t.a.Yield?) && !p.ms.Fetching?
    requires p.ms.Idle? || p.ms.Streaming? || p.ms.Reading? || p.ms.Publishing? || p.ms.Wrapping?
    requires !(p.ms.Reading? && p.ms.next.Resume? && t.a.ReadAllocations?)
    ensures Quiet(p, MatcherAct(t.w, p, t.a, None).proc, log, Logged(p, t, log))
  {
  }

  lemma StepSound(start: seq<MatchRequest>, p: Proc, named: seq<Match>, log: Log, t: Turn)
    requires p.Matcher? && Sound(start, p, named, log) && Assumed(t.w, p, t.a) && !p.ms.Fetching?
    requires p.ms.Reading? && p.ms.next.Resume? ==> log.failed.Some?
    ensures Sound(start, MatcherAct(t.w, p, t.a, None).proc, named + YieldOf(p, t), Logged(p, t, log))
  {
    assert named + [] == named;
    if p.ms.Streaming? && t.a.Yield? {
      YieldSound(start, p, named, log, t);
    } else if p.ms.Sending? && t.a == SendMatch(true) {
      CommitSound(start, p, named, log, t);
    } else if p.ms.Reading? && p.ms.next.Resume? && t.a.ReadAllocations? {
      SnapshotSound(start, p, named, log, t);
    } else {
      if p.ms.Idle? || p.ms.Streaming? || p.ms.Reading? || p.ms.Publishing? || p.ms.Wrapping? {
        EndingQuiet(p, t, log);
      } else {
        CreatingQuiet(p, t, log);
      }
      QuietIsSound(start, p, MatcherAct(t.w, p, t.a, None).proc, named, log, Logged(p, t, log));
    }
  }

  lemma QuietIsSound(start: seq<MatchRequest>, p: Proc, q: Proc, named: seq<Match>, log: Log, after: Log)
    requires p.Matcher? && q.Matcher? && Sound(start, p, named, log) && Quiet(p, q, log, after)
    ensures Sound(start, q, named, after)
  {
  }

  lemma BeginSound(queue: string, start: seq<MatchRequest>, log: Log)
    requires log.found == [] && log.failed.None?
    ensures Sound(start, Begin(queue, start), [], log)
  {
    LiveMapKeys(start);
  }

  // ---- Whole batches ----

  /** Any steps of a matcher that begins with the documents it fetched, up to any point: the log accounts for
      everything it sent and everything the matchmaker yielded. */
  lemma {:induction false} BatchFollows(queue: string, start: seq<MatchRequest>, turns: seq<Turn>) returns (log: Log)
    requires Allowed(Begin(queue, start), turns)
    ensures var (q, out) := After(Begin(queue, start), turns);
            Follows(start, q, TicketsIn(out), MatchesIn(out), log) && Sound(start, q, Yields(Begin(queue, start), turns), log)
  {
    if turns == [] {
      log := Log([], None, true, {}, {}, []);
      BeginSound(queue, start, log);
    } else {
      var front := turns[..|turns| - 1];
      var t := turns[|turns| - 1];
      log := BatchFollows(queue, start, front);
      var (q, out) := After(Begin(queue, start), front);
      StepFollows(start, q, TicketsIn(out), MatchesIn(out), log, t);
      StepSound(start, q, Yields(Begin(queue, start), front), log, t);
      SentAppend(out, MatcherAct(t.w, q, t.a, None).out);
      log := Logged(q, t, log);
    }
  }

  /** Once the matcher is idle again, the matches yielded are those of the log, no nil ticket was looked up, and
      each ticket fetched is in a match announced, was published again, or was found allocated in the last snapshot. */
  lemma FinishedBatchIsDischarged(queue: string, start: seq<MatchRequest>, turns: seq<Turn>, id: string) returns (log: Log)
    requires Allowed(Begin(queue, start), turns) && Lists(start, id)
    requires After(Begin(queue, start), turns).0.ms.Idle?
    ensures var (q, out) := After(Begin(queue, start), turns);
            && IsRequeued(start, log.found, log.streamOk, log.takenAll, log.takenEnd, log.order, TicketsIn(out))
            && MatchesIn(out) == CreatedIds(log.found)
            && MatchesOf(log.found) == Yields(Begin(queue, start), turns)
            && !LooksUpNil(LiveMap(start), log.found)
            && (|| (exists k :: 0 <= k < |log.found| && log.found[k].created && id in log.found[k].m.requestIds)
                || Mentions(TicketsIn(out), id)
                || id in log.takenEnd)
  {
    log := BatchFollows(queue, start, turns);
    var (q, out) := After(Begin(queue, start), turns);
    assert MatchesOf(log.found) + [] == MatchesOf(log.found);
    BatchIsDischarged(start, log.found, log.streamOk, log.takenAll, log.takenEnd, log.order, TicketsIn(out), id);
  }

  // ---- Matchmakers that name each submitted ticket once ----

  lemma NamesOncePrefix(submitted: set<string>, ms: seq<Match>, more: seq<Match>)
    requires NamesOnce(submitted, ms + more)
    ensures NamesOnce(submitted, ms)
  {
    assert forall k :: 0 <= k < |ms| ==> (ms + more)[k] == ms[k];
  }

  lemma LastNamesSubmitted(start: seq<MatchRequest>, p: Proc, named: seq<Match>, log: Log, m: Match)
    requires p.Matcher? && p.ms.Streaming? && Sound(start, p, named, log) && NamesOnce(LiveMap(start).Keys, named + [m])
    ensures NamesSubmitted(p, m)
  {
    LiveMapKeys(start);
    var ms := named + [m];
    assert ms[|named|] == m;
    forall id | id in m.requestIds ensures Lists(start, id) && id !in p.made {
      assert id in ms[|named|].requestIds;
      forall k | 0 <= k < |named| ensures id !in named[k].requestIds {
        assert ms[k] == named[k];
      }
    }
  }

  /** A matchmaker whose matches list only submitted tickets, each in at most one match, meets what the protocol
      assumes of matchmakers, whatever becomes of its matches. */
  lemma {:induction false} NamedOnceIsAllowed(queue: string, start: seq<MatchRequest>, turns: seq<Turn>)
    requires Orderly(Begin(queue, start), turns) && NamesOnce(LiveMap(start).Keys, Yields(Begin(queue, start), turns))
    ensures Allowed(Begin(queue, start), turns)
  {
    if turns != [] {
      var p := Begin(queue, start);
      var front := turns[..|turns| - 1];
      var t := turns[|turns| - 1];
      var q := After(p, front).0;
      NamesOncePrefix(LiveMap(start).Keys, Yields(p, front), YieldOf(q, t));
      NamedOnceIsAllowed(queue, start, front);
      if q.ms.Streaming? && t.a.Yield? {
        var log := BatchFollows(queue, start, front);
        LastNamesSubmitted(start, q, Yields(p, front), log, MatchWithId(t.a.m, t.a.xid));
        assert NamesSubmitted(q, t.a.m);
      }
    }
  }

  lemma NamedOnceIsDisjoint(requests: seq<MatchRequest>, found: seq<Yielded>)
    requires NamesOnce(LiveMap(requests).Keys, MatchesOf(found))
    requires forall k :: 0 <= k < |found| ==> Distinct(found[k].m.requestIds)
    ensures MatchesDisjoint(found) && NamesListed(requests, found)
  {
    LiveMapKeys(requests);
    assert forall k :: 0 <= k < |found| ==> MatchesOf(found)[k] == found[k].m;
  }

  /** With such a matchmaker a whole batch, however its steps are interleaved with other processes, looks up no
      nil ticket and publishes no ticket more than three times. */
  lemma BatchPublishesAtMostThrice(queue: string, start: seq<MatchRequest>, turns: seq<Turn>, id: string) returns (log: Log)
    requires Orderly(Begin(queue, start), turns) && DistinctIds(start) && Lists(start, id)
    requires NamesOnce(LiveMap(start).Keys, Yields(Begin(queue, start), turns))
    requires forall m :: m in Yields(Begin(queue, start), turns) ==> Distinct(m.requestIds)
    requires After(Begin(queue, start), turns).0.ms.Idle?
    ensures !LooksUpNil(LiveMap(start), log.found) && MatchesOf(log.found) == Yields(Begin(queue, start), turns)
    ensures Count(TicketsIn(After(Begin(queue, start), turns).1), id) <= (if log.streamOk then 2 else 3)
  {
    NamedOnceIsAllowed(queue, start, turns);
    log := FinishedBatchIsDischarged(queue, start, turns, id);
    forall k | 0 <= k < |log.found| ensures Distinct(log.found[k].m.requestIds) {
      assert MatchesOf(log.found)[k] in MatchesOf(log.found);
    }
    NamedOnceIsDisjoint(start, log.found);
    AtMostThree(start, log.found, log.streamOk, log.takenAll, log.takenEnd, log.order,
                TicketsIn(After(Begin(queue, start), turns).1), id);
  }

  // ---- Batches whose documents cannot be read ----

  /** A matcher that could not read the documents of a batch: the batch is about to be requeued. */
  function BeginUnread(queue: string, batch: seq<StreamTicket>): (p: Proc)
    ensures p.Matcher?
  {
    Matcher(queue, [], map[], Reading(batch, Resume), {})
  }

  /** The two ways a batch goes on from its read. */
  lemma FetchBegins(w: Store, queue: string, batch: seq<StreamTicket>, ok: bool, order: seq<string>)
    ensures MatcherAct(w, Matcher(queue, [], map[], Fetching(batch), {}), FetchRequests(ok, order), None).proc
            == if ok then Begin(queue, Present(w.docs, order)) else BeginUnread(queue, batch)
  {
  }

  /** How far such a batch has come: its own tickets come first, and then the matchmaker is run on nothing. */
  datatype Unread =
    | Untouched
    | Emptying(taken: set<string>)
    | Emptied(taken: set<string>, later: seq<StreamTicket>, log: Log)

  ghost predicate UnreadFollows(batch: seq<StreamTicket>, p: Proc, tickets: seq<StreamTicket>, announced: seq<string>, u: Unread)
    requires p.Matcher?
  {
    match u
    case Untouched => p.ms == Reading(batch, Resume) && p.subs == [] && p.live == map[] && tickets == [] && announced == []
    case Emptying(taken) =>
      && p.ms.Publishing? && p.ms.next.Resume? && p.subs == [] && p.live == map[] && announced == []
      && tickets + p.ms.tickets == Unallocated(batch, taken)
    case Emptied(taken, later, log) =>
      tickets == Unallocated(batch, taken) + later && Follows([], p, later, announced, log)
  }

  function UnreadLogged(p: Proc, t: Turn, u: Unread): Unread
    requires p.Matcher?
  {
    match u
    case Untouched => if p.ms.Reading? && t.a.ReadAllocations? then Emptying(t.w.allocs.Keys) else u
    case Emptying(taken) =>
      if p.ms.Publishing? && p.ms.tickets == [] && t.a.Republish? then Emptied(taken, [], Log([], None, true, {}, {}, [])) else u
    case Emptied(taken, later, log) =>
      Emptied(taken, later + TicketsIn(MatcherAct(t.w, p, t.a, None).out), Logged(p, t, log))
  }

  ghost predicate UnreadStill(batch: seq<StreamTicket>, o: Outcome, tickets: seq<StreamTicket>, announced: seq<string>, u: Unread)
    requires o.proc.Matcher?
  {
    |o.out| <= 1 && UnreadFollows(batch, o.proc, tickets + TicketsIn(o.out), announced + MatchesIn(o.out), u)
  }

  lemma UntouchedFollows(batch: seq<StreamTicket>, p: Proc, t: Turn)
    requires p.Matcher? && UnreadFollows(batch, p, [], [], Untouched)
    ensures UnreadStill(batch, MatcherAct(t.w, p, t.a, None), [], [], UnreadLogged(p, t, Untouched))
  {
    assert [] + Unallocated(batch, t.w.allocs.Keys) == Unallocated(batch, t.w.allocs.Keys);
  }

  lemma EmptyingPublishes(batch: seq<StreamTicket>, p: Proc, tickets: seq<StreamTicket>, taken: set<string>, t: Turn)
    requires p.Matcher? && UnreadFollows(batch, p, tickets, [], Emptying(taken)) && t.a.Republish? && p.ms.tickets != []
    ensures UnreadStill(batch, MatcherAct(t.w, p, t.a, None), tickets, [], Emptying(taken))
  {
    var ts := p.ms.tickets;
    OneSent(TicketEnvelope(ts[0]));
    assert tickets + ts == (tickets + [ts[0]]) + ts[1..];
  }

  lemma EmptyingEnds(batch: seq<StreamTicket>, p: Proc, tickets: seq<StreamTicket>, taken: set<string>, t: Turn)
    requires p.Matcher? && UnreadFollows(batch, p, tickets, [], Emptying(taken)) && t.a.Republish? && p.ms.tickets == []
    ensures UnreadStill(batch, MatcherAct(t.w, p, t.a, None), tickets, [], Emptied(taken, [], Log([], None, true, {}, {}, [])))
  {
    assert tickets + [] == tickets;
    NothingFetched(p.(ms := Streaming));
  }

  lemma EmptyingFollows(batch: seq<StreamTicket>, p: Proc, tickets: seq<StreamTicket>, taken: set<string>, t: Turn)
    requires p.Matcher? && UnreadFollows(batch, p, tickets, [], Emptying(taken))
    ensures UnreadStill(batch, MatcherAct(t.w, p, t.a, None), tickets, [], UnreadLogged(p, t, Emptying(taken)))
  {
    if !t.a.Republish? {
      assert tickets + [] == tickets;
    } else if p.ms.tickets == [] {
      EmptyingEnds(batch, p, tickets, taken, t);
    } else {
      EmptyingPublishes(batch, p, tickets, taken, t);
    }
  }

  lemma NothingFetched(p: Proc)
    requires p.Matcher? && p.ms.Streaming? && p.subs == [] && p.live == map[]
    ensures Follows([], p, [], [], Log([], None, true, {}, {}, []))
  {
  }

  lemma EmptiedFollows(batch: seq<StreamTicket>, p: Proc, tickets: seq<StreamTicket>, announced: seq<string>, u: Unread, t: Turn)
    requires p.Matcher? && u.Emptied? && UnreadFollows(batch, p, tickets, announced, u) && Assumed(t.w, p, t.a)
    ensures UnreadStill(batch, MatcherAct(t.w, p, t.a, None), tickets, announced, UnreadLogged(p, t, u))
  {
    StepFollows([], p, u.later, announced, u.log, t);
    var o := MatcherAct(t.w, p, t.a, None);
    EmptiedStill(batch, o.proc, u, TicketsIn(o.out), announced + MatchesIn(o.out), Logged(p, t, u.log));
  }

  lemma EmptiedStill(batch: seq<StreamTicket>, q: Proc, u: Unread, more: seq<StreamTicket>, announced: seq<string>, log: Log)
    requires q.Matcher? && u.Emptied? && Follows([], q, u.later + more, announced, log)
    ensures UnreadFollows(batch, q, (Unallocated(batch, u.taken) + u.later) + more, announced, Emptied(u.taken, u.later + more, log))
  {
    assert (Unallocated(batch, u.taken) + u.later) + more == Unallocated(batch, u.taken) + (u.later + more);
  }

  lemma UnreadStep(batch: seq<StreamTicket>, p: Proc, tickets: seq<StreamTicket>, announced: seq<string>, u: Unread, t: Turn)
    requires p.Matcher? && UnreadFollows(batch, p, tickets, announced, u) && Assumed(t.w, p, t.a)
    ensures UnreadStill(batch, MatcherAct(t.w, p, t.a, None), tickets, announced, UnreadLogged(p, t, u))
  {
    match u
    case Untouched => UntouchedFollows(batch, p, t);
    case Emptying(taken) => EmptyingFollows(batch, p, tickets, taken, t);
    case Emptied(_, _, _) => EmptiedFollows(batch, p, tickets, announced, u, t);
  }

  lemma {:induction false} UnreadBatchFollows(queue: string, batch: seq<StreamTicket>, turns: seq<Turn>) returns (u: Unread)
    requires Allowed(BeginUnread(queue, batch), turns)
    ensures var (q, out) := After(BeginUnread(queue, batch), turns);
            UnreadFollows(batch, q, TicketsIn(out), MatchesIn(out), u)
  {
    if turns == [] {
      u := Untouched;
    } else {
      var front := turns[..|turns| - 1];
      var t := turns[|turns| - 1];
      u := UnreadBatchFollows(queue, batch, front);
      var (q, out) := After(BeginUnread(queue, batch), front);
      UnreadStep(batch, q, TicketsIn(out), MatchesIn(out), u, t);
      SentAppend(out, MatcherAct(t.w, q, t.a, None).out);
      u := UnreadLogged(q, t, u);
    }
  }

  /** Once the matcher is idle again, it published the batch less what one snapshot had allocated, and then what
      Matcher.MakeMatches publishes for no documents. */
  lemma UnreadBatchIsRequeued(queue: string, batch: seq<StreamTicket>, turns: seq<Turn>)
      returns (taken: set<string>, later: seq<StreamTicket>, log: Log)
    requires Allowed(BeginUnread(queue, batch), turns) && After(BeginUnread(queue, batch), turns).0.ms.Idle?
    ensures var out := After(BeginUnread(queue, batch), turns).1;
            && TicketsIn(out) == Unallocated(batch, taken) + later
            && IsRequeued([], log.found, log.streamOk, log.takenAll, log.takenEnd, log.order, later)
            && MatchesIn(out) == CreatedIds(log.found)
  {
    var u := UnreadBatchFollows(queue, batch, turns);
    taken, later, log := u.taken, u.later, u.log;
  }
}
