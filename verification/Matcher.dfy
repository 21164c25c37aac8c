/** The matcher's handling of one batch: which tickets it publishes again, for any matches the custom
    matchmaker yields, any outcome of creating them, and any allocations other matchers make meanwhile. */
module Matcher {
  import opened Records
  import opened TicketLists
  import Tickets

  /** One match from the matchmaker's stream, whether creating it succeeded, and, for when it did not,
      the ids found allocated when its tickets were about to be published again. */
  datatype Yielded = Yielded(m: Match, created: bool, taken: set<string>)

  // ---- Specification ----

  function IdSet(m: Match): set<string> {
    set id | id in m.requestIds
  }

  /** The map after the matches so far: the tickets of created matches are gone. */
  function LiveAfter(live: map<string, StreamTicket>, found: seq<Yielded>): map<string, StreamTicket> {
    if found == [] then live
    else LiveAfter(if found[0].created then live - IdSet(found[0].m) else live, found[1..])
  }

  /** What the failed matches publish again. */
  function RequeuedBy(live: map<string, StreamTicket>, found: seq<Yielded>): seq<StreamTicket> {
    if found == [] then []
    else if found[0].created then RequeuedBy(live - IdSet(found[0].m), found[1..])
    else Unallocated(TicketsOf(live, found[0].m.requestIds), found[0].taken) + RequeuedBy(live, found[1..])
  }

  /** A failed match lists an id the map does not have: the lookup found a nil ticket. */
  predicate LooksUpNil(live: map<string, StreamTicket>, found: seq<Yielded>) {
    found != [] &&
    if found[0].created then LooksUpNil(live - IdSet(found[0].m), found[1..])
    else (exists id :: id in found[0].m.requestIds && id !in live) || LooksUpNil(live, found[1..])
  }

  lemma {:induction false} LiveAfterHas(live: map<string, StreamTicket>, found: seq<Yielded>, id: string)
    ensures id in LiveAfter(live, found) <==>
            id in live && forall k :: 0 <= k < |found| && found[k].created ==> id !in found[k].m.requestIds
    ensures id in LiveAfter(live, found) && id in live ==> LiveAfter(live, found)[id] == live[id]
  {
    if found != [] {
      var first := if found[0].created then live - IdSet(found[0].m) else live;
      LiveAfterHas(first, found[1..], id);
      assert forall k :: 1 <= k < |found| ==> found[k] == found[1..][k - 1];
      if forall k :: 0 <= k < |found[1..]| && found[1..][k].created ==> id !in found[1..][k].m.requestIds {
        forall k | 1 <= k < |found| && found[k].created ensures id !in found[k].m.requestIds {
          assert found[1..][k - 1].created;
        }
      }
    }
  }

  /** A nil ticket is looked up exactly when a match that fails lists an id that was not submitted, or one
      that a match created earlier in the same stream already took. */
  lemma {:induction false} NilExactly(live: map<string, StreamTicket>, found: seq<Yielded>)
    ensures LooksUpNil(live, found) <==>
            exists k, id :: 0 <= k < |found| && !found[k].created && id in found[k].m.requestIds
                            && id !in LiveAfter(live, found[..k])
  {
    if found != [] {
      var y := found[0];
      var first := if y.created then live - IdSet(y.m) else live;
      NilExactly(first, found[1..]);
      forall k | 1 <= k <= |found| ensures LiveAfter(live, found[..k]) == LiveAfter(first, found[1..][..k - 1]) {
        assert found[..k][1..] == found[1..][..k - 1];
      }
      if j, id :| 0 <= j < |found[1..]| && !found[1..][j].created && id in found[1..][j].m.requestIds
                  && id !in LiveAfter(first, found[1..][..j]) {
        assert !found[j + 1].created && id in found[j + 1].m.requestIds && id !in LiveAfter(live, found[..j + 1]);
      }
      if !y.created {
        if id :| id in y.m.requestIds && id !in live {
          assert found[..0] == [] && id !in LiveAfter(live, found[..0]);
        }
      }
      if k, id :| 0 <= k < |found| && !found[k].created && id in found[k].m.requestIds && id !in LiveAfter(live, found[..k]) {
        if k == 0 {
          assert found[..0] == [];
        } else {
          assert !found[1..][k - 1].created && id in found[1..][k - 1].m.requestIds
                 && id !in LiveAfter(first, found[1..][..k - 1]);
        }
      }
    }
  }

  /** A matchmaker's matches with outcomes of creating them. */
  function WithOutcomes(ms: seq<Match>, created: seq<bool>): (found: seq<Yielded>)
    requires |ms| == |created|
    ensures |found| == |ms| && forall k :: 0 <= k < |ms| ==> found[k] == Yielded(ms[k], created[k], {})
  {
    if ms == [] then [] else [Yielded(ms[0], created[0], {})] + WithOutcomes(ms[1..], created[1..])
  }

  /** Each match lists only submitted ids, and none that an earlier match lists. */
  ghost predicate NamesOnce(submitted: set<string>, ms: seq<Match>) {
    && (forall k, id :: 0 <= k < |ms| && id in ms[k].requestIds ==> id in submitted)
    && (forall j, k, id :: 0 <= j < k < |ms| && id in ms[j].requestIds ==> id !in ms[k].requestIds)
  }

  function MatchesOf(found: seq<Yielded>): (ms: seq<Match>)
    ensures |ms| == |found| && forall k :: 0 <= k < |found| ==> ms[k] == found[k].m
  {
    seq(|found|, k requires 0 <= k < |found| => found[k].m)
  }

  /** Such matches never make the matcher look up a nil ticket, whatever the outcomes. */
  lemma {:induction false} NamedOnceIsNilFree(live: map<string, StreamTicket>, found: seq<Yielded>)
    requires NamesOnce(live.Keys, MatchesOf(found))
    ensures !LooksUpNil(live, found)
  {
    if found != [] {
      var ms := MatchesOf(found);
      assert forall k :: 0 <= k < |found[1..]| ==> MatchesOf(found[1..])[k] == ms[k + 1];
      assert forall id :: id in found[0].m.requestIds ==> id in ms[0].requestIds;
      NamedOnceIsNilFree(if found[0].created then live - IdSet(found[0].m) else live, found[1..]);
    }
  }

  /** The outcomes that show a match naming an unsubmitted ticket, or one an earlier match lists: all before it
      are created, and it is not. */
  lemma NamedTwiceLooksUpNil(live: map<string, StreamTicket>, ms: seq<Match>, k: nat, id: string) returns (created: seq<bool>)
    requires k < |ms| && id in ms[k].requestIds
    requires id !in live || exists j :: 0 <= j < k && id in ms[j].requestIds
    ensures |created| == |ms| && LooksUpNil(live, WithOutcomes(ms, created))
  {
    created := seq(|ms|, i => i != k);
    var found := WithOutcomes(ms, created);
    LiveAfterHas(live, found[..k], id);
    assert forall j :: 0 <= j < k ==> found[..k][j] == found[j];
    NilExactly(live, found);
  }

  /** No nil ticket is looked up, whatever becomes of the matches. */
  ghost predicate NeverNil(live: map<string, StreamTicket>, ms: seq<Match>) {
    forall created: seq<bool> :: |created| == |ms| ==> !LooksUpNil(live, WithOutcomes(ms, created))
  }

  lemma NamedOnceIsSafe(live: map<string, StreamTicket>, ms: seq<Match>)
    requires NamesOnce(live.Keys, ms)
    ensures NeverNil(live, ms)
  {
    forall created: seq<bool> | |created| == |ms| ensures !LooksUpNil(live, WithOutcomes(ms, created)) {
      assert MatchesOf(WithOutcomes(ms, created)) == ms;
      NamedOnceIsNilFree(live, WithOutcomes(ms, created));
    }
  }

  lemma NamedAgain(submitted: set<string>, ms: seq<Match>) returns (k: nat, id: string)
    requires !NamesOnce(submitted, ms)
    ensures k < |ms| && id in ms[k].requestIds
    ensures id !in submitted || exists j :: 0 <= j < k && id in ms[j].requestIds
  {
    if i, x :| 0 <= i < |ms| && x in ms[i].requestIds && x !in submitted {
      k, id := i, x;
    } else {
      var j, i, x :| 0 <= j < i < |ms| && x in ms[j].requestIds && x in ms[i].requestIds;
      k, id := i, x;
    }
  }

  /** A matchmaker is safe from nil tickets, whatever becomes of its matches, exactly when each match lists only
      submitted ids that no earlier match lists. */
  lemma NilFreeIff(live: map<string, StreamTicket>, ms: seq<Match>)
    ensures NeverNil(live, ms) <==> NamesOnce(live.Keys, ms)
  {
    if NamesOnce(live.Keys, ms) {
      NamedOnceIsSafe(live, ms);
    } else {
      var k, id := NamedAgain(live.Keys, ms);
      var created := NamedTwiceLooksUpNil(live, ms, k, id);
    }
  }

  /** Two matches of one ticket: the first is created, the second is not, and its ticket is nil. */
  lemma NilExample()
    ensures var t := StreamTicket("q", "t", 1);
            var m := Match("m", "q", ["t"], ["p"], []);
            LooksUpNil(map["t" := t], WithOutcomes([m, m.(id := "n")], [true, false]))
  {
    var t := StreamTicket("q", "t", 1);
    var m := Match("m", "q", ["t"], ["p"], []);
    var ms := [m, m.(id := "n")];
    var found := WithOutcomes(ms, [true, false]);
    assert "t" in found[0].m.requestIds && "t" in found[1].m.requestIds;
    assert "t" !in map["t" := t] - IdSet(found[0].m);
    assert LooksUpNil(map["t" := t] - IdSet(found[0].m), found[1..]);
  }

  /** All that handling a batch publishes again, in order. `order` is the map's iteration order at the end. */
  ghost predicate IsRequeued(requests: seq<MatchRequest>, found: seq<Yielded>, streamOk: bool, takenAll: set<string>,
                             takenEnd: set<string>, order: seq<string>, requeued: seq<StreamTicket>) {
    var live := LiveAfter(LiveMap(requests), found);
    && IsOrdering(order, live.Keys)
    && requeued == RequeuedBy(LiveMap(requests), found)
                   + (if streamOk then [] else Unallocated(RefsOf(requests), takenAll))
                   + Unallocated(TicketsOf(live, order), takenEnd)
  }

  // ---- Every ticket is discharged ----

  lemma MentionsConcat(a: seq<StreamTicket>, b: seq<StreamTicket>, id: string)
    ensures Mentions(a + b, id) <==> Mentions(a, id) || Mentions(b, id)
  {
    if Mentions(a, id) {
      var i :| 0 <= i < |a| && a[i].id == id;
      assert (a + b)[i].id == id;
    }
    if Mentions(b, id) {
      var i :| 0 <= i < |b| && b[i].id == id;
      assert (a + b)[|a| + i].id == id;
    }
    if Mentions(a + b, id) {
      var i :| 0 <= i < |a + b| && (a + b)[i].id == id;
      assert if i < |a| then a[i].id == id else b[i - |a|].id == id;
    }
  }

  lemma LiveMapOwn(requests: seq<MatchRequest>)
    ensures forall id :: id in LiveMap(requests) ==> LiveMap(requests)[id].id == id
  {
    LiveMapKeys(requests);
  }

  /** Every fetched ticket ends up in a created match, published again, or found allocated at the last read. */
  lemma BatchIsDischarged(requests: seq<MatchRequest>, found: seq<Yielded>, streamOk: bool, takenAll: set<string>,
                          takenEnd: set<string>, order: seq<string>, requeued: seq<StreamTicket>, id: string)
    requires IsRequeued(requests, found, streamOk, takenAll, takenEnd, order, requeued) && Lists(requests, id)
    ensures || (exists k :: 0 <= k < |found| && found[k].created && id in found[k].m.requestIds)
            || Mentions(requeued, id)
            || id in takenEnd
  {
    var live := LiveAfter(LiveMap(requests), found);
    LiveMapKeys(requests);
    LiveMapOwn(requests);
    LiveAfterHas(LiveMap(requests), found, id);
    if id in live && id !in takenEnd {
      forall x | x in order ensures x in live && live[x].id == x {
        LiveAfterHas(LiveMap(requests), found, x);
      }
      TicketsOfMentions(live, order);
      UnallocatedKeeps(TicketsOf(live, order), takenEnd);
      var front := RequeuedBy(LiveMap(requests), found) + (if streamOk then [] else Unallocated(RefsOf(requests), takenAll));
      MentionsConcat(front, Unallocated(TicketsOf(live, order), takenEnd), id);
    }
  }

  // ---- Nothing is published more than three times ----

  lemma {:induction false} CountConcat(a: seq<StreamTicket>, b: seq<StreamTicket>, id: string)
    ensures Count(a + b, id) == Count(a, id) + Count(b, id)
  {
    if a == [] {
      assert a + b == b;
    } else {
      CountConcat(a[1..], b, id);
      assert (a + b)[1..] == a[1..] + b;
    }
  }

  lemma {:induction false} CountTicketsOf(live: map<string, StreamTicket>, ids: seq<string>, id: string)
    requires Distinct(ids) && forall x :: x in ids ==> x in live && live[x].id == x
    ensures Count(TicketsOf(live, ids), id) == if id in ids then 1 else 0
  {
    if ids != [] {
      assert forall x :: x in ids[1..] ==> x in ids;
      CountTicketsOf(live, ids[1..], id);
      assert ids[0] in ids && ids[0] !in ids[1..];
      assert TicketsOf(live, ids)[1..] == TicketsOf(live, ids[1..]);
      assert id in ids <==> id == ids[0] || id in ids[1..];
    }
  }

  ghost predicate DistinctIds(requests: seq<MatchRequest>) {
    forall i, j :: 0 <= i < j < |requests| ==> requests[i].id != requests[j].id
  }

  lemma ListsRest(requests: seq<MatchRequest>, id: string)
    requires requests != [] && DistinctIds(requests) && Lists(requests[1..], id)
    ensures Lists(requests, id) && requests[0].id != id
  {
    var i :| 0 <= i < |requests[1..]| && requests[1..][i].id == id;
    assert requests[i + 1].id == id;
  }

  lemma {:induction false} CountRefs(requests: seq<MatchRequest>, id: string)
    requires DistinctIds(requests)
    ensures Count(RefsOf(requests), id) <= 1
    ensures Count(RefsOf(requests), id) == 1 ==> Lists(requests, id)
  {
    if requests != [] {
      var rest := requests[1..];
      assert forall i :: 0 <= i < |rest| ==> rest[i] == requests[i + 1];
      CountRefs(rest, id);
      assert Count(RefsOf(requests), id) == (if requests[0].id == id then 1 else 0) + Count(RefsOf(rest), id) by {
        assert RefsOf(requests)[1..] == RefsOf(rest);
      }
      if Count(RefsOf(rest), id) == 1 {
        ListsRest(requests, id);
      }
    }
  }

  /** The failed matches requeue a ticket exactly as often as it is listed by one whose snapshot has it free. */
  function Listings(found: seq<Yielded>, id: string): nat {
    if found == [] then 0
    else Listings(found[..|found| - 1], id)
         + if !found[|found| - 1].created && id !in found[|found| - 1].taken
           then multiset(found[|found| - 1].m.requestIds)[id] else 0
  }

  lemma {:induction false} CountListed(live: map<string, StreamTicket>, ids: seq<string>, id: string)
    requires forall x :: x in ids ==> x in live && live[x].id == x
    ensures Count(TicketsOf(live, ids), id) == multiset(ids)[id]
  {
    if ids != [] {
      assert forall x :: x in ids[1..] ==> x in ids;
      CountListed(live, ids[1..], id);
      assert ids[0] in ids;
      assert TicketsOf(live, ids)[1..] == TicketsOf(live, ids[1..]);
      assert ids == [ids[0]] + ids[1..];
    }
  }

  lemma {:induction false} ListingsFirst(y: Yielded, rest: seq<Yielded>, id: string)
    ensures Listings([y] + rest, id)
            == (if !y.created && id !in y.taken then multiset(y.m.requestIds)[id] else 0) + Listings(rest, id)
  {
    var all := [y] + rest;
    if rest == [] {
      assert all == [y] && all[..0] == [];
    } else {
      ListingsFirst(y, rest[..|rest| - 1], id);
      assert all[..|all| - 1] == [y] + rest[..|rest| - 1];
    }
  }

  lemma {:induction false} RequeuedByCount(live: map<string, StreamTicket>, found: seq<Yielded>, id: string)
    requires !LooksUpNil(live, found) && forall x :: x in live ==> live[x].id == x
    ensures Count(RequeuedBy(live, found), id) == Listings(found, id)
  {
    if found != [] {
      var y := found[0];
      var rest := found[1..];
      assert found == [y] + rest;
      ListingsFirst(y, rest, id);
      RequeuedByCount(if y.created then live - IdSet(y.m) else live, rest, id);
      if !y.created {
        CountListed(live, y.m.requestIds, id);
        UnallocatedKeeps(TicketsOf(live, y.m.requestIds), y.taken);
        CountConcat(Unallocated(TicketsOf(live, y.m.requestIds), y.taken), RequeuedBy(live, rest), id);
      }
    }
  }

  /** How often a batch requeues a fetched ticket: for each listing by a failed match, once for a stream that ended
      in an error, and once if no created match lists it at the end, each unless the snapshot taken then has it
      allocated. */
  lemma RequeuedExactly(requests: seq<MatchRequest>, found: seq<Yielded>, streamOk: bool, takenAll: set<string>,
                        takenEnd: set<string>, order: seq<string>, requeued: seq<StreamTicket>, id: string)
    requires IsRequeued(requests, found, streamOk, takenAll, takenEnd, order, requeued)
    requires DistinctIds(requests) && !LooksUpNil(LiveMap(requests), found) && Lists(requests, id)
    ensures Count(requeued, id)
            == Listings(found, id)
               + (if !streamOk && id !in takenAll then 1 else 0)
               + (if id !in takenEnd && (forall k :: 0 <= k < |found| && found[k].created ==> id !in found[k].m.requestIds)
                  then 1 else 0)
  {
    var live := LiveAfter(LiveMap(requests), found);
    var byMatches := RequeuedBy(LiveMap(requests), found);
    var all := if streamOk then [] else Unallocated(RefsOf(requests), takenAll);
    var left := Unallocated(TicketsOf(live, order), takenEnd);
    LiveMapOwn(requests);
    LiveMapKeys(requests);
    RequeuedByCount(LiveMap(requests), found, id);
    CountRefs(requests, id);
    CountRefsPositive(requests, id);
    UnallocatedKeeps(RefsOf(requests), takenAll);
    LiveAfterHas(LiveMap(requests), found, id);
    forall x | x in order ensures x in live && live[x].id == x {
      LiveAfterHas(LiveMap(requests), found, x);
    }
    CountTicketsOf(live, order, id);
    UnallocatedKeeps(TicketsOf(live, order), takenEnd);
    CountConcat(byMatches + all, left, id);
    CountConcat(byMatches, all, id);
  }

  lemma CountRefsPositive(requests: seq<MatchRequest>, id: string)
    requires Lists(requests, id)
    ensures Count(RefsOf(requests), id) > 0
  {
    RefsOfMentions(requests);
    CountPositive(RefsOf(requests), id);
  }

  /** No ticket is in two of the matches, or twice in one. */
  ghost predicate MatchesDisjoint(found: seq<Yielded>) {
    && (forall k :: 0 <= k < |found| ==> Distinct(found[k].m.requestIds))
    && (forall k, l, id :: 0 <= k < l < |found| && id in found[k].m.requestIds ==> id !in found[l].m.requestIds)
  }

  lemma {:induction false} CountRequeuedBy(live: map<string, StreamTicket>, found: seq<Yielded>, id: string)
    requires MatchesDisjoint(found) && !LooksUpNil(live, found) && forall x :: x in live ==> live[x].id == x
    ensures Count(RequeuedBy(live, found), id) <= 1
    ensures Count(RequeuedBy(live, found), id) == 1 ==> exists k :: 0 <= k < |found| && id in found[k].m.requestIds
  {
    if found != [] {
      var y := found[0];
      var rest := found[1..];
      var first := if y.created then live - IdSet(y.m) else live;
      assert MatchesDisjoint(rest) by {
        assert forall k :: 0 <= k < |rest| ==> rest[k] == found[k + 1];
        forall k, l, x | 0 <= k < l < |rest| && x in rest[k].m.requestIds ensures x !in rest[l].m.requestIds {
          assert x in found[k + 1].m.requestIds;
        }
      }
      CountRequeuedBy(first, rest, id);
      if k :| 0 <= k < |rest| && id in rest[k].m.requestIds {
        assert id in found[k + 1].m.requestIds;
        assert id !in found[0].m.requestIds;
      }
      if !y.created {
        var batch := TicketsOf(live, y.m.requestIds);
        UnallocatedKeeps(batch, y.taken);
        CountTicketsOf(live, y.m.requestIds, id);
        CountConcat(Unallocated(batch, y.taken), RequeuedBy(live, rest), id);
        assert id in y.m.requestIds ==> id in found[0].m.requestIds;
      }
    }
  }

  lemma DisjointIsNilFree(requests: seq<MatchRequest>, found: seq<Yielded>)
    requires MatchesDisjoint(found) && NamesListed(requests, found)
    ensures !LooksUpNil(LiveMap(requests), found)
  {
    LiveMapKeys(requests);
    NamedOnceIsNilFree(LiveMap(requests), found);
  }

  ghost predicate NamesListed(requests: seq<MatchRequest>, found: seq<Yielded>) {
    forall k, id :: 0 <= k < |found| && id in found[k].m.requestIds ==> Lists(requests, id)
  }

  /** With disjoint matches of submitted tickets a ticket is published again at most three times: for its failed
      match, for a stream that ended in an error, and as left over. */
  lemma AtMostThree(requests: seq<MatchRequest>, found: seq<Yielded>, streamOk: bool, takenAll: set<string>,
                    takenEnd: set<string>, order: seq<string>, requeued: seq<StreamTicket>, id: string)
    requires IsRequeued(requests, found, streamOk, takenAll, takenEnd, order, requeued)
    requires MatchesDisjoint(found) && NamesListed(requests, found) && DistinctIds(requests)
    ensures Count(requeued, id) <= (if streamOk then 2 else 3)
  {
    var live := LiveAfter(LiveMap(requests), found);
    var byMatches := RequeuedBy(LiveMap(requests), found);
    var all := if streamOk then [] else Unallocated(RefsOf(requests), takenAll);
    var left := Unallocated(TicketsOf(live, order), takenEnd);
    LiveMapOwn(requests);
    DisjointIsNilFree(requests, found);
    CountRequeuedBy(LiveMap(requests), found, id);
    CountRefs(requests, id);
    UnallocatedKeeps(RefsOf(requests), takenAll);
    forall x | x in order ensures x in live && live[x].id == x {
      LiveAfterHas(LiveMap(requests), found, x);
    }
    CountTicketsOf(live, order, id);
    UnallocatedKeeps(TicketsOf(live, order), takenEnd);
    CountConcat(byMatches + all, left, id);
    CountConcat(byMatches, all, id);
  }

  // ---- The handler ----

  /** Of the tickets a batch tries to publish, those whose publication does not give up. `up` says so of each
      publication of the batch, counted from the start of the batch; `first` is the number of the first one here. */
  function Through(tickets: seq<StreamTicket>, up: nat -> bool, first: nat): seq<StreamTicket> {
    if tickets == [] then []
    else (if up(first) then [tickets[0]] else []) + Through(tickets[1..], up, first + 1)
  }

  lemma {:induction false} ThroughConcat(a: seq<StreamTicket>, b: seq<StreamTicket>, up: nat -> bool, first: nat)
    ensures Through(a + b, up, first) == Through(a, up, first) + Through(b, up, first + |a|)
  {
    if a == [] {
      assert a + b == b;
    } else {
      ThroughConcat(a[1..], b, up, first + 1);
      assert (a + b)[1..] == a[1..] + b;
    }
  }

  lemma {:induction false} ThroughThree(a: seq<StreamTicket>, b: seq<StreamTicket>, c: seq<StreamTicket>, up: nat -> bool, first: nat)
    ensures Through(a + b + c, up, first)
            == Through(a, up, first) + Through(b, up, first + |a|) + Through(c, up, first + |a| + |b|)
  {
    ThroughConcat(a + b, c, up, first);
    ThroughConcat(a, b, up, first);
  }

  /** Giving up adds no publication; a ticket to be published either is, or one of its publications gave up. */
  lemma {:induction false} ThroughCounts(tickets: seq<StreamTicket>, up: nat -> bool, first: nat, id: string)
    ensures Count(Through(tickets, up, first), id) <= Count(tickets, id)
    ensures (forall k :: 0 <= k < |tickets| && tickets[k].id == id ==> up(first + k)) ==>
              Count(Through(tickets, up, first), id) == Count(tickets, id)
  {
    if tickets != [] {
      var rest := tickets[1..];
      ThroughCounts(rest, up, first + 1, id);
      assert forall k :: 0 <= k < |rest| ==> rest[k] == tickets[k + 1];
      if forall k :: 0 <= k < |tickets| && tickets[k].id == id ==> up(first + k) {
        forall k | 0 <= k < |rest| && rest[k].id == id ensures up(first + 1 + k) {
          assert tickets[k + 1].id == id;
        }
      }
      if up(first) {
        assert Through(tickets, up, first)[1..] == Through(rest, up, first + 1);
      } else {
        assert Through(tickets, up, first) == Through(rest, up, first + 1);
      }
    }
  }

  /** What gets through is what stands where the publication of that number gets through, in order. */
  lemma {:induction false} ThroughSelects(tickets: seq<StreamTicket>, up: nat -> bool, first: nat, keep: seq<bool>) returns (at: seq<nat>)
    requires |keep| == |tickets| && forall i :: 0 <= i < |tickets| ==> (keep[i] <==> up(first + i))
    ensures Selects(tickets, keep, Through(tickets, up, first), at)
  {
    if tickets == [] {
      return [];
    }
    forall i | 0 <= i < |tickets[1..]| ensures keep[1..][i] <==> up(first + 1 + i) {
      assert keep[i + 1] <==> up(first + (i + 1));
    }
    var rest := ThroughSelects(tickets[1..], up, first + 1, keep[1..]);
    at := SelectsFirst(tickets, keep, Through(tickets[1..], up, first + 1), rest);
  }

  /** Every fetched ticket ends up in a created match, on the request topic again, or found allocated at the last
      read, unless a publication of it gives up. */
  lemma {:induction false} BatchIsDelivered(requests: seq<MatchRequest>, found: seq<Yielded>, streamOk: bool, takenAll: set<string>,
                         takenEnd: set<string>, order: seq<string>, requeued: seq<StreamTicket>, up: nat -> bool, first: nat,
                         id: string)
    requires IsRequeued(requests, found, streamOk, takenAll, takenEnd, order, requeued) && Lists(requests, id)
    ensures || (exists k :: 0 <= k < |found| && found[k].created && id in found[k].m.requestIds)
            || Mentions(Through(requeued, up, first), id)
            || id in takenEnd
            || (exists k :: 0 <= k < |requeued| && requeued[k].id == id && !up(first + k))
  {
    BatchIsDischarged(requests, found, streamOk, takenAll, takenEnd, order, requeued, id);
    ThroughCounts(requeued, up, first, id);
    CountPositive(requeued, id);
    CountPositive(Through(requeued, up, first), id);
  }

  /** Everything the matcher is asked to publish again goes through a filter by the allocations found. */
  method Requeue(tickets: seq<StreamTicket>, taken: set<string>, up: nat -> bool, first: nat)
      returns (requeued: seq<StreamTicket>, published: seq<StreamTicket>)
    ensures requeued == Unallocated(tickets, taken) && published == Through(requeued, up, first)
  {
    requeued, published := [], [];
    for i := 0 to |tickets|
      invariant requeued == Unallocated(tickets[..i], taken) && published == Through(requeued, up, first)
    {
      UnallocatedAppend(tickets[..i], tickets[i], taken);
      assert tickets[..i + 1] == tickets[..i] + [tickets[i]];
      if tickets[i].id !in taken {
        ThroughConcat(requeued, [tickets[i]], up, first);
        assert Through([tickets[i]], up, first + |requeued|) == if up(first + |requeued|) then [tickets[i]] else [];
        published := if up(first + |requeued|) then published + [tickets[i]] else published;
        requeued := requeued + [tickets[i]];
      }
    }
    assert tickets[..|tickets|] == tickets;
  }

  lemma {:induction false} UnallocatedAppend(ts: seq<StreamTicket>, t: StreamTicket, taken: set<string>)
    ensures Unallocated(ts + [t], taken) == Unallocated(ts, taken) + (if t.id in taken then [] else [t])
  {
    if ts != [] {
      UnallocatedAppend(ts[1..], t, taken);
      assert (ts + [t])[1..] == ts[1..] + [t];
    }
  }

  /** The tickets of a failed match, or a nil among them. */
  method TicketsOfMatch(live: map<string, StreamTicket>, ids: seq<string>) returns (tickets: seq<StreamTicket>, hasNil: bool)
    ensures hasNil <==> exists id :: id in ids && id !in live
    ensures tickets == TicketsOf(live, ids)
  {
    var matchTickets := new StreamTicket[|ids|](_ => NIL_TICKET);
    hasNil := false;
    for i := 0 to |ids|
      invariant hasNil <==> exists id :: id in ids[..i] && id !in live
      invariant forall j :: 0 <= j < i ==> matchTickets[j] == if ids[j] in live then live[ids[j]] else NIL_TICKET
    {
      assert ids[..i + 1] == ids[..i] + [ids[i]];
      if ids[i] in live {
        matchTickets[i] := live[ids[i]];
      } else {
        matchTickets[i] := NIL_TICKET;
        hasNil := true;
      }
    }
    assert ids[..|ids|] == ids;
    tickets := matchTickets[..];
    TicketsOfAt(live, ids);
    assert tickets == TicketsOf(live, ids);
  }

  lemma {:induction false} TicketsOfAt(live: map<string, StreamTicket>, ids: seq<string>)
    ensures forall j :: 0 <= j < |ids| ==> TicketsOf(live, ids)[j] == if ids[j] in live then live[ids[j]] else NIL_TICKET
  {
    if ids != [] {
      TicketsOfAt(live, ids[1..]);
      assert forall j :: 1 <= j < |ids| ==> TicketsOf(live, ids)[j] == TicketsOf(live, ids[1..])[j - 1] && ids[j] == ids[1..][j - 1];
    }
  }

  method BuildMap(requests: seq<MatchRequest>) returns (live: map<string, StreamTicket>)
    ensures live == LiveMap(requests)
  {
    live := map[];
    for i := 0 to |requests|
      invariant live == LiveMap(requests[..i])
    {
      assert requests[..i + 1][..i] == requests[..i] && requests[..i + 1][i] == requests[i];
      live := live[requests[i].id := TicketOf(requests[i])];
    }
    assert requests[..|requests|] == requests;
  }

  method Submissions(requests: seq<MatchRequest>) returns (subs: seq<Submission>)
    ensures |subs| == |requests| && forall i :: 0 <= i < |requests| ==> subs[i] == Tickets.SubmissionOf(requests[i])
  {
    subs := [];
    for i := 0 to |requests|
      invariant |subs| == i
      invariant forall j :: 0 <= j < i ==> subs[j] == Tickets.SubmissionOf(requests[j])
    {
      var sub := Tickets.SubmissionFromDBRequest(requests[i]);
      subs := subs + [sub];
    }
  }

  /** Handles the matches of one stream; a nil ticket is dereferenced when it is about to be requeued. */
  method HandleStream(start: map<string, StreamTicket>, found: seq<Yielded>, up: nat -> bool, first: nat)
      returns (live: map<string, StreamTicket>, requeued: seq<StreamTicket>, published: seq<StreamTicket>, panicked: bool)
    ensures panicked == LooksUpNil(start, found)
    ensures !panicked ==> live == LiveAfter(start, found) && requeued == RequeuedBy(start, found)
    ensures published == Through(requeued, up, first)
  {
    live, requeued, published, panicked := start, [], [], false;
    for i := 0 to |found|
      invariant LooksUpNil(start, found) == LooksUpNil(live, found[i..])
      invariant LiveAfter(start, found) == LiveAfter(live, found[i..])
      invariant RequeuedBy(start, found) == requeued + RequeuedBy(live, found[i..])
      invariant published == Through(requeued, up, first)
    {
      var y := found[i];
      assert found[i..][1..] == found[i + 1..];
      if !y.created {
        var matchTickets, hasNil := TicketsOfMatch(live, y.m.requestIds);
        if hasNil {
          panicked := true;
          return;
        }
        var more, sent := Requeue(matchTickets, y.taken, up, first + |requeued|);
        ThroughConcat(requeued, more, up, first);
        assert RequeuedBy(live, found[i..]) == more + RequeuedBy(live, found[i + 1..]);
        requeued, published := requeued + more, published + sent;
      } else {
        live := live - (set id | id in y.m.requestIds);
      }
    }
  }

  /** Runs the matchmaker on the fetched documents and deals with what it yields. */
  method MakeMatches(requests: seq<MatchRequest>, found: seq<Yielded>, streamOk: bool, takenAll: set<string>, takenEnd: set<string>,
                     up: nat -> bool, first: nat)
      returns (subs: seq<Submission>, requeued: seq<StreamTicket>, published: seq<StreamTicket>, panicked: bool,
               ghost order: seq<string>)
    ensures |subs| == |requests| && forall i :: 0 <= i < |requests| ==> subs[i] == Tickets.SubmissionOf(requests[i])
    ensures panicked == LooksUpNil(LiveMap(requests), found)
    ensures !panicked ==> IsRequeued(requests, found, streamOk, takenAll, takenEnd, order, requeued)
    ensures published == Through(requeued, up, first)
  {
    order := [];
    var matchRequestMap := BuildMap(requests);
    subs := Submissions(requests);
    matchRequestMap, requeued, published, panicked := HandleStream(matchRequestMap, found, up, first);
    if panicked {
      return;
    }
    var all, sent := RequeueAfterStream(requests, streamOk, takenAll, up, first + |requeued|);
    var left, rest;
    left, rest, order := RequeueLeft(matchRequestMap, takenEnd, up, first + |requeued| + |all|);
    ThroughThree(requeued, all, left, up, first);
    requeued, published := requeued + all + left, published + sent + rest;
  }

  /** Everything fetched is published again when the stream ends in an error. */
  method RequeueAfterStream(requests: seq<MatchRequest>, streamOk: bool, takenAll: set<string>, up: nat -> bool, first: nat)
      returns (requeued: seq<StreamTicket>, published: seq<StreamTicket>)
    ensures requeued == if streamOk then [] else Unallocated(RefsOf(requests), takenAll)
    ensures published == Through(requeued, up, first)
  {
    requeued, published := [], [];
    if !streamOk {
      var q := RequeueAllBatch(requests);
      requeued, published := Requeue(q, takenAll, up, first);
    }
  }

  /** What is left in the map is published again, in the order the map is iterated over. */
  method RequeueLeft(live: map<string, StreamTicket>, takenEnd: set<string>, up: nat -> bool, first: nat)
      returns (requeued: seq<StreamTicket>, published: seq<StreamTicket>, ghost order: seq<string>)
    ensures IsOrdering(order, live.Keys) && requeued == Unallocated(TicketsOf(live, order), takenEnd)
    ensures published == Through(requeued, up, first)
  {
    var keys := Tickets.ToSlice(live.Keys);
    order := keys;
    requeued, published := [], [];
    if |keys| > 0 {
      var left, hasNil := TicketsOfMatch(live, keys);
      requeued, published := Requeue(left, takenEnd, up, first);
    }
  }

  method RequeueAllBatch(requests: seq<MatchRequest>) returns (q: seq<StreamTicket>)
    ensures q == RefsOf(requests)
  {
    var out := new StreamTicket[|requests|](_ => NIL_TICKET);
    for i := 0 to |requests|
      invariant forall j :: 0 <= j < i ==> out[j] == TicketOf(requests[j])
    {
      out[i] := TicketOf(requests[i]);
    }
    q := out[..];
    assert q == RefsOf(requests);
  }

  /** One accumulated batch: when its documents cannot be read its tickets are published first, and the
      matchmaker is then run on no submissions. */
  method HandleBatch(batch: seq<StreamTicket>, fetched: Option<seq<MatchRequest>>, takenBatch: set<string>,
                     found: seq<Yielded>, streamOk: bool, takenAll: set<string>, takenEnd: set<string>, up: nat -> bool)
      returns (unread: seq<StreamTicket>, subs: seq<Submission>, requeued: seq<StreamTicket>, published: seq<StreamTicket>,
               panicked: bool, ghost order: seq<string>)
    ensures unread == if fetched.None? then Unallocated(batch, takenBatch) else []
    ensures var requests := if fetched.Some? then fetched.value else [];
            && |subs| == |requests| && (forall i :: 0 <= i < |requests| ==> subs[i] == Tickets.SubmissionOf(requests[i]))
            && panicked == LooksUpNil(LiveMap(requests), found)
            && (!panicked ==> IsRequeued(requests, found, streamOk, takenAll, takenEnd, order, requeued))
    ensures published == Through(unread + requeued, up, 0)
  {
    unread, published := [], [];
    var requests := [];
    if fetched.Some? {
      requests := fetched.value;
    } else {
      unread, published := Requeue(batch, takenBatch, up, 0);
    }
    var sent;
    subs, requeued, sent, panicked, order := MakeMatches(requests, found, streamOk, takenAll, takenEnd, up, |unread|);
    ThroughConcat(unread, requeued, up, 0);
    published := published + sent;
  }
}
