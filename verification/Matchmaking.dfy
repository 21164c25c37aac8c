/** The example matchmaker beside the protocol: what it is told, what it answers, and what the matcher may
    assume of it. */
module Matchmaking {
  import opened Records
  import opened TicketLists
  import Tickets
  import Matcher
  import Pairs
  import Refinement

  /** The submissions of some documents: one for each, under the document's own id. */
  ghost predicate Submits(requests: seq<MatchRequest>, subs: seq<Submission>) {
    |subs| == |requests| && forall i :: 0 <= i < |requests| ==> subs[i] == Tickets.SubmissionOf(requests[i])
  }

  lemma SubmittedIds(requests: seq<MatchRequest>, subs: seq<Submission>)
    requires Submits(requests, subs)
    ensures forall i :: 0 <= i < |requests| ==> subs[i].id == requests[i].id && subs[i].members == requests[i].members
  {
  }

  lemma PairListed(requests: seq<MatchRequest>, subs: seq<Submission>, m: Match, k: nat, id: string)
    requires Submits(requests, subs) && Pairs.IsPair(m, subs, k) && id in m.requestIds
    ensures Lists(requests, id)
  {
    SubmittedIds(requests, subs);
    assert requests[2 * k].id == id || requests[2 * k + 1].id == id;
  }

  lemma PairsNamed(requests: seq<MatchRequest>, subs: seq<Submission>, sent: seq<Match>, j: nat, k: nat, id: string)
    requires Submits(requests, subs) && Matcher.DistinctIds(requests)
    requires j < k < |sent| && Pairs.IsPair(sent[j], subs, j) && Pairs.IsPair(sent[k], subs, k)
    requires id in sent[j].requestIds
    ensures id !in sent[k].requestIds
  {
    SubmittedIds(requests, subs);
    var a, b := requests[2 * j].id, requests[2 * j + 1].id;
    var c, d := requests[2 * k].id, requests[2 * k + 1].id;
    assert sent[j].requestIds == [a, b] && sent[k].requestIds == [c, d];
    assert a != c && a != d && b != c && b != d;
  }

  /** The matches made of a matcher's submissions list only fetched tickets, each in at most one match and once. */
  lemma {:induction false} PairsNameOnce(requests: seq<MatchRequest>, subs: seq<Submission>, sent: seq<Match>)
    requires Submits(requests, subs) && Matcher.DistinctIds(requests)
    requires forall k :: 0 <= k < |sent| ==> Pairs.IsPair(sent[k], subs, k)
    ensures Matcher.NamesOnce(LiveMap(requests).Keys, sent)
    ensures forall k :: 0 <= k < |sent| ==> Distinct(sent[k].requestIds)
  {
    LiveMapKeys(requests);
    forall k, id | 0 <= k < |sent| && id in sent[k].requestIds ensures Lists(requests, id) {
      PairListed(requests, subs, sent[k], k, id);
    }
    forall j, k, id | 0 <= j < k < |sent| && id in sent[j].requestIds ensures id !in sent[k].requestIds {
      PairsNamed(requests, subs, sent, j, k, id);
    }
    forall k | 0 <= k < |sent| ensures Distinct(sent[k].requestIds) {
      SubmittedIds(requests, subs);
      assert Pairs.IsPair(sent[k], subs, k);
      assert requests[2 * k].id != requests[2 * k + 1].id;
    }
  }

  /** The matches taken from the stream, which may end before the last one. */
  ghost predicate TakenFrom(yielded: seq<Match>, sent: seq<Match>) {
    |yielded| <= |sent| && forall k :: 0 <= k < |yielded| ==> yielded[k].requestIds == sent[k].requestIds
  }

  lemma TakenNameOnce(submitted: set<string>, yielded: seq<Match>, sent: seq<Match>)
    requires TakenFrom(yielded, sent) && Matcher.NamesOnce(submitted, sent)
    ensures Matcher.NamesOnce(submitted, yielded)
  {
    forall k, id | 0 <= k < |yielded| && id in yielded[k].requestIds ensures id in submitted {
      assert id in sent[k].requestIds;
    }
    forall j, k, id | 0 <= j < k < |yielded| && id in yielded[j].requestIds ensures id !in yielded[k].requestIds {
      assert id in sent[j].requestIds;
    }
  }

  /** With the pairs matchmaker a matcher meets everything the protocol assumes, at every step of a batch and
      wherever the stream ends; no ticket is requeued more than three times, and no nil ticket looked up. */
  lemma PairsMeetTheProtocol(queue: string, start: seq<MatchRequest>, subs: seq<Submission>, sent: seq<Match>,
                             turns: seq<Refinement.Turn>)
    requires Submits(start, subs) && Matcher.DistinctIds(start)
    requires forall k :: 0 <= k < |sent| ==> Pairs.IsPair(sent[k], subs, k)
    requires Refinement.Orderly(Refinement.Begin(queue, start), turns)
    requires TakenFrom(Refinement.Yields(Refinement.Begin(queue, start), turns), sent)
    ensures Refinement.Allowed(Refinement.Begin(queue, start), turns)
    ensures forall m :: m in Refinement.Yields(Refinement.Begin(queue, start), turns) ==> Distinct(m.requestIds)
  {
    var yielded := Refinement.Yields(Refinement.Begin(queue, start), turns);
    PairsNameOnce(start, subs, sent);
    TakenNameOnce(LiveMap(start).Keys, yielded, sent);
    Refinement.NamedOnceIsAllowed(queue, start, turns);
    forall m | m in yielded ensures Distinct(m.requestIds) {
      var k :| 0 <= k < |yielded| && yielded[k] == m;
      assert sent[k].requestIds == m.requestIds;
    }
  }

  /** From fetched documents to matches: what the matcher submits goes through the pairs matchmaker, which does
      not panic on documents with members, pairs all of them but at most the last, and names no ticket twice. */
  method SubmitToPairs(requests: seq<MatchRequest>, xid: nat -> string) returns (subs: seq<Submission>, sent: seq<Match>)
    requires Matcher.DistinctIds(requests) && forall d :: d in requests ==> d.members != []
    ensures Submits(requests, subs) && |sent| == |requests| / 2
    ensures forall k :: 0 <= k < |sent| ==> sent[k].requestIds == [requests[2 * k].id, requests[2 * k + 1].id]
    ensures Matcher.NamesOnce(LiveMap(requests).Keys, sent)
  {
    subs := Matcher.Submissions(requests);
    SubmittedIds(requests, subs);
    assert forall i :: 0 <= i < |requests| ==> requests[i] in requests;
    var panicked;
    ghost var used;
    sent, panicked, used := Pairs.MakeMatches(subs, xid);
    assert forall k :: 0 <= k < |sent| ==> Pairs.IsPair(sent[k], subs, k);
    PairsNameOnce(requests, subs, sent);
  }
}
