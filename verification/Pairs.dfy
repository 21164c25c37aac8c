/** The example matchmaker: consecutive submissions are paired, and each match carries the pair's average
    latency per host. */
module Pairs {
  import opened Records
  import Tickets

  // ---- Arithmetic of Go's int64 ----

  const INT64_LIMIT := 0x8000_0000_0000_0000

  predicate IsInt64(n: int) {
    -INT64_LIMIT <= n < INT64_LIMIT
  }

  function Wrap(n: int): (w: int)
    ensures IsInt64(w) && (IsInt64(n) ==> w == n)
  {
    (n + INT64_LIMIT) % (2 * INT64_LIMIT) - INT64_LIMIT
  }

  /** Division by two, truncated toward zero. */
  function Half(n: int): (h: int)
    ensures -2 < n - 2 * h < 2
    ensures (n >= 0 ==> n - 2 * h >= 0) && (n <= 0 ==> n - 2 * h <= 0)
  {
    if n >= 0 then n / 2 else -(-n / 2)
  }

  function Average(a: int, b: int): (m: int)
    ensures IsInt64(a + b) ==> -2 < a + b - 2 * m < 2
  {
    Half(Wrap(a + b))
  }

  predicate Between(n: int, a: int, b: int) {
    a <= n <= b || b <= n <= a
  }

  /** The average of two latencies lies between them exactly when their sum does not overflow. */
  lemma AverageBetweenIff(a: int, b: int)
    requires IsInt64(a) && IsInt64(b)
    ensures Between(Average(a, b), a, b) <==> IsInt64(a + b)
  {
    if a + b >= INT64_LIMIT {
      assert Wrap(a + b) == a + b - 2 * INT64_LIMIT;
    } else if a + b < -INT64_LIMIT {
      assert Wrap(a + b) == a + b + 2 * INT64_LIMIT;
    }
  }

  // ---- Latencies of a pair ----

  /** The running average per host after a list of reports. */
  function Averages(start: map<string, int>, reports: seq<Rtt>): map<string, int> {
    if reports == [] then start
    else
      var m := Averages(start, reports[..|reports| - 1]);
      var r := reports[|reports| - 1];
      m[r.host := if r.host in m then Average(m[r.host], r.milliseconds) else r.milliseconds]
  }

  lemma AveragesAppend(start: map<string, int>, reports: seq<Rtt>, r: Rtt)
    ensures var m := Averages(start, reports);
            Averages(start, reports + [r]) == m[r.host := if r.host in m then Average(m[r.host], r.milliseconds) else r.milliseconds]
  {
    assert (reports + [r])[..|reports|] == reports;
  }

  lemma {:induction false} AveragesConcat(start: map<string, int>, a: seq<Rtt>, b: seq<Rtt>)
    ensures Averages(start, a + b) == Averages(Averages(start, a), b)
  {
    if b == [] {
      assert a + b == a;
    } else {
      AveragesConcat(start, a, b[..|b| - 1]);
      assert (a + b)[..|a + b| - 1] == a + b[..|b| - 1];
    }
  }

  function PairLatencies(a: Submission, b: Submission): map<string, int> {
    Averages(Averages(map[], a.rtts), b.rtts)
  }

  ghost predicate Reported(reports: seq<Rtt>, host: string, low: int, high: int) {
    Rtt(host, low) in reports && Rtt(host, high) in reports
  }

  /** Two reports of a host between which its average lies. */
  ghost predicate Bracketed(reports: seq<Rtt>, host: string, value: int) {
    exists low, high :: Reported(reports, host, low, high) && low <= value <= high
  }

  /** Every latency is an int64, and no running average of the host overflows on the way. */
  ghost predicate NoOverflow(start: map<string, int>, reports: seq<Rtt>, host: string) {
    reports == [] ||
    (var front := reports[..|reports| - 1];
     var r := reports[|reports| - 1];
     && NoOverflow(start, front, host) && IsInt64(r.milliseconds)
     && (r.host == host && host in Averages(start, front) ==> IsInt64(Averages(start, front)[host] + r.milliseconds)))
  }

  lemma {:induction false} AveragesBracketed(reports: seq<Rtt>, host: string)
    requires NoOverflow(map[], reports, host)
    ensures host in Averages(map[], reports) <==> exists r :: r in reports && r.host == host
    ensures host in Averages(map[], reports) ==>
              Bracketed(reports, host, Averages(map[], reports)[host]) && IsInt64(Averages(map[], reports)[host])
  {
    if reports != [] {
      var front := reports[..|reports| - 1];
      var r := reports[|reports| - 1];
      assert reports == front + [r];
      AveragesBracketed(front, host);
      var before := Averages(map[], front);
      if r.host == host && host !in before {
        assert Reported(reports, host, r.milliseconds, r.milliseconds);
      } else if host in before {
        BracketedAppend(front, r, host, before[host]);
      }
    }
  }

  lemma BracketedAppend(front: seq<Rtt>, r: Rtt, host: string, value: int)
    requires IsInt64(value) && IsInt64(r.milliseconds) && (r.host == host ==> IsInt64(value + r.milliseconds))
    requires Bracketed(front, host, value)
    ensures Bracketed(front + [r], host, if r.host == host then Average(value, r.milliseconds) else value)
    ensures IsInt64(Average(value, r.milliseconds))
  {
    var low, high :| Reported(front, host, low, high) && low <= value <= high;
    if r.host == host {
      AverageBetweenIff(value, r.milliseconds);
      var lo := if r.milliseconds < low then r.milliseconds else low;
      var hi := if r.milliseconds > high then r.milliseconds else high;
      assert Reported(front + [r], host, lo, hi);
    } else {
      assert Reported(front + [r], host, low, high);
    }
  }

  /** The hosts with a running average are those it started with and those reported. */
  lemma {:induction false} AveragedHosts(start: map<string, int>, reports: seq<Rtt>, host: string)
    ensures host in Averages(start, reports) <==> host in start || exists r :: r in reports && r.host == host
  {
    if reports != [] {
      var front := reports[..|reports| - 1];
      var r := reports[|reports| - 1];
      assert reports == front + [r] && r in reports;
      AveragedHosts(start, front, host);
    }
  }

  /** A pair has a latency for exactly the hosts reported. Unless an average overflows, it lies between the least
      and the greatest reported. */
  lemma LatencyInRange(a: Submission, b: Submission, host: string)
    ensures host in PairLatencies(a, b) <==> exists r :: r in a.rtts + b.rtts && r.host == host
    ensures host in PairLatencies(a, b) && NoOverflow(map[], a.rtts + b.rtts, host) ==>
              Bracketed(a.rtts + b.rtts, host, PairLatencies(a, b)[host])
  {
    AveragesConcat(map[], a.rtts, b.rtts);
    AveragedHosts(map[], a.rtts + b.rtts, host);
    if NoOverflow(map[], a.rtts + b.rtts, host) {
      AveragesBracketed(a.rtts + b.rtts, host);
    }
  }

  /** Latencies of which any two can be added. */
  predicate Moderate(reports: seq<Rtt>) {
    forall r :: r in reports ==> -INT64_LIMIT / 2 <= r.milliseconds < INT64_LIMIT / 2
  }

  lemma {:induction false} ModerateNeverOverflows(reports: seq<Rtt>, host: string)
    requires Moderate(reports)
    ensures NoOverflow(map[], reports, host)
    ensures host in Averages(map[], reports) ==> -INT64_LIMIT / 2 <= Averages(map[], reports)[host] < INT64_LIMIT / 2
  {
    if reports != [] {
      var front := reports[..|reports| - 1];
      var r := reports[|reports| - 1];
      assert reports == front + [r] && r in reports;
      ModerateNeverOverflows(front, host);
      if r.host == host && host in Averages(map[], front) {
        ModerateAverage(Averages(map[], front)[host], r.milliseconds);
      }
    }
  }

  lemma ModerateAverage(a: int, b: int)
    requires -INT64_LIMIT / 2 <= a < INT64_LIMIT / 2 && -INT64_LIMIT / 2 <= b < INT64_LIMIT / 2
    ensures IsInt64(a + b) && -INT64_LIMIT / 2 <= Average(a, b) < INT64_LIMIT / 2
  {
    AverageBetweenIff(a, b);
  }

  /** Each average of the host lies between the average before it and the report it takes in. */
  ghost predicate StaysBetween(start: map<string, int>, reports: seq<Rtt>, host: string) {
    reports == [] ||
    (var front := reports[..|reports| - 1];
     var r := reports[|reports| - 1];
     && StaysBetween(start, front, host)
     && (r.host == host && host in Averages(start, front) ==>
           Between(Average(Averages(start, front)[host], r.milliseconds), Averages(start, front)[host], r.milliseconds)))
  }

  predicate AllInt64(reports: seq<Rtt>) {
    forall r :: r in reports ==> IsInt64(r.milliseconds)
  }

  /** The running average of a host keeps between what it averages exactly when no sum on the way overflows. */
  lemma {:induction false} StaysBetweenIff(reports: seq<Rtt>, host: string)
    requires AllInt64(reports)
    ensures StaysBetween(map[], reports, host) <==> NoOverflow(map[], reports, host)
    ensures host in Averages(map[], reports) ==> IsInt64(Averages(map[], reports)[host])
  {
    if reports != [] {
      var front := reports[..|reports| - 1];
      var r := reports[|reports| - 1];
      assert reports == front + [r] && r in reports;
      StaysBetweenIff(front, host);
      if r.host == host && host in Averages(map[], front) {
        AverageBetweenIff(Averages(map[], front)[host], r.milliseconds);
        AverageIsInt64(Averages(map[], front)[host], r.milliseconds);
      }
    }
  }

  lemma AverageIsInt64(a: int, b: int)
    ensures IsInt64(Average(a, b))
  {
  }

  /** Two reports of the largest latency: their sum wraps, and the average is negative. */
  lemma OverflowExample()
    ensures var high := INT64_LIMIT - 1;
            var reports := [Rtt("h", high), Rtt("h", high)];
            Averages(map[], reports) == map["h" := -1] && !NoOverflow(map[], reports, "h")
  {
    var high := INT64_LIMIT - 1;
    var reports := [Rtt("h", high), Rtt("h", high)];
    assert reports[..1] == [reports[0]] && [reports[0]][..0] == [];
    assert Averages(map[], reports[..1]) == map["h" := high];
  }

  /** A submission that lists a host at most once. */
  ghost predicate ListsOnce(reports: seq<Rtt>, host: string) {
    forall i, j :: 0 <= i < j < |reports| && reports[i].host == host ==> reports[j].host != host
  }

  lemma {:induction false} NoReport(start: map<string, int>, reports: seq<Rtt>, host: string)
    requires forall r :: r in reports ==> r.host != host
    ensures host in Averages(start, reports) <==> host in start
    ensures host in start ==> Averages(start, reports)[host] == start[host]
  {
    if reports != [] {
      NoReport(start, reports[..|reports| - 1], host);
    }
  }

  lemma {:induction false} SingleReport(start: map<string, int>, reports: seq<Rtt>, r: Rtt)
    requires r in reports && ListsOnce(reports, r.host)
    ensures r.host in Averages(start, reports)
    ensures Averages(start, reports)[r.host] == if r.host in start then Average(start[r.host], r.milliseconds) else r.milliseconds
  {
    var n := |reports| - 1;
    var front := reports[..n];
    var i :| 0 <= i <= n && reports[i] == r;
    if i == n {
      forall x | x in front ensures x.host != r.host {
        var j :| 0 <= j < n && front[j] == x;
        assert reports[j] == x;
      }
      NoReport(start, front, r.host);
    } else {
      assert front[i] == r;
      SingleReport(start, front, r);
    }
  }

  /** When each of the two lists a host once, its latency is the mean, truncated toward zero, and it
      lies between the two exactly when their sum does not overflow; a host only one of them lists keeps that
      latency. */
  lemma LatencyIsMean(a: Submission, b: Submission, x: Rtt, y: Rtt)
    requires x in a.rtts && ListsOnce(a.rtts, x.host)
    requires y in b.rtts && ListsOnce(b.rtts, y.host)
    ensures x.host == y.host ==> x.host in PairLatencies(a, b)
                                 && PairLatencies(a, b)[x.host] == Half(Wrap(x.milliseconds + y.milliseconds))
    ensures x.host == y.host && IsInt64(x.milliseconds) && IsInt64(y.milliseconds) ==>
              (Between(PairLatencies(a, b)[x.host], x.milliseconds, y.milliseconds) <==> IsInt64(x.milliseconds + y.milliseconds))
    ensures (forall r :: r in b.rtts ==> r.host != x.host) ==>
              x.host in PairLatencies(a, b) && PairLatencies(a, b)[x.host] == x.milliseconds
    ensures (forall r :: r in a.rtts ==> r.host != y.host) ==>
              y.host in PairLatencies(a, b) && PairLatencies(a, b)[y.host] == y.milliseconds
  {
    if IsInt64(x.milliseconds) && IsInt64(y.milliseconds) {
      AverageBetweenIff(x.milliseconds, y.milliseconds);
    }
    var first := Averages(map[], a.rtts);
    SingleReport(map[], a.rtts, x);
    SingleReport(first, b.rtts, y);
    if forall r :: r in b.rtts ==> r.host != x.host {
      NoReport(first, b.rtts, x.host);
    }
    if forall r :: r in a.rtts ==> r.host != y.host {
      NoReport(map[], a.rtts, y.host);
    }
  }

  // ---- The matchmaker ----

  /** The latencies as the message lists them: each host once, in some order. */
  ghost predicate ListsLatencies(rtts: seq<Rtt>, latencies: map<string, int>) {
    && (forall i, j :: 0 <= i < j < |rtts| ==> rtts[i].host != rtts[j].host)
    && (forall host :: host in latencies <==> exists i :: 0 <= i < |rtts| && rtts[i].host == host)
    && (forall i :: 0 <= i < |rtts| && rtts[i].host in latencies ==> rtts[i].milliseconds == latencies[rtts[i].host])
  }

  /** The k-th match is the k-th consecutive pair. */
  ghost predicate IsPair(m: Match, subs: seq<Submission>, k: nat)
  {
    && 2 * k + 1 < |subs|
    && subs[2 * k].members != [] && subs[2 * k + 1].members != []
    && m.requestIds == [subs[2 * k].id, subs[2 * k + 1].id]
    && m.playerIds == [subs[2 * k].members[0], subs[2 * k + 1].members[0]]
    && m.queue == ""
    && ListsLatencies(m.rtts, PairLatencies(subs[2 * k], subs[2 * k + 1]))
  }

  ghost predicate ArePairs(sent: seq<Match>, subs: seq<Submission>, xid: nat -> string) {
    forall k :: 0 <= k < |sent| ==> IsPair(sent[k], subs, k) && sent[k].id == xid(k)
  }

  lemma {:induction false} PairAdded(sent: seq<Match>, m: Match, subs: seq<Submission>, xid: nat -> string)
    requires ArePairs(sent, subs, xid) && IsPair(m, subs, |sent|) && m.id == xid(|sent|)
    ensures ArePairs(sent + [m], subs, xid)
  {
  }

  method ListRtts(latencies: map<string, int>) returns (out: seq<Rtt>)
    ensures ListsLatencies(out, latencies)
  {
    var hosts := Tickets.ToSlice(latencies.Keys);
    out := [];
    for i := 0 to |hosts|
      invariant |out| == i && forall j :: 0 <= j < i ==> hosts[j] in latencies && out[j] == Rtt(hosts[j], latencies[hosts[j]])
    {
      assert hosts[i] in hosts;
      out := out + [Rtt(hosts[i], latencies[hosts[i]])];
    }
    forall host | host in latencies ensures exists i :: 0 <= i < |out| && out[i].host == host {
      assert host in hosts;
      var i :| 0 <= i < |hosts| && hosts[i] == host;
      assert out[i].host == host;
    }
  }

  method AddReports(start: map<string, int>, reports: seq<Rtt>) returns (rtts: map<string, int>)
    ensures rtts == Averages(start, reports)
  {
    rtts := start;
    for j := 0 to |reports|
      invariant rtts == Averages(start, reports[..j])
    {
      AveragesAppend(start, reports[..j], reports[j]);
      assert reports[..j + 1] == reports[..j] + [reports[j]];
      var r := reports[j];
      if r.host !in rtts {
        rtts := rtts[r.host := r.milliseconds];
      } else {
        rtts := rtts[r.host := Average(rtts[r.host], r.milliseconds)];
      }
    }
    assert reports[..|reports|] == reports;
  }

  /** The buffers and the latencies after the first submission of a pair. */
  ghost predicate HalfFull(ticket: string, player: string, rtts: map<string, int>, sub: Submission) {
    sub.members != [] && ticket == sub.id && player == sub.members[0] && rtts == Averages(map[], sub.rtts)
  }

  /** Sending a match serialises it, so the buffers it is built from are copied. */
  method SendPair(id: string, tickets: array<string>, players: array<string>, rtts: map<string, int>,
                  ghost subs: seq<Submission>, ghost k: nat)
      returns (m: Match)
    requires 2 * k + 1 < |subs| && subs[2 * k].members != [] && subs[2 * k + 1].members != []
    requires tickets.Length == 2 && tickets[0] == subs[2 * k].id && tickets[1] == subs[2 * k + 1].id
    requires players.Length == 2 && players[0] == subs[2 * k].members[0] && players[1] == subs[2 * k + 1].members[0]
    requires rtts == PairLatencies(subs[2 * k], subs[2 * k + 1])
    ensures IsPair(m, subs, k) && m.id == id
  {
    var listed := ListRtts(rtts);
    assert tickets[..] == [tickets[0], tickets[1]] && players[..] == [players[0], players[1]];
    m := Match(id, "", tickets[..], players[..], listed);
  }

  /** All consecutive pairs of the submissions, in order, and nothing else, up to the first submission without
      members, where indexing them ends the call. The two buffers and the latency map are reused from pair to
      pair; sending a match copies them. */
  method MakeMatches(subs: seq<Submission>, xid: nat -> string)
      returns (sent: seq<Match>, panicked: bool, ghost used: nat)
    ensures used <= |subs| && forall i :: 0 <= i < used ==> subs[i].members != []
    ensures if panicked then used < |subs| && subs[used].members == [] else used == |subs|
    ensures |sent| == used / 2
    ensures ArePairs(sent, subs, xid)
  {
    var tickets := new string[2](_ => "");
    var players := new string[2](_ => "");
    var rtts: map<string, int> := map[];
    sent, panicked, used := [], false, 0;
    for i := 0 to |subs|
      invariant used == i && forall j :: 0 <= j < i ==> subs[j].members != []
      invariant i == 2 * |sent| + i % 2
      invariant ArePairs(sent, subs, xid)
      invariant i % 2 == 0 ==> rtts == map[]
      invariant i % 2 == 1 ==> HalfFull(tickets[0], players[0], rtts, subs[2 * |sent|])
    {
      var sub := subs[i];
      tickets[i % 2] := sub.id;
      if |sub.members| == 0 {
        panicked := true;
        return;
      }
      players[i % 2] := sub.members[0];
      rtts := AddReports(rtts, sub.rtts);
      if i % 2 == 1 {
        assert tickets[1] == sub.id && players[1] == sub.members[0];
        var m := SendPair(xid(|sent|), tickets, players, rtts, subs, |sent|);
        PairAdded(sent, m, subs, xid);
        sent := sent + [m];
        rtts := map[];
      }
      used := i + 1;
    }
  }

  function SubmissionIds(subs: seq<Submission>): (ids: seq<string>)
    ensures |ids| == |subs| && forall i :: 0 <= i < |subs| ==> ids[i] == subs[i].id
  {
    seq(|subs|, i requires 0 <= i < |subs| => subs[i].id)
  }

  /** Consecutive pairs of distinct ids are disjoint. */
  lemma PairedIdsAreDisjoint(ids: seq<string>, sent: seq<Match>)
    requires |sent| == |ids| / 2 && Distinct(ids)
    requires forall k :: 0 <= k < |sent| ==> sent[k].requestIds == [ids[2 * k], ids[2 * k + 1]]
    ensures forall k, l, id :: 0 <= k < l < |sent| && id in sent[k].requestIds ==> id !in sent[l].requestIds
    ensures forall k :: 0 <= k < |sent| ==> Distinct(sent[k].requestIds)
    ensures forall i :: 0 <= i < |ids| && (i < |ids| - 1 || |ids| % 2 == 0) ==>
              i / 2 < |sent| && ids[i] in sent[i / 2].requestIds
  {
    forall i | 0 <= i < |ids| && (i < |ids| - 1 || |ids| % 2 == 0)
      ensures i / 2 < |sent| && ids[i] in sent[i / 2].requestIds
    {
      assert i == 2 * (i / 2) || i == 2 * (i / 2) + 1;
    }
  }

  /** The pairs of submissions with distinct ids are disjoint, and leave at most the last submission out. */
  lemma {:induction false} PairsAreDisjoint(subs: seq<Submission>, sent: seq<Match>, xid: nat -> string)
    requires |sent| == |subs| / 2 && ArePairs(sent, subs, xid) && Distinct(SubmissionIds(subs))
    ensures forall k, l, id :: 0 <= k < l < |sent| && id in sent[k].requestIds ==> id !in sent[l].requestIds
    ensures forall k :: 0 <= k < |sent| ==> Distinct(sent[k].requestIds)
    ensures forall i :: 0 <= i < |subs| && (i < |subs| - 1 || |subs| % 2 == 0) ==>
              i / 2 < |sent| && SubmissionIds(subs)[i] in sent[i / 2].requestIds
  {
    var ids := SubmissionIds(subs);
    forall k | 0 <= k < |sent| ensures sent[k].requestIds == [ids[2 * k], ids[2 * k + 1]] {
      assert IsPair(sent[k], subs, k);
    }
    PairedIdsAreDisjoint(ids, sent);
  }
}
