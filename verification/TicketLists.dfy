/** What the matcher and the ticket manager do to lists of tickets, as functions.
    The protocol's steps and the contracts of the imperative handlers both use them. */
module TicketLists {
  import opened Records

  predicate Mentions(tickets: seq<StreamTicket>, id: string) {
    exists i :: 0 <= i < |tickets| && tickets[i].id == id
  }

  function Count(tickets: seq<StreamTicket>, id: string): nat {
    if tickets == [] then 0
    else (if tickets[0].id == id then 1 else 0) + Count(tickets[1..], id)
  }

  lemma {:induction false} CountPositive(tickets: seq<StreamTicket>, id: string)
    ensures Count(tickets, id) > 0 <==> Mentions(tickets, id)
  {
    if tickets != [] {
      CountPositive(tickets[1..], id);
      if tickets[0].id != id && Mentions(tickets, id) {
        var i :| 0 <= i < |tickets| && tickets[i].id == id;
        assert tickets[1..][i - 1].id == id;
      }
    }
  }

  /** The tickets of a batch that have no allocation, in the batch's order. */
  function Unallocated(tickets: seq<StreamTicket>, taken: set<string>): seq<StreamTicket> {
    if tickets == [] then []
    else if tickets[0].id in taken then Unallocated(tickets[1..], taken)
    else [tickets[0]] + Unallocated(tickets[1..], taken)
  }

  /** What stands at the positions kept, in the list's order. */
  ghost predicate Selects(tickets: seq<StreamTicket>, keep: seq<bool>, out: seq<StreamTicket>, at: seq<nat>)
    requires |keep| == |tickets|
  {
    && |at| == |out|
    && (forall j :: 0 <= j < |at| ==> at[j] < |tickets| && out[j] == tickets[at[j]])
    && (forall j, k :: 0 <= j < k < |at| ==> at[j] < at[k])
    && (forall i :: 0 <= i < |tickets| ==> (i in at <==> keep[i]))
  }

  /** The first position, kept or not, before those of the rest of the list. */
  lemma SelectsFirst(tickets: seq<StreamTicket>, keep: seq<bool>, out: seq<StreamTicket>, at: seq<nat>) returns (all: seq<nat>)
    requires tickets != [] && |keep| == |tickets| && Selects(tickets[1..], keep[1..], out, at)
    ensures Selects(tickets, keep, (if keep[0] then [tickets[0]] else []) + out, all)
  {
    var shifted := seq(|at|, j requires 0 <= j < |at| => at[j] + 1);
    all := (if keep[0] then [0] else []) + shifted;
    forall i | 0 <= i < |tickets| ensures i in all <==> keep[i] {
      if i > 0 {
        ShiftedHas(at, shifted, i);
        assert keep[i] == keep[1..][i - 1];
      }
    }
  }

  lemma ShiftedHas(at: seq<nat>, shifted: seq<nat>, i: nat)
    requires |shifted| == |at| && (forall j :: 0 <= j < |at| ==> shifted[j] == at[j] + 1) && i > 0
    ensures i in shifted <==> i - 1 in at
  {
    if i - 1 in at {
      var j :| 0 <= j < |at| && at[j] == i - 1;
      assert shifted[j] == i;
    }
  }

  /** The filter keeps what stands where the id is not allocated, in order. */
  lemma {:induction false} UnallocatedSelects(tickets: seq<StreamTicket>, taken: set<string>, keep: seq<bool>) returns (at: seq<nat>)
    requires |keep| == |tickets| && forall i :: 0 <= i < |tickets| ==> (keep[i] <==> tickets[i].id !in taken)
    ensures Selects(tickets, keep, Unallocated(tickets, taken), at)
  {
    if tickets == [] {
      return [];
    }
    var rest := UnallocatedSelects(tickets[1..], taken, keep[1..]);
    at := SelectsFirst(tickets, keep, Unallocated(tickets[1..], taken), rest);
    assert Unallocated(tickets, taken) == (if keep[0] then [tickets[0]] else []) + Unallocated(tickets[1..], taken);
  }

  /** Filtering keeps exactly the tickets whose id is not allocated, each as often as it occurred. */
  lemma {:induction false} UnallocatedKeeps(tickets: seq<StreamTicket>, taken: set<string>)
    ensures forall t :: t in Unallocated(tickets, taken) <==> t in tickets && t.id !in taken
    ensures forall id :: Count(Unallocated(tickets, taken), id)
                         == if id in taken then 0 else Count(tickets, id)
    ensures forall id :: Mentions(Unallocated(tickets, taken), id)
                         <==> Mentions(tickets, id) && id !in taken
  {
    if tickets != [] {
      UnallocatedKeeps(tickets[1..], taken);
      forall id ensures Count(Unallocated(tickets, taken), id)
                        == if id in taken then 0 else Count(tickets, id)
      {
        if tickets[0].id !in taken {
          assert Unallocated(tickets, taken)[1..] == Unallocated(tickets[1..], taken);
        }
      }
    }
    forall id ensures Mentions(Unallocated(tickets, taken), id)
                      <==> Mentions(tickets, id) && id !in taken
    {
      CountPositive(Unallocated(tickets, taken), id);
      CountPositive(tickets, id);
    }
  }

  /** The map from id to ticket the matcher builds from the documents it fetched. */
  function LiveMap(requests: seq<MatchRequest>): map<string, StreamTicket> {
    if requests == [] then map[]
    else LiveMap(requests[..|requests| - 1])[requests[|requests| - 1].id := TicketOf(requests[|requests| - 1])]
  }

  predicate Lists(requests: seq<MatchRequest>, id: string) {
    exists i :: 0 <= i < |requests| && requests[i].id == id
  }

  lemma {:induction false} LiveMapKeys(requests: seq<MatchRequest>)
    ensures forall id :: id in LiveMap(requests) <==> Lists(requests, id)
    ensures forall id :: id in LiveMap(requests) ==>
              exists d :: d in requests && d.id == id && LiveMap(requests)[id] == TicketOf(d)
  {
    if requests != [] {
      var front := requests[..|requests| - 1];
      var last := requests[|requests| - 1];
      LiveMapKeys(front);
      assert requests == front + [last];
      forall id ensures id in LiveMap(requests) <==> Lists(requests, id) {
        if id in LiveMap(front) {
          var i :| 0 <= i < |front| && front[i].id == id;
          assert requests[i].id == id;
        }
        if Lists(requests, id) && id != last.id {
          var i :| 0 <= i < |requests| && requests[i].id == id;
          assert front[i].id == id;
        }
      }
    }
  }

  // What a lookup of an absent key yields; in the program this is a nil pointer.
  const NIL_TICKET := StreamTicket("", "", 0)

  /** The tickets of the listed ids, looked up in the matcher's map. */
  function TicketsOf(live: map<string, StreamTicket>, ids: seq<string>): (out: seq<StreamTicket>)
    ensures |out| == |ids|
    ensures forall i :: 0 <= i < |ids| && ids[i] in live ==> out[i] == live[ids[i]]
  {
    if ids == [] then []
    else [if ids[0] in live then live[ids[0]] else NIL_TICKET] + TicketsOf(live, ids[1..])
  }

  lemma TicketsOfMentions(live: map<string, StreamTicket>, ids: seq<string>)
    requires forall id :: id in ids ==> id in live && live[id].id == id
    ensures forall id :: Mentions(TicketsOf(live, ids), id) <==> id in ids
  {
    var out := TicketsOf(live, ids);
    forall id ensures Mentions(out, id) <==> id in ids {
      if id in ids {
        var i :| 0 <= i < |ids| && ids[i] == id;
        assert out[i].id == id;
      }
      if Mentions(out, id) {
        var i :| 0 <= i < |out| && out[i].id == id;
        assert ids[i] in ids;
      }
    }
  }

  function RefsOf(requests: seq<MatchRequest>): (out: seq<StreamTicket>)
    ensures |out| == |requests|
    ensures forall i :: 0 <= i < |requests| ==> out[i] == TicketOf(requests[i])
  {
    if requests == [] then [] else [TicketOf(requests[0])] + RefsOf(requests[1..])
  }

  lemma RefsOfMentions(requests: seq<MatchRequest>)
    ensures forall id :: Mentions(RefsOf(requests), id) <==> Lists(requests, id)
  {
    var out := RefsOf(requests);
    forall id ensures Mentions(out, id) <==> Lists(requests, id) {
      if Mentions(out, id) {
        var i :| 0 <= i < |out| && out[i].id == id;
        assert requests[i].id == id;
      }
      if Lists(requests, id) {
        var i :| 0 <= i < |requests| && requests[i].id == id;
        assert out[i].id == id;
      }
    }
  }
}
