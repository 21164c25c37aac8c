# Match-request lifecycle: a verified model

Rivalry turns a client's match request into a game server in five hand-overs:

    frontend -> request topic -> accumulator -> accumulated topic -> matcher
             -> match topic -> dispenser -> ticket document -> frontend -> client

No lock spans these processes. Tickets are not lost, not put in two matches and not sent to two servers because of
how `MSETNX`, undoing on failure and "requeue if unallocated" work together. The project models that protocol and
proves those guarantees, and models the code of each process and proves it against functions the protocol shares.

`dafny verify dfyconfig.toml` checks the whole project with Dafny 4.11.

## How it is built

**The system** (`Protocol.dfy`). A state is the shared store (tickets, ticket_assignments, matches), a bag of messages
in flight on named topics, and any number of frontends, accumulators, matchers and dispensers, each between two calls
to the store or a stream. A step lets one process make one call, so any two processes may interleave anywhere. Some
fields of the store are history (`published`, `used`, `committed`, `served`, `responses`), and so is a matcher's `made`:
no step reads them. The assumptions below do.

* `Metrics.dfy`: sums over all messages and processes, with one lemma that accounts for a whole step.
* `Invariants.dfy`: the inductive invariant.
* `LocalSteps.dfy`, `Interference.dfy`, `Conservation.dfy`: what a step does to its own process, to the other
  processes, and to the sums. `Preservation.dfy` puts them together: every step and every run keeps the invariant.
* `Draining.dfy`: the well-founded measure over stale copies. `Progress.dfy`: the runs that use it up.
* `Reaching.dfy`: from any state, the runs that serve a created match and that bring a ticket to a matchmaker.
* `Theorems.dfy`: the results, for every reachable state and every run.
* `Matchmaking.dfy`: the example matchmaker, fed by the matcher, meets what the protocol assumes of matchmakers.
* `Refinement.dfy`: the protocol's matcher, interleaved with anything, publishes what the matcher's code promises, and
  a matchmaker that names each submitted ticket once meets what the protocol assumes of it.

**The code.** `Redis.dfy` (one flat keyspace seen as separate collections), `Backend.dfy` (typed collections, stream,
notifications), `Tickets.dfy`, `Matches.dfy`, `Matcher.dfy`, `Dispenser.dfy`, `Accumulator.dfy`, `Frontend.dfy` and
`Pairs.dfy` (the example matchmaker) keep the form of the Go code: classes with fields that methods change, arrays that
are written in place, loops. Their contracts use functions of `Protocol.dfy` and `TicketLists.dfy`, which hold what the
steps of the system do too. `Records.dfy` has the messages, their conversions and the topic names.

## What is assumed

* Each of these calls may fail, without effect: storing a ticket, publishing it, reading a batch of documents,
  allocating, writing a record, announcing a match, making an assignment, writing it. Removing a record or a document
  after a failure may fail as well. The matchmaker's stream may end anywhere, with or without an error.
* In the system, these get through in the end: requeueing tickets and matches, reading allocations for a requeue,
  forwarding a batch, reading and writing the documents of an assignment, and releasing tickets after a failed creation.
  The code retries all but the last and only logs when it gives up, and releases once. The methods take flags that say
  which of these calls get through, and their contracts cover both cases. `Matches.AllOrNothing` says exactly what a
  failed release costs.
* Match ids are new when they are chosen: the record is written with a plain `Set`
  (`internal/managers/matches/matches.go:96`).
* In the system, the matches of a matchmaker name tickets submitted to it that are not in a match already made from the
  same batch; matches that overlap but are not created are allowed. That the matcher then finds every ticket in its map
  is proved, not assumed (`Theorems.NoNilTicket`). A matchmaker that puts each submitted ticket in at most one match
  meets the assumption (`Refinement.NamedOnceIsAllowed`), and `Matcher.NilFreeIff` says that no other matchmaker is safe
  whatever becomes of its matches.
* Queue names have no NATS wildcard tokens: a subscription for a queue called `a.*` would also receive what is sent for
  `a.b`. Topic names are compared as strings here.
* Processes do not crash. A timer may fire, and a waiting frontend may look at its ticket, at any moment.
* Marshalling and unmarshalling are inverse to each other.

## Where the code and its comments differ

* `internal/app/frontend/frontend.go:38-40` speaks of testing a ticket against match profiles, and line 46 leaves the
  rejection of unknown queues to be done. The code looks the queue's name up in a fixed set and rejects it (line 47). The
  model follows the code.
* `internal/managers/tickets/tickets.go:139` announces that a missing id is generated; line 141 returns an error. The
  frontend generates it (`internal/app/frontend/frontend.go:43-45`).
* `internal/managers/matches/matches.go:79` says the tickets are released when a later call fails. That call is made
  once and its failure is only logged, so the allocations then stay (`Matches.AllOrNothing`).
* The average of two latencies lies between them only when their sum fits in 64 bits (`Pairs.AverageBetweenIff`).

## Model

| member | source | states |
|---|---|---|
| Theorems.NoTicketIsLost | internal/app/backend/matcher.go:59-106 | In every reachable state a ticket that was published is in a created match, or in a message on a topic of its own queue, or in hand: in an accumulator's window or a batch being forwarded, or with a matcher that has it fetched, live or about to be requeued. Covers a requeue skipped because of a rival's allocation that is rolled back later. |
| Theorems.AllocationIsOwnership | internal/managers/tickets/tickets.go:308-329 | A ticket is allocated to a match if and only if that match is created and its record lists the ticket, or some matcher is between allocating and finishing or undoing that match and the match lists the ticket. |
| Theorems.MatchesAreDisjoint | internal/managers/matches/matches.go:72-87 | No ticket is in two matches that are created or being created, whatever number of matchers run. |
| Theorems.ReleaseIsOwn | internal/managers/tickets/tickets.go:320-329 | A step takes an allocation away only when it is made by the matcher that holds it for a match it failed to create; the allocation of a created match is never released. |
| Theorems.RunGrows | internal/managers/matches/matches.go:72-113 | Over any run, a published ticket's document keeps everything but its game server, and created matches keep record, tickets and server. |
| Theorems.MatchesAreFinal | internal/managers/tickets/tickets.go:336-360 | However a run goes on, a created match keeps its record and its tickets, and a server once written to a match or a ticket never changes, although documents are read and written back in two separate calls by many dispensers. |
| Theorems.ServedAllOrNone | internal/managers/tickets/tickets.go:336-360 | In every reachable state either no ticket of a created match carries a game server, or all carry the one its assignment returned. |
| Theorems.ServerHasMatch | internal/managers/tickets/tickets.go:348-358 | A ticket that carries a game server is allocated to a stored match that lists it. |
| Theorems.ResponseIsAssignment | internal/app/frontend/frontend.go:61-80 | What a client is sent is exactly the address and the ordered ports the assignment service returned for a stored match that lists the client's ticket. |
| Theorems.OneTokenPerMatch | internal/app/backend/dispenser.go:36-44 | A match is in exactly one place, the match topic or one dispenser, if it is created and not yet assigned, and in no place otherwise. Failed assignments that are requeued are included. |
| Theorems.AssignedAtMostOnce | internal/app/backend/dispenser.go:36-44 | Over any run the assignment service answers for a match at most once, and not at all if it did before. |
| Theorems.MatchesCanBeCreated | internal/managers/matches/matches.go:66-114 | From any reachable state in which a matcher's matchmaker yields a match of submitted tickets that are not allocated, there is a run that creates the match with exactly these tickets, under the matchmaker's id or a new one. |
| Theorems.MatchesCanBeServed | internal/app/backend/dispenser.go:35-45 | From any reachable state with a dispenser there is a run after which a created match has its game server. |
| Theorems.TicketsCanBeSubmitted | internal/app/backend/matcher.go:39-53 | From any reachable state in which the queue of a published ticket outside created matches has an accumulator and a matcher, there is a run after which some matcher has the ticket among what it submits. |
| Theorems.RecordIsThere | internal/managers/matches/matches.go:117-129 | A dispenser that was told about a match finds its record, under the match's own id. |
| Theorems.QueuesStaySeparate | internal/managers/tickets/tickets.go:269 | All tickets of a created match were submitted to the queue of the matcher that created it. |
| Theorems.MessagesMatchTopics | internal/managers/tickets/tickets.go:247-291 | Whatever a subscriber of a topic receives decodes as what the topic is for, names only tickets of the topic's queue, and, on the match topic, names a match with a record. |
| Theorems.ReferencesAreCanonical | internal/managers/tickets/tickets.go:99-105 | Every reference to a ticket that circulates, published first or requeued any number of times, is the one its stored document gives rise to, and counts its distinct players if they fit in an int32. |
| Theorems.NoNilTicket | internal/app/backend/matcher.go:82-86 | Submitted tickets leave a matcher's map only with a match created from the batch. So from allocation to release the map has every ticket of the match in progress, under its own id, and a failed match requeues no nil ticket. |
| Theorems.SubmissionsHaveMembers | internal/managers/tickets/tickets.go:144-150 | Every document a matcher submits has members and is of its queue, so a matchmaker may take the first member. |
| Theorems.MatchedTicketsSettle | internal/managers/tickets/tickets.go:389-422 | From any reachable state in which a ticket's match is created, the number of times a run moves a copy of the ticket is at most the weight of the copies at the start less their weight at the end; and when no weight is left, no message carries the ticket and no process has it in hand. |
| Theorems.MatchedTicketsCanSettle | internal/managers/tickets/tickets.go:389-422 | From any reachable state in which a ticket's match is created and its queue has an accumulator and a matcher, there is a run after which no message carries the ticket and no process has it in hand. |
| Preservation.InitInv | internal/managers/matches/matches.go:66-114 | The invariant holds with an empty store, no messages and idle processes. |
| Preservation.StepKeepsInv | internal/managers/matches/matches.go:66-114 | Every step of every process keeps the whole invariant, for any number of processes of each kind. |
| Preservation.RunKeepsInv | internal/managers/matches/matches.go:66-114 | Every run keeps it. |
| Preservation.CopySurvives | internal/managers/tickets/tickets.go:404-410 | A ticket outside created matches has a copy in the system after every step that had one before, also when a requeue drops it because it is allocated: then the matcher that owns the allocation has it. |
| Preservation.HandlersDistinct | internal/app/backend/dispenser.go:36-44 | No two dispensers work on one match. |
| Interference.ActFootprint | internal/managers/matches/matches.go:66-114 | A step touches only the match or ticket its process claims, and documents only for the match its dispenser handles. |
| Interference.OthersKeep | internal/managers/tickets/tickets.go:332-380 | A process whose claim is another one keeps what it relies on, through any step of any other process. |
| Interference.OwnerStep | internal/managers/tickets/tickets.go:308-329 | After a step each allocation was there before with the same owner, or is held by the matcher that acted. |
| Conservation.TokensLocal | internal/app/backend/dispenser.go:36-44 | Each step balances the tokens it takes and leaves for a match against whether the match awaits its assignment. |
| Conservation.CopiesLocal | internal/app/backend/matcher.go:59-106 | A process that has a ticket in hand or receives it still has it or sends it on after its step, or the ticket is in a created match, or a requeue found it allocated. |
| Draining.StepDrains | internal/managers/tickets/tickets.go:389-422 | Once a ticket's match is created no step adds to the weight of its remaining copies. Every step that moves one takes weight away: an accumulator's receiving, flushing (by size, also when another ticket fills the window, or by the timer) and forwarding; a matcher's receiving, fetching, ending of the stream, publishing and last requeue of the batch; and every allocation read that drops the copy. |
| Draining.StaleCopiesDrain | internal/app/backend/accumulator.go:60-76 | Over a whole run, moves of stale copies plus the weight left at the end are at most the weight at the start. |
| Draining.NoWeightNoCopies | internal/app/backend/matcher.go:97-105 | Where the weight is zero there is no copy. |
| Progress.RunToIdle | internal/app/backend/matcher.go:59-106 | From any state a matcher can finish its batch by its own steps; no weight is gained, and some is lost if the matcher had any. |
| Progress.CopiesCanDrain | internal/app/backend/accumulator.go:54-108 | Some run uses up the weight of a matched ticket, if its queue has an accumulator and a matcher. |
| Records.TopicsSeparate | internal/managers/tickets/tickets.go:35-42 | Request, accumulated and match topics never share a name, and two queues never share a topic, for any queue names. |
| Records.ServerRoundTrip | internal/managers/tickets/tickets.go:341-346 | Converting a game server to its stored form and back gives the same address, port names, numbers and order. |
| TicketLists.UnallocatedKeeps | internal/managers/tickets/tickets.go:402-410 | The requeue filter keeps exactly the tickets whose id is not allocated, each as often as it came. |
| TicketLists.UnallocatedSelects | internal/managers/tickets/tickets.go:402-422 | It keeps what stands at those positions, in order. |
| TicketLists.LiveMapKeys | internal/app/backend/matcher.go:62-65 | The matcher's map has exactly the ids of the fetched documents, each with the reference of a document of that id. |
| Tickets.Manager.PublishStreamTicket | internal/managers/tickets/tickets.go:81-97 | A ticket is sent once, on the request topic of its queue, if and only if some attempt gets through. |
| Tickets.SubmissionFromDBRequest | internal/managers/tickets/tickets.go:107-135 | Field by field: the document's id, members, queue, latencies and time, and its data or empty data. |
| Tickets.Manager.CreateMatchRequest | internal/managers/tickets/tickets.go:138-207 | Missing id, failed store, duplicate id, failed publication and success leave exactly this store and these messages. The stored document has the request's id, queue, latencies and data, the time, no server, and as members the player and everyone listed, each once; the message goes to the topic of the request's queue with the reference of that document. |
| Protocol.RequestDocRepresents | internal/managers/tickets/tickets.go:144-176 | The document the protocol's frontend stores has these fields too. |
| Protocol.WithIdKeeps | internal/app/frontend/frontend.go:43-45 | An id the client chose is kept, a missing one filled in, and nothing else of the request changes. |
| Protocol.MatchWithIdKeeps | internal/managers/matches/matches.go:67-69 | An id the matchmaker chose is kept, a missing one filled in, and nothing else of the match changes. |
| Records.TicketOfMeans | internal/managers/tickets/tickets.go:99-105 | A reference has the document's id and queue and the number of its members, if that fits in an int32. |
| Tickets.Manager.GetMatchRequests | internal/managers/tickets/tickets.go:229-244 | The documents found among the ids, each once, in some order of the ids, or an error. |
| Tickets.Manager.AssignMatchRequestsToMatch | internal/managers/tickets/tickets.go:308-317 | Succeeds if and only if the match has no tickets, or the call gets through and none of them is allocated. Then each of its tickets, and no other, is allocated to it; otherwise nothing changes. |
| Protocol.TakenMeans | internal/managers/tickets/tickets.go:308-317 | The same of the function the protocol's step uses: it fails exactly when some ticket is taken already, and otherwise adds the match's tickets one by one and no others. |
| Protocol.ReleasedMeans | internal/managers/tickets/tickets.go:320-329 | After a release exactly the allocations of other tickets are left, as they were. |
| Tickets.Manager.ReleaseMatchRequestsFromMatch | internal/managers/tickets/tickets.go:320-329 | Removes the allocations of the match's tickets and no others. |
| Tickets.Manager.AddAssignmentToMatchRequests | internal/managers/tickets/tickets.go:332-380 | Writes the server into the documents present among the match's tickets and into nothing else, then notifies those tickets whose notification gets through, in whatever order; on a failed read or write, and when no document is found, nothing changes. |
| Tickets.NoticesDistinct | internal/managers/tickets/tickets.go:363-377 | In whatever order the notifications end and whichever give up, no ticket of a match with distinct tickets is notified twice, and no other ticket is. |
| Tickets.Manager.PublishAccumulatedMatchRequests | internal/managers/tickets/tickets.go:261-277 | The batch as it is, in one message on the accumulated topic of the queue, if and only if some attempt gets through. |
| Tickets.Manager.GetMatchRequest | internal/managers/tickets/tickets.go:215-227 | The document, if it exists and the call gets through. |
| Tickets.AssignedIsWithServer | internal/managers/tickets/tickets.go:348-356 | The documents written, built one by one from a batch read in any order, are those of the protocol's assignment step. |
| Tickets.AssignedMeans | internal/managers/tickets/tickets.go:348-360 | Writing them changes no document but those of the match's tickets, and these only in their server. |
| Protocol.WithServerMeans | internal/managers/tickets/tickets.go:348-356 | The documents written are those present of the match's tickets, each as it was but for the server; there are some exactly when a ticket of the match has a document. |
| Tickets.Manager.ReadAllocations | internal/managers/tickets/tickets.go:392-400 | The allocations of the batch in one snapshot, if some attempt gets through. |
| Tickets.Manager.RequeueMatchRequests | internal/managers/tickets/tickets.go:383-423 | The messages sent are the input less the ids allocated in one snapshot and less those whose publication gives up, in order and with multiplicity. |
| Tickets.DeliveredIsFilter | internal/managers/tickets/tickets.go:412-422 | When no publication gives up, a requeue is the filter of its input by the snapshot. |
| Tickets.DeliveredSelects | internal/managers/tickets/tickets.go:412-422 | A requeue publishes what stands at the positions whose id is not allocated and for which some attempt gets through, in the order of the input. |
| Tickets.Eventually | internal/backoff/backoff.go:37-48 | A retried call gets through if and only if some attempt does. |
| Matches.Manager.CreateMatch | internal/managers/matches/matches.go:66-114 | Result, error, new store and message, for every pattern of failures. It succeeds if and only if the match has no tickets, or the allocation gets through and none is allocated, and the record and the message get through; then each ticket is allocated, the record stored and one message sent. It is an error exactly when it fails without being refused. |
| Matches.ResultMeans | internal/managers/matches/matches.go:66-114 | Which way a creation ends, by the calls and by whether one of the tickets is taken: refused exactly when the allocation gets through and some ticket is allocated. |
| Matches.AllOrNothing | internal/managers/matches/matches.go:66-114 | Success allocates every ticket, no other, and stores the record. A refusal changes nothing. After a failure the allocations are as before if and only if the release gets through or there is none to make; the records are as before, or, after a failed announcement, if and only if the record could be removed and the id was new, or it could not and the same record was there already. |
| Matches.CreateMatchIsSteps | internal/managers/matches/matches.go:66-114 | The protocol's steps from allocation on, taken one after the other, leave the collections, message and state that CreateMatch promises, whichever calls get through. |
| Matches.Manager.Undo | internal/managers/matches/matches.go:80-106 | The deferred calls, last in first out: the record is removed if it was written, then the tickets are released. |
| Matches.Manager.GetMatch | internal/managers/matches/matches.go:117-125 | The record is found if it exists and some attempt gets through. |
| Matches.Manager.Requeue | internal/managers/matches/matches.go:133-135 | The match's id goes back to the match topic. |
| Matcher.MakeMatches | internal/app/backend/matcher.go:59-106 | The matchmaker is given one submission per fetched document, in order. For any matches the stream yields, any outcomes of creating them and any snapshots, the tickets requeued are those of the failed matches, all fetched ones after a stream error, and those left in the map at the end, each less what was found allocated; those published are the ones of them whose publication does not give up. |
| Matcher.HandleBatch | internal/app/backend/matcher.go:39-57 | When the documents of a batch cannot be read the batch is requeued and the matchmaker is given no submissions; otherwise it is given one per document. What is published is what does not give up. |
| Matcher.BatchIsDischarged | internal/app/backend/matcher.go:62-105 | Every fetched ticket ends up in a created match, requeued, or found allocated in the last snapshot. |
| Matcher.RequeuedExactly | internal/app/backend/matcher.go:75-105 | How often a batch requeues a fetched ticket: for each listing by a failed match, once for a stream that ended in an error, and once if no created match lists it, each unless the snapshot taken then has it allocated. |
| Matcher.ThroughSelects | internal/managers/tickets/tickets.go:412-422 | Of the tickets requeued, those are published whose publication gets through, in order. |
| Matcher.BatchIsDelivered | internal/app/backend/matcher.go:62-105 | Every fetched ticket ends up in a created match, published again, or found allocated in the last snapshot, unless a publication of it gives up. |
| Matcher.ThroughCounts | internal/managers/tickets/tickets.go:412-422 | Publications that give up add none of a ticket, and when none of its publications gives up a ticket is published as often as it is requeued. |
| Matcher.AtMostThree | internal/app/backend/matcher.go:75-105 | With disjoint matches of submitted tickets a ticket is published again at most three times, and at most twice if the stream ends without error. |
| Matcher.NilExactly | internal/app/backend/matcher.go:81-84 | In one stream with its outcomes, a nil ticket is looked up if and only if a match that fails lists an id that is not in the map left by the matches created before it. |
| Matcher.NilFreeIff | internal/app/backend/matcher.go:81-84 | No nil ticket is looked up, whatever the outcomes of creating the matches, if and only if each match lists only submitted ids that no earlier match lists. |
| Matcher.NilExample | internal/app/backend/matcher.go:81-84 | Two matches that list one ticket, the first created and the second not: the ticket looked up is nil. |
| Matcher.LiveAfterHas | internal/app/backend/matcher.go:90-92 | What is left in the map is what was there and is listed by no created match. |
| Refinement.BatchFollows | internal/app/backend/matcher.go:59-106 | Any steps of the protocol's matcher, with the store changed in any way between any two of them, publish and announce exactly what the log of outcomes and snapshots accounts for; the log's matches are those yielded, and none looked up a nil ticket. |
| Refinement.NamedOnceIsAllowed | internal/managers/customlogic/customlogic.go:29-44 | A matchmaker whose matches list only submitted tickets, each in at most one match, meets what the protocol assumes of matchmakers at every step, whatever becomes of its matches. |
| Refinement.BatchPublishesAtMostThrice | internal/app/backend/matcher.go:59-106 | With such a matchmaker and matches without repetitions, a batch looks up no nil ticket and publishes no ticket more than three times, however its steps are interleaved with other processes. |
| Refinement.FinishedBatchIsDischarged | internal/app/backend/matcher.go:59-106 | When such steps end a batch, the tickets published satisfy the specification of Matcher.MakeMatches, the matches announced are those created, no nil ticket was looked up, and every fetched ticket is discharged. |
| Refinement.UnreadBatchIsRequeued | internal/app/backend/matcher.go:45-50 | When the documents of a batch could not be read, any steps of the matcher to the end of the batch publish the batch less what one snapshot had allocated, and then what Matcher.MakeMatches publishes for no documents. |
| Refinement.FetchBegins | internal/app/backend/matcher.go:45-50 | The read of a batch's documents leads to one of these two beginnings, as it succeeds or fails. |
| Dispenser.AddAssignmentToTickets | internal/app/backend/dispenser.go:71-78 | The assignment is written if and only if one attempt reads and writes and finds a document, or the match has no tickets; it is written once, and its notifications go out once. |
| Dispenser.WrittenMeans | internal/app/backend/dispenser.go:71-78 | The assignment is written if and only if some attempt reads, writes and finds a document of the match, or the match has no tickets and there is an attempt. |
| Dispenser.MakeAssignment | internal/app/backend/dispenser.go:53-61 | The first reply with a game server is the assignment, and there is none exactly when no reply has one. |
| Dispenser.RequeueMatch | internal/app/backend/dispenser.go:63-69 | The match goes back to the topic once, if some attempt gets through. |
| Dispenser.HandleMatch | internal/app/backend/dispenser.go:35-45 | The first reply with a game server is written into the documents and no message is sent; if no reply has one, the match is requeued and no document changes. |
| Dispenser.HandleMatchIsSteps | internal/app/backend/dispenser.go:35-45 | The protocol's steps from the question to the assignment service on, taken one after the other, leave the documents and the message that HandleMatch promises, whichever calls get through, and the dispenser free if and only if the match is settled. |
| Accumulator.Accumulator.Receive | internal/app/backend/accumulator.go:54-77 | A ticket seen in the window is dropped; another joins it, and the window is handed over if and only if that brings it to MaxTickets. The arrays of batches handed over before keep every element, though append writes in place. |
| Accumulator.Accumulator.Tick | internal/app/backend/accumulator.go:86-95 | A non-empty window is handed over as it is and a new one begins in a new array; an empty one is left alone, array and all. |
| Accumulator.Accumulator.Append | internal/app/backend/accumulator.go:66 | Append extends the window in place while there is room and in a copy otherwise. |
| Accumulator.Accumulator.Flush | internal/app/backend/accumulator.go:105-108 | The window's array goes to the forwarder, and the new window has an array of its own. |
| Accumulator.Conserved | internal/app/backend/accumulator.go:54-108 | For any interleaving of arrivals and ticks, the arrivals fall into consecutive stretches, one per batch and one for the window; each is its stretch less the tickets repeated in it. Batches have between 1 and max(1, MaxTickets) tickets with distinct ids; the seen set is the window's, and the window stays below the limit. |
| Accumulator.HandsOverWhenFull | internal/app/backend/accumulator.go:70-95 | Over any arrivals and ticks, a batch handed over on an arrival has exactly max(1, MaxTickets) tickets, and one handed over by the timer has at least one and fewer. |
| Accumulator.Live | internal/app/backend/accumulator.go:38-108 | An accumulator made and fed any interleaving of arrivals and ticks is in the state the protocol's steps give, its handed-over arrays hold the batches they held then, and these and the window account for every ticket that arrived. |
| Accumulator.ForwardingGrows | internal/app/backend/accumulator.go:66-75 | Whatever arrives or ticks later, the batches handed over so far stay the same and in the same order. |
| Accumulator.FirstByIdKeeps | internal/app/backend/accumulator.go:59-66 | Dropping repetitions keeps every id, and keeps exactly the tickets at the first occurrence of an id, in order. |
| Redis.CollisionIffNotSeparate | internal/db/kv/redis.go:26-28 | Two collections can share a flat key if and only if one name with its colon starts with the other with its colon. |
| Redis.NoColonSeparates | internal/db/kv/redis.go:26-28 | Two different collection names without a colon never share a flat key. |
| Redis.KeyInjective | internal/db/kv/redis.go:26-28 | Within a collection different keys have different flat keys. |
| Redis.KeyForm | internal/db/kv/redis.go:26-28 | A flat key is the prefix, the collection and the key, separated by colons. |
| Redis.WriteRefines | internal/db/kv/redis.go:31-37 | Writing flat entries is a write to one collection and leaves every separate collection as it was. |
| Redis.DeleteRefines | internal/db/kv/redis.go:108-114 | Deleting flat entries is a deletion from one collection and leaves every separate collection as it was. |
| Redis.GlobPrefix | internal/db/kv/redis.go:55 | A literal followed by a star matches exactly the strings that start with the literal. |
| Redis.PrefixPatternIff | internal/db/kv/redis.go:54-64 | A text followed by a star selects exactly the strings that start with the text if and only if the text has no wildcard. |
| Redis.WildcardStray | internal/db/kv/redis.go:59-62 | For a prefix or name with a wildcard, a key that is selected although it is not of the collection; with a star, one that is too short to slice. |
| Redis.Client.Set | internal/db/kv/redis.go:26-28 | Sets one entry of one collection. |
| Redis.Client.MSet | internal/db/kv/redis.go:31-37 | Sets several entries of one collection, or fails when there are none. |
| Redis.Client.MSetNX | internal/db/kv/redis.go:40-46 | Sets all entries when none of the keys exists in the collection, and none otherwise. |
| Redis.Client.SetNX | internal/db/kv/redis.go:49-51 | Sets an entry if and only if the collection does not have its key. |
| Redis.Client.Get | internal/db/kv/redis.go:67-73 | The entry, not found, or failure. |
| Redis.Client.MGet | internal/db/kv/redis.go:76-105 | The collection restricted to the keys asked for; no keys make no call. |
| Redis.Client.Keys | internal/db/kv/redis.go:54-64 | The selected keys less as many characters as the prefix has, or a panic if one is shorter; without wildcards in prefix and name these are exactly the keys of the collection. |
| Redis.Client.Del | internal/db/kv/redis.go:108-114 | Removes the keys from the collection, or fails when there are none. |
| Frontend.Match | internal/app/frontend/frontend.go:41-92 | Status, store, message and response for every outcome: unknown queue, duplicate, failures, success. After success the stored document holds what the request says, under the client's id or a new one. The response is that of the first document read that carries a server. |
| Frontend.MatchIsSteps | internal/app/frontend/frontend.go:41-57 | The protocol's steps for a request, taken one after the other, leave the document and the message that Match promises, whichever calls get through, and the frontend waiting for the server if and only if the ticket is published. |
| Frontend.ReadIsStep | internal/app/frontend/frontend.go:61-91 | A read of the ticket's document is a step that answers exactly when ProcessTicket does, and with the same server. |
| Frontend.ProcessTicket | internal/app/frontend/frontend.go:61-80 | A document is answered if and only if it carries a server, with that server's address and ordered ports. |
| Frontend.AnswerIsAssignment | internal/app/frontend/frontend.go:61-91 | If documents carry no server or the assigned one, the client is answered with the assigned server if and only if some read finds it, whatever the other reads find. |
| Frontend.FirstServedMeans | internal/app/frontend/frontend.go:82-91 | Nothing is answered exactly when no read finds a server; otherwise the first one found is. |
| Pairs.MakeMatches | examples/matchmaker/service/pairs.go:21-55 | The matches are the consecutive pairs of submissions, in order and with their own latencies although the buffers are reused, up to the first submission without members, where the call panics. |
| Pairs.PairsAreDisjoint | examples/matchmaker/service/pairs.go:25-51 | The pairs of distinct submissions share no ticket and leave out at most the last submission. |
| Matchmaking.PairsNameOnce | examples/matchmaker/service/pairs.go:25-51 | The pairs made of a matcher's submissions list only tickets it fetched, each in at most one match and once. |
| Matchmaking.PairsMeetTheProtocol | examples/matchmaker/service/pairs.go:21-55 | With the pairs matchmaker, wherever its stream ends, every step of a batch meets what the protocol assumes of matchmakers. |
| Matchmaking.SubmitToPairs | internal/app/backend/matcher.go:67-78 | From fetched documents with members the matchmaker gets one submission each, does not panic, and pairs consecutive documents. |
| Pairs.Half | examples/matchmaker/service/pairs.go:32 | Halving drops a remainder of at most one, on the side of the number: it truncates toward zero. |
| Pairs.LatencyInRange | examples/matchmaker/service/pairs.go:28-34 | A pair has a latency for exactly the hosts reported in it; unless a sum overflows on the way, it lies between the least and the greatest reported for the host. |
| Pairs.ModerateNeverOverflows | examples/matchmaker/service/pairs.go:32 | Latencies from -2^62 to below 2^62 never overflow. |
| Pairs.StaysBetweenIff | examples/matchmaker/service/pairs.go:28-34 | A host's running average always lies between the two values it averages if and only if none of their sums overflows. |
| Pairs.OverflowExample | examples/matchmaker/service/pairs.go:32 | Two reports of the largest latency average to -1. |
| Pairs.LatencyIsMean | examples/matchmaker/service/pairs.go:28-34 | When each submission lists a host once the latency is the mean truncated toward zero, with Go's wrap-around, and it lies between the two if and only if their sum does not overflow; a host listed in only one keeps its latency. |
| Pairs.AverageBetweenIff | examples/matchmaker/service/pairs.go:32 | The average of two int64 latencies lies between them if and only if their sum does not overflow. |

## Left out

- Theorems.NoTicketIsLost: does not cover the retried calls giving up for good, or crashes; the code only logs these, and the ticket is then gone.
- Theorems.OneTokenPerMatch: a dispenser in the system tries to write an assignment until it succeeds; the code gives up in the end, and the match is then in no place and its tickets have no server.
- Theorems.MatchedTicketsCanSettle: says that stale copies can be worked off, not that the scheduler does it; a snapshot for a failed match is not a move, because the ticket stays among the fetched documents and a matchmaker may name it in any number of matches that fail.
- Pairs.LatencyInRange: says nothing of a host whose sums overflow on the way; a later average may bring such a latency back into range.
- Redis.Client.Keys: patterns with sets and escapes (`[` and a backslash in the prefix or the name) are not modelled.
- Frontend.Match: does not say that a client is answered in the end; a notification between the first read and the subscription is missed by the code.
- Accumulator.Accumulator.Receive: handlers and timer hold one mutex in the code, so each is one step here; the lock itself is not modelled.
- NATS, Redis, gRPC and the generated messages: streams and the store are abstract, a message is received by one subscriber.
- Backoff times, `MaxDelay`, create time and cancellation: a retry is a list of attempts, time is a parameter.
- `DeleteMatchRequest` (tickets.go:210): nothing calls it, and it leaves the ticket's allocation behind.
- The nil match a dispenser is handed when its record cannot be read for good (matches.go:125-128): the model's dispenser reads until it succeeds.
- Sorted sets and sets of the store (redis.go:121-170): the protocol does not use them.
- The Kubernetes operator, the lock manager, the fake assignment service, the commands and the load generator: plumbing around the protocol.
