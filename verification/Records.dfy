/** The messages and documents the services exchange, the pure conversions between them,
    and the names of the topics they travel on. */
module Records {

  datatype Option<+T> = None | Some(value: T)

  datatype Rtt = Rtt(host: string, milliseconds: int)

  datatype RequestData = RequestData(
    doubles: map<string, real>, strings: map<string, string>, tags: seq<string>, extraData: seq<bv8>)

  const NO_DATA := RequestData(map[], map[], [], [])

  // The client's and the database's game server are different message types.
  datatype ApiPort = ApiPort(name: string, port: int)
  datatype ApiGameServer = ApiGameServer(ip: string, ports: seq<ApiPort>)
  datatype DbPort = DbPort(name: string, port: int)
  datatype DbGameServer = DbGameServer(ip: string, ports: seq<DbPort>)

  /** What a client submits. */
  datatype ApiRequest = ApiRequest(
    id: string, playerId: string, party: Option<seq<string>>, data: Option<RequestData>,
    queue: string, rtts: seq<Rtt>)

  /** The ticket document. */
  datatype MatchRequest = MatchRequest(
    id: string, members: seq<string>, data: Option<RequestData>, queue: string,
    rtts: seq<Rtt>, createTime: int, gameServer: Option<DbGameServer>)

  /** The reference to a ticket that circulates through the topics. */
  datatype StreamTicket = StreamTicket(queue: string, id: string, players: int)

  /** What the custom matchmaker sees of a ticket. */
  datatype Submission = Submission(
    id: string, members: seq<string>, data: RequestData, queue: string, rtts: seq<Rtt>, createTime: int)

  datatype Match = Match(
    id: string, queue: string, requestIds: seq<string>, playerIds: seq<string>, rtts: seq<Rtt>)

  const INT32_LIMIT := 0x8000_0000

  /** Go's conversion of a slice length to int32. */
  function Int32(n: int): int {
    (n + INT32_LIMIT) % (2 * INT32_LIMIT) - INT32_LIMIT
  }

  function TicketOf(request: MatchRequest): StreamTicket {
    StreamTicket(request.queue, request.id, Int32(|request.members|))
  }

  /** A reference has the document's id and queue, and the number of its members if that fits. */
  lemma TicketOfMeans(request: MatchRequest)
    ensures TicketOf(request).id == request.id && TicketOf(request).queue == request.queue
    ensures |request.members| < INT32_LIMIT ==> TicketOf(request).players == |request.members|
  {
  }

  // ---- Game server conversions ----

  function DbPorts(ports: seq<ApiPort>): (out: seq<DbPort>)
    ensures |out| == |ports|
    ensures forall i :: 0 <= i < |ports| ==> out[i].name == ports[i].name && out[i].port == ports[i].port
  {
    if ports == [] then [] else [DbPort(ports[0].name, ports[0].port)] + DbPorts(ports[1..])
  }

  function ApiPorts(ports: seq<DbPort>): (out: seq<ApiPort>)
    ensures |out| == |ports|
    ensures forall i :: 0 <= i < |ports| ==> out[i].name == ports[i].name && out[i].port == ports[i].port
  {
    if ports == [] then [] else [ApiPort(ports[0].name, ports[0].port)] + ApiPorts(ports[1..])
  }

  function ToDb(server: ApiGameServer): (out: DbGameServer)
    ensures out.ip == server.ip && |out.ports| == |server.ports|
    ensures forall i :: 0 <= i < |server.ports| ==>
              out.ports[i].name == server.ports[i].name && out.ports[i].port == server.ports[i].port
  {
    DbGameServer(server.ip, DbPorts(server.ports))
  }

  function ToApi(server: DbGameServer): (out: ApiGameServer)
    ensures out.ip == server.ip && |out.ports| == |server.ports|
    ensures forall i :: 0 <= i < |server.ports| ==>
              out.ports[i].name == server.ports[i].name && out.ports[i].port == server.ports[i].port
  {
    ApiGameServer(server.ip, ApiPorts(server.ports))
  }

  /** The two conversions are inverse: address, port names, port numbers and their order survive. */
  lemma ServerRoundTrip(server: ApiGameServer)
    ensures ToApi(ToDb(server)) == server
  {
    assert ApiPorts(DbPorts(server.ports)) == server.ports;
  }

  // ---- Orderings: what iterating over a Go set or map may produce ----

  ghost predicate Distinct<T>(xs: seq<T>) {
    forall i, j :: 0 <= i < j < |xs| ==> xs[i] != xs[j]
  }

  ghost predicate IsOrdering<T(!new)>(xs: seq<T>, s: set<T>) {
    Distinct(xs) && forall x :: x in xs <==> x in s
  }

  // ---- Topics ----

  const MATCH_REQUEST_PREFIX: string := "match_request_"
  const ACCUMULATED_PREFIX: string := "accumulated_match_request_"
  const UNASSIGNED_MATCHES: string := "match"

  function RequestTopic(queue: string): string {
    MATCH_REQUEST_PREFIX + queue
  }

  function AccumulatedTopic(queue: string): string {
    ACCUMULATED_PREFIX + queue
  }

  /** No two topics of the system share a name, whatever the queues are called. */
  lemma TopicsSeparate(q: string, r: string)
    ensures RequestTopic(q) != AccumulatedTopic(r)
    ensures RequestTopic(q) != UNASSIGNED_MATCHES && AccumulatedTopic(r) != UNASSIGNED_MATCHES
    ensures RequestTopic(q) == RequestTopic(r) ==> q == r
    ensures AccumulatedTopic(q) == AccumulatedTopic(r) ==> q == r
  {
    assert RequestTopic(q)[0] == 'm' && AccumulatedTopic(r)[0] == 'a';
    assert |RequestTopic(q)| > |UNASSIGNED_MATCHES| && |AccumulatedTopic(r)| > |UNASSIGNED_MATCHES|;
    assert q == RequestTopic(q)[|MATCH_REQUEST_PREFIX|..] && r == RequestTopic(r)[|MATCH_REQUEST_PREFIX|..];
    assert q == AccumulatedTopic(q)[|ACCUMULATED_PREFIX|..] && r == AccumulatedTopic(r)[|ACCUMULATED_PREFIX|..];
  }
}
