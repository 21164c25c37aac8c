/** The external services the managers are clients of: the Redis keyspace with its three collections,
    the message stream, and the per-ticket notifications. */
module Backend {
  import opened Records
  import opened Redis
  import opened Protocol

  /** What the program marshals into the store. */
  datatype Value =
    | DocValue(doc: MatchRequest)
    | IdValue(matchId: string)
    | MatchValue(m: Match)

  const TICKETS: string := "tickets"
  const TICKET_ASSIGNMENTS: string := "ticket_assignments"
  const MATCHES: string := "matches"

  lemma CollectionsPlain()
    ensures Plain(TICKETS) && Plain(TICKET_ASSIGNMENTS) && Plain(MATCHES)
    ensures TICKETS != TICKET_ASSIGNMENTS && TICKETS != MATCHES && TICKET_ASSIGNMENTS != MATCHES
  {
    assert |TICKETS| == |MATCHES| && TICKETS[0] != MATCHES[0] && |TICKET_ASSIGNMENTS| > |TICKETS|;
  }

  // ---- Collections as typed maps ----

  ghost function Docs(view: map<string, Value>): map<string, MatchRequest> {
    map k | k in view && view[k].DocValue? :: view[k].doc
  }

  ghost function MatchIds(view: map<string, Value>): map<string, string> {
    map k | k in view && view[k].IdValue? :: view[k].matchId
  }

  ghost function Matches(view: map<string, Value>): map<string, Match> {
    map k | k in view && view[k].MatchValue? :: view[k].m
  }

  // Decoding commutes with writing and deleting.

  lemma DocsWritten(view: map<string, Value>, docs: map<string, MatchRequest>)
    ensures Docs(view + DocValues(docs)) == Docs(view) + docs && DocValues(docs).Keys == docs.Keys
  {
  }

  lemma MatchIdsWritten(view: map<string, Value>, allocs: map<string, string>)
    ensures MatchIds(view + IdValues(allocs)) == MatchIds(view) + allocs && IdValues(allocs).Keys == allocs.Keys
  {
  }

  lemma DocWritten(view: map<string, Value>, k: string, doc: MatchRequest)
    ensures Docs(view[k := DocValue(doc)]) == Docs(view)[k := doc]
  {
  }

  lemma MatchWritten(view: map<string, Value>, k: string, m: Match)
    ensures Matches(view[k := MatchValue(m)]) == Matches(view)[k := m]
  {
  }

  lemma Deleted(view: map<string, Value>, gone: set<string>)
    ensures Docs(view - gone) == Docs(view) - gone
    ensures MatchIds(view - gone) == MatchIds(view) - gone
    ensures Matches(view - gone) == Matches(view) - gone
  {
  }

  function DocValues(docs: map<string, MatchRequest>): map<string, Value> {
    map k | k in docs :: DocValue(docs[k])
  }

  function IdValues(allocs: map<string, string>): map<string, Value> {
    map k | k in allocs :: IdValue(allocs[k])
  }

  /** The three collections, decoded. */
  datatype Db = Db(docs: map<string, MatchRequest>, allocs: map<string, string>, matches: map<string, Match>)

  /** The store as the managers use it: values are marshalled in and out of the flat keyspace. */
  class Store {
    const kv: Client<Value>
    ghost var db: Db

    constructor ()
      ensures fresh(kv) && Valid() && db == Db(map[], map[], map[])
    {
      kv := new Client("om");
      db := Db(map[], map[], map[]);
      new;
      CollectionEmpty<Value>(Base(kv.prefix, TICKETS));
      CollectionEmpty<Value>(Base(kv.prefix, TICKET_ASSIGNMENTS));
      CollectionEmpty<Value>(Base(kv.prefix, MATCHES));
      assert kv.View(TICKETS) == map[] && kv.View(TICKET_ASSIGNMENTS) == map[] && kv.View(MATCHES) == map[];
      assert Docs(map[]) == map[] && MatchIds(map[]) == map[] && Matches(map[]) == map[];
    }

    /** Every entry decodes as what its collection holds, documents are stored under their own id,
        and `db` is what the collections decode to. */
    ghost predicate Valid()
      reads this, kv
    {
      && (forall k :: k in kv.View(TICKETS) ==> kv.View(TICKETS)[k].DocValue?)
      && (forall k :: k in kv.View(TICKET_ASSIGNMENTS) ==> kv.View(TICKET_ASSIGNMENTS)[k].IdValue?)
      && (forall k :: k in kv.View(MATCHES) ==> kv.View(MATCHES)[k].MatchValue?)
      && db == Db(Docs(kv.View(TICKETS)), MatchIds(kv.View(TICKET_ASSIGNMENTS)), Matches(kv.View(MATCHES)))
      && (forall k :: k in db.docs ==> db.docs[k].id == k)
    }

    method SetNXDoc(doc: MatchRequest, up: bool) returns (wasSet: bool, ok: bool)
      requires Valid()
      modifies this, kv
      ensures Valid()
      ensures ok == up && wasSet == (ok && doc.id !in old(db).docs)
      ensures db == if wasSet then old(db).(docs := old(db).docs[doc.id := doc]) else old(db)
    {
      CollectionsPlain();
      DocWritten(kv.View(TICKETS), doc.id, doc);
      assert doc.id in db.docs <==> doc.id in kv.View(TICKETS);
      wasSet, ok := kv.SetNX(TICKETS, doc.id, DocValue(doc), up);
      if wasSet {
        db := db.(docs := db.docs[doc.id := doc]);
      }
    }

    method MSetDocs(docs: map<string, MatchRequest>, up: bool) returns (ok: bool)
      requires Valid() && forall k :: k in docs ==> docs[k].id == k
      modifies this, kv
      ensures Valid()
      ensures ok == (up && docs.Keys != {})
      ensures db == if ok then old(db).(docs := old(db).docs + docs) else old(db)
    {
      CollectionsPlain();
      DocsWritten(kv.View(TICKETS), docs);
      ok := kv.MSet(TICKETS, DocValues(docs), up);
      if ok {
        db := db.(docs := db.docs + docs);
      }
    }

    method GetDoc(id: string, up: bool) returns (r: Lookup<MatchRequest>)
      requires Valid()
      ensures r == if !up then Failed else if id in db.docs then Found(db.docs[id]) else NotFound
    {
      var got := kv.Get(TICKETS, id, up);
      match got
      case Found(v) => r := Found(v.doc);
      case NotFound => r := NotFound;
      case Failed => r := Failed;
    }

    method MGetDocs(ids: seq<string>, up: bool) returns (docs: map<string, MatchRequest>, ok: bool)
      requires Valid()
      ensures ok == (up || ids == [])
      ensures docs == if ok then map k | k in ids && k in db.docs :: db.docs[k] else map[]
    {
      var got;
      got, ok := kv.MGet(TICKETS, ids, up);
      docs := map k | k in got :: got[k].doc;
    }

    method DelDoc(id: string, up: bool) returns (ok: bool)
      requires Valid()
      modifies this, kv
      ensures Valid() && ok == up
      ensures db == if ok then old(db).(docs := old(db).docs - {id}) else old(db)
    {
      CollectionsPlain();
      assert (set k | k in [id]) == {id};
      Deleted(kv.View(TICKETS), {id});
      ok := kv.Del(TICKETS, [id], up);
      if ok {
        db := db.(docs := db.docs - {id});
      }
    }

    method MSetNXAllocs(allocs: map<string, string>, up: bool) returns (wasSet: bool, ok: bool)
      requires Valid()
      modifies this, kv
      ensures Valid()
      ensures ok == (up && allocs.Keys != {}) && wasSet == (ok && allocs.Keys !! old(db).allocs.Keys)
      ensures db == if wasSet then old(db).(allocs := old(db).allocs + allocs) else old(db)
    {
      CollectionsPlain();
      MatchIdsWritten(kv.View(TICKET_ASSIGNMENTS), allocs);
      assert db.allocs.Keys == kv.View(TICKET_ASSIGNMENTS).Keys;
      wasSet, ok := kv.MSetNX(TICKET_ASSIGNMENTS, IdValues(allocs), up);
      if wasSet {
        db := db.(allocs := db.allocs + allocs);
      }
    }

    method MGetAllocs(ids: seq<string>, up: bool) returns (allocs: map<string, string>, ok: bool)
      requires Valid()
      ensures ok == (up || ids == [])
      ensures allocs == if ok then map k | k in ids && k in db.allocs :: db.allocs[k] else map[]
    {
      var got;
      got, ok := kv.MGet(TICKET_ASSIGNMENTS, ids, up);
      allocs := map k | k in got :: got[k].matchId;
    }

    method DelAllocs(ids: seq<string>, up: bool) returns (ok: bool)
      requires Valid()
      modifies this, kv
      ensures Valid() && ok == (up && ids != [])
      ensures db == if ok then old(db).(allocs := old(db).allocs - (set id | id in ids)) else old(db)
    {
      CollectionsPlain();
      Deleted(kv.View(TICKET_ASSIGNMENTS), set id | id in ids);
      ok := kv.Del(TICKET_ASSIGNMENTS, ids, up);
      if ok {
        db := db.(allocs := db.allocs - (set id | id in ids));
      }
    }

    method SetMatch(m: Match, up: bool) returns (ok: bool)
      requires Valid()
      modifies this, kv
      ensures Valid() && ok == up
      ensures db == if ok then old(db).(matches := old(db).matches[m.id := m]) else old(db)
    {
      CollectionsPlain();
      MatchWritten(kv.View(MATCHES), m.id, m);
      ok := kv.Set(MATCHES, m.id, MatchValue(m), up);
      if ok {
        db := db.(matches := db.matches[m.id := m]);
      }
    }

    method GetMatch(id: string, up: bool) returns (r: Lookup<Match>)
      requires Valid()
      ensures r == if !up then Failed else if id in db.matches then Found(db.matches[id]) else NotFound
    {
      var got := kv.Get(MATCHES, id, up);
      match got
      case Found(v) => r := Found(v.m);
      case NotFound => r := NotFound;
      case Failed => r := Failed;
    }

    method DelMatch(id: string, up: bool) returns (ok: bool)
      requires Valid()
      modifies this, kv
      ensures Valid() && ok == up
      ensures db == if ok then old(db).(matches := old(db).matches - {id}) else old(db)
    {
      CollectionsPlain();
      assert (set k | k in [id]) == {id};
      Deleted(kv.View(MATCHES), {id});
      ok := kv.Del(MATCHES, [id], up);
      if ok {
        db := db.(matches := db.matches - {id});
      }
    }
  }

  class Stream {
    var sent: seq<Envelope>

    constructor ()
      ensures sent == []
    {
      sent := [];
    }

    method SendMessage(topic: string, payload: Payload, up: bool) returns (ok: bool)
      modifies this
      ensures ok == up
      ensures sent == if ok then old(sent) + [Envelope(topic, payload)] else old(sent)
    {
      ok := up;
      if up {
        sent := sent + [Envelope(topic, payload)];
      }
    }
  }

  class PubSub {
    var published: seq<string>

    constructor ()
      ensures published == []
    {
      published := [];
    }

    method Publish(subject: string)
      modifies this
      ensures published == old(published) + [subject]
    {
      published := published + [subject];
    }
  }
}
