/** The key-value store: several named collections kept in one flat keyspace of prefixed keys. */
module Redis {
  import opened Records

  // ---- Keys ----

  function Base(prefix: string, collection: string): string {
    prefix + ":" + collection + ":"
  }

  function FlatKey(base: string, key: string): string {
    base + key
  }

  /** The form of a key in the store. */
  lemma KeyForm(prefix: string, collection: string, key: string)
    ensures FlatKey(Base(prefix, collection), key) == prefix + [':'] + collection + [':'] + key
  {
  }

  ghost predicate Apart(b: string, e: string) {
    !(b <= e) && !(e <= b)
  }

  /** No key of one collection can be a key of the other. */
  ghost predicate Separate(c: string, d: string) {
    Apart(c + ":", d + ":")
  }

  /** A collection name without a colon. */
  predicate Plain(c: string) {
    ':' !in c
  }

  lemma KeyInjective(base: string, k: string, l: string)
    requires FlatKey(base, k) == FlatKey(base, l)
    ensures k == l
  {
    assert k == FlatKey(base, k)[|base|..];
    assert l == FlatKey(base, l)[|base|..];
  }

  lemma EqualKeysNest(b: string, e: string, k: string, l: string)
    ensures FlatKey(b, k) == FlatKey(e, l) ==> b <= e || e <= b
  {
    var x := FlatKey(b, k);
    if x == FlatKey(e, l) {
      assert b == x[..|b|] && e == x[..|e|];
      assert if |b| <= |e| then b == e[..|b|] else e == b[..|e|];
    }
  }

  /** Two bases share a flat key exactly when one starts with the other. */
  lemma CollisionIffNotApart(b: string, e: string)
    ensures Apart(b, e) <==> forall k, l :: FlatKey(b, k) != FlatKey(e, l)
  {
    if Apart(b, e) {
      forall k, l ensures FlatKey(b, k) != FlatKey(e, l) {
        EqualKeysNest(b, e, k, l);
      }
    } else if b <= e {
      assert FlatKey(b, e[|b|..]) == e == FlatKey(e, "");
    } else {
      assert FlatKey(e, b[|e|..]) == b == FlatKey(b, "");
    }
  }

  lemma PrefixStrip(p: string, x: string, y: string)
    ensures p + x <= p + y <==> x <= y
  {
    assert (p + x)[|p|..] == x && (p + y)[|p|..] == y;
    if p + x <= p + y {
      assert p + x == (p + y)[..|p + x|];
      assert x == y[..|x|];
    }
    if x <= y {
      assert y == x + y[|x|..];
      assert p + y == (p + x) + y[|x|..];
    }
  }

  /** Under one prefix, whether two collections can collide depends on their names alone: they share a
      flat key exactly when one name followed by a colon starts with the other followed by a colon. */
  lemma CollisionIffNotSeparate(prefix: string, c: string, d: string)
    ensures Separate(c, d) <==> forall k, l :: FlatKey(Base(prefix, c), k) != FlatKey(Base(prefix, d), l)
  {
    SeparateBases(prefix, c, d);
    CollisionIffNotApart(Base(prefix, c), Base(prefix, d));
  }

  lemma SeparateBases(prefix: string, c: string, d: string)
    ensures Separate(c, d) <==> Apart(Base(prefix, c), Base(prefix, d))
  {
    var p := prefix + ":";
    assert Base(prefix, c) == p + (c + ":") && Base(prefix, d) == p + (d + ":");
    PrefixStrip(p, c + ":", d + ":");
    PrefixStrip(p, d + ":", c + ":");
  }

  lemma NestedNames(c: string, d: string)
    ensures c + ":" <= d + ":" ==> c == d || ':' in d
  {
    if c + ":" <= d + ":" {
      assert |c| <= |d| && (d + ":")[|c|] == ':';
      assert c == (d + ":")[..|c|];
      if |c| < |d| {
        assert d[|c|] in d;
      }
    }
  }

  /** Distinct names without a colon never collide. */
  lemma NoColonSeparates(c: string, d: string)
    requires c != d && Plain(c) && Plain(d)
    ensures Separate(c, d)
  {
    NestedNames(c, d);
    NestedNames(d, c);
  }

  // ---- Collections ----

  /** `m` is what the flat entries under a base hold, by their key without the base. */
  ghost predicate Strips<V>(base: string, data: map<string, V>, m: map<string, V>) {
    && (forall k {:trigger k in m} :: k in m ==> FlatKey(base, k) in data && m[k] == data[FlatKey(base, k)])
    && (forall k {:trigger FlatKey(base, k)} :: FlatKey(base, k) in data ==> k in m)
  }

  lemma StrippedExists<V>(base: string, data: map<string, V>)
    ensures exists m :: Strips(base, data, m)
  {
    var keys := set f | f in data && base <= f :: f[|base|..];
    var m := map k: string | k in keys && FlatKey(base, k) in data :: data[FlatKey(base, k)];
    forall k | FlatKey(base, k) in data ensures k in m {
      var f := FlatKey(base, k);
      assert base <= f && f[|base|..] == k;
    }
    assert Strips(base, data, m);
  }

  /** What a collection holds. */
  ghost function Collection<V>(base: string, data: map<string, V>): (m: map<string, V>)
    ensures Strips(base, data, m)
  {
    StrippedExists(base, data);
    var m :| Strips(base, data, m);
    m
  }

  lemma CollectionHas<V>(base: string, data: map<string, V>)
    ensures forall k :: k in Collection(base, data) <==> FlatKey(base, k) in data
    ensures forall k :: k in Collection(base, data) ==> Collection(base, data)[k] == data[FlatKey(base, k)]
  {
  }

  lemma CollectionEmpty<V>(base: string)
    ensures Collection<V>(base, map[]) == map[]
  {
    var m: map<string, V> := Collection(base, map[]);
    assert forall k :: k !in m;
  }

  /** The flat entries that a write of several values to one collection makes. */
  ghost predicate Prefixes<V>(base: string, values: map<string, V>, flat: map<string, V>) {
    && (forall k :: k in values ==> FlatKey(base, k) in flat && flat[FlatKey(base, k)] == values[k])
    && (forall f :: f in flat ==> exists k :: k in values && f == FlatKey(base, k))
  }

  lemma PrefixesExactly<V>(base: string, values: map<string, V>, flat: map<string, V>, k: string)
    requires Prefixes(base, values, flat)
    ensures FlatKey(base, k) in flat <==> k in values
  {
    if FlatKey(base, k) in flat {
      var l :| l in values && FlatKey(base, k) == FlatKey(base, l);
      KeyInjective(base, k, l);
    }
  }

  /** A collection all of whose flat keys keep their entries keeps its contents. */
  lemma SameEntries<V>(base: string, data: map<string, V>, data': map<string, V>)
    requires forall k :: FlatKey(base, k) in data <==> FlatKey(base, k) in data'
    requires forall k :: FlatKey(base, k) in data && FlatKey(base, k) in data' ==> data'[FlatKey(base, k)] == data[FlatKey(base, k)]
    ensures Collection(base, data') == Collection(base, data)
  {
    CollectionHas(base, data);
    CollectionHas(base, data');
  }

  lemma WriteElsewhere<V>(base: string, e: string, data: map<string, V>, values: map<string, V>, flat: map<string, V>)
    requires Prefixes(base, values, flat) && Apart(base, e)
    ensures Collection(e, data + flat) == Collection(e, data)
  {
    forall k ensures FlatKey(e, k) !in flat {
      forall l ensures FlatKey(base, l) != FlatKey(e, k) {
        EqualKeysNest(base, e, l, k);
      }
    }
    SameEntries(e, data, data + flat);
  }

  lemma DeleteElsewhere<V>(base: string, e: string, data: map<string, V>, keys: set<string>, flat: set<string>)
    requires (forall f :: f in flat ==> exists k :: k in keys && f == FlatKey(base, k)) && Apart(base, e)
    ensures Collection(e, data - flat) == Collection(e, data)
  {
    forall k ensures FlatKey(e, k) !in flat {
      forall l ensures FlatKey(base, l) != FlatKey(e, k) {
        EqualKeysNest(base, e, l, k);
      }
    }
    SameEntries(e, data, data - flat);
  }

  lemma WriteAt<V>(base: string, data: map<string, V>, values: map<string, V>, flat: map<string, V>, k: string)
    requires Prefixes(base, values, flat)
    ensures k in Collection(base, data + flat) <==> k in Collection(base, data) || k in values
    ensures k in values ==> Collection(base, data + flat)[k] == values[k]
    ensures k in Collection(base, data) && k !in values ==> Collection(base, data + flat)[k] == Collection(base, data)[k]
  {
    PrefixesExactly(base, values, flat, k);
    CollectionHas(base, data);
    CollectionHas(base, data + flat);
  }

  /** Writing to one collection is a write to that map, and leaves every separate collection alone. */
  lemma WriteRefines<V>(base: string, data: map<string, V>, values: map<string, V>, flat: map<string, V>)
    requires Prefixes(base, values, flat)
    ensures Collection(base, data + flat) == Collection(base, data) + values
    ensures forall e :: Apart(base, e) ==> Collection(e, data + flat) == Collection(e, data)
  {
    var before, after := Collection(base, data), Collection(base, data + flat);
    forall k
      ensures k in after <==> k in before || k in values
      ensures k in after ==> after[k] == if k in values then values[k] else before[k]
    {
      WriteAt(base, data, values, flat, k);
    }
    assert after == before + values;
    forall e | Apart(base, e) ensures Collection(e, data + flat) == Collection(e, data) {
      WriteElsewhere(base, e, data, values, flat);
    }
  }

  /** Deleting from one collection is a deletion from that map, and leaves every separate collection alone. */
  lemma DeleteRefines<V>(base: string, data: map<string, V>, keys: set<string>, flat: set<string>)
    requires forall k :: k in keys ==> FlatKey(base, k) in flat
    requires forall f :: f in flat ==> exists k :: k in keys && f == FlatKey(base, k)
    ensures Collection(base, data - flat) == Collection(base, data) - keys
    ensures forall e :: Apart(base, e) ==> Collection(e, data - flat) == Collection(e, data)
  {
    CollectionHas(base, data);
    CollectionHas(base, data - flat);
    forall k ensures FlatKey(base, k) in flat <==> k in keys {
      if FlatKey(base, k) in flat {
        var l :| l in keys && FlatKey(base, k) == FlatKey(base, l);
        KeyInjective(base, k, l);
      }
    }
    forall e | Apart(base, e) ensures Collection(e, data - flat) == Collection(e, data) {
      DeleteElsewhere(base, e, data, keys, flat);
    }
  }

  // ---- Glob patterns, as KEYS understands them ----

  predicate IsWildcard(x: char) {
    x == '*' || x == '?'
  }

  predicate Literal(text: string) {
    forall x :: x in text ==> !IsWildcard(x)
  }

  /** Sets and escapes are the parts of the pattern language left out. */
  predicate NoSets(pattern: string) {
    '[' !in pattern && '\\' !in pattern
  }

  /** Matching of patterns made of literal characters, '?' and '*'. */
  predicate Glob(pattern: string, s: string)
    decreases |pattern| + |s|
  {
    if pattern == "" then s == ""
    else if pattern[0] == '*' then Glob(pattern[1..], s) || (s != "" && Glob(pattern, s[1..]))
    else if pattern[0] == '?' then s != "" && Glob(pattern[1..], s[1..])
    else s != "" && s[0] == pattern[0] && Glob(pattern[1..], s[1..])
  }

  lemma {:induction false} StarMatchesAll(s: string)
    ensures Glob("*", s)
  {
    if s != "" {
      StarMatchesAll(s[1..]);
    }
  }

  /** A literal followed by a star selects exactly the strings that start with the literal. */
  lemma {:induction false} GlobPrefix(lit: string, s: string)
    requires Literal(lit)
    ensures Glob(lit + "*", s) <==> lit <= s
  {
    if lit == "" {
      assert lit + "*" == "*";
      StarMatchesAll(s);
    } else {
      assert lit[0] in lit;
      assert (lit + "*")[1..] == lit[1..] + "*";
      if s != "" {
        GlobPrefix(lit[1..], s[1..]);
        assert lit <= s <==> lit[0] == s[0] && lit[1..] <= s[1..];
      }
    }
  }

  /** Reading the same text as pattern and as string in front keeps a match. */
  lemma {:induction false} GlobFront(pre: string, q: string, s: string)
    requires Glob(q, s)
    ensures Glob(pre + q, pre + s)
  {
    if pre == "" {
      assert pre + q == q && pre + s == s;
    } else {
      GlobFront(pre[1..], q, s);
      assert (pre + q)[1..] == pre[1..] + q && (pre + s)[1..] == pre[1..] + s;
      if pre[0] == '*' {
        assert Glob(pre + q, (pre + s)[1..]);
      }
    }
  }

  lemma GlobOwn(p: string)
    ensures Glob(p + "*", p)
  {
    StarMatchesAll("");
    GlobFront(p, "*", "");
    assert p + "" == p;
  }

  /** A string that a pattern with a wildcard in it selects although it does not start with the pattern's text. */
  lemma WildcardStray(base: string, i: nat) returns (f: string)
    requires i < |base| && IsWildcard(base[i])
    ensures Glob(base + "*", f) && !(base <= f)
    ensures base[i] == '*' ==> |f| < |base|
  {
    var pre, post := base[..i], base[i + 1..];
    GlobOwn(post);
    assert base + "*" == pre + ([base[i]] + (post + "*"));
    assert ([base[i]] + (post + "*"))[1..] == post + "*";
    if base[i] == '*' {
      f := pre + post;
      assert Glob([base[i]] + (post + "*"), post);
      GlobFront(pre, [base[i]] + (post + "*"), post);
    } else {
      f := pre + ("x" + post);
      assert ("x" + post)[1..] == post;
      assert Glob([base[i]] + (post + "*"), "x" + post);
      GlobFront(pre, [base[i]] + (post + "*"), "x" + post);
      assert f[i] == 'x' != base[i];
    }
  }

  ghost predicate SelectsByPrefix(base: string) {
    forall f :: Glob(base + "*", f) <==> base <= f
  }

  /** A pattern made of a text and a star selects exactly the strings that start with the text if and only if
      the text has no wildcard. */
  lemma PrefixPatternIff(base: string)
    ensures SelectsByPrefix(base) <==> Literal(base)
  {
    if Literal(base) {
      forall f ensures Glob(base + "*", f) <==> base <= f {
        GlobPrefix(base, f);
      }
    } else {
      var x :| x in base && IsWildcard(x);
      var i :| 0 <= i < |base| && base[i] == x;
      var f := WildcardStray(base, i);
      assert !(Glob(base + "*", f) <==> base <= f);
    }
  }

  // ---- The client ----

  datatype Lookup<+V> = Found(value: V) | NotFound | Failed

  /** The flat form of a write of several values. */
  method Prefixed<V>(base: string, values: map<string, V>) returns (flat: map<string, V>)
    ensures Prefixes(base, values, flat)
  {
    flat := map[];
    var todo := values.Keys;
    ghost var done: set<string> := {};
    while todo != {}
      invariant todo + done == values.Keys && todo !! done
      invariant forall k :: k in done ==> FlatKey(base, k) in flat && flat[FlatKey(base, k)] == values[k]
      invariant forall f :: f in flat ==> exists k :: k in done && f == FlatKey(base, k)
      decreases todo
    {
      var k :| k in todo;
      forall l | l in done ensures FlatKey(base, l) != FlatKey(base, k) {
        if FlatKey(base, l) == FlatKey(base, k) {
          KeyInjective(base, l, k);
        }
      }
      ghost var before := flat;
      flat := flat[FlatKey(base, k) := values[k]];
      forall f | f in flat ensures exists l :: l in done + {k} && f == FlatKey(base, l) {
        if f in before {
          var l :| l in done && f == FlatKey(base, l);
          assert l in done + {k};
        } else {
          assert k in done + {k};
        }
      }
      todo, done := todo - {k}, done + {k};
    }
  }

  method FlatKeys(base: string, keys: seq<string>) returns (out: seq<string>)
    ensures |out| == |keys| && forall i :: 0 <= i < |keys| ==> out[i] == FlatKey(base, keys[i])
  {
    var collectionKeys := new string[|keys|];
    for i := 0 to |keys|
      invariant forall j :: 0 <= j < i ==> collectionKeys[j] == FlatKey(base, keys[j])
    {
      collectionKeys[i] := FlatKey(base, keys[i]);
    }
    out := collectionKeys[..];
  }

  /** The server's reply to MGET: for each key its value, or nil. */
  method Answer<V>(data: map<string, V>, keys: seq<string>) returns (out: seq<Option<V>>)
    ensures |out| == |keys|
    ensures forall i :: 0 <= i < |keys| ==> out[i] == if keys[i] in data then Some(data[keys[i]]) else None
  {
    out := [];
    for i := 0 to |keys|
      invariant |out| == i
      invariant forall j :: 0 <= j < i ==> out[j] == if keys[j] in data then Some(data[keys[j]]) else None
    {
      out := out + [if keys[i] in data then Some(data[keys[i]]) else None];
    }
  }

  lemma PrefixesSize<V>(base: string, values: map<string, V>, flat: map<string, V>)
    requires Prefixes(base, values, flat)
    ensures flat.Keys == {} <==> values.Keys == {}
  {
    if k :| k in values {
      assert FlatKey(base, k) in flat;
    }
  }

  lemma PrefixesDisjoint<V>(base: string, data: map<string, V>, values: map<string, V>, flat: map<string, V>)
    requires Prefixes(base, values, flat)
    ensures flat.Keys !! data.Keys <==> values.Keys !! Collection(base, data).Keys
  {
    CollectionHas(base, data);
    if k :| k in values && k in Collection(base, data) {
      assert FlatKey(base, k) in flat.Keys && FlatKey(base, k) in data.Keys;
    }
    if f :| f in flat && f in data {
      var k :| k in values && f == FlatKey(base, k);
      assert k in values.Keys && k in Collection(base, data).Keys;
    }
  }

  lemma PrefixesOne<V>(base: string, key: string, value: V) returns (values: map<string, V>)
    ensures values == map[key := value] && Prefixes(base, values, map[FlatKey(base, key) := value])
  {
    values := map[key := value];
    assert key in values;
  }

  /** What a write of flat entries does, seen through the collections. */
  lemma Wrote<V>(prefix: string, data: map<string, V>, c: string, values: map<string, V>, flat: map<string, V>)
    requires Prefixes(Base(prefix, c), values, flat)
    ensures Collection(Base(prefix, c), data + flat) == Collection(Base(prefix, c), data) + values
    ensures Plain(c) ==> forall d :: Plain(d) && d != c ==>
              Collection(Base(prefix, d), data + flat) == Collection(Base(prefix, d), data)
  {
    WriteRefines(Base(prefix, c), data, values, flat);
    forall d | Plain(c) && Plain(d) && d != c ensures Collection(Base(prefix, d), data + flat) == Collection(Base(prefix, d), data) {
      NoColonSeparates(c, d);
      SeparateBases(prefix, c, d);
    }
  }

  /** Without wildcards the keys selected, less their prefix, are the collection's. */
  lemma SelectedIsView<V>(prefix: string, c: string, data: map<string, V>)
    ensures var base := Base(prefix, c);
            var selected := set f | f in data && Glob(base + "*", f);
            Literal(base) ==>
              && (forall f :: f in selected ==> |base| <= |f|)
              && (set f | f in selected && |base| <= |f| :: f[|base|..]) == Collection(base, data).Keys
  {
    var base := Base(prefix, c);
    var selected := set f | f in data && Glob(base + "*", f);
    var keys := set f | f in selected && |base| <= |f| :: f[|base|..];
    if Literal(base) {
      forall f ensures Glob(base + "*", f) <==> base <= f {
        GlobPrefix(base, f);
      }
      CollectionHas(base, data);
      forall k ensures k in keys <==> k in Collection(base, data) {
        if k in keys {
          var f :| f in selected && |base| <= |f| && f[|base|..] == k;
          assert f == FlatKey(base, k);
        }
        if k in Collection(base, data) {
          assert FlatKey(base, k) in selected && FlatKey(base, k)[|base|..] == k;
        }
      }
    }
  }

  /** Each method makes one call to the server; `up` says whether that call gets through. */
  class Client<V> {
    const prefix: string
    var data: map<string, V>  // the server's keyspace

    constructor (prefix: string)
      ensures this.prefix == prefix && data == map[]
    {
      this.prefix := prefix;
      data := map[];
    }

    ghost function View(c: string): map<string, V>
      reads this
    {
      Collection(Base(prefix, c), data)
    }

    method Set(c: string, key: string, value: V, up: bool) returns (ok: bool)
      modifies this
      ensures ok == up
      ensures View(c) == if ok then old(View(c))[key := value] else old(View(c))
      ensures Plain(c) ==> forall d :: Plain(d) && d != c ==> View(d) == old(View(d))
    {
      ok := up;
      if up {
        var flat := map[FlatKey(Base(prefix, c), key) := value];
        ghost var values := PrefixesOne(Base(prefix, c), key, value);
        Wrote(prefix, data, c, values, flat);
        data := data + flat;
      }
    }

    /** The server refuses an MSET without arguments. */
    method MSet(c: string, values: map<string, V>, up: bool) returns (ok: bool)
      modifies this
      ensures ok == (up && values.Keys != {})
      ensures View(c) == if ok then old(View(c)) + values else old(View(c))
      ensures Plain(c) ==> forall d :: Plain(d) && d != c ==> View(d) == old(View(d))
    {
      var flat := Prefixed(Base(prefix, c), values);
      PrefixesSize(Base(prefix, c), values, flat);
      ok := up && flat.Keys != {};
      if ok {
        Wrote(prefix, data, c, values, flat);
        data := data + flat;
      }
    }

    /** All values are set when none of the keys exists, and none is set otherwise. */
    method MSetNX(c: string, values: map<string, V>, up: bool) returns (wasSet: bool, ok: bool)
      modifies this
      ensures ok == (up && values.Keys != {})
      ensures wasSet == (ok && values.Keys !! old(View(c)).Keys)
      ensures View(c) == if wasSet then old(View(c)) + values else old(View(c))
      ensures Plain(c) ==> forall d :: Plain(d) && d != c ==> View(d) == old(View(d))
    {
      var flat := Prefixed(Base(prefix, c), values);
      PrefixesSize(Base(prefix, c), values, flat);
      PrefixesDisjoint(Base(prefix, c), data, values, flat);
      ok := up && flat.Keys != {};
      wasSet := ok && flat.Keys !! data.Keys;
      if wasSet {
        Wrote(prefix, data, c, values, flat);
        data := data + flat;
      }
    }

    method SetNX(c: string, key: string, value: V, up: bool) returns (wasSet: bool, ok: bool)
      modifies this
      ensures ok == up && wasSet == (ok && key !in old(View(c)))
      ensures View(c) == if wasSet then old(View(c))[key := value] else old(View(c))
      ensures Plain(c) ==> forall d :: Plain(d) && d != c ==> View(d) == old(View(d))
    {
      ok := up;
      CollectionHas(Base(prefix, c), data);
      wasSet := ok && FlatKey(Base(prefix, c), key) !in data;
      if wasSet {
        var done := Set(c, key, value, up);
      }
    }

    method Get(c: string, key: string, up: bool) returns (r: Lookup<V>)
      ensures r == if !up then Failed else if key in View(c) then Found(View(c)[key]) else NotFound
    {
      CollectionHas(Base(prefix, c), data);
      var flatKey := FlatKey(Base(prefix, c), key);
      if !up {
        r := Failed;
      } else if flatKey in data {
        r := Found(data[flatKey]);
      } else {
        r := NotFound;
      }
    }

    /** The present ones among the keys asked for; no keys make no call. */
    method MGet(c: string, keys: seq<string>, up: bool) returns (resp: map<string, V>, ok: bool)
      ensures ok == (up || keys == [])
      ensures resp == if ok then map k | k in keys && k in View(c) :: View(c)[k] else map[]
    {
      CollectionHas(Base(prefix, c), data);
      resp := map[];
      ok := true;
      if |keys| == 0 {
        return;
      }
      var collectionKeys := FlatKeys(Base(prefix, c), keys);
      if !up {
        ok := false;
        return;
      }
      var result := Answer(data, collectionKeys);
      for i := 0 to |keys|
        invariant forall k :: k in resp <==> k in keys[..i] && k in View(c)
        invariant forall k :: k in resp ==> resp[k] == View(c)[k]
      {
        assert keys[..i + 1] == keys[..i] + [keys[i]];
        assert result[i].Some? <==> keys[i] in View(c);
        if result[i].Some? {
          resp := resp[keys[i] := result[i].value];
        }
      }
      assert keys[..|keys|] == keys;
    }

    /** What KEYS answers for the collection's pattern. */
    ghost function Selected(c: string): set<string>
      reads this
    {
      set f | f in data && Glob(Base(prefix, c) + "*", f)
    }

    /** The selected keys, each less as many characters as the collection's prefix has. These are the keys of the
        collection when prefix and name have no wildcard. A selected key may be shorter than the prefix when
        there is one; then the slice is out of range. */
    method Keys(c: string, up: bool) returns (keys: set<string>, ok: bool, panicked: bool)
      requires NoSets(Base(prefix, c))
      ensures panicked <==> up && exists f :: f in Selected(c) && |f| < |Base(prefix, c)|
      ensures ok == (up && !panicked)
      ensures keys == if ok then set f | f in Selected(c) && |Base(prefix, c)| <= |f| :: f[|Base(prefix, c)|..] else {}
      ensures Literal(Base(prefix, c)) ==> !panicked && (ok ==> keys == View(c).Keys)
    {
      ok, panicked, keys := up, false, {};
      SelectedIsView(prefix, c, data);
      if !up {
        return;
      }
      var base := Base(prefix, c);
      var matched := set f | f in data && Glob(base + "*", f);
      var todo := matched;
      while todo != {}
        invariant todo <= matched
        invariant forall f :: f in matched - todo ==> |base| <= |f|
        invariant keys == set f | f in matched - todo && |base| <= |f| :: f[|base|..]
        decreases todo
      {
        var f :| f in todo;
        if |f| < |base| {
          return {}, false, true;
        }
        keys := keys + {f[|base|..]};
        todo := todo - {f};
      }
    }

    method Del(c: string, keys: seq<string>, up: bool) returns (ok: bool)
      modifies this
      ensures ok == (up && keys != [])
      ensures View(c) == if ok then old(View(c)) - (set k | k in keys) else old(View(c))
      ensures Plain(c) ==> forall d :: Plain(d) && d != c ==> View(d) == old(View(d))
    {
      var base := Base(prefix, c);
      var toDel: set<string> := {};
      for i := 0 to |keys|
        invariant forall k :: k in keys[..i] ==> FlatKey(base, k) in toDel
        invariant forall f :: f in toDel ==> exists k :: k in keys[..i] && f == FlatKey(base, k)
      {
        assert keys[..i + 1] == keys[..i] + [keys[i]];
        ghost var before := toDel;
        toDel := toDel + {FlatKey(base, keys[i])};
        forall f | f in toDel ensures exists k :: k in keys[..i + 1] && f == FlatKey(base, k) {
          if f in before {
            var k :| k in keys[..i] && f == FlatKey(base, k);
            assert k in keys[..i + 1];
          } else {
            assert keys[i] in keys[..i + 1];
          }
        }
      }
      assert keys[..|keys|] == keys;
      ok := up && |keys| > 0;
      if ok {
        DeleteRefines(base, data, (set k | k in keys), toDel);
        ghost var before := data;
        data := data - toDel;
        forall d | Plain(c) && Plain(d) && d != c ensures View(d) == Collection(Base(prefix, d), before) {
          NoColonSeparates(c, d);
          SeparateBases(prefix, c, d);
        }
      }
    }
  }
}
