/** The MongoDB collection the CRUD layer talks to, reduced to what that layer relies on:
    documents in natural (insertion) order, single-field unique indexes (`_id` always),
    filters of the shapes the query helpers build, inclusion projections, cursor sort,
    skip and limit, and a connection that may fail on any round trip. */
module Mongo {
  import opened Base
  import opened Strings
  import opened Sorting

  // ---------------------------------------------------------------- documents

  /** The BSON values the service stores: strings, the `meta` string dictionary,
      booleans, object ids, and null (which a missing field also reads as). */
  datatype Value = Null | Bool(b: bool) | Str(s: string) | Dict(entries: map<string, string>) | ObjectId(oid: nat)

  type Doc = map<string, Value>

  const IdKey: string := "_id"

  /** A field's value; a missing field reads as null, as for matching, sorting and
      unique indexes. */
  function Get(d: Doc, k: string): Value {
    if k in d then d[k] else Null
  }

  // ---------------------------------------------------------------- filters

  /** What a filter holds under one field: a plain value (equality) or an operator
      document with any of `$eq`, `$regex`, `$in` and `$nin`. */
  datatype Cond =
    | Literal(v: Value)
    | Ops(eq: Option<Value>, regex: Option<string>, within: Option<seq<Value>>, without: Option<seq<Value>>)

  type Filter = map<string, Cond>

  /** Regular expression search `re.search(pattern, subject)`, left abstract. */
  type Regex = (string, string) -> bool

  predicate Holds(v: Value, c: Cond, re: Regex) {
    match c
    case Literal(x) => v == x
    case Ops(eq, rx, within, without) =>
      (eq.None? || v == eq.value) &&
      (rx.None? || (v.Str? && re(rx.value, v.s))) &&
      (within.None? || v in within.value) &&
      (without.None? || v !in without.value)
  }

  predicate Matches(d: Doc, q: Filter, re: Regex) {
    forall f :: f in q ==> Holds(Get(d, f), q[f], re)
  }

  /** The index of the first document, in natural order, that matches. */
  function FirstMatch(docs: seq<Doc>, q: Filter, re: Regex): (r: Option<nat>)
    ensures r.Some? ==> r.value < |docs| && Matches(docs[r.value], q, re)
    ensures r.Some? ==> forall j :: 0 <= j < r.value ==> !Matches(docs[j], q, re)
    ensures r.None? <==> forall j :: 0 <= j < |docs| ==> !Matches(docs[j], q, re)
    decreases |docs|
  {
    if docs == [] then None
    else if Matches(docs[0], q, re) then Some(0)
    else
      match FirstMatch(docs[1..], q, re)
      case None =>
        assert forall j :: 1 <= j < |docs| ==> docs[j] == docs[1..][j - 1];
        None
      case Some(i) =>
        assert forall j :: 1 <= j < i + 1 ==> docs[j] == docs[1..][j - 1];
        Some(i + 1)
  }

  /** The matching documents, in natural order. */
  function Select(docs: seq<Doc>, q: Filter, re: Regex): (r: seq<Doc>)
    ensures |r| <= |docs|
    ensures forall k :: 0 <= k < |r| ==> Matches(r[k], q, re)
    ensures forall k :: 0 <= k < |docs| && Matches(docs[k], q, re) ==> docs[k] in r
    decreases |docs|
  {
    if docs == [] then []
    else
      var rest := Select(docs[1..], q, re);
      assert forall k :: 1 <= k < |docs| ==> docs[k] == docs[1..][k - 1];
      if Matches(docs[0], q, re) then [docs[0]] + rest else rest
  }

  // ---------------------------------------------------------------- projection

  /** An inclusion projection `{field: 1, ...}`; `None` asks for whole documents. */
  type Projection = Option<map<string, int>>

  /** A projected document keeps the requested fields it has and always `_id`; no
      projection, or an empty one, keeps everything. */
  function Project(d: Doc, p: Projection): (r: Doc)
    ensures forall k :: k in r ==> k in d && r[k] == d[k]
    ensures p.None? || p.value == map[] ==> r == d
    ensures p.Some? && p.value != map[] ==> forall k :: k in d ==> (k in r <==> k in p.value || k == IdKey)
  {
    if p.None? || p.value == map[] then d
    else map k | k in d && (k in p.value || k == IdKey) :: d[k]
  }

  // ---------------------------------------------------------------- sort order

  /** `pymongo.ASCENDING` (1) and `pymongo.DESCENDING` (-1). */
  datatype Direction = Ascending | Descending

  type SortSpec = seq<(string, Direction)>

  /** BSON comparison order of the value kinds present: null, strings, objects,
      object ids, booleans. */
  function Rank(v: Value): nat {
    match v
    case Null => 0
    case Str(_) => 2
    case Dict(_) => 3
    case ObjectId(_) => 7
    case Bool(_) => 8
  }

  /** Strings compare code point by code point. */
  predicate StrLe(s: string, t: string)
    decreases |s|
  {
    s == [] || (t != [] && (s[0] < t[0] || (s[0] == t[0] && StrLe(s[1..], t[1..]))))
  }

  lemma {:induction false} StrLeTotal(s: string, t: string)
    ensures StrLe(s, t) || StrLe(t, s)
    decreases |s|
  {
    if s != [] && t != [] && s[0] == t[0] { StrLeTotal(s[1..], t[1..]); }
  }

  lemma {:induction false} StrLeTrans(s: string, t: string, u: string)
    requires StrLe(s, t) && StrLe(t, u)
    ensures StrLe(s, u)
    decreases |s|
  {
    if s != [] && s[0] == t[0] && t[0] == u[0] { StrLeTrans(s[1..], t[1..], u[1..]); }
  }

  /** Dictionaries all compare equal here: the element-wise comparison MongoDB applies to
      embedded documents is not modelled. */
  predicate ValueLe(a: Value, b: Value) {
    if Rank(a) != Rank(b) then Rank(a) < Rank(b)
    else match (a, b)
      case (Str(s), Str(t)) => StrLe(s, t)
      case (ObjectId(m), ObjectId(n)) => m <= n
      case (Bool(x), Bool(y)) => !x || y
      case _ => true
  }

  lemma ValueLeTotal(a: Value, b: Value)
    ensures ValueLe(a, b) || ValueLe(b, a)
  {
    if a.Str? && b.Str? { StrLeTotal(a.s, b.s); }
  }

  lemma ValueLeTrans(a: Value, b: Value, c: Value)
    requires ValueLe(a, b) && ValueLe(b, c)
    ensures ValueLe(a, c)
  {
    if a.Str? && b.Str? && c.Str? { StrLeTrans(a.s, b.s, c.s); }
  }

  predicate DirLe(dir: Direction, a: Value, b: Value) {
    if dir == Ascending then ValueLe(a, b) else ValueLe(b, a)
  }

  /** `cursor.sort(spec)`: the first key decides, ties fall to the next key. */
  predicate KeysLe(keys: SortSpec, x: Doc, y: Doc)
    decreases |keys|
  {
    if keys == [] then true
    else
      var a, b := Get(x, keys[0].0), Get(y, keys[0].0);
      var dir := keys[0].1;
      if DirLe(dir, a, b) && DirLe(dir, b, a) then KeysLe(keys[1..], x, y) else DirLe(dir, a, b)
  }

  lemma {:induction false} KeysLeTotal(keys: SortSpec, x: Doc, y: Doc)
    ensures KeysLe(keys, x, y) || KeysLe(keys, y, x)
    decreases |keys|
  {
    if keys != [] {
      ValueLeTotal(Get(x, keys[0].0), Get(y, keys[0].0));
      KeysLeTotal(keys[1..], x, y);
    }
  }

  lemma {:induction false} KeysLeTrans(keys: SortSpec, x: Doc, y: Doc, z: Doc)
    requires KeysLe(keys, x, y) && KeysLe(keys, y, z)
    ensures KeysLe(keys, x, z)
    decreases |keys|
  {
    if keys != [] {
      var f := keys[0].0;
      var a, b, c := Get(x, f), Get(y, f), Get(z, f);
      forall u, v, w | u in {a, b, c} && v in {a, b, c} && w in {a, b, c} && ValueLe(u, v) && ValueLe(v, w)
        ensures ValueLe(u, w)
      {
        ValueLeTrans(u, v, w);
      }
      ValueLeTotal(a, b);
      ValueLeTotal(b, c);
      ValueLeTotal(a, c);
      var dir := keys[0].1;
      if DirLe(dir, a, b) && DirLe(dir, b, a) && DirLe(dir, b, c) && DirLe(dir, c, b) {
        KeysLeTrans(keys[1..], x, y, z);
      }
    }
  }

  lemma KeysLePreorder(keys: SortSpec)
    ensures TotalPreorder((x: Doc, y: Doc) => KeysLe(keys, x, y))
  {
    forall x: Doc, y: Doc ensures KeysLe(keys, x, y) || KeysLe(keys, y, x) {
      KeysLeTotal(keys, x, y);
    }
    forall x: Doc, y: Doc, z: Doc | KeysLe(keys, x, y) && KeysLe(keys, y, z)
      ensures KeysLe(keys, x, z)
    {
      KeysLeTrans(keys, x, y, z);
    }
  }

  /** The documents in sort order, ties kept in natural order. */
  function SortDocs(docs: seq<Doc>, keys: SortSpec): (r: seq<Doc>)
    ensures multiset(r) == multiset(docs)
    ensures Sorted(r, (x: Doc, y: Doc) => KeysLe(keys, x, y))
  {
    var le := (x: Doc, y: Doc) => KeysLe(keys, x, y);
    SortPermutes(docs, le);
    KeysLePreorder(keys);
    SortSorted(docs, le);
    SortBy(docs, le)
  }

  // ---------------------------------------------------------------- the collection

  /** What one round trip to the server gives back. */
  datatype Reply<T> = Done(value: T) | Raised(err: MongoError)

  /** The server's state: documents in natural order, the fields with a unique index,
      the next object id to hand out, and the number of round trips so far. */
  datatype Store = Store(docs: seq<Doc>, unique: set<string>, nextOid: nat, trips: nat)

  /** The server's behaviour that is not modelled in detail: whether the round trip with
      a given number fails with `ConnectionFailure`, and regex search. */
  datatype Env = Env(fails: nat -> bool, regex: Regex)

  predicate UniqueOn(docs: seq<Doc>, f: string) {
    forall i, j :: 0 <= i < j < |docs| ==> Get(docs[i], f) != Get(docs[j], f)
  }

  /** Every document has an `_id` and every unique index holds. */
  ghost predicate StoreValid(st: Store) {
    IdKey in st.unique &&
    (forall f :: f in st.unique ==> UniqueOn(st.docs, f)) &&
    (forall i :: 0 <= i < |st.docs| ==> IdKey in st.docs[i])
  }

  const Empty: Store := Store([], {IdKey}, 0, 0)

  /** `d` would break a unique index if stored beside every document but the one at `skip`. */
  predicate Clashes(docs: seq<Doc>, unique: set<string>, d: Doc, skip: int) {
    exists i, f :: 0 <= i < |docs| && i != skip && f in unique && Get(docs[i], f) == Get(d, f)
  }

  function Trip(st: Store): Store { st.(trips := st.trips + 1) }

  /** `insert_one(doc)`: an `_id` is generated unless the document brings one; a
      generated id that is somehow in use is refused like any other duplicate. */
  function InsertOneOp(env: Env, st: Store, doc: Doc): (Reply<Value>, Store) {
    var st1 := Trip(st);
    if env.fails(st.trips) then (Raised(ConnectionFailure), st1)
    else
      var id := if IdKey in doc then doc[IdKey] else ObjectId(st.nextOid);
      var full := doc[IdKey := id];
      var next := if IdKey in doc then st.nextOid else st.nextOid + 1;
      if Clashes(st.docs, st.unique, full, -1) then (Raised(DuplicateKeyError), st1)
      else (Done(id), st1.(docs := st.docs + [full], nextOid := next))
  }

  /** `find_one(filter, projection)`. */
  function FindOneOp(env: Env, st: Store, q: Filter, p: Projection): (Reply<Option<Doc>>, Store) {
    if env.fails(st.trips) then (Raised(ConnectionFailure), Trip(st))
    else
      match FirstMatch(st.docs, q, env.regex)
      case None => (Done(None), Trip(st))
      case Some(i) => (Done(Some(Project(st.docs[i], p))), Trip(st))
  }

  function RemoveAt(docs: seq<Doc>, i: nat): seq<Doc>
    requires i < |docs|
  {
    docs[..i] + docs[i + 1..]
  }

  /** `delete_one(filter)`: the number of documents deleted, 0 or 1. */
  function DeleteOneOp(env: Env, st: Store, q: Filter): (Reply<nat>, Store) {
    if env.fails(st.trips) then (Raised(ConnectionFailure), Trip(st))
    else
      match FirstMatch(st.docs, q, env.regex)
      case None => (Done(0), Trip(st))
      case Some(i) => (Done(1), Trip(st).(docs := RemoveAt(st.docs, i)))
  }

  /** `find_one_and_update(filter, {"$set": changes}, projection, return_document=AFTER)`
      without upsert: the first match gets the fields of `changes` and is returned as changed. */
  function FindOneAndUpdateOp(env: Env, st: Store, q: Filter, changes: Doc, p: Projection): (Reply<Option<Doc>>, Store) {
    if env.fails(st.trips) then (Raised(ConnectionFailure), Trip(st))
    else
      match FirstMatch(st.docs, q, env.regex)
      case None => (Done(None), Trip(st))
      case Some(i) =>
        var updated := st.docs[i] + changes;
        if IdKey in changes && IdKey in st.docs[i] && changes[IdKey] != st.docs[i][IdKey] then
          (Raised(OperationFailure), Trip(st))                 // `_id` is immutable
        else if Clashes(st.docs, st.unique, updated, i) then (Raised(DuplicateKeyError), Trip(st))
        else (Done(Some(Project(updated, p))), Trip(st).(docs := st.docs[i := updated]))
  }

  /** `count_documents(filter)`. */
  function CountDocumentsOp(env: Env, st: Store, q: Filter): (Reply<nat>, Store) {
    if env.fails(st.trips) then (Raised(ConnectionFailure), Trip(st))
    else (Done(|Select(st.docs, q, env.regex)|), Trip(st))
  }

  /** A cursor as `find` creates it and `sort`, `skip` and `limit` adjust it; a zero
      limit means no limit. Building one does not contact the server. */
  datatype Cursor = Cursor(filter: Filter, projection: Projection, sort: Option<SortSpec>, skip: nat, limit: nat)

  function Find(q: Filter, p: Projection): Cursor { Cursor(q, p, None, 0, 0) }

  function Take<T>(s: seq<T>, n: nat): (r: seq<T>)
    ensures |r| <= n && |r| <= |s| && r == s[..|r|]
    ensures |s| >= n ==> |r| == n
  {
    if |s| <= n then s else s[..n]
  }

  function Drop<T>(s: seq<T>, n: nat): (r: seq<T>)
    ensures r == s[if |s| <= n then |s| else n..]
  {
    if |s| <= n then [] else s[n..]
  }

  function ProjectAll(docs: seq<Doc>, p: Projection): (r: seq<Doc>)
    ensures |r| == |docs| && forall k :: 0 <= k < |r| ==> r[k] == Project(docs[k], p)
  {
    seq(|docs|, k requires 0 <= k < |docs| => Project(docs[k], p))
  }

  /** The documents a cursor yields before `to_list` cuts them: matched, sorted,
      skipped, limited, then projected. */
  function CursorDocs(re: Regex, docs: seq<Doc>, c: Cursor): (r: seq<Doc>)
    ensures |r| <= |Select(docs, c.filter, re)|
    ensures c.limit > 0 ==> |r| <= c.limit
  {
    var matched := Select(docs, c.filter, re);
    var ordered := if c.sort.Some? then SortDocs(matched, c.sort.value) else matched;
    assert |ordered| == |multiset(ordered)| == |matched|;
    var window := Drop(ordered, c.skip);
    var limited := if c.limit > 0 then Take(window, c.limit) else window;
    ProjectAll(limited, c.projection)
  }

  /** `await cursor.to_list(length)`: at most `length` documents, all of them for `None`. */
  function ToListOp(env: Env, st: Store, c: Cursor, length: Option<nat>): (Reply<seq<Doc>>, Store) {
    if env.fails(st.trips) then (Raised(ConnectionFailure), Trip(st))
    else
      var all := CursorDocs(env.regex, st.docs, c);
      (Done(if length.Some? then Take(all, length.value) else all), Trip(st))
  }

  /** `create_index([(field, ASCENDING)], unique=True)`: building fails over existing
      duplicates; an existing index is kept. */
  function CreateUniqueIndexOp(env: Env, st: Store, f: string): (Reply<()>, Store) {
    if env.fails(st.trips) then (Raised(ConnectionFailure), Trip(st))
    else if f in st.unique then (Done(()), Trip(st))
    else if !UniqueOn(st.docs, f) then (Raised(DuplicateKeyError), Trip(st))
    else (Done(()), Trip(st).(unique := st.unique + {f}))
  }

  // ---------------------------------------------------------------- invariants

  lemma InsertOneValid(env: Env, st: Store, doc: Doc)
    requires StoreValid(st)
    ensures StoreValid(InsertOneOp(env, st, doc).1)
  {
    var (r, st1) := InsertOneOp(env, st, doc);
    if r.Done? {
      var id := if IdKey in doc then doc[IdKey] else ObjectId(st.nextOid);
      var full := doc[IdKey := id];
      assert st1.docs == st.docs + [full];
      assert !Clashes(st.docs, st.unique, full, -1);
      forall f | f in st1.unique ensures UniqueOn(st1.docs, f) {
        forall i, j | 0 <= i < j < |st1.docs| ensures Get(st1.docs[i], f) != Get(st1.docs[j], f) {
          if j == |st.docs| {
            assert st1.docs[j] == full;
          } else {
            assert st1.docs[i] == st.docs[i] && st1.docs[j] == st.docs[j];
          }
        }
      }
    }
  }

  lemma DeleteOneValid(env: Env, st: Store, q: Filter)
    requires StoreValid(st)
    ensures StoreValid(DeleteOneOp(env, st, q).1)
  {
    var (r, st1) := DeleteOneOp(env, st, q);
    if r.Done? && r.value == 1 {
      var i := FirstMatch(st.docs, q, env.regex).value;
      assert st1.docs == RemoveAt(st.docs, i);
      assert forall k :: 0 <= k < |st1.docs| ==> st1.docs[k] == st.docs[if k < i then k else k + 1];
    }
  }

  lemma FindOneAndUpdateValid(env: Env, st: Store, q: Filter, changes: Doc, p: Projection)
    requires StoreValid(st)
    ensures StoreValid(FindOneAndUpdateOp(env, st, q, changes, p).1)
  {
    var (r, st1) := FindOneAndUpdateOp(env, st, q, changes, p);
    if r.Done? && r.value.Some? {
      var i := FirstMatch(st.docs, q, env.regex).value;
      var updated := st.docs[i] + changes;
      assert st1.docs == st.docs[i := updated];
      assert !Clashes(st.docs, st.unique, updated, i);
      forall f | f in st1.unique ensures UniqueOn(st1.docs, f) {
        forall a, b | 0 <= a < b < |st1.docs| ensures Get(st1.docs[a], f) != Get(st1.docs[b], f) {
          if a == i {
            assert st1.docs[a] == updated && st1.docs[b] == st.docs[b];
          } else if b == i {
            assert st1.docs[b] == updated && st1.docs[a] == st.docs[a];
          }
        }
      }
    }
  }

  lemma CreateUniqueIndexValid(env: Env, st: Store, f: string)
    requires StoreValid(st)
    ensures StoreValid(CreateUniqueIndexOp(env, st, f).1)
  {
  }

  /** `find_one` by the id `insert_one` returned finds the inserted document. */
  lemma {:induction false} FindInserted(env: Env, st: Store, doc: Doc)
    requires StoreValid(st)
    requires InsertOneOp(env, st, doc).0.Done?
    ensures var (r, st1) := InsertOneOp(env, st, doc);
            var full := st1.docs[|st1.docs| - 1];
            FirstMatch(st1.docs, map[IdKey := Literal(r.value)], env.regex) == Some(|st.docs|)
            && (forall k :: k in doc && k != IdKey ==> k in full && full[k] == doc[k])
  {
    var (r, st1) := InsertOneOp(env, st, doc);
    var q := map[IdKey := Literal(r.value)];
    var full := st1.docs[|st1.docs| - 1];
    assert Get(full, IdKey) == r.value;
    assert Matches(full, q, env.regex);
    forall j | 0 <= j < |st.docs| ensures !Matches(st1.docs[j], q, env.regex) {
      assert st1.docs[j] == st.docs[j];
      assert !Clashes(st.docs, st.unique, full, -1);
      assert Get(st.docs[j], IdKey) != Get(full, IdKey);
    }
  }

  // ---------------------------------------------------------------- the driver object

  /** The collection handle (`AsyncIOMotorCollection`): every call is one round trip
      that may change the server's state. */
  class Collection {
    var store: Store
    const env: Env

    ghost predicate Valid()
      reads this
    {
      StoreValid(store)
    }

    constructor (env: Env)
      ensures this.env == env && store == Empty && Valid()
    {
      this.env := env;
      store := Empty;
    }

    method InsertOne(doc: Doc) returns (r: Reply<Value>)
      requires Valid()
      modifies this
      ensures Valid()
      ensures (r, store) == InsertOneOp(env, old(store), doc)
    {
      InsertOneValid(env, store, doc);
      var res := InsertOneOp(env, store, doc);
      r, store := res.0, res.1;
    }

    method FindOne(q: Filter, p: Projection) returns (r: Reply<Option<Doc>>)
      requires Valid()
      modifies this
      ensures Valid()
      ensures (r, store) == FindOneOp(env, old(store), q, p)
    {
      var res := FindOneOp(env, store, q, p);
      r, store := res.0, res.1;
    }

    method DeleteOne(q: Filter) returns (r: Reply<nat>)
      requires Valid()
      modifies this
      ensures Valid()
      ensures (r, store) == DeleteOneOp(env, old(store), q)
    {
      DeleteOneValid(env, store, q);
      var res := DeleteOneOp(env, store, q);
      r, store := res.0, res.1;
    }

    method FindOneAndUpdate(q: Filter, changes: Doc, p: Projection) returns (r: Reply<Option<Doc>>)
      requires Valid()
      modifies this
      ensures Valid()
      ensures (r, store) == FindOneAndUpdateOp(env, old(store), q, changes, p)
    {
      FindOneAndUpdateValid(env, store, q, changes, p);
      var res := FindOneAndUpdateOp(env, store, q, changes, p);
      r, store := res.0, res.1;
    }

    method CountDocuments(q: Filter) returns (r: Reply<nat>)
      requires Valid()
      modifies this
      ensures Valid()
      ensures (r, store) == CountDocumentsOp(env, old(store), q)
    {
      var res := CountDocumentsOp(env, store, q);
      r, store := res.0, res.1;
    }

    method ToList(c: Cursor, length: Option<nat>) returns (r: Reply<seq<Doc>>)
      requires Valid()
      modifies this
      ensures Valid()
      ensures (r, store) == ToListOp(env, old(store), c, length)
    {
      var res := ToListOp(env, store, c, length);
      r, store := res.0, res.1;
    }

    method CreateUniqueIndex(f: string) returns (r: Reply<()>)
      requires Valid()
      modifies this
      ensures Valid()
      ensures (r, store) == CreateUniqueIndexOp(env, old(store), f)
    {
      CreateUniqueIndexValid(env, store, f);
      var res := CreateUniqueIndexOp(env, store, f);
      r, store := res.0, res.1;
    }
  }
}
