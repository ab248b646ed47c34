/** The generic store layer of the current generation (catweazle/crud/common.py):
    `CrudMongo` turns driver replies into results and maps driver exceptions onto the
    service's errors. Each method is specified by a function of the store state. */
module CrudCommon {
  import opened Base
  import opened Mongo
  import opened CrudMixins

  /** The `except pymongo.errors.ConnectionFailure` clauses: a lost connection becomes
      `BackendError`; nothing else is caught. */
  function DriverError(e: MongoError): Error {
    if e == ConnectionFailure then BackendError else Uncaught(PyMongo(e))
  }

  /** Python truthiness of an optional number: `None` and 0 are false. */
  predicate TruthyNat(n: Option<nat>) { n.Some? && n.value != 0 }

  // ---------------------------------------------------------------- specifications

  /** `_get(query, fields)`. */
  function GetSpec(env: Env, st: Store, q: Filter, fields: Option<seq<string>>): (Result<Doc>, Store) {
    var (r, st1) := FindOneOp(env, st, q, ProjectionOf(fields));
    match r
    case Raised(e) => (Err(DriverError(e)), st1)
    case Done(None) => (Err(ResourceNotFound), st1)
    case Done(Some(d)) => (Ok(Format(d)), st1)
  }

  /** `_get_by_obj_id(_id, fields)`. */
  function GetByObjIdSpec(env: Env, st: Store, id: Value, fields: Option<seq<string>>): (Result<Doc>, Store) {
    GetSpec(env, st, map[IdKey := Literal(id)], fields)
  }

  /** `_create(payload, fields)`: insert, then read the new document back by its id. */
  function CreateSpec(env: Env, st: Store, payload: Doc, fields: Option<seq<string>>): (Result<Doc>, Store) {
    var (r, st1) := InsertOneOp(env, st, payload);
    match r
    case Raised(DuplicateKeyError) => (Err(DuplicateResource), st1)
    case Raised(e) => (Err(DriverError(e)), st1)
    case Done(id) => GetByObjIdSpec(env, st1, id, fields)
  }

  /** `_delete(query)`: the empty dict on success. */
  function DeleteSpec(env: Env, st: Store, q: Filter): (Result<Doc>, Store) {
    var (r, st1) := DeleteOneOp(env, st, q);
    match r
    case Raised(e) => (Err(DriverError(e)), st1)
    case Done(n) => if n == 0 then (Err(ResourceNotFound), st1) else (Ok(map[]), st1)
  }

  /** The `$set` document `_update` builds: the payload without its `None` values. */
  function SetFields(payload: Doc): (r: Doc)
    ensures forall k :: k in r <==> k in payload && payload[k] != Null
    ensures forall k :: k in r ==> r[k] == payload[k]
  {
    map k | k in payload && payload[k] != Null :: payload[k]
  }

  /** `_update(query, payload, fields)` without upsert. */
  function UpdateSpec(env: Env, st: Store, q: Filter, payload: Doc, fields: Option<seq<string>>): (Result<Doc>, Store) {
    var (r, st1) := FindOneAndUpdateOp(env, st, q, SetFields(payload), ProjectionOf(fields));
    match r
    case Raised(e) => (Err(DriverError(e)), st1)
    case Done(None) => (Err(ResourceNotFound), st1)
    case Done(Some(d)) => (Ok(Format(d)), st1)
  }

  /** The cursor `_search` builds: sorted only when both `sort` and `sort_order` are
      given, paginated only when both `page` and `limit` are non-zero. */
  function SearchCursor(q: Filter, fields: Option<seq<string>>, sort: Option<string>, sortOrder: Option<string>,
                        page: Option<nat>, limit: Option<nat>): Cursor
  {
    var c := Find(q, ProjectionOf(fields));
    var c := if Truthy(sort) && Truthy(sortOrder) then c.(sort := Some(SortOf(sort.value, sortOrder.value))) else c;
    if TruthyNat(page) && TruthyNat(limit) then c.(skip := PaginationSkip(page.value, limit.value), limit := limit.value) else c
  }

  /** `_search(...)`: the total count first, then the (unformatted) page. */
  function SearchSpec(env: Env, st: Store, q: Filter, fields: Option<seq<string>>, sort: Option<string>,
                      sortOrder: Option<string>, page: Option<nat>, limit: Option<nat>): (Result<Multi>, Store)
  {
    var (count, st1) := CountDocumentsOp(env, st, q);
    match count
    case Raised(e) => (Err(DriverError(e)), st1)
    case Done(n) =>
      var (docs, st2) := ToListOp(env, st1, SearchCursor(q, fields, sort, sortOrder, page, limit), limit);
      match docs
      case Raised(e) => (Err(DriverError(e)), st2)
      case Done(items) => (Ok(FormatMulti(items, n)), st2)
  }

  // ---------------------------------------------------------------- the class

  class CrudMongo {
    const coll: Collection

    constructor (coll: Collection)
      ensures this.coll == coll
    {
      this.coll := coll;
    }

    method Get(q: Filter, fields: Option<seq<string>>) returns (r: Result<Doc>)
      requires coll.Valid()
      modifies coll
      ensures coll.Valid()
      ensures (r, coll.store) == GetSpec(coll.env, old(coll.store), q, fields)
    {
      var p := BuildProjection(fields);
      var found := coll.FindOne(q, p);
      match found
      case Raised(e) => r := Err(DriverError(e));
      case Done(None) => r := Err(ResourceNotFound);
      case Done(Some(d)) => r := Ok(Format(d));
    }

    method GetByObjId(id: Value, fields: Option<seq<string>>) returns (r: Result<Doc>)
      requires coll.Valid()
      modifies coll
      ensures coll.Valid()
      ensures (r, coll.store) == GetByObjIdSpec(coll.env, old(coll.store), id, fields)
    {
      r := Get(map[IdKey := Literal(id)], fields);
    }

    method Create(payload: Doc, fields: Option<seq<string>>) returns (r: Result<Doc>)
      requires coll.Valid()
      modifies coll
      ensures coll.Valid()
      ensures (r, coll.store) == CreateSpec(coll.env, old(coll.store), payload, fields)
    {
      var inserted := coll.InsertOne(payload);
      match inserted
      case Raised(DuplicateKeyError) => r := Err(DuplicateResource);
      case Raised(e) => r := Err(DriverError(e));
      case Done(id) => r := GetByObjId(id, fields);
    }

    method Delete(q: Filter) returns (r: Result<Doc>)
      requires coll.Valid()
      modifies coll
      ensures coll.Valid()
      ensures (r, coll.store) == DeleteSpec(coll.env, old(coll.store), q)
    {
      var deleted := coll.DeleteOne(q);
      match deleted
      case Raised(e) => r := Err(DriverError(e));
      case Done(n) => r := if n == 0 then Err(ResourceNotFound) else Ok(map[]);
    }

    /** The loop that builds the `$set` document. */
    static method SetClause(payload: Doc) returns (changes: Doc)
      ensures changes == SetFields(payload)
    {
      changes := map[];
      var todo := payload.Keys;
      while todo != {}
        invariant todo <= payload.Keys
        invariant forall k :: k in changes <==> k in payload && k !in todo && payload[k] != Null
        invariant forall k :: k in changes ==> changes[k] == payload[k]
        decreases todo
      {
        var k :| k in todo;
        if payload[k] != Null {
          changes := changes[k := payload[k]];
        }
        todo := todo - {k};
      }
    }

    method Update(q: Filter, payload: Doc, fields: Option<seq<string>>) returns (r: Result<Doc>)
      requires coll.Valid()
      modifies coll
      ensures coll.Valid()
      ensures (r, coll.store) == UpdateSpec(coll.env, old(coll.store), q, payload, fields)
    {
      var changes := SetClause(payload);
      var p := BuildProjection(fields);
      var updated := coll.FindOneAndUpdate(q, changes, p);
      match updated
      case Raised(e) => r := Err(DriverError(e));
      case Done(None) => r := Err(ResourceNotFound);
      case Done(Some(d)) => r := Ok(Format(d));
    }

    method Search(q: Filter, fields: Option<seq<string>>, sort: Option<string>, sortOrder: Option<string>,
                  page: Option<nat>, limit: Option<nat>) returns (r: Result<Multi>)
      requires coll.Valid()
      modifies coll
      ensures coll.Valid()
      ensures (r, coll.store) == SearchSpec(coll.env, old(coll.store), q, fields, sort, sortOrder, page, limit)
    {
      var count := coll.CountDocuments(q);
      if count.Raised? {
        return Err(DriverError(count.err));
      }
      var cursor := BuildCursor(q, fields, sort, sortOrder, page, limit);
      var docs := coll.ToList(cursor, limit);
      if docs.Raised? {
        return Err(DriverError(docs.err));
      }
      r := Ok(FormatMulti(docs.value, count.value));
    }

    /** The cursor `_search` sets up before fetching a page. */
    static method BuildCursor(q: Filter, fields: Option<seq<string>>, sort: Option<string>, sortOrder: Option<string>,
                              page: Option<nat>, limit: Option<nat>) returns (cursor: Cursor)
      ensures cursor == SearchCursor(q, fields, sort, sortOrder, page, limit)
    {
      var p := BuildProjection(fields);
      cursor := Find(q, p);
      if Truthy(sort) && Truthy(sortOrder) {
        cursor := cursor.(sort := Some(SortOf(sort.value, sortOrder.value)));
      }
      if TruthyNat(page) && TruthyNat(limit) {
        cursor := cursor.(skip := PaginationSkip(page.value, limit.value));
        cursor := cursor.(limit := limit.value);
      }
    }
  }

  // ---------------------------------------------------------------- properties

  /** `_get`: not found exactly when no document matches; a found record is the first
      match, projected, without `_id`. */
  lemma GetFindsFirst(env: Env, st: Store, q: Filter, fields: Option<seq<string>>)
    requires !env.fails(st.trips)
    ensures var (r, st1) := GetSpec(env, st, q, fields);
            st1.docs == st.docs &&
            (r == Err(ResourceNotFound) <==> forall j :: 0 <= j < |st.docs| ==> !Matches(st.docs[j], q, env.regex)) &&
            (r.Ok? ==> exists i :: 0 <= i < |st.docs| && Matches(st.docs[i], q, env.regex) &&
                         (forall j :: 0 <= j < i ==> !Matches(st.docs[j], q, env.regex)) &&
                         r.value == Format(Project(st.docs[i], ProjectionOf(fields))) && IdKey !in r.value)
  {
    var m := FirstMatch(st.docs, q, env.regex);
    if m.Some? {
      assert Matches(st.docs[m.value], q, env.regex);
    }
  }

  /** `_get` raises `BackendError` exactly on a lost connection, and never changes the
      documents. */
  lemma GetErrors(env: Env, st: Store, q: Filter, fields: Option<seq<string>>)
    ensures var (r, st1) := GetSpec(env, st, q, fields);
            st1.docs == st.docs && (r.Err? ==> r.error in {BackendError, ResourceNotFound}) &&
            (r == Err(BackendError) <==> env.fails(st.trips))
  {
  }

  /** `_create`: a duplicate key is `DuplicateResource` and changes no document; a lost
      insert is `BackendError`; a successful call returns the inserted payload, projected,
      without `_id`, and the store holds it as its last document. */
  lemma {:induction false} CreateOutcome(env: Env, st: Store, payload: Doc, fields: Option<seq<string>>)
    requires StoreValid(st)
    ensures var (r, st1) := CreateSpec(env, st, payload, fields);
            (r.Err? ==> r.error in {DuplicateResource, BackendError}) &&
            (env.fails(st.trips) ==> r == Err(BackendError) && st1.docs == st.docs) &&
            (r == Err(DuplicateResource) <==> !env.fails(st.trips) && InsertOneOp(env, st, payload).0 == Raised(DuplicateKeyError)) &&
            (r == Err(DuplicateResource) ==> st1.docs == st.docs) &&
            (r.Ok? ==> |st1.docs| == |st.docs| + 1 && st1.docs[..|st.docs|] == st.docs &&
                       (forall k :: k in payload && k != IdKey ==> k in st1.docs[|st.docs|] && st1.docs[|st.docs|][k] == payload[k]) &&
                       r.value == Format(Project(st1.docs[|st.docs|], ProjectionOf(fields))))
  {
    var (ins, st1) := InsertOneOp(env, st, payload);
    if ins.Done? {
      FindInserted(env, st, payload);
      var q := map[IdKey := Literal(ins.value)];
      assert FirstMatch(st1.docs, q, env.regex) == Some(|st.docs|);
    }
  }

  /** After a successful `insert_one` the read-back can still lose the connection: the
      call then raises `BackendError` although the record was stored. */
  lemma CreateStoredDespiteError(env: Env, st: Store, payload: Doc, fields: Option<seq<string>>)
    requires StoreValid(st)
    requires InsertOneOp(env, st, payload).0.Done?
    requires env.fails(st.trips + 1)
    ensures CreateSpec(env, st, payload, fields).0 == Err(BackendError)
    ensures |CreateSpec(env, st, payload, fields).1.docs| == |st.docs| + 1
  {
  }

  /** `_delete`: the first matching document goes and `{}` is returned; with no match the
      call raises `ResourceNotFound` and changes nothing. */
  lemma DeleteOutcome(env: Env, st: Store, q: Filter)
    requires !env.fails(st.trips)
    ensures var (r, st1) := DeleteSpec(env, st, q);
            (r == Err(ResourceNotFound) <==> forall j :: 0 <= j < |st.docs| ==> !Matches(st.docs[j], q, env.regex)) &&
            (r == Err(ResourceNotFound) ==> st1.docs == st.docs) &&
            (r.Ok? ==> r.value == map[] && |st1.docs| == |st.docs| - 1 &&
                       exists i :: 0 <= i < |st.docs| && Matches(st.docs[i], q, env.regex) &&
                                   st1.docs == st.docs[..i] + st.docs[i + 1..])
  {
    var m := FirstMatch(st.docs, q, env.regex);
    if m.Some? {
      assert Matches(st.docs[m.value], q, env.regex);
    }
  }

  /** `_update` on a missing record: `ResourceNotFound`, and nothing changes. */
  lemma UpdateNotFound(env: Env, st: Store, q: Filter, payload: Doc, fields: Option<seq<string>>)
    requires !env.fails(st.trips)
    requires forall j :: 0 <= j < |st.docs| ==> !Matches(st.docs[j], q, env.regex)
    ensures UpdateSpec(env, st, q, payload, fields).0 == Err(ResourceNotFound)
    ensures UpdateSpec(env, st, q, payload, fields).1.docs == st.docs
  {
  }

  /** `_update`: a failed call changes no document. */
  lemma UpdateFailedUnchanged(env: Env, st: Store, q: Filter, payload: Doc, fields: Option<seq<string>>)
    requires UpdateSpec(env, st, q, payload, fields).0.Err?
    ensures UpdateSpec(env, st, q, payload, fields).1.docs == st.docs
  {
  }

  /** `_update`: only the payload fields whose value is not `None` change, in the first
      matching document only, and the result is that document after the change. */
  lemma UpdateOutcome(env: Env, st: Store, q: Filter, payload: Doc, fields: Option<seq<string>>)
    requires UpdateSpec(env, st, q, payload, fields).0.Ok?
    ensures FirstMatch(st.docs, q, env.regex).Some?
    ensures var i := FirstMatch(st.docs, q, env.regex).value;
            var (r, st1) := UpdateSpec(env, st, q, payload, fields);
            |st1.docs| == |st.docs| &&
            (forall j :: 0 <= j < |st.docs| && j != i ==> st1.docs[j] == st.docs[j]) &&
            (forall k :: k in payload && payload[k] != Null ==> k in st1.docs[i] && st1.docs[i][k] == payload[k]) &&
            (forall k :: (k !in payload || payload[k] == Null) ==>
                         (k in st1.docs[i] <==> k in st.docs[i]) && (k in st.docs[i] ==> st1.docs[i][k] == st.docs[i][k])) &&
            r.value == Format(Project(st1.docs[i], ProjectionOf(fields)))
  {
    var i := FirstMatch(st.docs, q, env.regex).value;
    var st1 := UpdateSpec(env, st, q, payload, fields).1;
    var changes := SetFields(payload);
    assert st1.docs == st.docs[i := st.docs[i] + changes];
    assert st1.docs[i] == st.docs[i] + changes;
  }

  /** `_search`: `result_size` counts every matching document whatever the page; the
      page holds matching documents only, at most `limit` of them when a limit is given,
      and without pagination they are the first matches. */
  lemma SearchOutcome(env: Env, st: Store, q: Filter, fields: Option<seq<string>>, sort: Option<string>,
                      sortOrder: Option<string>, page: Option<nat>, limit: Option<nat>)
    ensures var (r, st1) := SearchSpec(env, st, q, fields, sort, sortOrder, page, limit);
            st1.docs == st.docs &&
            (r.Err? <==> env.fails(st.trips) || env.fails(st.trips + 1)) &&
            (r.Err? ==> r.error == BackendError) &&
            (r.Ok? ==> r.value.resultSize == |Select(st.docs, q, env.regex)|) &&
            (r.Ok? && limit.Some? ==> |r.value.result| <= limit.value) &&
            (r.Ok? ==> |r.value.result| <= r.value.resultSize)
  {
    SearchErrors(env, st, q, fields, sort, sortOrder, page, limit);
    SearchSizes(env, st, q, fields, sort, sortOrder, page, limit);
  }

  /** `_search` leaves the documents alone and fails only on a lost connection. */
  lemma SearchErrors(env: Env, st: Store, q: Filter, fields: Option<seq<string>>, sort: Option<string>,
                     sortOrder: Option<string>, page: Option<nat>, limit: Option<nat>)
    ensures var (r, st1) := SearchSpec(env, st, q, fields, sort, sortOrder, page, limit);
            st1.docs == st.docs &&
            (r.Err? <==> env.fails(st.trips) || env.fails(st.trips + 1)) &&
            (r.Err? ==> r.error == BackendError)
  {
  }

  /** The sizes `_search` reports: the full count, and a page no longer than it or than
      the limit. */
  lemma SearchSizes(env: Env, st: Store, q: Filter, fields: Option<seq<string>>, sort: Option<string>,
                    sortOrder: Option<string>, page: Option<nat>, limit: Option<nat>)
    ensures var r := SearchSpec(env, st, q, fields, sort, sortOrder, page, limit).0;
            (r.Ok? ==> r.value.resultSize == |Select(st.docs, q, env.regex)|) &&
            (r.Ok? && limit.Some? ==> |r.value.result| <= limit.value) &&
            (r.Ok? ==> |r.value.result| <= r.value.resultSize)
  {
    var (count, st1) := CountDocumentsOp(env, st, q);
    if count.Done? {
      var c := SearchCursor(q, fields, sort, sortOrder, page, limit);
      assert c.filter == q;
      var all := CursorDocs(env.regex, st1.docs, c);
      assert |all| <= count.value;
    }
  }

  /** A first-page search without a field list over a collection of one matching
      document returns that document and counts one. */
  lemma SearchSingle(env: Env, st: Store, q: Filter, sort: string, sortOrder: string, limit: nat)
    requires !env.fails(st.trips) && !env.fails(st.trips + 1)
    requires limit > 0 && |st.docs| == 1 && Matches(st.docs[0], q, env.regex)
    ensures SearchSpec(env, st, q, None, Some(sort), Some(sortOrder), Some(0), Some(limit)).0 == Ok(Multi(st.docs, 1))
  {
    SingleSelect(st.docs, q, env.regex);
    var c := SearchCursor(q, None, Some(sort), Some(sortOrder), Some(0), Some(limit));
    SingleCursor(env.regex, st.docs, c);
  }

  /** A single matching document is selected. */
  lemma SingleSelect(docs: seq<Doc>, q: Filter, re: Regex)
    requires |docs| == 1 && Matches(docs[0], q, re)
    ensures Select(docs, q, re) == docs
  {
    assert docs[1..] == [];
  }

  /** A cursor that neither skips, limits nor projects gives back the one matching
      document of a single-document collection. */
  lemma SingleCursor(re: Regex, docs: seq<Doc>, c: Cursor)
    requires c.skip == 0 && c.limit == 0 && c.projection.None? && |docs| == 1 && Matches(docs[0], c.filter, re)
    ensures CursorDocs(re, docs, c) == docs
  {
    SingleSelect(docs, c.filter, re);
    if c.sort.Some? {
      var sorted := SortDocs(docs, c.sort.value);
      assert multiset(sorted) == multiset(docs);
      assert |sorted| == 1 && sorted[0] in multiset(sorted);
      assert sorted == docs;
    }
  }

  /** An empty field list projects nothing away: the search is the one without fields. */
  lemma SearchNoFields(env: Env, st: Store, q: Filter, sort: Option<string>, sortOrder: Option<string>,
                       page: Option<nat>, limit: Option<nat>)
    ensures SearchSpec(env, st, q, Some([]), sort, sortOrder, page, limit) == SearchSpec(env, st, q, None, sort, sortOrder, page, limit)
  {
    assert ProjectionOf(Some([])) == ProjectionOf(None);
    assert SearchCursor(q, Some([]), sort, sortOrder, page, limit) == SearchCursor(q, None, sort, sortOrder, page, limit);
  }

  /** Without both `page` and `limit` the cursor neither skips nor limits, so `page = 0`
      is the first page; `to_list(limit)` still cuts it to the first `limit` matches. */
  lemma SearchFirstPage(env: Env, st: Store, q: Filter, fields: Option<seq<string>>, sort: Option<string>,
                        sortOrder: Option<string>, page: Option<nat>, limit: Option<nat>)
    requires !TruthyNat(page) || !TruthyNat(limit)
    ensures SearchCursor(q, fields, sort, sortOrder, page, limit).skip == 0
    ensures SearchCursor(q, fields, sort, sortOrder, page, limit).limit == 0
    ensures var r := SearchSpec(env, st, q, fields, sort, sortOrder, page, limit).0;
            var c := SearchCursor(q, fields, sort, sortOrder, page, limit);
            var matched := Select(st.docs, q, env.regex);
            var ordered := if c.sort.Some? then SortDocs(matched, c.sort.value) else matched;
            var all := ProjectAll(ordered, ProjectionOf(fields));
            r.Ok? ==> r.value.result == (if limit.Some? then Take(all, limit.value) else all)
  {
    SearchToList(env, st, q, fields, sort, sortOrder, page, limit);
    UnboundedCursor(env.regex, st.docs, SearchCursor(q, fields, sort, sortOrder, page, limit));
  }

  /** A successful search returns what `to_list(limit)` keeps of the cursor's documents. */
  lemma SearchToList(env: Env, st: Store, q: Filter, fields: Option<seq<string>>, sort: Option<string>,
                     sortOrder: Option<string>, page: Option<nat>, limit: Option<nat>)
    ensures var r := SearchSpec(env, st, q, fields, sort, sortOrder, page, limit).0;
            var all := CursorDocs(env.regex, st.docs, SearchCursor(q, fields, sort, sortOrder, page, limit));
            r.Ok? ==> r.value.result == (if limit.Some? then Take(all, limit.value) else all)
  {
    var (count, st1) := CountDocumentsOp(env, st, q);
    assert st1.docs == st.docs;
  }

  /** A cursor that neither skips nor limits yields every match, in cursor order. */
  lemma UnboundedCursor(re: Regex, docs: seq<Doc>, c: Cursor)
    requires c.skip == 0 && c.limit == 0
    ensures var matched := Select(docs, c.filter, re);
            var ordered := if c.sort.Some? then SortDocs(matched, c.sort.value) else matched;
            CursorDocs(re, docs, c) == ProjectAll(ordered, c.projection)
  {
    var matched := Select(docs, c.filter, re);
    var ordered := if c.sort.Some? then SortDocs(matched, c.sort.value) else matched;
    assert Drop(ordered, 0) == ordered;
  }

  /** With both given, page `page` starts after `page * limit` documents. */
  lemma SearchPaged(env: Env, st: Store, q: Filter, fields: Option<seq<string>>, page: nat, limit: nat)
    requires page > 0 && limit > 0
    ensures var c := SearchCursor(q, fields, None, None, Some(page), Some(limit));
            var matched := Select(st.docs, q, env.regex);
            CursorDocs(env.regex, st.docs, c) ==
              ProjectAll(Take(Drop(matched, page * limit), limit), ProjectionOf(fields))
  {
    var c := SearchCursor(q, fields, None, None, Some(page), Some(limit));
    assert c == Cursor(q, ProjectionOf(fields), None, page * limit, limit);
  }

  /** Sorting happens only when both `sort` and `sort_order` are given, and then by that
      one field in that direction. */
  lemma SearchSorted(q: Filter, fields: Option<seq<string>>, sort: Option<string>, sortOrder: Option<string>,
                     page: Option<nat>, limit: Option<nat>)
    ensures var c := SearchCursor(q, fields, sort, sortOrder, page, limit);
            (c.sort.Some? <==> Truthy(sort) && Truthy(sortOrder)) &&
            (c.sort.Some? ==> c.sort.value == [(sort.value, if sortOrder.value == "ascending" then Ascending else Descending)])
  {
  }
}
