/** The instance store of the legacy generation (catweazle/models/instances.py): the
    host-number allocator, `create`, the one-time password write-back, `delete`, `get`
    and the search they rely on, straight over the store driver. */
module ModelsInstances {
  import opened Base
  import opened Strings
  import opened Mongo
  import opened ModelsMixins
  import CrudMixins
  import CrudInstances

  /** What the constructor takes from the API schema and the configuration: the domain
      suffix, the page sizes, the default page size (the largest one), the projection
      and the sort criteria of `/instances/_search`. */
  datatype Conf = Conf(suffix: string, steps: seq<nat>, limit: nat, projection: map<string, int>, sort: SortSpec)

  /** The driver's connection failure is `MongoConnError`; other driver errors escape. */
  function MongoErr(e: MongoError): (r: Error)
    ensures r == MongoConnError <==> e == ConnectionFailure
  {
    if e == ConnectionFailure then MongoConnError else Uncaught(PyMongo(e))
  }

  function FormatAll(docs: seq<Doc>): (r: seq<Doc>)
    ensures |r| == |docs| && forall k :: 0 <= k < |docs| ==> r[k] == CrudMixins.Format(docs[k])
  {
    seq(|docs|, k requires 0 <= k < |docs| => CrudMixins.Format(docs[k]))
  }

  // ---------------------------------------------------------------- search

  /** The query of `search`: a regular expression for each text given. */
  function SearchFilter(instances: Option<string>, indicator: Option<string>, fqdn: Option<string>, ip: Option<string>): Filter {
    var q := FilterReOn(map[], "id", instances);
    var q := FilterReOn(q, "dns_indicator", indicator);
    var q := FilterReOn(q, "fqdn", fqdn);
    FilterReOn(q, "ip_address", ip)
  }

  /** The checked parameters of a search: its projection, sort keys, skip and page size. */
  datatype Page = Page(projection: map<string, int>, keys: SortSpec, skip: nat, size: nat)

  /** The parameters of `search` are checked in the order projection, sort (strict), skip,
      page size; the first one that fails decides the error. */
  function SearchParams(c: Conf, fields: Option<string>, sort: Option<string>, page: Option<string>,
                        limit: Option<string>): (r: Result<Page>)
    ensures r.Ok? <==> ProjectionFor(c.projection, fields).Ok? && SortFor(c.sort, sort, true).Ok? &&
                       PaginationSkip(page, limit, c.limit).Ok? && PaginationLimit(limit, c.limit, c.steps).Ok?
    ensures r.Ok? ==> r.value.size == PaginationLimit(limit, c.limit, c.steps).value &&
                      r.value.skip == PaginationSkip(page, limit, c.limit).value &&
                      r.value.projection == ProjectionFor(c.projection, fields).value &&
                      r.value.keys == SortFor(c.sort, sort, true).value
  {
    match ProjectionFor(c.projection, fields)
    case Err(e) => Err(e)
    case Ok(p) =>
      match SortFor(c.sort, sort, true)
      case Err(e) => Err(e)
      case Ok(keys) =>
        match PaginationSkip(page, limit, c.limit)
        case Err(e) => Err(e)
        case Ok(skip) =>
          match PaginationLimit(limit, c.limit, c.steps)
          case Err(e) => Err(e)
          case Ok(n) => Ok(Page(p, keys, skip, n as nat))
  }

  /** `search`: after the parameters, one round trip reads at most a page of records,
      each without its `_id`. */
  function SearchSpec(env: Env, c: Conf, st: Store, instances: Option<string>, indicator: Option<string>,
                      fqdn: Option<string>, ip: Option<string>, fields: Option<string>, sort: Option<string>,
                      page: Option<string>, limit: Option<string>): (Result<seq<Doc>>, Store)
  {
    match SearchParams(c, fields, sort, page, limit)
    case Err(e) => (Err(e), st)
    case Ok(pg) =>
      var q := SearchFilter(instances, indicator, fqdn, ip);
      var (r, st1) := ToListOp(env, st, Cursor(q, Some(pg.projection), Some(pg.keys), pg.skip, pg.size), Some(pg.size));
      if r.Raised? then (Err(MongoErr(r.err)), st1) else (Ok(FormatAll(r.value)), st1)
  }

  // ---------------------------------------------------------------- host numbers

  /** The first loop of `_next_num`: every record's `fqdn`; a record without one raises
      `KeyError`. A value that is not text can equal no candidate name. */
  function TakenOf(docs: seq<Doc>): (r: Result<seq<Option<string>>>)
    ensures r.Ok? <==> forall k :: 0 <= k < |docs| ==> "fqdn" in docs[k]
    ensures r.Err? ==> r.error == Uncaught(KeyError)
    ensures r.Ok? ==> |r.value| == |docs| &&
                      forall k :: 0 <= k < |docs| ==> (r.value[k].Some? <==> docs[k]["fqdn"].Str?) &&
                                                      (r.value[k].Some? ==> docs[k]["fqdn"] == Str(r.value[k].value))
    decreases |docs|
  {
    if docs == [] then Ok([])
    else
      var init := docs[..|docs| - 1];
      assert forall k :: 0 <= k < |init| ==> init[k] == docs[k];
      var last := docs[|docs| - 1];
      match TakenOf(init)
      case Err(e) => Err(e)
      case Ok(ts) =>
        if "fqdn" !in last then Err(Uncaught(KeyError))
        else Ok(ts + [if last["fqdn"].Str? then Some(last["fqdn"].s) else None])
  }

  /** The second loop of `_next_num`: the least number whose candidate, the number put
      for every `NUM` of the indicator and the suffix, is not taken; `None` when all of 1
      to 999 are. */
  function Free(taken: seq<Option<string>>, indicator: string, suffix: string): (r: Option<string>)
    ensures r.None? <==>
              forall m :: 1 <= m < CrudInstances.HostMaxRange ==>
                Some(CrudInstances.NameFor(CrudInstances.Checked, indicator, suffix, m)) in taken
    ensures r.Some? ==>
              exists n :: 1 <= n < CrudInstances.HostMaxRange && r.value == Decimal(n) &&
                Some(CrudInstances.NameFor(CrudInstances.Checked, indicator, suffix, n)) !in taken &&
                forall m :: 1 <= m < n ==> Some(CrudInstances.NameFor(CrudInstances.Checked, indicator, suffix, m)) in taken
  {
    match CrudInstances.LeastFree(taken, CrudInstances.Checked, indicator, suffix, 1)
    case Some(n) => Some(Decimal(n))
    case None => None
  }

  /** The search `_next_num` runs: the indicator as a regular expression on the
      indicators, every other parameter left at its default. */
  function IndicatorSearch(env: Env, c: Conf, st: Store, indicator: string): (Result<seq<Doc>>, Store) {
    SearchSpec(env, c, st, None, Some(indicator), None, None, None, None, None, None)
  }

  /** `_next_num(indicator)`. */
  function NextNumSpec(env: Env, c: Conf, st: Store, indicator: string): (Result<Option<string>>, Store) {
    var (found, st1) := IndicatorSearch(env, c, st, indicator);
    match found
    case Err(e) => (Err(e), st1)
    case Ok(docs) =>
      match TakenOf(docs)
      case Err(e) => (Err(e), st1)
      case Ok(taken) => (Ok(Free(taken, indicator, c.suffix)), st1)
  }

  // ---------------------------------------------------------------- the other operations

  /** `get(_id, fields)`: the projection is checked before the round trip. */
  function GetSpec(env: Env, c: Conf, st: Store, id: string, fields: Option<string>): (Result<Doc>, Store) {
    match ProjectionFor(c.projection, fields)
    case Err(e) => (Err(e), st)
    case Ok(p) =>
      var (r, st1) := FindOneOp(env, st, CrudInstances.IdFilter(id), Some(p));
      if r.Raised? then (Err(MongoErr(r.err)), st1)
      else if r.value.None? then (Err(ResourceNotFound), st1)
      else (Ok(CrudMixins.Format(r.value.value)), st1)
  }

  /** Inserting the finished payload and reading it back by its id. */
  function StoreSpec(env: Env, c: Conf, st: Store, id: string, data: Doc): (Result<Doc>, Store) {
    var (ins, st1) := InsertOneOp(env, st, data);
    if ins.Raised? then
      (Err(if ins.err == DuplicateKeyError then DuplicateResource else MongoErr(ins.err)), st1)
    else GetSpec(env, c, st1, id, None)
  }

  /** The payload `create` stores: the request's data with `id` and `fqdn` set. */
  function Payload(payload: Doc, id: string, fqdn: string): Doc {
    payload["id" := Str(id)]["fqdn" := Str(fqdn)]
  }

  /** `create(_id, payload)`: the fqdn is the indicator followed by the suffix, with every
      `NUM` of that whole name replaced by `_next_num`'s number; a `None` number fails in
      `str.replace` with `TypeError`. The request schema makes the indicator a text. */
  function CreateSpec(env: Env, c: Conf, st: Store, id: string, payload: Doc): (Result<Doc>, Store)
    requires "dns_indicator" in payload && payload["dns_indicator"].Str?
  {
    var indicator := payload["dns_indicator"].s;
    var fqdn := indicator + c.suffix;
    if !Contains(indicator, "NUM") then StoreSpec(env, c, st, id, Payload(payload, id, fqdn))
    else
      var (num, st1) := NextNumSpec(env, c, st, indicator);
      match num
      case Err(e) => (Err(e), st1)
      case Ok(None) => (Err(Uncaught(TypeError)), st1)
      case Ok(Some(n)) => StoreSpec(env, c, st1, id, Payload(payload, id, Replace(fqdn, "NUM", n)))
  }

  /** `set_ipa_otp(_id, ipa_otp)`: an absent or empty password is stored as "". */
  function SetIpaOtpSpec(env: Env, c: Conf, st: Store, id: string, otp: Option<string>): (Result<Doc>, Store) {
    var value := if CrudMixins.Truthy(otp) then otp.value else "";
    var (r, st1) := FindOneAndUpdateOp(env, st, CrudInstances.IdFilter(id), map["ipa_otp" := Str(value)], Some(c.projection));
    if r.Raised? then (Err(MongoErr(r.err)), st1)
    else if r.value.None? then (Err(ResourceNotFound), st1)
    else (Ok(CrudMixins.Format(r.value.value)), st1)
  }

  /** `delete(_id)`. */
  function DeleteSpec(env: Env, st: Store, id: string): (Result<()>, Store) {
    var (r, st1) := DeleteOneOp(env, st, CrudInstances.IdFilter(id));
    if r.Raised? then (Err(MongoErr(r.err)), st1)
    else if r.value == 0 then (Err(ResourceNotFound), st1)
    else (Ok(()), st1)
  }

  // ---------------------------------------------------------------- the class

  class Instances {
    const coll: Collection
    const domainSuffix: string
    const paginationSteps: seq<nat>
    const paginationLimit: nat
    const projectionFields: map<string, int>
    const sortFields: SortSpec

    /** The default page size is the largest page size the schema lists. */
    constructor (coll: Collection, domainSuffix: string, steps: seq<nat>, projection: map<string, int>, sort: SortSpec)
      requires |steps| > 0
      ensures this.coll == coll
      ensures Settings() == Conf(domainSuffix, steps, steps[|steps| - 1], projection, sort)
    {
      this.coll := coll;
      this.domainSuffix := domainSuffix;
      this.paginationSteps := steps;
      this.paginationLimit := steps[|steps| - 1];
      this.projectionFields := projection;
      this.sortFields := sort;
    }

    function Settings(): Conf {
      Conf(domainSuffix, paginationSteps, paginationLimit, projectionFields, sortFields)
    }

    ghost predicate Valid()
      reads coll
    {
      coll.Valid()
    }

    /** The parameter checks of `search`. */
    method Params(fields: Option<string>, sort: Option<string>, page: Option<string>, limit: Option<string>)
      returns (r: Result<Page>)
      ensures r == SearchParams(Settings(), fields, sort, page, limit)
    {
      var p := ModelsMixins.Projection(projectionFields, fields);
      if p.Err? {
        return Err(p.error);
      }
      var keys := Sort(sortFields, sort, true);
      if keys.Err? {
        return Err(keys.error);
      }
      var skip := PaginationSkip(page, limit, paginationLimit);
      if skip.Err? {
        return Err(skip.error);
      }
      var n := PaginationLimit(limit, paginationLimit, paginationSteps);
      if n.Err? {
        return Err(n.error);
      }
      r := Ok(Page(p.value, keys.value, skip.value, n.value as nat));
    }

    /** The records of a page, each without its `_id`. */
    static method FormatEach(items: seq<Doc>) returns (r: seq<Doc>)
      ensures r == FormatAll(items)
    {
      r := [];
      var i := 0;
      while i < |items|
        invariant 0 <= i <= |items|
        invariant r == FormatAll(items[..i])
      {
        r := r + [CrudMixins.Format(items[i])];
        i := i + 1;
      }
      assert items[..i] == items;
    }

    /** The query of `search`. */
    static method Filter(instances: Option<string>, indicator: Option<string>, fqdn: Option<string>, ip: Option<string>)
      returns (q: Filter)
      ensures q == SearchFilter(instances, indicator, fqdn, ip)
    {
      var query := new CrudMixins.Query(map[]);
      FilterRe(query, "id", instances);
      FilterRe(query, "dns_indicator", indicator);
      FilterRe(query, "fqdn", fqdn);
      FilterRe(query, "ip_address", ip);
      q := query.conds;
    }

    method Search(instances: Option<string>, indicator: Option<string>, fqdn: Option<string>, ip: Option<string>,
                  fields: Option<string>, sort: Option<string>, page: Option<string>, limit: Option<string>)
      returns (r: Result<seq<Doc>>)
      requires Valid()
      modifies coll
      ensures Valid()
      ensures (r, coll.store) ==
              SearchSpec(coll.env, Settings(), old(coll.store), instances, indicator, fqdn, ip, fields, sort, page, limit)
    {
      ghost var st := coll.store;
      var q := Filter(instances, indicator, fqdn, ip);
      var pg := Params(fields, sort, page, limit);
      if pg.Err? {
        return Err(pg.error);
      }
      var items := coll.ToList(Cursor(q, Some(pg.value.projection), Some(pg.value.keys), pg.value.skip, pg.value.size), Some(pg.value.size));
      assert SearchSpec(coll.env, Settings(), st, instances, indicator, fqdn, ip, fields, sort, page, limit) ==
             (if items.Raised? then Err(MongoErr(items.err)) else Ok(FormatAll(items.value)), coll.store);
      if items.Raised? {
        return Err(MongoErr(items.err));
      }
      var result := FormatEach(items.value);
      r := Ok(result);
    }

    /** The first loop of `_next_num`. */
    static method TakenNames(docs: seq<Doc>) returns (r: Result<seq<Option<string>>>)
      ensures r == TakenOf(docs)
    {
      var taken: seq<Option<string>> := [];
      var i := 0;
      while i < |docs|
        invariant 0 <= i <= |docs|
        invariant TakenOf(docs[..i]) == Ok(taken)
      {
        assert docs[..i + 1][..i] == docs[..i];
        if "fqdn" !in docs[i] {
          return Err(Uncaught(KeyError));
        }
        var v := docs[i]["fqdn"];
        taken := taken + [if v.Str? then Some(v.s) else None];
        i := i + 1;
      }
      assert docs[..i] == docs;
      r := Ok(taken);
    }

    /** The second loop of `_next_num`: count up from 1; fall through with `None`. */
    static method FirstFree(taken: seq<Option<string>>, indicator: string, suffix: string) returns (r: Option<string>)
      ensures r == Free(taken, indicator, suffix)
    {
      var fqdn := indicator + suffix;
      var number := 1;
      while number < CrudInstances.HostMaxRange
        invariant 1 <= number <= CrudInstances.HostMaxRange
        invariant forall m :: 1 <= m < number ==>
                    Some(CrudInstances.NameFor(CrudInstances.Checked, indicator, suffix, m)) in taken
      {
        if Some(Replace(fqdn, "NUM", Decimal(number))) !in taken {
          CrudInstances.LeastFreeUnique(taken, CrudInstances.Checked, indicator, suffix, number);
          return Some(Decimal(number));
        }
        number := number + 1;
      }
      r := None;
    }

    method NextNum(indicator: string) returns (r: Result<Option<string>>)
      requires Valid()
      modifies coll
      ensures Valid()
      ensures (r, coll.store) == NextNumSpec(coll.env, Settings(), old(coll.store), indicator)
    {
      var found := Search(None, Some(indicator), None, None, None, None, None, None);
      if found.Err? {
        return Err(found.error);
      }
      var taken := TakenNames(found.value);
      if taken.Err? {
        return Err(taken.error);
      }
      var number := FirstFree(taken.value, indicator, domainSuffix);
      r := Ok(number);
    }

    method Get(id: string, fields: Option<string>) returns (r: Result<Doc>)
      requires Valid()
      modifies coll
      ensures Valid()
      ensures (r, coll.store) == GetSpec(coll.env, Settings(), old(coll.store), id, fields)
    {
      var p := ModelsMixins.Projection(projectionFields, fields);
      if p.Err? {
        return Err(p.error);
      }
      var found := coll.FindOne(CrudInstances.IdFilter(id), Some(p.value));
      if found.Raised? {
        return Err(MongoErr(found.err));
      }
      if found.value.None? {
        return Err(ResourceNotFound);
      }
      r := Ok(CrudMixins.Format(found.value.value));
    }

    method Create(id: string, payload: Doc) returns (r: Result<Doc>)
      requires Valid()
      requires "dns_indicator" in payload && payload["dns_indicator"].Str?
      modifies coll
      ensures Valid()
      ensures (r, coll.store) == CreateSpec(coll.env, Settings(), old(coll.store), id, payload)
    {
      var data := payload["id" := Str(id)];
      var indicator := payload["dns_indicator"].s;
      var fqdn := indicator + domainSuffix;
      if Contains(indicator, "NUM") {
        var number := NextNum(indicator);
        if number.Err? {
          return Err(number.error);
        }
        if number.value.None? {
          return Err(Uncaught(TypeError));
        }
        fqdn := Replace(fqdn, "NUM", number.value.value);
      }
      data := data["fqdn" := Str(fqdn)];
      var inserted := coll.InsertOne(data);
      if inserted.Raised? {
        return Err(if inserted.err == DuplicateKeyError then DuplicateResource else MongoErr(inserted.err));
      }
      r := Get(id, None);
    }

    method SetIpaOtp(id: string, otp: Option<string>) returns (r: Result<Doc>)
      requires Valid()
      modifies coll
      ensures Valid()
      ensures (r, coll.store) == SetIpaOtpSpec(coll.env, Settings(), old(coll.store), id, otp)
    {
      var value := otp;
      if !CrudMixins.Truthy(otp) {
        value := Some("");
      }
      var update: Doc := map[];
      update := update["ipa_otp" := Str(value.value)];
      var result := coll.FindOneAndUpdate(CrudInstances.IdFilter(id), update, Some(projectionFields));
      if result.Raised? {
        return Err(MongoErr(result.err));
      }
      if result.value.None? {
        return Err(ResourceNotFound);
      }
      r := Ok(CrudMixins.Format(result.value.value));
    }

    method Delete(id: string) returns (r: Result<()>)
      requires Valid()
      modifies coll
      ensures Valid()
      ensures (r, coll.store) == DeleteSpec(coll.env, old(coll.store), id)
    {
      var result := coll.DeleteOne(CrudInstances.IdFilter(id));
      if result.Raised? {
        return Err(MongoErr(result.err));
      }
      if result.value == 0 {
        return Err(ResourceNotFound);
      }
      r := Ok(());
    }
  }

  // ---------------------------------------------------------------- properties

  /** Neither the search nor the allocator changes the documents or the indexes. */
  lemma NextNumReadOnly(env: Env, c: Conf, st: Store, indicator: string)
    ensures IndicatorSearch(env, c, st, indicator).1 == Trip(st) || IndicatorSearch(env, c, st, indicator).1 == st
    ensures NextNumSpec(env, c, st, indicator).1.docs == st.docs
    ensures NextNumSpec(env, c, st, indicator).1.unique == st.unique
    ensures NextNumSpec(env, c, st, indicator).1.nextOid == st.nextOid
  {
  }

  /** `_next_num` answers with the least number whose candidate is free among the fqdns of
      the records the search found, and `None` (no range error) when 1 to 999 are all
      taken. */
  lemma NextNumMinimal(env: Env, c: Conf, st: Store, indicator: string)
    requires NextNumSpec(env, c, st, indicator).0.Ok?
    ensures IndicatorSearch(env, c, st, indicator).0.Ok?
    ensures TakenOf(IndicatorSearch(env, c, st, indicator).0.value).Ok?
    ensures var taken := TakenOf(IndicatorSearch(env, c, st, indicator).0.value).value;
            var num := NextNumSpec(env, c, st, indicator).0.value;
            (num.None? <==> forall m :: 1 <= m < CrudInstances.HostMaxRange ==>
                              Some(CrudInstances.NameFor(CrudInstances.Checked, indicator, c.suffix, m)) in taken) &&
            (num.Some? ==> exists n :: 1 <= n < CrudInstances.HostMaxRange && num.value == Decimal(n) &&
                             Some(CrudInstances.NameFor(CrudInstances.Checked, indicator, c.suffix, n)) !in taken &&
                             forall m :: 1 <= m < n ==> Some(CrudInstances.NameFor(CrudInstances.Checked, indicator, c.suffix, m)) in taken)
  {
  }

  /** Without `NUM` in the indicator no search runs: the stored fqdn is the indicator
      followed by the suffix and the store sees the insert and the read-back only. */
  lemma CreateWithoutNum(env: Env, c: Conf, st: Store, id: string, payload: Doc)
    requires "dns_indicator" in payload && payload["dns_indicator"].Str?
    requires !Contains(payload["dns_indicator"].s, "NUM")
    ensures var (r, st1) := CreateSpec(env, c, st, id, payload);
            st1.trips <= st.trips + 2 &&
            (r.Ok? ==> st1.docs[..|st.docs|] == st.docs && |st1.docs| == |st.docs| + 1 &&
                       Get(st1.docs[|st.docs|], "fqdn") == Str(payload["dns_indicator"].s + c.suffix) &&
                       Get(st1.docs[|st.docs|], "id") == Str(id))
  {
  }

  /** A successful store appends the payload, with its `_id`, after the records there
      were. */
  lemma StoreAppends(env: Env, c: Conf, st: Store, id: string, data: Doc)
    requires StoreSpec(env, c, st, id, data).0.Ok?
    ensures var st1 := StoreSpec(env, c, st, id, data).1;
            |st1.docs| == |st.docs| + 1 && st1.docs[..|st.docs|] == st.docs &&
            forall k :: k in data && k != IdKey ==> Get(st1.docs[|st.docs|], k) == data[k]
  {
    var st1 := InsertOneOp(env, st, data).1;
    assert st1.docs[..|st.docs|] == st.docs;
  }

  /** With `NUM` in the indicator the stored fqdn is exactly the candidate `_next_num`
      found free: unlike the current generation, the name checked is the name stored. */
  lemma CreateStoresChecked(env: Env, c: Conf, st: Store, id: string, payload: Doc)
    requires "dns_indicator" in payload && payload["dns_indicator"].Str?
    requires Contains(payload["dns_indicator"].s, "NUM")
    requires CreateSpec(env, c, st, id, payload).0.Ok?
    ensures var indicator := payload["dns_indicator"].s;
            var num := NextNumSpec(env, c, st, indicator).0;
            num.Ok? && num.value.Some? &&
            var st2 := CreateSpec(env, c, st, id, payload).1;
            |st2.docs| == |st.docs| + 1 && st2.docs[..|st.docs|] == st.docs &&
            Get(st2.docs[|st.docs|], "fqdn") == Str(Replace(indicator + c.suffix, "NUM", num.value.value)) &&
            Some(Replace(indicator + c.suffix, "NUM", num.value.value)) !in TakenOf(IndicatorSearch(env, c, st, indicator).0.value).value
  {
    var indicator := payload["dns_indicator"].s;
    var (num, st1) := NextNumSpec(env, c, st, indicator);
    var fqdn := Replace(indicator + c.suffix, "NUM", num.value.value);
    StoreAppends(env, c, st1, id, Payload(payload, id, fqdn));
    var taken := TakenOf(IndicatorSearch(env, c, st, indicator).0.value).value;
    var n :| 1 <= n < CrudInstances.HostMaxRange && num.value.value == Decimal(n) &&
             Some(CrudInstances.NameFor(CrudInstances.Checked, indicator, c.suffix, n)) !in taken;
  }

  /** When every number is taken the missing number fails `str.replace` with
      `TypeError`: nothing is stored and the allocator raises no range error. */
  lemma CreateNumbersExhausted(env: Env, c: Conf, st: Store, id: string, payload: Doc)
    requires "dns_indicator" in payload && payload["dns_indicator"].Str?
    requires Contains(payload["dns_indicator"].s, "NUM")
    requires NextNumSpec(env, c, st, payload["dns_indicator"].s).0 == Ok(None)
    ensures CreateSpec(env, c, st, id, payload).0 == Err(Uncaught(TypeError))
    ensures CreateSpec(env, c, st, id, payload).1.docs == st.docs
  {
  }

  /** A duplicate key on insert is `DuplicateResource` and a lost connection is
      `MongoConnError`; in both cases nothing is stored. */
  lemma StoreErrors(env: Env, c: Conf, st: Store, id: string, data: Doc)
    ensures var (ins, _) := InsertOneOp(env, st, data);
            var (r, st1) := StoreSpec(env, c, st, id, data);
            (ins == Raised(DuplicateKeyError) ==> r == Err(DuplicateResource) && st1.docs == st.docs) &&
            (ins == Raised(ConnectionFailure) ==> r == Err(MongoConnError) && st1.docs == st.docs)
  {
  }

  /** `set_ipa_otp` writes `ipa_otp` only, "" for an absent or empty password; without a
      record it raises `ResourceNotFound` and changes nothing. */
  lemma SetIpaOtpWritesOtpOnly(env: Env, c: Conf, st: Store, id: string, otp: Option<string>)
    requires !env.fails(st.trips)
    ensures var (r, st1) := SetIpaOtpSpec(env, c, st, id, otp);
            var m := FirstMatch(st.docs, CrudInstances.IdFilter(id), env.regex);
            (m.None? ==> r == Err(ResourceNotFound) && st1.docs == st.docs) &&
            (r.Ok? ==> m.Some? && |st1.docs| == |st.docs| &&
                       (forall j :: 0 <= j < |st.docs| && j != m.value ==> st1.docs[j] == st.docs[j]) &&
                       st1.docs[m.value] == st.docs[m.value]["ipa_otp" := Str(if CrudMixins.Truthy(otp) then otp.value else "")])
  {
    var m := FirstMatch(st.docs, CrudInstances.IdFilter(id), env.regex);
    if m.Some? {
      var value := if CrudMixins.Truthy(otp) then otp.value else "";
      assert st.docs[m.value] + map["ipa_otp" := Str(value)] == st.docs[m.value]["ipa_otp" := Str(value)];
    }
  }

  /** `delete` removes the first record with the id, and raises `ResourceNotFound` when
      there is none; `get` raises it too. */
  lemma DeleteAndGetNotFound(env: Env, c: Conf, st: Store, id: string)
    requires !env.fails(st.trips)
    ensures var m := FirstMatch(st.docs, CrudInstances.IdFilter(id), env.regex);
            var (d, st1) := DeleteSpec(env, st, id);
            (m.None? <==> d == Err(ResourceNotFound)) &&
            (m.None? ==> st1.docs == st.docs) &&
            (m.Some? ==> d == Ok(()) && st1.docs == RemoveAt(st.docs, m.value))
    ensures ProjectionFor(c.projection, None) == Ok(c.projection)
    ensures FirstMatch(st.docs, CrudInstances.IdFilter(id), env.regex).None? ==>
            GetSpec(env, c, st, id, None).0 == Err(ResourceNotFound)
  {
  }

  /** A search returns at most one page, of the page size asked for or the default, and
      no `_id`. */
  lemma SearchPage(env: Env, c: Conf, st: Store, instances: Option<string>, indicator: Option<string>,
                   fqdn: Option<string>, ip: Option<string>, fields: Option<string>, sort: Option<string>,
                   page: Option<string>, limit: Option<string>)
    requires SearchSpec(env, c, st, instances, indicator, fqdn, ip, fields, sort, page, limit).0.Ok?
    ensures var docs := SearchSpec(env, c, st, instances, indicator, fqdn, ip, fields, sort, page, limit).0.value;
            var n := PaginationLimit(limit, c.limit, c.steps);
            n.Ok? && |docs| <= n.value && (n.value in c.steps || n.value == c.limit) &&
            forall k :: 0 <= k < |docs| ==> IdKey !in docs[k]
  {
  }
}
