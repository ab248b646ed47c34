/** The instance store of the current generation (catweazle/crud/instances.py): the
    host-number allocator, the record `create` stores, and single-field updates, over the
    generic store layer. */
module CrudInstances {
  import opened Base
  import opened Strings
  import opened IPv4
  import opened Mongo
  import opened CrudMixins
  import CrudCommon

  // ---------------------------------------------------------------- records

  /** `ModelV2InstanceGet`: every field optional. */
  datatype Instance = Instance(id: Option<string>, dnsIndicator: Option<string>, fqdn: Option<string>,
                               ipAddress: Option<string>, ipaOtp: Option<string>, meta: Option<map<string, string>>)

  /** `ModelV2instancePost`: the indicator may be absent, the address is a parsed IPv4. */
  datatype InstancePost = InstancePost(dnsIndicator: Option<string>, ipAddress: Address, meta: Option<map<string, string>>)

  /** `ModelV2instancePut`: the metadata only. */
  datatype InstancePut = InstancePut(meta: Option<map<string, string>>)

  /** `ModelV2InstanceGetMulti`. */
  datatype InstanceMulti = InstanceMulti(result: seq<Instance>, resultSize: nat)

  function OptStr(s: Option<string>): Value {
    if s.Some? then Str(s.value) else Null
  }

  function OptDict(m: Option<map<string, string>>): Value {
    if m.Some? then Dict(m.value) else Null
  }

  /** A `StrictStr` field: absent or `None` is `None`, a string is kept, anything else
      fails validation. */
  function StrField(d: Doc, k: string): (r: Result<Option<string>>)
    ensures r.Ok? && r.value.Some? <==> k in d && d[k].Str?
    ensures r.Ok? && r.value.Some? ==> d[k] == Str(r.value.value)
    ensures r.Err? <==> k in d && !d[k].Str? && !d[k].Null?
  {
    if k !in d then Ok(None)
    else match d[k]
      case Null => Ok(None)
      case Str(s) => Ok(Some(s))
      case _ => Err(Uncaught(ValidationError))
  }

  function MetaField(d: Doc): (r: Result<Option<map<string, string>>>)
    ensures r.Err? <==> "meta" in d && !d["meta"].Dict? && !d["meta"].Null?
  {
    if "meta" !in d then Ok(None)
    else match d["meta"]
      case Null => Ok(None)
      case Dict(m) => Ok(Some(m))
      case _ => Err(Uncaught(ValidationError))
  }

  /** `ModelV2InstanceGet(**result)`: keys outside the model (such as `_id`) are ignored. */
  function FromDoc(d: Doc): Result<Instance> {
    var id := StrField(d, "id");
    var ind := StrField(d, "dns_indicator");
    var fqdn := StrField(d, "fqdn");
    var ip := StrField(d, "ip_address");
    var otp := StrField(d, "ipa_otp");
    var meta := MetaField(d);
    if id.Err? || ind.Err? || fqdn.Err? || ip.Err? || otp.Err? || meta.Err? then Err(Uncaught(ValidationError))
    else Ok(Instance(id.value, ind.value, fqdn.value, ip.value, otp.value, meta.value))
  }

  /** The stored form of an instance. */
  function ToDoc(x: Instance): Doc {
    map["id" := OptStr(x.id), "dns_indicator" := OptStr(x.dnsIndicator), "fqdn" := OptStr(x.fqdn),
        "ip_address" := OptStr(x.ipAddress), "ipa_otp" := OptStr(x.ipaOtp), "meta" := OptDict(x.meta)]
  }

  /** Validation reads back exactly what the stored form holds. */
  lemma FromToDoc(x: Instance)
    ensures FromDoc(ToDoc(x)) == Ok(x)
  {
  }

  /** The names of the model's fields. */
  const InstanceFields: set<string> := {"id", "dns_indicator", "fqdn", "ip_address", "ipa_otp", "meta"}

  /** Validation looks at the model's fields only. */
  lemma FromDocIgnoresOthers(d: Doc, k: string, v: Value)
    requires k !in InstanceFields
    ensures FromDoc(d[k := v]) == FromDoc(d)
  {
    var d1 := d[k := v];
    assert forall f :: f in InstanceFields ==> (f in d1 <==> f in d) && (f in d ==> d1[f] == d[f]);
  }

  /** `ModelV2InstanceGetMulti(**result)`: the first record that fails validation fails it all. */
  function FromDocs(items: seq<Doc>): (r: Result<seq<Instance>>)
    ensures r.Ok? ==> |r.value| == |items| && forall k :: 0 <= k < |items| ==> FromDoc(items[k]) == Ok(r.value[k])
    ensures r.Err? ==> exists k :: 0 <= k < |items| && FromDoc(items[k]).Err?
  {
    if items == [] then Ok([])
    else
      match FromDoc(items[0])
      case Err(e) => Err(e)
      case Ok(x) =>
        match FromDocs(items[1..])
        case Err(e) => Err(e)
        case Ok(xs) => Ok([x] + xs)
  }

  function FromMulti(m: Multi): Result<InstanceMulti> {
    match FromDocs(m.result)
    case Err(e) => Err(e)
    case Ok(xs) => Ok(InstanceMulti(xs, m.resultSize))
  }

  /** `{"id": _id}`. */
  function IdFilter(id: string): Filter { map["id" := Literal(Str(id))] }

  // ---------------------------------------------------------------- host numbers

  /** The largest host number plus one: numbers run from 1 to 999. */
  const HostMaxRange: nat := 1000

  /** Which name a host number stands for: the one `_next_num` checks (the number
      substituted throughout the indicator followed by the suffix) or the one `create`
      stores (the number substituted in the indicator, then the suffix). */
  datatype Naming = Checked | Stored

  function NameFor(k: Naming, indicator: string, suffix: string, n: nat): string {
    match k
    case Checked => Replace(indicator + suffix, "NUM", Decimal(n))
    case Stored => Replace(indicator, "NUM", Decimal(n)) + suffix
  }

  /** The least number from `n` on whose name is not taken. */
  function LeastFree(taken: seq<Option<string>>, k: Naming, indicator: string, suffix: string, n: nat): (r: Option<nat>)
    requires 1 <= n <= HostMaxRange
    ensures r.Some? ==> n <= r.value < HostMaxRange && Some(NameFor(k, indicator, suffix, r.value)) !in taken &&
                        forall m :: n <= m < r.value ==> Some(NameFor(k, indicator, suffix, m)) in taken
    ensures r.None? <==> forall m :: n <= m < HostMaxRange ==> Some(NameFor(k, indicator, suffix, m)) in taken
    decreases HostMaxRange - n
  {
    if n == HostMaxRange then None
    else if Some(NameFor(k, indicator, suffix, n)) !in taken then Some(n)
    else LeastFree(taken, k, indicator, suffix, n + 1)
  }

  /** The number `_next_num` returns for the taken names: the least free one as text, or
      `HostNumRangeExceeded(1000)`. */
  function FreeNumber(taken: seq<Option<string>>, k: Naming, indicator: string, suffix: string): Result<string> {
    match LeastFree(taken, k, indicator, suffix, 1)
    case Some(n) => Ok(Decimal(n))
    case None => Err(HostNumRangeExceeded(HostMaxRange))
  }

  /** The least free number is the only number that is free with every smaller one taken. */
  lemma LeastFreeUnique(taken: seq<Option<string>>, k: Naming, indicator: string, suffix: string, n: nat)
    requires 1 <= n < HostMaxRange && Some(NameFor(k, indicator, suffix, n)) !in taken
    requires forall m :: 1 <= m < n ==> Some(NameFor(k, indicator, suffix, m)) in taken
    ensures LeastFree(taken, k, indicator, suffix, 1) == Some(n)
  {
  }

  /** `_next_num`'s answer: `Ok(str(n))` for the least number `n` whose name is free, and
      `HostNumRangeExceeded(1000)` exactly when all of 1 to 999 are taken. */
  lemma FreeNumberMinimal(taken: seq<Option<string>>, k: Naming, indicator: string, suffix: string)
    ensures FreeNumber(taken, k, indicator, suffix).Err? <==>
            forall m :: 1 <= m < HostMaxRange ==> Some(NameFor(k, indicator, suffix, m)) in taken
    ensures FreeNumber(taken, k, indicator, suffix).Err? ==>
            FreeNumber(taken, k, indicator, suffix).error == HostNumRangeExceeded(1000)
    ensures FreeNumber(taken, k, indicator, suffix).Ok? ==>
              exists n :: 1 <= n < HostMaxRange && FreeNumber(taken, k, indicator, suffix).value == Decimal(n) &&
                          Some(NameFor(k, indicator, suffix, n)) !in taken &&
                          forall m :: 1 <= m < n ==> Some(NameFor(k, indicator, suffix, m)) in taken
  {
    var r := LeastFree(taken, k, indicator, suffix, 1);
    if r.Some? {
      var n := r.value;
      assert 1 <= n < HostMaxRange && FreeNumber(taken, k, indicator, suffix).value == Decimal(n);
    }
  }

  /** The fqdn of every record, in order (`taken.append(instance.fqdn)`). */
  function Fqdns(xs: seq<Instance>): (r: seq<Option<string>>)
    ensures |r| == |xs| && forall k :: 0 <= k < |xs| ==> r[k] == xs[k].fqdn
  {
    if xs == [] then [] else [xs[0].fqdn] + Fqdns(xs[1..])
  }

  // ---------------------------------------------------------------- specifications

  function SearchFilter(id: Option<string>, indicator: Option<string>, ip: Option<string>, fqdn: Option<string>): Filter {
    var q := FilterReOn(map[], "id", id, None);
    var q := FilterReOn(q, "dns_indicator", indicator, None);
    var q := FilterReOn(q, "ip_address", ip, None);
    FilterReOn(q, "fqdn", fqdn, None)
  }

  /** `search(...)`: every given text is a regular expression on its field. */
  function SearchSpec(env: Env, st: Store, id: Option<string>, indicator: Option<string>, ip: Option<string>,
                      fqdn: Option<string>, fields: Option<seq<string>>, sort: Option<string>, sortOrder: Option<string>,
                      page: Option<nat>, limit: Option<nat>): (Result<InstanceMulti>, Store)
  {
    var (r, st1) := CrudCommon.SearchSpec(env, st, SearchFilter(id, indicator, ip, fqdn), fields, sort, sortOrder, page, limit);
    match r
    case Err(e) => (Err(e), st1)
    case Ok(m) => (FromMulti(m), st1)
  }

  /** `_next_num(indicator)`: the names in use among the records whose indicator matches,
      then the least free number. The names checked are those `create` stores. */
  function NextNumSpec(env: Env, st: Store, suffix: string, indicator: string): (Result<string>, Store) {
    var (found, st1) := IndicatorSearch(env, st, indicator);
    match found
    case Err(e) => (Err(e), st1)
    case Ok(m) => (FreeNumber(Fqdns(m.result), Stored, indicator, suffix), st1)
  }

  /** `_next_num` as the code has it: the names checked substitute the number in the
      suffix too. */
  function NextNumAsWritten(env: Env, st: Store, suffix: string, indicator: string): (Result<string>, Store) {
    var (found, st1) := IndicatorSearch(env, st, indicator);
    match found
    case Err(e) => (Err(e), st1)
    case Ok(m) => (FreeNumber(Fqdns(m.result), Checked, indicator, suffix), st1)
  }

  /** The record `create` stores: the dumped payload with `id`, `fqdn` and the address as
      text. */
  function Record(id: string, payload: InstancePost, fqdn: string): Doc {
    map["dns_indicator" := OptStr(payload.dnsIndicator), "meta" := OptDict(payload.meta),
        "id" := Str(id), "fqdn" := Str(fqdn), "ip_address" := Str(ToText(payload.ipAddress))]
  }

  /** The fqdn for an indicator, given the number `_next_num` chose when it has `NUM`. */
  function FqdnOf(indicator: string, suffix: string, number: string): string {
    Replace(indicator, "NUM", number) + suffix
  }

  function StoreRecord(env: Env, st: Store, id: string, payload: InstancePost, fqdn: string,
                       fields: Option<seq<string>>): (Result<Instance>, Store)
  {
    var (r, st1) := CrudCommon.CreateSpec(env, st, Record(id, payload, fqdn), fields);
    match r
    case Err(e) => (Err(e), st1)
    case Ok(d) => (FromDoc(d), st1)
  }

  /** `create(_id, payload, fields)`; a missing indicator fails on `"NUM" in None`. */
  function CreateSpec(env: Env, st: Store, suffix: string, id: string, payload: InstancePost,
                      fields: Option<seq<string>>): (Result<Instance>, Store)
  {
    match payload.dnsIndicator
    case None => (Err(Uncaught(TypeError)), st)
    case Some(indicator) =>
      if !Contains(indicator, "NUM") then StoreRecord(env, st, id, payload, indicator + suffix, fields)
      else
        var (num, st1) := NextNumSpec(env, st, suffix, indicator);
        match num
        case Err(e) => (Err(e), st1)
        case Ok(n) => StoreRecord(env, st1, id, payload, FqdnOf(indicator, suffix, n), fields)
  }

  function DeleteSpec(env: Env, st: Store, id: string): (Result<()>, Store) {
    var (r, st1) := CrudCommon.DeleteSpec(env, st, IdFilter(id));
    (if r.Ok? then Ok(()) else Err(r.error), st1)
  }

  function GetSpec(env: Env, st: Store, id: string, fields: Option<seq<string>>): (Result<Instance>, Store) {
    var (r, st1) := CrudCommon.GetSpec(env, st, IdFilter(id), fields);
    match r
    case Err(e) => (Err(e), st1)
    case Ok(d) => (FromDoc(d), st1)
  }

  function UpdateDocSpec(env: Env, st: Store, id: string, data: Doc, fields: Option<seq<string>>): (Result<Instance>, Store) {
    var (r, st1) := CrudCommon.UpdateSpec(env, st, IdFilter(id), data, fields);
    match r
    case Err(e) => (Err(e), st1)
    case Ok(d) => (FromDoc(d), st1)
  }

  /** `update(_id, payload, fields)`: the dumped `ModelV2instancePut`. */
  function UpdateSpec(env: Env, st: Store, id: string, payload: InstancePut, fields: Option<seq<string>>): (Result<Instance>, Store) {
    UpdateDocSpec(env, st, id, map["meta" := OptDict(payload.meta)], fields)
  }

  /** `update_ipa_otp(_id, ipa_otp, fields)`. */
  function UpdateIpaOtpSpec(env: Env, st: Store, id: string, otp: string, fields: Option<seq<string>>): (Result<Instance>, Store) {
    UpdateDocSpec(env, st, id, map["ipa_otp" := Str(otp)], fields)
  }

  /** `index_create`: unique indexes on `id`, then on `fqdn`; driver errors escape. */
  function IndexCreateSpec(env: Env, st: Store): (Outcome, Store) {
    var (r1, st1) := CreateUniqueIndexOp(env, st, "id");
    if r1.Raised? then (Fail(Uncaught(PyMongo(r1.err))), st1)
    else
      var (r2, st2) := CreateUniqueIndexOp(env, st1, "fqdn");
      (if r2.Raised? then Fail(Uncaught(PyMongo(r2.err))) else Pass, st2)
  }

  // ---------------------------------------------------------------- the class

  class Instances {
    const crud: CrudCommon.CrudMongo
    const domainSuffix: string

    constructor (crud: CrudCommon.CrudMongo, domainSuffix: string)
      ensures this.crud == crud && this.domainSuffix == domainSuffix
    {
      this.crud := crud;
      this.domainSuffix := domainSuffix;
    }

    ghost predicate Valid()
      reads crud.coll
    {
      crud.coll.Valid()
    }

    method Search(id: Option<string>, indicator: Option<string>, ip: Option<string>, fqdn: Option<string>,
                  fields: Option<seq<string>>, sort: Option<string>, sortOrder: Option<string>,
                  page: Option<nat>, limit: Option<nat>) returns (r: Result<InstanceMulti>)
      requires Valid()
      modifies crud.coll
      ensures Valid()
      ensures (r, crud.coll.store) ==
              SearchSpec(crud.coll.env, old(crud.coll.store), id, indicator, ip, fqdn, fields, sort, sortOrder, page, limit)
    {
      ghost var st := crud.coll.store;
      var q := Filter(id, indicator, ip, fqdn);
      var found := crud.Search(q, fields, sort, sortOrder, page, limit);
      assert SearchSpec(crud.coll.env, st, id, indicator, ip, fqdn, fields, sort, sortOrder, page, limit) ==
             (if found.Err? then Err(found.error) else FromMulti(found.value), crud.coll.store);
      if found.Err? {
        return Err(found.error);
      }
      r := FromMulti(found.value);
    }

    /** The query of `search`. */
    static method Filter(id: Option<string>, indicator: Option<string>, ip: Option<string>, fqdn: Option<string>)
      returns (q: Filter)
      ensures q == SearchFilter(id, indicator, ip, fqdn)
    {
      var query := new Query(map[]);
      FilterRe(query, "id", id, None);
      FilterRe(query, "dns_indicator", indicator, None);
      FilterRe(query, "ip_address", ip, None);
      FilterRe(query, "fqdn", fqdn, None);
      q := query.conds;
    }

    /** The first loop of `_next_num`: the fqdn of every record found. */
    static method TakenNames(instances: seq<Instance>) returns (taken: seq<Option<string>>)
      ensures taken == Fqdns(instances)
    {
      taken := [];
      var i := 0;
      while i < |instances|
        invariant 0 <= i <= |instances|
        invariant |taken| == i && forall k :: 0 <= k < i ==> taken[k] == instances[k].fqdn
      {
        taken := taken + [instances[i].fqdn];
        i := i + 1;
      }
    }

    /** The second loop of `_next_num`: count up from 1 to the first free name. */
    static method FirstFree(taken: seq<Option<string>>, indicator: string, suffix: string) returns (r: Result<string>)
      ensures r == FreeNumber(taken, Stored, indicator, suffix)
    {
      var number := 1;
      while number < HostMaxRange
        invariant 1 <= number <= HostMaxRange
        invariant forall m :: 1 <= m < number ==> Some(NameFor(Stored, indicator, suffix, m)) in taken
      {
        if Some(Replace(indicator, "NUM", Decimal(number)) + suffix) !in taken {
          LeastFreeUnique(taken, Stored, indicator, suffix, number);
          return Ok(Decimal(number));
        }
        number := number + 1;
      }
      r := Err(HostNumRangeExceeded(HostMaxRange));
    }

    /** `_next_num`: collect the names in use, then count up to the first free one. */
    method NextNum(indicator: string) returns (r: Result<string>)
      requires Valid()
      modifies crud.coll
      ensures Valid()
      ensures (r, crud.coll.store) == NextNumSpec(crud.coll.env, old(crud.coll.store), domainSuffix, indicator)
    {
      var found := Search(None, Some(indicator), None, None, None, None, None, None, None);
      if found.Err? {
        return Err(found.error);
      }
      var taken := TakenNames(found.value.result);
      r := FirstFree(taken, indicator, domainSuffix);
    }

    method IndexCreate() returns (r: Outcome)
      requires Valid()
      modifies crud.coll
      ensures Valid()
      ensures (r, crud.coll.store) == IndexCreateSpec(crud.coll.env, old(crud.coll.store))
    {
      var byId := crud.coll.CreateUniqueIndex("id");
      if byId.Raised? {
        return Fail(Uncaught(PyMongo(byId.err)));
      }
      var byFqdn := crud.coll.CreateUniqueIndex("fqdn");
      r := if byFqdn.Raised? then Fail(Uncaught(PyMongo(byFqdn.err))) else Pass;
    }

    /** `create`: the record is built field by field, the fqdn from the indicator. */
    method Create(id: string, payload: InstancePost, fields: Option<seq<string>>) returns (r: Result<Instance>)
      requires Valid()
      modifies crud.coll
      ensures Valid()
      ensures (r, crud.coll.store) == CreateSpec(crud.coll.env, old(crud.coll.store), domainSuffix, id, payload, fields)
    {
      var data: Doc := map["dns_indicator" := OptStr(payload.dnsIndicator), "meta" := OptDict(payload.meta)];
      data := data["id" := Str(id)];
      if payload.dnsIndicator.None? {
        return Err(Uncaught(TypeError));
      }
      var indicator := payload.dnsIndicator.value;
      var fqdn := indicator + domainSuffix;
      if Contains(indicator, "NUM") {
        var number := NextNum(indicator);
        if number.Err? {
          return Err(number.error);
        }
        fqdn := Replace(indicator, "NUM", number.value) + domainSuffix;
      }
      data := data["fqdn" := Str(fqdn)];
      data := data["ip_address" := Str(ToText(payload.ipAddress))];
      assert data == Record(id, payload, fqdn);
      var created := crud.Create(data, fields);
      if created.Err? {
        return Err(created.error);
      }
      r := FromDoc(created.value);
    }

    method Delete(id: string) returns (r: Result<()>)
      requires Valid()
      modifies crud.coll
      ensures Valid()
      ensures (r, crud.coll.store) == DeleteSpec(crud.coll.env, old(crud.coll.store), id)
    {
      var deleted := crud.Delete(IdFilter(id));
      r := if deleted.Ok? then Ok(()) else Err(deleted.error);
    }

    method Get(id: string, fields: Option<seq<string>>) returns (r: Result<Instance>)
      requires Valid()
      modifies crud.coll
      ensures Valid()
      ensures (r, crud.coll.store) == GetSpec(crud.coll.env, old(crud.coll.store), id, fields)
    {
      var found := crud.Get(IdFilter(id), fields);
      if found.Err? {
        return Err(found.error);
      }
      r := FromDoc(found.value);
    }

    method Update(id: string, payload: InstancePut, fields: Option<seq<string>>) returns (r: Result<Instance>)
      requires Valid()
      modifies crud.coll
      ensures Valid()
      ensures (r, crud.coll.store) == UpdateSpec(crud.coll.env, old(crud.coll.store), id, payload, fields)
    {
      var updated := crud.Update(IdFilter(id), map["meta" := OptDict(payload.meta)], fields);
      if updated.Err? {
        return Err(updated.error);
      }
      r := FromDoc(updated.value);
    }

    method UpdateIpaOtp(id: string, otp: string, fields: Option<seq<string>>) returns (r: Result<Instance>)
      requires Valid()
      modifies crud.coll
      ensures Valid()
      ensures (r, crud.coll.store) == UpdateIpaOtpSpec(crud.coll.env, old(crud.coll.store), id, otp, fields)
    {
      var updated := crud.Update(IdFilter(id), map["ipa_otp" := Str(otp)], fields);
      if updated.Err? {
        return Err(updated.error);
      }
      r := FromDoc(updated.value);
    }
  }

  // ---------------------------------------------------------------- properties

  /** The names `_next_num` treats as taken are the fqdns of the records whose indicator
      matches the indicator as a regular expression, all of them and in store order. */
  lemma NextNumTaken(env: Env, st: Store, suffix: string, indicator: string)
    requires indicator != ""
    requires !env.fails(st.trips) && !env.fails(st.trips + 1)
    ensures var matched := Select(st.docs, map["dns_indicator" := Ops(None, Some(indicator), None, None)], env.regex);
            var (r, st1) := NextNumSpec(env, st, suffix, indicator);
            st1.docs == st.docs &&
            (FromDocs(matched).Ok? ==> r == FreeNumber(Fqdns(FromDocs(matched).value), Stored, indicator, suffix))
  {
    IndicatorSearchMatched(env, st, indicator);
  }

  /** The indicator search reads every record whose indicator matches, unprojected, in
      store order, and leaves the documents alone. */
  lemma IndicatorSearchMatched(env: Env, st: Store, indicator: string)
    requires indicator != ""
    requires !env.fails(st.trips) && !env.fails(st.trips + 1)
    ensures var matched := Select(st.docs, map["dns_indicator" := Ops(None, Some(indicator), None, None)], env.regex);
            var (found, st1) := IndicatorSearch(env, st, indicator);
            st1.docs == st.docs && found == FromMulti(Multi(matched, |matched|))
  {
    var q := SearchFilter(None, Some(indicator), None, None);
    assert q == map["dns_indicator" := Ops(None, Some(indicator), None, None)];
    var matched := Select(st.docs, q, env.regex);
    var (base, st1) := CrudCommon.SearchSpec(env, st, q, None, None, None, None, None);
    CrudCommon.SearchErrors(env, st, q, None, None, None, None, None);
    CrudCommon.SearchSizes(env, st, q, None, None, None, None, None);
    CrudCommon.SearchToList(env, st, q, None, None, None, None, None);
    CrudCommon.UnboundedCursor(env.regex, st.docs, CrudCommon.SearchCursor(q, None, None, None, None, None));
    assert ProjectAll(matched, None) == matched;
    assert base == Ok(Multi(matched, |matched|));
  }

  /** Without `NUM` in the indicator no search runs: the fqdn is the indicator followed by
      the suffix, and the store sees only the insert and its read-back. */
  lemma CreateWithoutNum(env: Env, st: Store, suffix: string, id: string, payload: InstancePost, fields: Option<seq<string>>)
    requires StoreValid(st)
    requires payload.dnsIndicator.Some? && !Contains(payload.dnsIndicator.value, "NUM")
    ensures var (r, st1) := CreateSpec(env, st, suffix, id, payload, fields);
            st1.trips <= st.trips + 2 &&
            (r.Ok? ==> st1.docs[..|st.docs|] == st.docs && |st1.docs| == |st.docs| + 1 &&
                       Get(st1.docs[|st.docs|], "fqdn") == Str(payload.dnsIndicator.value + suffix))
  {
    var data := Record(id, payload, payload.dnsIndicator.value + suffix);
    CrudCommon.CreateOutcome(env, st, data, fields);
  }

  /** The search `_next_num` runs: records whose indicator matches, no projection, all
      of them. */
  function IndicatorSearch(env: Env, st: Store, indicator: string): (Result<InstanceMulti>, Store) {
    SearchSpec(env, st, None, Some(indicator), None, None, None, None, None, None, None)
  }

  /** An empty field list is no projection. */
  lemma SearchNoFields(env: Env, st: Store, id: Option<string>, indicator: Option<string>, ip: Option<string>,
                       fqdn: Option<string>, sort: Option<string>, sortOrder: Option<string>,
                       page: Option<nat>, limit: Option<nat>)
    ensures SearchSpec(env, st, id, indicator, ip, fqdn, Some([]), sort, sortOrder, page, limit) ==
            SearchSpec(env, st, id, indicator, ip, fqdn, None, sort, sortOrder, page, limit)
  {
    CrudCommon.SearchNoFields(env, st, SearchFilter(id, indicator, ip, fqdn), sort, sortOrder, page, limit);
  }

  /** The number `_next_num` returns: the least whose stored name is not among the fqdns
      the search found. */
  lemma NextNumMinimal(env: Env, st: Store, suffix: string, indicator: string)
    requires NextNumSpec(env, st, suffix, indicator).0.Ok?
    ensures NextNumSpec(env, st, suffix, indicator).1.docs == st.docs
    ensures NextNumSpec(env, st, suffix, indicator).1.unique == st.unique
    ensures IndicatorSearch(env, st, indicator).0.Ok?
    ensures var taken := Fqdns(IndicatorSearch(env, st, indicator).0.value.result);
            exists n: nat ::
              1 <= n < HostMaxRange && NextNumSpec(env, st, suffix, indicator).0.value == Decimal(n) &&
              Some(NameFor(Stored, indicator, suffix, n)) !in taken &&
              (forall m :: 1 <= m < n ==> Some(NameFor(Stored, indicator, suffix, m)) in taken)
  {
    var (found, _) := IndicatorSearch(env, st, indicator);
    FreeNumberMinimal(Fqdns(found.value.result), Stored, indicator, suffix);
  }

  /** With `NUM` in the indicator the fqdn is the indicator with every `NUM` replaced by
      the number `_next_num` chose (see `NextNumMinimal`), then the suffix. */
  lemma CreateWithNum(env: Env, st: Store, suffix: string, id: string, payload: InstancePost, fields: Option<seq<string>>)
    requires StoreValid(st)
    requires payload.dnsIndicator.Some? && Contains(payload.dnsIndicator.value, "NUM")
    requires CreateSpec(env, st, suffix, id, payload, fields).0.Ok?
    ensures var indicator := payload.dnsIndicator.value;
            var num := NextNumSpec(env, st, suffix, indicator).0;
            var st1 := CreateSpec(env, st, suffix, id, payload, fields).1;
            num.Ok? && |st1.docs| == |st.docs| + 1 && st1.docs[..|st.docs|] == st.docs &&
            Get(st1.docs[|st.docs|], "fqdn") == Str(Replace(indicator, "NUM", num.value) + suffix)
  {
    var indicator := payload.dnsIndicator.value;
    var (num, st2) := NextNumSpec(env, st, suffix, indicator);
    NextNumKeepsStore(env, st, suffix, indicator);
    var fqdn := FqdnOf(indicator, suffix, num.value);
    assert CreateSpec(env, st, suffix, id, payload, fields) == StoreRecord(env, st2, id, payload, fqdn, fields);
    StoreRecordFields(env, st2, id, payload, fqdn, fields);
  }

  /** The search `_next_num` runs leaves the documents and the indexes as they were. */
  lemma NextNumKeepsStore(env: Env, st: Store, suffix: string, indicator: string)
    ensures var st1 := NextNumSpec(env, st, suffix, indicator).1;
            st1.docs == st.docs && st1.unique == st.unique && (StoreValid(st) ==> StoreValid(st1))
  {
    var (found, st1) := IndicatorSearch(env, st, indicator);
    assert st1.docs == st.docs && st1.unique == st.unique;
  }

  /** When every number from 1 to 999 is taken, `create` stores nothing and raises
      `HostNumRangeExceeded(1000)`. */
  lemma CreateRangeExceeded(env: Env, st: Store, suffix: string, id: string, payload: InstancePost, fields: Option<seq<string>>)
    requires payload.dnsIndicator.Some? && Contains(payload.dnsIndicator.value, "NUM")
    requires IndicatorSearch(env, st, payload.dnsIndicator.value).0.Ok?
    requires var taken := Fqdns(IndicatorSearch(env, st, payload.dnsIndicator.value).0.value.result);
             forall m :: 1 <= m < HostMaxRange ==> Some(NameFor(Stored, payload.dnsIndicator.value, suffix, m)) in taken
    ensures CreateSpec(env, st, suffix, id, payload, fields).0 == Err(HostNumRangeExceeded(1000))
    ensures CreateSpec(env, st, suffix, id, payload, fields).1.docs == st.docs
  {
    var indicator := payload.dnsIndicator.value;
    var (found, st1) := IndicatorSearch(env, st, indicator);
    FreeNumberMinimal(Fqdns(found.value.result), Stored, indicator, suffix);
    NextNumKeepsStore(env, st, suffix, indicator);
    assert NextNumSpec(env, st, suffix, indicator).0 == Err(HostNumRangeExceeded(1000));
  }

  /** Storing a record: on success it is the new last document, with the fields it was
      built from. */
  lemma StoreRecordFields(env: Env, st: Store, id: string, payload: InstancePost, fqdn: string, fields: Option<seq<string>>)
    requires StoreValid(st)
    ensures var (r, st1) := StoreRecord(env, st, id, payload, fqdn, fields);
            r.Ok? ==> |st1.docs| == |st.docs| + 1 && st1.docs[..|st.docs|] == st.docs &&
                      var d := st1.docs[|st.docs|];
                      Get(d, "id") == Str(id) && Get(d, "ip_address") == Str(ToText(payload.ipAddress)) &&
                      Get(d, "dns_indicator") == OptStr(payload.dnsIndicator) && Get(d, "meta") == OptDict(payload.meta) &&
                      Get(d, "fqdn") == Str(fqdn)
  {
    var data := Record(id, payload, fqdn);
    var (r0, st1) := CrudCommon.CreateSpec(env, st, data, fields);
    assert StoreRecord(env, st, id, payload, fqdn, fields).1 == st1;
    CrudCommon.CreateOutcome(env, st, data, fields);
    if r0.Ok? {
      RecordKeys(id, payload, fqdn);
    }
  }

  /** The keys of the stored record, none of them `_id`. */
  lemma RecordKeys(id: string, payload: InstancePost, fqdn: string)
    ensures var data := Record(id, payload, fqdn);
            "id" in data && "ip_address" in data && "dns_indicator" in data && "meta" in data && "fqdn" in data &&
            IdKey !in data &&
            data["id"] == Str(id) && data["ip_address"] == Str(ToText(payload.ipAddress)) &&
            data["dns_indicator"] == OptStr(payload.dnsIndicator) && data["meta"] == OptDict(payload.meta) &&
            data["fqdn"] == Str(fqdn)
  {
  }

  /** The stored record carries the id, the address as text, the indicator and the
      metadata of the request. */
  lemma CreateStoresRecord(env: Env, st: Store, suffix: string, id: string, payload: InstancePost, fields: Option<seq<string>>)
    requires StoreValid(st)
    ensures var (r, st1) := CreateSpec(env, st, suffix, id, payload, fields);
            r.Ok? ==> |st1.docs| == |st.docs| + 1 && st1.docs[..|st.docs|] == st.docs &&
                      var d := st1.docs[|st.docs|];
                      Get(d, "id") == Str(id) && Get(d, "ip_address") == Str(ToText(payload.ipAddress)) &&
                      Get(d, "dns_indicator") == OptStr(payload.dnsIndicator) && Get(d, "meta") == OptDict(payload.meta) &&
                      Get(d, "fqdn").Str?
  {
    if payload.dnsIndicator.Some? {
      var indicator := payload.dnsIndicator.value;
      if !Contains(indicator, "NUM") {
        StoreRecordFields(env, st, id, payload, indicator + suffix, fields);
      } else {
        var (num, st2) := NextNumSpec(env, st, suffix, indicator);
        if num.Ok? {
          assert st2.docs == st.docs && StoreValid(st2);
          StoreRecordFields(env, st2, id, payload, FqdnOf(indicator, suffix, num.value), fields);
        }
      }
    }
  }

  /** A missing indicator fails with `TypeError` before the store is touched. */
  lemma CreateWithoutIndicator(env: Env, st: Store, suffix: string, id: string, payload: InstancePost, fields: Option<seq<string>>)
    requires payload.dnsIndicator.None?
    ensures CreateSpec(env, st, suffix, id, payload, fields) == (Err(Uncaught(TypeError)), st)
  {
  }

  /** Storing a record whose id is already in use fails once `id` is indexed. */
  lemma StoreRecordDuplicate(env: Env, st: Store, id: string, payload: InstancePost, fqdn: string, fields: Option<seq<string>>, j: nat)
    requires "id" in st.unique
    requires j < |st.docs| && Get(st.docs[j], "id") == Str(id)
    ensures StoreRecord(env, st, id, payload, fqdn, fields).0.Err?
    ensures StoreRecord(env, st, id, payload, fqdn, fields).1.docs == st.docs
  {
    var data := Record(id, payload, fqdn);
    var full := data[IdKey := if IdKey in data then data[IdKey] else ObjectId(st.nextOid)];
    assert Get(full, "id") == Str(id);
    assert Clashes(st.docs, st.unique, full, -1);
  }

  /** Once the `id` index exists, a second record with the same id is refused and the
      documents stay as they were. */
  lemma CreateDuplicateId(env: Env, st: Store, suffix: string, id: string, payload: InstancePost, fields: Option<seq<string>>, j: nat)
    requires "id" in st.unique
    requires j < |st.docs| && Get(st.docs[j], "id") == Str(id)
    ensures CreateSpec(env, st, suffix, id, payload, fields).0.Err?
    ensures CreateSpec(env, st, suffix, id, payload, fields).1.docs == st.docs
  {
    if payload.dnsIndicator.Some? {
      var indicator := payload.dnsIndicator.value;
      if !Contains(indicator, "NUM") {
        StoreRecordDuplicate(env, st, id, payload, indicator + suffix, fields, j);
      } else {
        var (num, st2) := NextNumSpec(env, st, suffix, indicator);
        NextNumKeepsStore(env, st, suffix, indicator);
        if num.Ok? {
          var fqdn := FqdnOf(indicator, suffix, num.value);
          assert CreateSpec(env, st, suffix, id, payload, fields) == StoreRecord(env, st2, id, payload, fqdn, fields);
          StoreRecordDuplicate(env, st2, id, payload, fqdn, fields, j);
        }
      }
    }
  }

  /** `index_create` leaves unique indexes on `id` and `fqdn` behind, and the store then
      holds no two records with the same id or fqdn. */
  lemma IndexCreateUnique(env: Env, st: Store)
    requires StoreValid(st)
    ensures var (r, st1) := IndexCreateSpec(env, st);
            StoreValid(st1) && st1.docs == st.docs &&
            (r == Pass ==> "id" in st1.unique && "fqdn" in st1.unique &&
                           UniqueOn(st1.docs, "id") && UniqueOn(st1.docs, "fqdn"))
  {
    CreateUniqueIndexValid(env, st, "id");
    var st1 := CreateUniqueIndexOp(env, st, "id").1;
    CreateUniqueIndexValid(env, st1, "fqdn");
  }

  /** A record held in its stored form reads back as itself when no field list narrows
      the read. */
  lemma GetReadsStored(env: Env, st: Store, id: string, x: Instance, v: Value)
    requires !env.fails(st.trips)
    requires FirstMatch(st.docs, IdFilter(id), env.regex).Some?
    requires st.docs[FirstMatch(st.docs, IdFilter(id), env.regex).value] == ToDoc(x)[IdKey := v]
    ensures GetSpec(env, st, id, None).0 == Ok(x)
  {
    assert Format(ToDoc(x)[IdKey := v]) == ToDoc(x);
    FromToDoc(x);
  }

  /** A search over a store holding one matching record, with no field list and from
      the first page, returns that record whole. */
  lemma SearchReadsStored(env: Env, st: Store, id: Option<string>, indicator: Option<string>, ip: Option<string>,
                          fqdn: Option<string>, sort: string, sortOrder: string, limit: nat, x: Instance, v: Value)
    requires !env.fails(st.trips) && !env.fails(st.trips + 1)
    requires limit > 0 && st.docs == [ToDoc(x)[IdKey := v]]
    requires Matches(st.docs[0], SearchFilter(id, indicator, ip, fqdn), env.regex)
    ensures SearchSpec(env, st, id, indicator, ip, fqdn, None, Some(sort), Some(sortOrder), Some(0), Some(limit)).0 ==
            Ok(InstanceMulti([x], 1))
  {
    CrudCommon.SearchSingle(env, st, SearchFilter(id, indicator, ip, fqdn), sort, sortOrder, limit);
    FromDocsStored(x, v);
  }

  /** The stored form of a record, with any `_id`, validates as that record. */
  lemma FromDocsStored(x: Instance, v: Value)
    ensures FromDocs([ToDoc(x)[IdKey := v]]) == Ok([x])
  {
    var d := ToDoc(x)[IdKey := v];
    FromDocIgnoresOthers(ToDoc(x), IdKey, v);
    FromToDoc(x);
    assert FromDoc(d) == Ok(x);
    assert [d][1..] == [] && FromDocs([]) == Ok([]);
    assert FromDocs([d]) == Ok([x] + []);
    assert [x] + [] == [x];
  }

  /** A read restricted to a non-empty field list without `ipa_otp` never returns the
      one-time password. */
  lemma GetOmitsOtp(env: Env, st: Store, id: string, fields: seq<string>)
    requires fields != [] && "ipa_otp" !in fields
    requires GetSpec(env, st, id, Some(fields)).0.Ok?
    ensures GetSpec(env, st, id, Some(fields)).0.value.ipaOtp.None?
  {
    var p := ProjectionOf(Some(fields));
    assert fields[0] in p.value;
    var i := FirstMatch(st.docs, IdFilter(id), env.regex).value;
    var d := Format(Project(st.docs[i], p));
    assert "ipa_otp" !in d;
  }

  /** `update` writes the metadata only: every other field of the record is as before. */
  lemma UpdateWritesMetaOnly(env: Env, st: Store, id: string, payload: InstancePut, fields: Option<seq<string>>)
    requires UpdateSpec(env, st, id, payload, fields).0.Ok?
    ensures var i := FirstMatch(st.docs, IdFilter(id), env.regex).value;
            var st1 := UpdateSpec(env, st, id, payload, fields).1;
            FirstMatch(st.docs, IdFilter(id), env.regex).Some? &&
            |st1.docs| == |st.docs| && (forall j :: 0 <= j < |st.docs| && j != i ==> st1.docs[j] == st.docs[j]) &&
            (forall k :: k != "meta" ==> (k in st1.docs[i] <==> k in st.docs[i]) && (k in st.docs[i] ==> st1.docs[i][k] == st.docs[i][k])) &&
            (payload.meta.Some? ==> Get(st1.docs[i], "meta") == Dict(payload.meta.value))
  {
    UpdateDocWritesOnly(env, st, id, "meta", OptDict(payload.meta), fields);
  }

  /** `update_ipa_otp` writes the one-time password only. */
  lemma UpdateIpaOtpWritesOtpOnly(env: Env, st: Store, id: string, otp: string, fields: Option<seq<string>>)
    requires UpdateIpaOtpSpec(env, st, id, otp, fields).0.Ok?
    ensures var i := FirstMatch(st.docs, IdFilter(id), env.regex).value;
            var st1 := UpdateIpaOtpSpec(env, st, id, otp, fields).1;
            FirstMatch(st.docs, IdFilter(id), env.regex).Some? &&
            |st1.docs| == |st.docs| && (forall j :: 0 <= j < |st.docs| && j != i ==> st1.docs[j] == st.docs[j]) &&
            (forall k :: k != "ipa_otp" ==> (k in st1.docs[i] <==> k in st.docs[i]) && (k in st.docs[i] ==> st1.docs[i][k] == st.docs[i][k])) &&
            Get(st1.docs[i], "ipa_otp") == Str(otp)
  {
    UpdateDocWritesOnly(env, st, id, "ipa_otp", Str(otp), fields);
  }

  /** An update of one field changes that field of the record with the id and nothing
      else; a `None` value leaves the record as it was. */
  lemma UpdateDocWritesOnly(env: Env, st: Store, id: string, key: string, v: Value, fields: Option<seq<string>>)
    requires UpdateDocSpec(env, st, id, map[key := v], fields).0.Ok?
    ensures var i := FirstMatch(st.docs, IdFilter(id), env.regex).value;
            var st1 := UpdateDocSpec(env, st, id, map[key := v], fields).1;
            FirstMatch(st.docs, IdFilter(id), env.regex).Some? &&
            |st1.docs| == |st.docs| && (forall j :: 0 <= j < |st.docs| && j != i ==> st1.docs[j] == st.docs[j]) &&
            (forall k :: k != key ==> (k in st1.docs[i] <==> k in st.docs[i]) && (k in st.docs[i] ==> st1.docs[i][k] == st.docs[i][k])) &&
            (v != Null ==> Get(st1.docs[i], key) == v)
  {
    var data := map[key := v];
    var (r, st1) := CrudCommon.UpdateSpec(env, st, IdFilter(id), data, fields);
    assert r.Ok?;
    assert UpdateDocSpec(env, st, id, data, fields).1 == st1;
    CrudCommon.UpdateOutcome(env, st, IdFilter(id), data, fields);
    var i := FirstMatch(st.docs, IdFilter(id), env.regex).value;
    forall k | k != key
      ensures (k in st1.docs[i] <==> k in st.docs[i]) && (k in st.docs[i] ==> st1.docs[i][k] == st.docs[i][k])
    {
      assert k !in data;
    }
    if v != Null {
      assert key in data && data[key] != Null;
    }
  }

  // ---------------------------------------------------------------- the checked name

  /** For a suffix without the letters N, U and M the names `_next_num` checks are the
      names `create` stores, so the code as written and the model agree. */
  lemma CheckedIsStored(indicator: string, suffix: string, n: nat)
    requires forall j :: 0 <= j < |suffix| ==> suffix[j] !in "NUM"
    ensures NameFor(Checked, indicator, suffix, n) == NameFor(Stored, indicator, suffix, n)
  {
    ReplaceAppendDisjoint(indicator, suffix, "NUM", Decimal(n));
  }

  lemma {:induction false} LeastFreeAgrees(taken: seq<Option<string>>, indicator: string, suffix: string, n: nat)
    requires 1 <= n <= HostMaxRange
    requires forall j :: 0 <= j < |suffix| ==> suffix[j] !in "NUM"
    ensures LeastFree(taken, Checked, indicator, suffix, n) == LeastFree(taken, Stored, indicator, suffix, n)
    decreases HostMaxRange - n
  {
    if n < HostMaxRange {
      CheckedIsStored(indicator, suffix, n);
      LeastFreeAgrees(taken, indicator, suffix, n + 1);
    }
  }

  /** The code as written and the model choose the same number when the suffix has none
      of the letters N, U and M. */
  lemma NextNumAgrees(env: Env, st: Store, suffix: string, indicator: string)
    requires forall j :: 0 <= j < |suffix| ==> suffix[j] !in "NUM"
    ensures NextNumAsWritten(env, st, suffix, indicator) == NextNumSpec(env, st, suffix, indicator)
  {
    var (found, _) := IndicatorSearch(env, st, indicator);
    if found.Ok? {
      LeastFreeAgrees(Fqdns(found.value.result), indicator, suffix, 1);
    }
  }

  lemma ReplaceExamples()
    ensures Replace("hNUM", "NUM", "1") == "h1"
    ensures Replace("hNUM", "NUM", "2") == "h2"
    ensures Replace(".NUM", "NUM", "1") == ".1"
    ensures Replace("hNUM.NUM", "NUM", "1") == "h1.1"
  {
    assert Replace("", "NUM", "1") == "";
    assert Replace("", "NUM", "2") == "";
    assert Replace("NUM", "NUM", "1") == "1";
    assert Replace("NUM", "NUM", "2") == "2";
    assert "hNUM"[1..] == "NUM" && "hNUM"[..3] != "NUM";
    assert ".NUM"[1..] == "NUM" && ".NUM"[..3] != "NUM";
    assert Replace(".NUM", "NUM", "1") == ".1";
    assert "NUM.NUM"[..3] == "NUM" && "NUM.NUM"[3..] == ".NUM";
    assert Replace("NUM.NUM", "NUM", "1") == "1.1";
    assert "hNUM.NUM"[1..] == "NUM.NUM" && "hNUM.NUM"[..3] != "NUM";
  }

  /** With `NUM` in the suffix the checked name differs from the stored one: once
      `h1.NUM` is stored, the code as written still picks number 1, whose stored name
      is taken; the model picks 2. */
  lemma NumInSuffixReusesNumber()
    ensures var taken := [Some("h1.NUM")];
            NameFor(Stored, "hNUM", ".NUM", 1) == "h1.NUM" &&
            FreeNumber(taken, Checked, "hNUM", ".NUM") == Ok("1") &&
            FreeNumber(taken, Stored, "hNUM", ".NUM") == Ok("2")
  {
    var taken := [Some("h1.NUM")];
    ReplaceExamples();
    assert Decimal(1) == "1";
    assert Decimal(2) == "2";
    assert "hNUM" + ".NUM" == "hNUM.NUM";
    assert NameFor(Checked, "hNUM", ".NUM", 1) == "h1.1";
    assert NameFor(Stored, "hNUM", ".NUM", 1) == "h1.NUM";
    assert NameFor(Stored, "hNUM", ".NUM", 2) == "h2.NUM";
    assert Some("h1.1") !in taken;
    assert Some("h2.NUM") !in taken;
    assert LeastFree(taken, Checked, "hNUM", ".NUM", 1) == Some(1);
    assert LeastFree(taken, Stored, "hNUM", ".NUM", 2) == Some(2);
    assert LeastFree(taken, Stored, "hNUM", ".NUM", 1) == Some(2);
  }
}
