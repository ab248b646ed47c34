/** The query helpers of the legacy models (catweazle/models/mixins.py): the parsers that
    read the allowed values of a search endpoint out of its API schema, the filter
    builders, and the validators of the projection, pagination and sort parameters. */
module ModelsMixins {
  import opened Base
  import opened Strings
  import opened Sorting
  import opened Mongo
  import CrudMixins

  // ---------------------------------------------------------------- schema parsers

  /** One parameter of an endpoint in the API schema. */
  datatype Param = Param(name: string, description: string)

  function StripAll(xs: seq<string>): (r: seq<string>)
    ensures |r| == |xs| && forall k :: 0 <= k < |xs| ==> r[k] == Strip(xs[k], ' ')
  {
    seq(|xs|, k requires 0 <= k < |xs| => Strip(xs[k], ' '))
  }

  /** The values a description lists: the text after its first ':', split on ',', each
      piece stripped of spaces; `IndexError` when there is no ':'. */
  function Listed(description: string): (r: Result<seq<string>>)
    ensures r.Err? <==> ':' !in description
    ensures r.Err? ==> r.error == Uncaught(IndexError)
    ensures r.Ok? ==> |r.value| > 0
  {
    match AfterFirst(description, ':')
    case Err(e) => Err(e)
    case Ok(rest) => Ok(StripAll(Split(rest, ',')))
  }

  /** A text without surrounding spaces. */
  predicate Stripped(s: string) {
    s == [] || (s[0] != ' ' && s[|s| - 1] != ' ')
  }

  lemma StripStripped(s: string)
    requires Stripped(s)
    ensures Strip(s, ' ') == s
  {
    assert LeadingCount(s, ' ') == 0;
    assert TrailingCount(s, ' ') == 0;
    assert s[0..|s|] == s;
  }

  /** A description written as a heading, ':' and the values joined by ',' lists exactly
      those values. */
  lemma ListedJoin(head: string, values: seq<string>)
    requires ':' !in head && |values| > 0
    requires forall k :: 0 <= k < |values| ==> ',' !in values[k] && Stripped(values[k])
    ensures Listed(head + ":" + Join(values, ',')) == Ok(values)
  {
    var rest := Join(values, ',');
    IndexOfAfter(head, rest, ':');
    var s := head + [':'] + rest;
    assert s[|head| + 1..] == rest;
    assert AfterFirst(s, ':') == Ok(rest);
    SplitJoin(values, ',');
    forall k | 0 <= k < |values| ensures Strip(values[k], ' ') == values[k] {
      StripStripped(values[k]);
    }
    assert StripAll(values) == values;
  }

  /** The position of the first parameter with the name. */
  function FirstNamed(params: seq<Param>, name: string): (r: Option<nat>)
    ensures r.Some? ==> r.value < |params| && params[r.value].name == name &&
                        forall j :: 0 <= j < r.value ==> params[j].name != name
    ensures r.None? <==> forall j :: 0 <= j < |params| ==> params[j].name != name
    decreases |params|
  {
    if params == [] then None
    else if params[0].name == name then Some(0)
    else
      match FirstNamed(params[1..], name)
      case None =>
        assert forall j :: 1 <= j < |params| ==> params[j] == params[1..][j - 1];
        None
      case Some(i) =>
        assert forall j :: 1 <= j < i + 1 ==> params[j] == params[1..][j - 1];
        Some(i + 1)
  }

  /** The values listed by the first parameter with the name; `None` when no parameter
      has it (the loop falls through). */
  function SchemaValues(params: seq<Param>, name: string): (r: Result<Option<seq<string>>>)
    ensures r.Ok? && r.value.None? <==> forall j :: 0 <= j < |params| ==> params[j].name != name
  {
    match FirstNamed(params, name)
    case None => Ok(None)
    case Some(i) =>
      match Listed(params[i].description)
      case Err(e) => Err(e)
      case Ok(vs) => Ok(Some(vs))
  }

  /** `int()` of every value, in order; `ValueError` at the first that is no integer. */
  function ParseAll(xs: seq<string>): (r: Result<seq<int>>)
    ensures r.Ok? <==> forall k :: 0 <= k < |xs| ==> ParseInt(xs[k]).Some?
    ensures r.Ok? ==> |r.value| == |xs| && forall k :: 0 <= k < |xs| ==> r.value[k] == ParseInt(xs[k]).value
    ensures r.Err? ==> r.error == Uncaught(ValueError)
    decreases |xs|
  {
    if xs == [] then Ok([])
    else
      var init := xs[..|xs| - 1];
      assert forall k :: 0 <= k < |init| ==> init[k] == xs[k];
      match ParseAll(init)
      case Err(e) => Err(e)
      case Ok(ns) =>
        match ParseInt(xs[|xs| - 1])
        case None => Err(Uncaught(ValueError))
        case Some(n) => Ok(ns + [n])
  }

  function IntLe(a: int, b: int): bool { a <= b }

  /** `pagination_from_schema`: the page sizes the `limit` parameter lists, ascending. */
  function PaginationOf(params: seq<Param>): Result<Option<seq<int>>> {
    match SchemaValues(params, "limit")
    case Err(e) => Err(e)
    case Ok(None) => Ok(None)
    case Ok(Some(vs)) =>
      match ParseAll(vs)
      case Err(e) => Err(e)
      case Ok(ns) => Ok(Some(SortBy(ns, IntLe)))
  }

  /** `projection_from_schema`: every field the `fields` parameter lists, mapped to 1. */
  function ProjectionFieldsOf(params: seq<Param>): (r: Result<Option<map<string, int>>>)
    ensures r.Ok? && r.value.Some? ==>
              SchemaValues(params, "fields").Ok? && SchemaValues(params, "fields").value.Some? &&
              var vs := SchemaValues(params, "fields").value.value;
              forall f :: (f in r.value.value <==> f in vs) && (f in r.value.value ==> r.value.value[f] == 1)
  {
    match SchemaValues(params, "fields")
    case Err(e) => Err(e)
    case Ok(None) => Ok(None)
    case Ok(Some(vs)) => Ok(Some(map f | f in vs :: 1))
  }

  function Ascend(vs: seq<string>): (r: SortSpec)
    ensures |r| == |vs| && forall k :: 0 <= k < |vs| ==> r[k] == (vs[k], Ascending)
  {
    seq(|vs|, k requires 0 <= k < |vs| => (vs[k], Ascending))
  }

  /** `sort_from_schema`: every criterion the `sort` parameter lists, ascending. */
  function SortFieldsOf(params: seq<Param>): Result<Option<SortSpec>> {
    match SchemaValues(params, "sort")
    case Err(e) => Err(e)
    case Ok(None) => Ok(None)
    case Ok(Some(vs)) => Ok(Some(Ascend(vs)))
  }

  lemma IntLePreorder()
    ensures TotalPreorder(IntLe)
  {
  }

  /** The page sizes come out in ascending order and are exactly the listed ones, each as
      often as listed. */
  lemma PaginationSorted(params: seq<Param>)
    requires PaginationOf(params).Ok? && PaginationOf(params).value.Some?
    ensures var vs := SchemaValues(params, "limit").value.value;
            var steps := PaginationOf(params).value.value;
            Sorted(steps, IntLe) && multiset(steps) == multiset(ParseAll(vs).value)
  {
    var ns := ParseAll(SchemaValues(params, "limit").value.value).value;
    IntLePreorder();
    SortSorted(ns, IntLe);
    SortPermutes(ns, IntLe);
  }

  /** The first loop of the parsers: the values of the first parameter with the name. */
  method FindValues(params: seq<Param>, name: string) returns (r: Result<Option<seq<string>>>)
    ensures r == SchemaValues(params, name)
  {
    var i := 0;
    while i < |params|
      invariant 0 <= i <= |params|
      invariant forall j :: 0 <= j < i ==> params[j].name != name
    {
      if params[i].name == name {
        assert FirstNamed(params, name) == Some(i);
        var listed := Listed(params[i].description);
        if listed.Err? {
          return Err(listed.error);
        }
        return Ok(Some(listed.value));
      }
      i := i + 1;
    }
    r := Ok(None);
  }

  /** The loop of `pagination_from_schema`: `int()` of every value, in order. */
  method ParseInts(fields: seq<string>) returns (r: Result<seq<int>>)
    ensures r == ParseAll(fields)
  {
    var result: seq<int> := [];
    var i := 0;
    while i < |fields|
      invariant 0 <= i <= |fields|
      invariant ParseAll(fields[..i]) == Ok(result)
    {
      assert fields[..i + 1][..i] == fields[..i];
      var n := ParseInt(fields[i]);
      if n.None? {
        assert !ParseInt(fields[i]).Some?;
        return Err(Uncaught(ValueError));
      }
      result := result + [n.value];
      i := i + 1;
    }
    assert fields[..i] == fields;
    r := Ok(result);
  }

  method PaginationFromSchema(params: seq<Param>) returns (r: Result<Option<seq<int>>>)
    ensures r == PaginationOf(params)
  {
    var found := FindValues(params, "limit");
    if found.Err? {
      return Err(found.error);
    }
    if found.value.None? {
      return Ok(None);
    }
    var ints := ParseInts(found.value.value);
    if ints.Err? {
      return Err(ints.error);
    }
    r := Ok(Some(SortBy(ints.value, IntLe)));
  }

  /** Every field mapped to 1 (the loops of `projection_from_schema` and `_projection`). */
  method Ones(fields: seq<string>) returns (r: map<string, int>)
    ensures r == map f | f in fields :: 1
  {
    r := map[];
    var i := 0;
    while i < |fields|
      invariant 0 <= i <= |fields|
      invariant r == map f | f in fields[..i] :: 1
    {
      assert fields[..i + 1] == fields[..i] + [fields[i]];
      r := r[fields[i] := 1];
      i := i + 1;
    }
    assert fields[..i] == fields;
  }

  method ProjectionFromSchema(params: seq<Param>) returns (r: Result<Option<map<string, int>>>)
    ensures r == ProjectionFieldsOf(params)
  {
    var found := FindValues(params, "fields");
    if found.Err? {
      return Err(found.error);
    }
    if found.value.None? {
      return Ok(None);
    }
    var ones := Ones(found.value.value);
    r := Ok(Some(ones));
  }

  method SortFromSchema(params: seq<Param>) returns (r: Result<Option<SortSpec>>)
    ensures r == SortFieldsOf(params)
  {
    var found := FindValues(params, "sort");
    if found.Err? {
      return Err(found.error);
    }
    if found.value.None? {
      return Ok(None);
    }
    var result := AscendAll(found.value.value);
    r := Ok(Some(result));
  }

  /** Every field, in order, sorted ascending (the loop of `sort_from_schema`). */
  method AscendAll(fields: seq<string>) returns (result: SortSpec)
    ensures result == Ascend(fields)
  {
    result := [];
    var i := 0;
    while i < |fields|
      invariant 0 <= i <= |fields|
      invariant |result| == i && forall k :: 0 <= k < i ==> result[k] == (fields[k], Ascending)
    {
      result := result + [(fields[i], Ascending)];
      i := i + 1;
    }
    assert result == Ascend(fields);
  }

  // ---------------------------------------------------------------- FilterMixIn

  const TrueSelectors: seq<CrudMixins.Selector> :=
    [CrudMixins.Flag(true), CrudMixins.Text("true"), CrudMixins.Text("True"), CrudMixins.Text("1")]

  const FalseSelectors: seq<CrudMixins.Selector> :=
    [CrudMixins.Flag(false), CrudMixins.Text("false"), CrudMixins.Text("False"), CrudMixins.Text("0")]

  /** `_filter_boolean`: `None` leaves the query alone, a true or false literal selects
      documents with that boolean, and any other value is `InvalidSelectors`. */
  function FilterBooleanOn(q: Filter, field: string, selector: Option<CrudMixins.Selector>): (r: Result<Filter>)
    ensures selector.None? ==> r == Ok(q)
    ensures selector.Some? ==> (r.Ok? <==> selector.value in TrueSelectors || selector.value in FalseSelectors)
    ensures r.Err? ==> r.error == InvalidSelectors
    ensures selector.Some? && r.Ok? ==>
              r.value - {field} == q - {field} && field in r.value &&
              r.value[field] == Literal(Bool(selector.value in TrueSelectors))
  {
    match selector
    case None => Ok(q)
    case Some(x) =>
      if x in TrueSelectors then Ok(q[field := Literal(Bool(true))])
      else if x in FalseSelectors then Ok(q[field := Literal(Bool(false))])
      else Err(InvalidSelectors)
  }

  method FilterBoolean(query: CrudMixins.Query, field: string, selector: Option<CrudMixins.Selector>) returns (r: Outcome)
    modifies query
    ensures var f := FilterBooleanOn(old(query.conds), field, selector);
            (f.Ok? ==> r == Pass && query.conds == f.value) &&
            (f.Err? ==> r == Fail(f.error) && query.conds == old(query.conds))
  {
    if selector.None? {
      return Pass;
    }
    var value: bool;
    if selector.value in TrueSelectors {
      value := true;
    } else if selector.value in FalseSelectors {
      value := false;
    } else {
      return Fail(InvalidSelectors);
    }
    query.conds := query.conds[field := Literal(Bool(value))];
    r := Pass;
  }

  /** The legacy boolean filter agrees with the current one wherever it accepts the
      selector, and rejects only values the current one reads as false. */
  lemma FilterBooleanAgrees(q: Filter, field: string, selector: Option<CrudMixins.Selector>)
    ensures FilterBooleanOn(q, field, selector).Ok? ==>
            FilterBooleanOn(q, field, selector).value == CrudMixins.FilterBooleanOn(q, field, selector)
    ensures FilterBooleanOn(q, field, selector).Err? ==>
            CrudMixins.FilterBooleanOn(q, field, selector)[field] == Literal(Bool(false))
  {
  }

  /** `_filter_list`: a list as is, or text split on ',' with each piece once; the field
      must be one of them. */
  method FilterList(query: CrudMixins.Query, field: string, selector: Option<CrudMixins.ListSelector>)
    modifies query
    ensures query.conds == CrudMixins.FilterListOn(old(query.conds), field, selector, false)
  {
    if selector.None? {
      return;
    }
    var items := CrudMixins.SelectedItems(selector.value);
    query.conds := query.conds[field := Ops(None, None, Some(CrudMixins.Strs(items)), None)];
  }

  /** `_filter_re`: any selector but `None`, the empty text included, becomes `$regex`. */
  function FilterReOn(q: Filter, field: string, selector: Option<string>): (r: Filter)
    ensures selector.None? ==> r == q
    ensures selector.Some? ==> r - {field} == q - {field} && field in r &&
                               r[field] == Ops(None, Some(selector.value), None, None)
  {
    if selector.None? then q else q[field := Ops(None, selector, None, None)]
  }

  method FilterRe(query: CrudMixins.Query, field: string, selector: Option<string>)
    modifies query
    ensures query.conds == FilterReOn(old(query.conds), field, selector)
  {
    if selector.None? {
      return;
    }
    query.conds := query.conds[field := Ops(None, selector, None, None)];
  }

  /** A selector the current helper would ignore (the empty text) still filters here. */
  lemma FilterReEmptyPattern(q: Filter, field: string)
    ensures FilterReOn(q, field, Some(""))[field] == Ops(None, Some(""), None, None)
    ensures CrudMixins.FilterReOn(q, field, Some(""), None) == q
  {
  }

  // ---------------------------------------------------------------- ProjectionMixIn

  /** `_projection`: the model's whole projection for no fields, otherwise the listed
      fields, each of which must be one the model knows (`InvalidFields`). */
  function ProjectionFor(allowed: map<string, int>, fields: Option<string>): (r: Result<map<string, int>>)
    ensures !CrudMixins.Truthy(fields) ==> r == Ok(allowed)
    ensures CrudMixins.Truthy(fields) ==>
              var pieces := Split(fields.value, ',');
              (r.Ok? <==> AllKnown(allowed, pieces)) &&
              (r.Ok? ==> forall f :: (f in r.value <==> f in pieces) && (f in r.value ==> r.value[f] == 1))
    ensures r.Err? ==> r.error == InvalidFields
  {
    if !CrudMixins.Truthy(fields) then Ok(allowed)
    else
      var pieces := Split(fields.value, ',');
      if AllKnown(allowed, pieces) then Ok(map f | f in pieces :: 1)
      else Err(InvalidFields)
  }

  /** Every requested field is one the model knows. */
  predicate AllKnown(allowed: map<string, int>, pieces: seq<string>) {
    forall k :: 0 <= k < |pieces| ==> pieces[k] in allowed
  }

  /** Asking for known fields joined by ',' projects exactly those fields. */
  lemma ProjectionJoin(allowed: map<string, int>, fields: seq<string>)
    requires |fields| > 0 && fields[0] != ""
    requires forall k :: 0 <= k < |fields| ==> ',' !in fields[k] && fields[k] in allowed
    ensures ProjectionFor(allowed, Some(Join(fields, ','))) == Ok(map f | f in fields :: 1)
  {
    SplitJoin(fields, ',');
    JoinStartsWith(fields, ',');
  }

  /** A join begins with its first part. */
  lemma JoinStartsWith(parts: seq<string>, c: char)
    requires |parts| > 0
    ensures parts[0] <= Join(parts, c)
  {
  }

  method Projection(allowed: map<string, int>, fields: Option<string>) returns (r: Result<map<string, int>>)
    ensures r == ProjectionFor(allowed, fields)
  {
    if !CrudMixins.Truthy(fields) {
      return Ok(allowed);
    }
    var pieces := Split(fields.value, ',');
    var i := 0;
    while i < |pieces|
      invariant 0 <= i <= |pieces|
      invariant forall k :: 0 <= k < i ==> pieces[k] in allowed
    {
      if pieces[i] !in allowed {
        return Err(InvalidFields);
      }
      i := i + 1;
    }
    var ones := Ones(pieces);
    r := Ok(ones);
  }

  // ---------------------------------------------------------------- PaginationSkipMixIn

  /** The class defaults, which the instance model replaces by the schema's page sizes. */
  const DefaultPaginationLimit: nat := 1000
  const DefaultPaginationSteps: seq<int> := [10, 25, 50, 100, 250, 500, 1000]

  /** `int(text)` when it is at least 1. */
  function Positive(s: string): (r: Option<nat>)
    ensures r.Some? <==> ParseInt(s).Some? && ParseInt(s).value >= 1
    ensures r.Some? ==> r.value as int == ParseInt(s).value && r.value >= 1
  {
    match ParseInt(s)
    case Some(n) => if n >= 1 then Some(n as nat) else None
    case None => None
  }

  /** `_pagination_skip`: the documents before the page. An absent or empty page is page
      0; a page or a limit given as anything but an integer of at least 1 is
      `InvalidParameterValue` or `InvalidPaginationLimit`, the page checked first; no
      limit means the default. */
  function PaginationSkip(page: Option<string>, limit: Option<string>, defaultLimit: nat): (r: Result<nat>)
    ensures r.Err? <==> (CrudMixins.Truthy(page) && Positive(page.value).None?) ||
                        (CrudMixins.Truthy(limit) && Positive(limit.value).None?)
    ensures r.Err? ==> r.error == if CrudMixins.Truthy(page) && Positive(page.value).None? then InvalidParameterValue
                                  else InvalidPaginationLimit
    ensures r.Ok? && !CrudMixins.Truthy(page) ==> r.value == 0
    ensures r.Ok? && CrudMixins.Truthy(page) && !CrudMixins.Truthy(limit) ==>
              r.value == Positive(page.value).value * defaultLimit
    ensures r.Ok? && CrudMixins.Truthy(page) && CrudMixins.Truthy(limit) ==>
              r.value == Positive(page.value).value * Positive(limit.value).value
  {
    var p: Result<nat> :=
      if !CrudMixins.Truthy(page) then Ok(0)
      else if Positive(page.value).None? then Err(InvalidParameterValue)
      else Ok(Positive(page.value).value);
    if p.Err? then Err(p.error)
    else
      var l: Result<nat> :=
        if !CrudMixins.Truthy(limit) then Ok(defaultLimit)
        else if Positive(limit.value).None? then Err(InvalidPaginationLimit)
        else Ok(Positive(limit.value).value);
      if l.Err? then Err(l.error) else Ok(p.value * l.value)
  }

  /** Page `p` of `l` documents given as decimal text skips `p * l` documents, and page
      "0" is refused. */
  lemma PaginationSkipDecimal(p: nat, l: nat, defaultLimit: nat)
    requires p >= 1 && l >= 1
    ensures PaginationSkip(Some(Decimal(p)), Some(Decimal(l)), defaultLimit) == Ok(p * l)
    ensures PaginationSkip(Some("0"), Some(Decimal(l)), defaultLimit) == Err(InvalidParameterValue)
  {
    ParseIntDecimal(p);
    ParseIntDecimal(l);
    ParseIntDecimal(0);
    assert Decimal(0) == "0";
  }

  /** `_pagination_limit`: the default for an absent or empty limit, otherwise the limit,
      which must be one of the page sizes (`InvalidPaginationLimit`); text that is no
      integer raises `ValueError`, which nothing catches. */
  function PaginationLimit(limit: Option<string>, defaultLimit: nat, steps: seq<int>): (r: Result<int>)
    ensures !CrudMixins.Truthy(limit) ==> r == Ok(defaultLimit)
    ensures CrudMixins.Truthy(limit) ==>
              (r.Ok? <==> ParseInt(limit.value).Some? && ParseInt(limit.value).value in steps) &&
              (r.Ok? ==> r.value == ParseInt(limit.value).value)
    ensures r.Ok? ==> r.value in steps || r.value == defaultLimit
    ensures r.Err? ==> r.error == if ParseInt(limit.value).None? then Uncaught(ValueError) else InvalidPaginationLimit
  {
    if !CrudMixins.Truthy(limit) then Ok(defaultLimit)
    else
      match ParseInt(limit.value)
      case None => Err(Uncaught(ValueError))
      case Some(n) => if n in steps then Ok(n) else Err(InvalidPaginationLimit)
  }

  /** A limit given as decimal text is accepted exactly when it is one of the page sizes. */
  lemma PaginationLimitSteps(n: nat, defaultLimit: nat, steps: seq<int>)
    ensures PaginationLimit(Some(Decimal(n)), defaultLimit, steps) ==
            if n in steps then Ok(n) else Err(InvalidPaginationLimit)
  {
    ParseIntDecimal(n);
    assert Decimal(n) != "";
  }

  // ---------------------------------------------------------------- SortMixIn

  /** One criterion of a sort request: a leading '-' asks for descending order. */
  function Criterion(item: string): (string, Direction) {
    if |item| > 0 && item[0] == '-' then (item[1..], Descending) else (item, Ascending)
  }

  function Criteria(items: seq<string>): (r: SortSpec)
    ensures |r| == |items| && forall k :: 0 <= k < |items| ==> r[k] == Criterion(items[k])
  {
    seq(|items|, k requires 0 <= k < |items| => Criterion(items[k]))
  }

  function Names(s: SortSpec): (r: seq<string>)
    ensures |r| == |s| && forall k :: 0 <= k < |s| ==> r[k] == s[k].0
  {
    seq(|s|, k requires 0 <= k < |s| => s[k].0)
  }

  predicate Distinct(xs: seq<string>) {
    forall i, j :: 0 <= i < j < |xs| ==> xs[i] != xs[j]
  }

  /** `_sort_strict_order`: criterion `k` must be the model's criterion `k`; the model's
      criteria the request leaves out at the end are added, ascending as the model has
      them. */
  function StrictOrder(fields: SortSpec, items: SortSpec): (r: Result<SortSpec>)
    ensures r.Err? <==> exists k :: 0 <= k < |items| && k < |fields| && items[k].0 != fields[k].0
    ensures r.Err? ==> r.error == InvalidSortCriteria
    ensures r.Ok? ==> items <= r.value && |r.value| == (if |items| < |fields| then |fields| else |items|) &&
                      (forall k :: 0 <= k < |fields| ==> r.value[k].0 == fields[k].0) &&
                      (forall k :: |items| <= k < |fields| ==> r.value[k] == fields[k])
  {
    if exists k :: 0 <= k < |items| && k < |fields| && items[k].0 != fields[k].0 then Err(InvalidSortCriteria)
    else if |items| >= |fields| then Ok(items)
    else Ok(items + fields[|items|..])
  }

  /** `_sort`: the model's criteria for an absent or empty request; otherwise the
      requested criteria in order, each one the model knows and none twice
      (`InvalidSortCriteria`), put in the model's order when `strict`. */
  function SortFor(fields: SortSpec, sort: Option<string>, strict: bool): (r: Result<SortSpec>)
    ensures !CrudMixins.Truthy(sort) ==> r == Ok(fields)
    ensures r.Err? ==> r.error == InvalidSortCriteria
    ensures CrudMixins.Truthy(sort) ==>
              var c := Criteria(Split(sort.value, ','));
              var valid := (forall k :: 0 <= k < |c| ==> c[k].0 in Names(fields)) && Distinct(Names(c));
              (r.Ok? ==> valid) &&
              (valid && !strict ==> r == Ok(c)) &&
              (valid && strict ==> r == StrictOrder(fields, c))
  {
    if !CrudMixins.Truthy(sort) then Ok(fields)
    else
      var c := Criteria(Split(sort.value, ','));
      if !(forall k :: 0 <= k < |c| ==> c[k].0 in Names(fields)) || !Distinct(Names(c)) then Err(InvalidSortCriteria)
      else if strict then StrictOrder(fields, c)
      else Ok(c)
  }

  /** How a criterion is written in a request. */
  function Render(x: (string, Direction)): string {
    if x.1 == Descending then "-" + x.0 else x.0
  }

  function RenderAll(s: SortSpec): (r: seq<string>)
    ensures |r| == |s| && forall k :: 0 <= k < |s| ==> r[k] == Render(s[k])
  {
    seq(|s|, k requires 0 <= k < |s| => Render(s[k]))
  }

  /** Writing known, distinct criteria as a request and reading it back gives them back. */
  lemma SortRendered(fields: SortSpec, s: SortSpec)
    requires |s| > 0 && s[0].0 != ""
    requires forall k :: 0 <= k < |s| ==> ',' !in s[k].0 && s[k].0 in Names(fields)
    requires forall k :: 0 <= k < |s| && s[k].1 == Ascending ==> s[k].0 == [] || s[k].0[0] != '-'
    requires Distinct(Names(s))
    ensures SortFor(fields, Some(Join(RenderAll(s), ',')), false) == Ok(s)
  {
    var pieces := RenderAll(s);
    forall k | 0 <= k < |pieces| ensures ',' !in pieces[k] {
      assert pieces[k] == Render(s[k]);
    }
    SplitJoin(pieces, ',');
    JoinStartsWith(pieces, ',');
    assert pieces[0] != "";
    forall k | 0 <= k < |s| ensures Criterion(pieces[k]) == s[k] {
      if s[k].1 == Descending {
        assert pieces[k] == "-" + s[k].0;
        assert pieces[k][1..] == s[k].0;
      }
    }
    assert Criteria(pieces) == s;
  }

  /** `_sort_valid_criteria`: stops at the first model criterion with the name. */
  method SortValidCriteria(fields: SortSpec, item: string) returns (r: Outcome)
    ensures r.Pass? <==> item in Names(fields)
    ensures r.Fail? ==> r.error == InvalidSortCriteria
  {
    var i := 0;
    while i < |fields|
      invariant 0 <= i <= |fields|
      invariant forall k :: 0 <= k < i ==> fields[k].0 != item
    {
      if fields[i].0 == item {
        assert Names(fields)[i] == item;
        return Pass;
      }
      i := i + 1;
    }
    r := Fail(InvalidSortCriteria);
  }

  method SortStrictOrder(fields: SortSpec, items: SortSpec) returns (r: Result<SortSpec>)
    ensures r == StrictOrder(fields, items)
  {
    var cur := items;
    var e := 0;
    while e < |fields|
      invariant 0 <= e <= |fields|
      invariant cur == if e <= |items| then items else items + fields[|items|..e]
      invariant forall k :: 0 <= k < e && k < |items| ==> items[k].0 == fields[k].0
    {
      if e < |cur| {
        if fields[e].0 != cur[e].0 {
          assert e < |items| && items[e].0 != fields[e].0;
          return Err(InvalidSortCriteria);
        }
      } else {
        assert e >= |items|;
        assert fields[|items|..e + 1] == fields[|items|..e] + [fields[e]];
        cur := cur + [fields[e]];
      }
      e := e + 1;
    }
    assert |fields| > |items| ==> fields[|items|..e] == fields[|items|..];
    r := Ok(cur);
  }

  method Sort(fields: SortSpec, sort: Option<string>, strict: bool) returns (r: Result<SortSpec>)
    ensures r == SortFor(fields, sort, strict)
  {
    if !CrudMixins.Truthy(sort) {
      return Ok(fields);
    }
    var pieces := Split(sort.value, ',');
    var checked := CheckCriteria(fields, pieces);
    if checked.Err? {
      return checked;
    }
    if strict {
      r := SortStrictOrder(fields, checked.value);
    } else {
      r := checked;
    }
  }

  /** The loop of `_sort`: every criterion must name a sortable field, and none may be
      given twice. */
  method CheckCriteria(fields: SortSpec, pieces: seq<string>) returns (r: Result<SortSpec>)
    ensures var c := Criteria(pieces);
            var valid := (forall k :: 0 <= k < |c| ==> c[k].0 in Names(fields)) && Distinct(Names(c));
            (valid ==> r == Ok(c)) && (!valid ==> r == Err(InvalidSortCriteria))
  {
    ghost var c := Criteria(pieces);
    var result: SortSpec := [];
    var items: seq<string> := [];
    var i := 0;
    while i < |pieces|
      invariant 0 <= i <= |pieces|
      invariant result == c[..i] && items == Names(result)
      invariant forall k :: 0 <= k < i ==> c[k].0 in Names(fields)
      invariant Distinct(items)
    {
      var item := pieces[i];
      var order := Ascending;
      if |item| > 0 && item[0] == '-' {
        order := Descending;
        item := item[1..];
      }
      assert (item, order) == c[i];
      var valid := SortValidCriteria(fields, item);
      if valid.Fail? {
        return Err(valid.error);
      }
      if item in items {
        ghost var j :| 0 <= j < |items| && items[j] == item;
        assert Names(c)[j] == Names(c)[i];
        return Err(InvalidSortCriteria);
      }
      items := items + [item];
      result := result + [(item, order)];
      assert result == c[..i + 1];
      i := i + 1;
    }
    assert result == c;
    assert Names(c) == items;
    r := Ok(result);
  }
}
