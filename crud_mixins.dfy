/** The query, projection, sort, pagination and formatting helpers of the current CRUD
    layer (catweazle/crud/mixins.py). The `_filter_*` helpers change a query document in
    place; each is a method on `Query` specified by a function on filters. */
module CrudMixins {
  import opened Base
  import opened Strings
  import opened Mongo

  /** A query document under construction (the `query` dict the helpers mutate). */
  class Query {
    var conds: Filter

    constructor (conds: Filter)
      ensures this.conds == conds
    {
      this.conds := conds;
    }
  }

  /** Python truthiness of an optional string: `None` and `""` are false. */
  predicate Truthy(s: Option<string>) { s.Some? && s.value != "" }

  /** Python truthiness of an optional list. */
  predicate TruthyList<T>(s: Option<seq<T>>) { s.Some? && s.value != [] }

  function Strs(xs: seq<string>): (r: seq<Value>)
    ensures |r| == |xs| && forall v :: v in r <==> v.Str? && v.s in xs
    ensures forall i :: 0 <= i < |xs| ==> r[i] == Str(xs[i])
  {
    var r := seq(|xs|, i requires 0 <= i < |xs| => Str(xs[i]));
    assert forall v :: v in r ==> exists i :: 0 <= i < |xs| && v == Str(xs[i]);
    assert forall x :: x in xs ==> Str(x) in r by {
      forall x | x in xs
        ensures Str(x) in r
      {
        var i :| 0 <= i < |xs| && xs[i] == x;
        assert r[i] == Str(x);
      }
    }
    r
  }

  // ---------------------------------------------------------------- _filter_boolean

  /** A selector as the framework hands it over: a parsed boolean or query-string text. */
  datatype Selector = Flag(b: bool) | Text(s: string)

  /** `_filter_boolean`: `None` leaves the query alone; `True`, "true", "True" and "1"
      select true documents, any other value false ones. */
  function FilterBooleanOn(q: Filter, field: string, selector: Option<Selector>): (r: Filter)
    ensures selector.None? ==> r == q
    ensures selector.Some? ==> r - {field} == q - {field} && field in r && r[field].Literal? && r[field].v.Bool?
    ensures selector.Some? ==>
              (r[field].v.b <==> selector.value in [Flag(true), Text("true"), Text("True"), Text("1")])
  {
    match selector
    case None => q
    case Some(x) =>
      var truth := x == Flag(true) || x == Text("true") || x == Text("True") || x == Text("1");
      q[field := Literal(Bool(truth))]
  }

  method FilterBoolean(query: Query, field: string, selector: Option<Selector>)
    modifies query
    ensures query.conds == FilterBooleanOn(old(query.conds), field, selector)
  {
    if selector.None? {
      return;
    }
    var truth := false;
    if selector.value == Flag(true) || selector.value == Text("true") || selector.value == Text("True") || selector.value == Text("1") {
      truth := true;
    }
    query.conds := query.conds[field := Literal(Bool(truth))];
  }

  // ---------------------------------------------------------------- _filter_list

  /** `list(set(xs))`: each element once. Python leaves the order to the set; here the
      last occurrence of each element decides it. */
  function Dedup(xs: seq<string>): (r: seq<string>)
    ensures forall x :: x in r <==> x in xs
    ensures forall i, j :: 0 <= i < j < |r| ==> r[i] != r[j]
    decreases |xs|
  {
    if xs == [] then []
    else
      var rest := Dedup(xs[1..]);
      assert forall x :: x in xs <==> x == xs[0] || x in xs[1..];
      if xs[0] in rest then rest else [xs[0]] + rest
  }

  /** A list selector: a list as is, or comma-separated text. */
  datatype ListSelector = Items(items: seq<string>) | Joined(text: string)

  function SelectedItems(s: ListSelector): seq<string> {
    match s
    case Items(items) => items
    case Joined(text) => Dedup(Split(text, ','))
  }

  /** `_filter_list`: `None` leaves the query alone; otherwise the field must (or, with
      `nin`, must not) be one of the selected strings; text is split on "," and each
      piece kept once. */
  function FilterListOn(q: Filter, field: string, selector: Option<ListSelector>, nin: bool): (r: Filter)
    ensures selector.None? ==> r == q
    ensures selector.Some? ==> r - {field} == q - {field} && field in r && r[field].Ops?
    ensures selector.Some? ==>
              var c := r[field];
              c.eq.None? && c.regex.None? && (c.without.Some? <==> nin) && (c.within.Some? <==> !nin) &&
              var listed := if nin then c.without.value else c.within.value;
              (forall v :: v in listed <==> v.Str? && v.s in SelectedItems(selector.value))
    ensures selector.Some? && selector.value.Joined? ==>
              var c := r[field];
              var listed := if nin then c.without.value else c.within.value;
              (forall v :: v in listed <==> v.Str? && v.s in Split(selector.value.text, ',')) &&
              (forall i, j :: 0 <= i < j < |listed| ==> listed[i] != listed[j])
  {
    match selector
    case None => q
    case Some(s) =>
      var values := Strs(SelectedItems(s));
      assert s.Joined? ==> forall i, j :: 0 <= i < j < |values| ==> values[i] != values[j] by {
        if s.Joined? {
          assert forall i :: 0 <= i < |values| ==> values[i] == Str(SelectedItems(s)[i]);
        }
      }
      q[field := if nin then Ops(None, None, None, Some(values)) else Ops(None, None, Some(values), None)]
  }

  method FilterList(query: Query, field: string, selector: Option<ListSelector>, nin: bool)
    modifies query
    ensures query.conds == FilterListOn(old(query.conds), field, selector, nin)
  {
    if selector.None? {
      return;
    }
    var items := SelectedItems(selector.value);
    if nin {
      query.conds := query.conds[field := Ops(None, None, None, Some(Strs(items)))];
    } else {
      query.conds := query.conds[field := Ops(None, None, Some(Strs(items)), None)];
    }
  }

  // ---------------------------------------------------------------- _filter_re

  /** `_filter_re`: a non-empty pattern adds `$regex`, a list (even an empty one) adds
      `$in`, both together give both, and neither leaves the query alone. */
  function FilterReOn(q: Filter, field: string, selector: Option<string>, listFilter: Option<seq<Value>>): (r: Filter)
    ensures !Truthy(selector) && listFilter.None? ==> r == q
    ensures Truthy(selector) || listFilter.Some? ==>
              r - {field} == q - {field} && field in r &&
              r[field] == Ops(None, if Truthy(selector) then selector else None, listFilter, None)
  {
    if Truthy(selector) && listFilter.Some? then q[field := Ops(None, selector, listFilter, None)]
    else if Truthy(selector) then q[field := Ops(None, selector, None, None)]
    else if listFilter.Some? then q[field := Ops(None, None, listFilter, None)]
    else q
  }

  method FilterRe(query: Query, field: string, selector: Option<string>, listFilter: Option<seq<Value>>)
    modifies query
    ensures query.conds == FilterReOn(old(query.conds), field, selector, listFilter)
  {
    if Truthy(selector) && listFilter.Some? {
      query.conds := query.conds[field := Ops(None, selector, listFilter, None)];
    } else if Truthy(selector) {
      query.conds := query.conds[field := Ops(None, selector, None, None)];
    } else if listFilter.Some? {
      query.conds := query.conds[field := Ops(None, None, listFilter, None)];
    }
  }

  // ---------------------------------------------------------------- _filter_literal

  /** `_filter_literal`: a non-empty selector with a non-empty list gives `$eq` and `$in`,
      a selector alone plain equality, a non-empty list alone `$in`; an empty list is
      ignored. */
  function FilterLiteralOn(q: Filter, field: string, selector: Option<string>, listFilter: Option<seq<Value>>): (r: Filter)
    ensures !Truthy(selector) && !TruthyList(listFilter) ==> r == q
    ensures Truthy(selector) || TruthyList(listFilter) ==> r - {field} == q - {field} && field in r
    ensures Truthy(selector) && TruthyList(listFilter) ==> r[field] == Ops(Some(Str(selector.value)), None, listFilter, None)
    ensures Truthy(selector) && !TruthyList(listFilter) ==> r[field] == Literal(Str(selector.value))
    ensures !Truthy(selector) && TruthyList(listFilter) ==> r[field] == Ops(None, None, listFilter, None)
  {
    if Truthy(selector) && TruthyList(listFilter) then q[field := Ops(Some(Str(selector.value)), None, listFilter, None)]
    else if Truthy(selector) then q[field := Literal(Str(selector.value))]
    else if TruthyList(listFilter) then q[field := Ops(None, None, listFilter, None)]
    else q
  }

  method FilterLiteral(query: Query, field: string, selector: Option<string>, listFilter: Option<seq<Value>>)
    modifies query
    ensures query.conds == FilterLiteralOn(old(query.conds), field, selector, listFilter)
  {
    if Truthy(selector) && TruthyList(listFilter) {
      query.conds := query.conds[field := Ops(Some(Str(selector.value)), None, listFilter, None)];
    } else if Truthy(selector) {
      query.conds := query.conds[field := Literal(Str(selector.value))];
    } else if TruthyList(listFilter) {
      query.conds := query.conds[field := Ops(None, None, listFilter, None)];
    }
  }

  /** A plain-equality filter and an `$eq` filter select the same documents. */
  lemma LiteralSameAsEq(d: Doc, field: string, v: Value, re: Regex)
    ensures Matches(d, map[field := Literal(v)], re) <==> Matches(d, map[field := Ops(Some(v), None, None, None)], re)
  {
    assert Holds(Get(d, field), Literal(v), re) <==> Holds(Get(d, field), Ops(Some(v), None, None, None), re);
  }

  // ---------------------------------------------------------------- formatting

  /** `_format`: the document without its `_id`, all else as it was. */
  function Format(d: Doc): (r: Doc)
    ensures IdKey !in r
    ensures forall k :: k != IdKey ==> (k in r <==> k in d) && (k in r ==> r[k] == d[k])
  {
    d - {IdKey}
  }

  /** `_format_multi`: the page of results and the size of the whole result. */
  datatype Multi = Multi(result: seq<Doc>, resultSize: nat)

  function FormatMulti(items: seq<Doc>, count: nat): (r: Multi)
    ensures r.result == items && r.resultSize == count
  {
    Multi(items, count)
  }

  // ---------------------------------------------------------------- _pagination_skip

  /** `_pagination_skip`: the number of documents before page `page`. */
  function PaginationSkip(page: nat, limit: nat): nat { page * limit }

  /** Pages of one size tile the result: page 0 starts at the first document, each page
      starts where the one before it ends, and a later page never starts inside an
      earlier one. */
  lemma {:induction false} PagesTile(limit: nat, p: nat, q: nat)
    requires p < q
    ensures PaginationSkip(0, limit) == 0
    ensures PaginationSkip(p + 1, limit) == PaginationSkip(p, limit) + limit
    ensures PaginationSkip(p, limit) + limit <= PaginationSkip(q, limit)
    decreases q - p
  {
    if p + 1 < q {
      PagesTile(limit, p + 1, q);
    }
  }

  // ---------------------------------------------------------------- _projection

  /** `_projection`: no projection for an absent or empty field list, otherwise every
      listed field and nothing else mapped to 1. */
  function ProjectionOf(fields: Option<seq<string>>): (r: Projection)
    ensures r.None? <==> !TruthyList(fields)
    ensures r.Some? ==> forall k :: (k in r.value <==> k in fields.value) && (k in r.value ==> r.value[k] == 1)
  {
    if !TruthyList(fields) then None else Some(map k | k in fields.value :: 1)
  }

  method BuildProjection(fields: Option<seq<string>>) returns (r: Projection)
    ensures r == ProjectionOf(fields)
  {
    if !TruthyList(fields) {
      return None;
    }
    var fs := fields.value;
    var result: map<string, int> := map[];
    var i := 0;
    while i < |fs|
      invariant 0 <= i <= |fs|
      invariant forall k :: k in result <==> k in fs[..i]
      invariant forall k :: k in result ==> result[k] == 1
    {
      result := result[fs[i] := 1];
      assert fs[..i + 1] == fs[..i] + [fs[i]];
      i := i + 1;
    }
    assert fs[..|fs|] == fs;
    assert result == map k | k in fs :: 1;
    r := Some(result);
  }

  // ---------------------------------------------------------------- _sort

  /** `_sort`: one key, ascending exactly when the order is "ascending". */
  function SortOf(sort: string, sortOrder: string): (r: SortSpec)
    ensures |r| == 1 && r[0].0 == sort
    ensures r[0].1 == Ascending <==> sortOrder == "ascending"
  {
    if sortOrder == "ascending" then [(sort, Ascending)] else [(sort, Descending)]
  }
}
