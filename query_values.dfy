/** The values behind a query (src/query.rs): the state a `ParseQuery`
    holds, the constraint objects its builders store, how the order,
    include and keys strings evolve, and the parameter list
    `build_query_params` produces from a state. */
module QueryValues {
  import opened Wrappers
  import opened Json
  import opened Strings
  import opened Common
  import opened Dispatch

  /** `isize` and `usize` on a 64-bit target. */
  type ISize = x: int | -0x8000_0000_0000_0000 <= x < 0x8000_0000_0000_0000
  type USize = x: int | 0 <= x < 0x1_0000_0000_0000_0000

  datatype QueryState = QueryState(
    className: string,
    conditions: map<string, Json>,
    limit: Option<ISize>,
    skip: Option<USize>,
    order: Option<string>,
    includes: Option<string>,
    keys: Option<string>,
    useMasterKey: bool)

  /** `ParseQuery::new`: no constraints, nothing set, master key off. */
  function NewQuery(className: string): (q: QueryState)
    ensures q.className == className && q.conditions == map[] && !q.useMasterKey
    ensures q.limit.None? && q.skip.None? && q.order.None? && q.includes.None? && q.keys.None?
  {
    QueryState(className, map[], None, None, None, None, None, false)
  }

  // ---------------------------------------------------------------------
  // constraint values

  /** `{"$regex": pattern}`, plus `"$options"` exactly when modifiers are given. */
  function RegexCondition(pattern: string, modifiers: Option<string>): (j: Json)
    ensures j.Obj? && "$regex" in j.fields && j.fields["$regex"] == Str(pattern)
    ensures j.fields.Keys == {"$regex"} + (if modifiers.Some? then {"$options"} else {})
    ensures modifiers.Some? ==> j.fields["$options"] == Str(modifiers.value)
  {
    var m := map["$regex" := Str(pattern)];
    Obj(if modifiers.Some? then m["$options" := Str(modifiers.value)] else m)
  }

  /** The regexes of `starts_with`, `ends_with` and `contains`, around the
      escaped text `esc(s)`. */
  function StartsWithPattern(escaped: string): string { "^" + escaped }
  function EndsWithPattern(escaped: string): string { escaped + "$" }
  function ContainsPattern(escaped: string): string { ".*" + escaped + ".*" }

  /** The string helpers store the same object `matches_regex` stores for
      the built pattern without modifiers. */
  lemma OperatorRegexIsPlainRegex(pattern: string)
    ensures Single("$regex", Str(pattern)) == RegexCondition(pattern, None)
  {
  }

  /** The `$search` parameters of `search`: `$term` always, each optional
      setting exactly when given. */
  function SearchParams(term: string, language: Option<string>, caseSensitive: Option<bool>, diacriticSensitive: Option<bool>): (j: Json)
    ensures j.Obj?
    ensures j.fields.Keys == {"$term"}
              + (if language.Some? then {"$language"} else {})
              + (if caseSensitive.Some? then {"$caseSensitive"} else {})
              + (if diacriticSensitive.Some? then {"$diacriticSensitive"} else {})
    ensures j.fields["$term"] == Str(term)
    ensures language.Some? ==> j.fields["$language"] == Str(language.value)
    ensures caseSensitive.Some? ==> j.fields["$caseSensitive"] == Bool(caseSensitive.value)
    ensures diacriticSensitive.Some? ==> j.fields["$diacriticSensitive"] == Bool(diacriticSensitive.value)
  {
    var m0 := map["$term" := Str(term)];
    var m1 := if language.Some? then m0["$language" := Str(language.value)] else m0;
    var m2 := if caseSensitive.Some? then m1["$caseSensitive" := Bool(caseSensitive.value)] else m1;
    var m3 := if diacriticSensitive.Some? then m2["$diacriticSensitive" := Bool(diacriticSensitive.value)] else m2;
    Obj(m3)
  }

  /** `{"$text": {"$search": {...}}}`. */
  function SearchCondition(term: string, language: Option<string>, caseSensitive: Option<bool>, diacriticSensitive: Option<bool>): (j: Json)
    ensures j == Single("$text", Single("$search", SearchParams(term, language, caseSensitive, diacriticSensitive)))
  {
    Obj(map["$text" := Obj(map["$search" := SearchParams(term, language, caseSensitive, diacriticSensitive)])])
  }

  const RelatedToKey: string := "$relatedTo"

  /** The value `related_to` stores under `"$relatedTo"`. */
  function RelatedToCondition(parent: Pointer, keyOnParent: string): (j: Json)
    ensures j.Obj? && j.fields.Keys == {"object", "key"}
    ensures PointerFromJson(j.fields["object"]) == Some(parent)
    ensures j.fields["key"] == Str(keyOnParent)
  {
    PointerRoundTrip(parent);
    Obj(map["object" := PointerJson(parent), "key" := Str(keyOnParent)])
  }

  // ---------------------------------------------------------------------
  // order

  function OrderKey(key: string, descending: bool): string {
    (if descending then "-" else "") + key
  }

  /** The order after `append_order_key`: the new key after a comma when
      there already is a non-empty order, alone otherwise. */
  function AppendedOrder(order: Option<string>, key: string, descending: bool): (r: string)
    ensures order.Some? && order.value != "" ==> r == order.value + "," + OrderKey(key, descending)
    ensures order.None? || order.value == "" ==> r == OrderKey(key, descending)
  {
    if order.Some? && order.value != "" then order.value + [','] + OrderKey(key, descending)
    else OrderKey(key, descending)
  }

  /** Appending adds exactly one comma-separated segment to the order. */
  lemma AppendedOrderSegments(order: string, key: string, descending: bool)
    requires order != "" && ',' !in key
    ensures Split(AppendedOrder(Some(order), key, descending), ',') == Split(order, ',') + [OrderKey(key, descending)]
  {
    var k := OrderKey(key, descending);
    assert ',' !in k by {
      if descending {
        assert k == ['-'] + key;
      }
    }
    SplitAround(order, k, ',');
    SplitWithoutSep(k, ',');
  }

  /** Ascending "x" followed by add-descending "y" orders by "x,-y". */
  lemma AscendingThenDescending()
    ensures AppendedOrder(Some("x"), "y", true) == "x,-y"
  {
  }

  // ---------------------------------------------------------------------
  // include / select

  /** The split-filter-extend-sort-dedup-join of `include` and `select`. */
  function MergeKeys(current: Option<string>, added: seq<string>): string {
    Join(MergedParts(current, added), ',')
  }

  function MergedParts(current: Option<string>, added: seq<string>): (r: seq<string>)
    ensures StrictlySorted(r)
    ensures forall x :: x in r <==> x in NonEmpty(Split(current.GetOr(""), ',')) || x in added
  {
    var parts := NonEmpty(Split(current.GetOr(""), ',')) + added;
    SortDedupSorted(parts);
    SortDedup(parts)
  }

  /** The keys of the merged string are exactly the old non-empty keys and
      the new non-empty keys. */
  lemma MergeKeysMembers(current: Option<string>, added: seq<string>)
    requires SepFree(added, ',')
    ensures forall x :: x in NonEmpty(Split(MergeKeys(current, added), ',')) <==>
              x != "" && (x in Split(current.GetOr(""), ',') || x in added)
  {
    var parts := MergedParts(current, added);
    assert SepFree(parts, ',') by {
      forall i | 0 <= i < |parts| ensures ',' !in parts[i] {
        var x := parts[i];
        assert x in parts;
        if x !in added {
          assert x in Split(current.GetOr(""), ',');
        }
      }
    }
    SplitJoinNonEmpty(parts, ',');
  }

  lemma NonEmptyOfNonEmpty(xs: seq<string>)
    requires forall i :: 0 <= i < |xs| ==> xs[i] != ""
    ensures NonEmpty(xs) == xs
  {
    if |xs| > 0 {
      NonEmptyOfNonEmpty(xs[1..]);
      assert [xs[0]] + xs[1..] == xs;
    }
  }

  /** Repeating `include`/`select` with non-empty, comma-free keys that are
      already there changes nothing. */
  lemma {:induction false} MergeKeysIdempotent(current: Option<string>, added: seq<string>)
    requires SepFree(added, ',')
    requires forall i :: 0 <= i < |added| ==> added[i] != ""
    ensures MergeKeys(Some(MergeKeys(current, added)), added) == MergeKeys(current, added)
  {
    var parts := MergedParts(current, added);
    var s := Join(parts, ',');
    assert SepFree(parts, ',') && forall i :: 0 <= i < |parts| ==> parts[i] != "" by {
      forall i | 0 <= i < |parts| ensures ',' !in parts[i] && parts[i] != "" {
        var x := parts[i];
        assert x in parts;
        if x !in added {
          assert x in NonEmpty(Split(current.GetOr(""), ','));
          assert x in Split(current.GetOr(""), ',');
        }
      }
    }
    assert forall x :: x in NonEmpty(Split(s, ',')) <==> x in parts by {
      if |parts| == 0 {
        assert Split(s, ',') == [""];
        assert NonEmpty([""]) == [];
      } else {
        SplitJoin(parts, ',');
        NonEmptyOfNonEmpty(parts);
      }
    }
    var again := MergedParts(Some(s), added);
    assert forall x :: x in again <==> x in parts;
    SortedUnique(again, parts);
  }

  /** `include(&[])` on an unset include sets it to the empty string. */
  lemma MergeNothingOnUnset()
    ensures MergeKeys(None, []) == ""
  {
    assert Split("", ',') == [""];
    assert NonEmpty([""]) == [];
  }

  // ---------------------------------------------------------------------
  // build_query_params

  const ParamNames: seq<string> := ["where", "limit", "skip", "order", "include", "keys"]

  function OptParam(name: string, value: Option<string>): seq<Param> {
    if value.Some? then [Param(name, Text(value.value))] else []
  }

  /** `build_query_params` as a value: each parameter pushed only when set. */
  function QueryParams(q: QueryState): seq<Param> {
    (if q.conditions != map[] then [Param("where", JsonText(Obj(q.conditions)))] else [])
    + OptParam("limit", if q.limit.Some? then Some(IntDecimal(q.limit.value)) else None)
    + OptParam("skip", if q.skip.Some? then Some(NatDecimal(q.skip.value)) else None)
    + OptParam("order", q.order)
    + OptParam("include", q.includes)
    + OptParam("keys", q.keys)
  }

  /** Reference per-name reading: the parameter a state gives for a name. */
  function ParamFor(q: QueryState, name: string): Option<Param> {
    if name == "where" then (if q.conditions != map[] then Some(Param("where", JsonText(Obj(q.conditions)))) else None)
    else if name == "limit" then (if q.limit.Some? then Some(Param("limit", Text(IntDecimal(q.limit.value)))) else None)
    else if name == "skip" then (if q.skip.Some? then Some(Param("skip", Text(NatDecimal(q.skip.value)))) else None)
    else if name == "order" then (if q.order.Some? then Some(Param("order", Text(q.order.value))) else None)
    else if name == "include" then (if q.includes.Some? then Some(Param("include", Text(q.includes.value))) else None)
    else if name == "keys" then (if q.keys.Some? then Some(Param("keys", Text(q.keys.value))) else None)
    else None
  }

  function Rank(name: string): nat {
    if name == "where" then 0 else if name == "limit" then 1 else if name == "skip" then 2
    else if name == "order" then 3 else if name == "include" then 4 else 5
  }

  /** Every emitted parameter is the one its name calls for. */
  lemma QueryParamsSound(q: QueryState)
    ensures var ps := QueryParams(q);
            forall i :: 0 <= i < |ps| ==> ParamFor(q, ps[i].name) == Some(ps[i])
  {
    var ps := QueryParams(q);
    forall i | 0 <= i < |ps| ensures ParamFor(q, ps[i].name) == Some(ps[i]) {
      assert ps[i] in ps;
    }
  }

  /** Every field that is set is emitted. */
  lemma QueryParamsComplete(q: QueryState)
    ensures var ps := QueryParams(q);
            forall n :: n in ParamNames && ParamFor(q, n).Some? ==> ParamFor(q, n).value in ps
  {
  }

  predicate Ranked(ps: seq<Param>) {
    forall i, j :: 0 <= i < j < |ps| ==> Rank(ps[i].name) < Rank(ps[j].name)
  }

  lemma RankedConcat(a: seq<Param>, b: seq<Param>)
    requires Ranked(a) && Ranked(b)
    requires forall p, r :: p in a && r in b ==> Rank(p.name) < Rank(r.name)
    ensures Ranked(a + b)
  {
    var ab := a + b;
    forall i, j | 0 <= i < j < |ab| ensures Rank(ab[i].name) < Rank(ab[j].name) {
      if j < |a| {
        assert ab[i] == a[i] && ab[j] == a[j];
      } else if i < |a| {
        assert ab[i] == a[i] && a[i] in a;
        assert ab[j] == b[j - |a|] && b[j - |a|] in b;
      } else {
        assert ab[i] == b[i - |a|] && ab[j] == b[j - |a|];
      }
    }
  }

  /** One more part, all of one rank above everything before it. */
  lemma RankedStep(a: seq<Param>, b: seq<Param>, bound: nat)
    requires Ranked(a) && |b| <= 1
    requires forall p :: p in a ==> Rank(p.name) < bound
    requires forall p :: p in b ==> Rank(p.name) == bound
    ensures Ranked(a + b)
    ensures forall p :: p in a + b ==> Rank(p.name) <= bound
  {
    RankedConcat(a, b);
  }

  lemma OptParamRank(name: string, value: Option<string>, rank: nat)
    requires Rank(name) == rank
    ensures forall p :: p in OptParam(name, value) ==> Rank(p.name) == rank
  {
  }

  /** The names come in the fixed order where, limit, skip, order, include,
      keys, so none repeats. */
  lemma QueryParamsOrdered(q: QueryState)
    ensures Ranked(QueryParams(q))
  {
    var w: seq<Param> := if q.conditions != map[] then [Param("where", JsonText(Obj(q.conditions)))] else [];
    var l := OptParam("limit", if q.limit.Some? then Some(IntDecimal(q.limit.value)) else None);
    var s := OptParam("skip", if q.skip.Some? then Some(NatDecimal(q.skip.value)) else None);
    var o := OptParam("order", q.order);
    var inc := OptParam("include", q.includes);
    var k := OptParam("keys", q.keys);
    assert QueryParams(q) == w + l + s + o + inc + k;
    assert forall p :: p in w ==> Rank(p.name) < 1;
    OptParamRank("limit", if q.limit.Some? then Some(IntDecimal(q.limit.value)) else None, 1);
    RankedStep(w, l, 1);
    OptParamRank("skip", if q.skip.Some? then Some(NatDecimal(q.skip.value)) else None, 2);
    RankedStep(w + l, s, 2);
    OptParamRank("order", q.order, 3);
    RankedStep(w + l + s, o, 3);
    OptParamRank("include", q.includes, 4);
    RankedStep(w + l + s + o, inc, 4);
    OptParamRank("keys", q.keys, 5);
    RankedStep(w + l + s + o + inc, k, 5);
  }

  // ---------------------------------------------------------------------
  // derived requests

  function ClassEndpoint(className: string): string {
    "classes/" + className
  }

  function AggregateEndpoint(className: string): string {
    "aggregate/" + className
  }

  /** The pipeline `distinct` sends: a `$match` stage only when there are
      constraints, then the `$group` stage on `"$" + field`. */
  function DistinctPipeline(conditions: map<string, Json>, field: string): (r: seq<Json>)
    ensures |r| == if conditions != map[] then 2 else 1
    ensures conditions != map[] ==> r[0] == Single("$match", Obj(conditions))
    ensures r[|r| - 1] == Single("$group", Single("_id", Str("$" + field)))
  {
    (if conditions != map[] then [Obj(map["$match" := Obj(conditions)])] else [])
    + [Obj(map["$group" := Obj(map["_id" := Str("$" + field)])])]
  }

  /** `find`: GET `classes/{class}` with the query's parameters, its
      master flag, and no token override. */
  function FindRequest(q: QueryState): RequestPlan {
    Fetch(ClassEndpoint(q.className), QueryParams(q), q.useMasterKey, None)
  }

  /** `first`: the request of a copy with limit 1. */
  function FirstRequest(q: QueryState): RequestPlan {
    Fetch(ClassEndpoint(q.className), QueryParams(q.(limit := Some(1))), q.useMasterKey, None)
  }

  /** `get`: `classes/{class}/{id}`, still with the query's parameters. */
  function GetRequest(q: QueryState, objectId: string): RequestPlan {
    Fetch(ClassEndpoint(q.className) + "/" + objectId, QueryParams(q), q.useMasterKey, None)
  }

  /** `count`: the parameters of a copy with limit 0, then `count=1`. */
  function CountRequest(q: QueryState): RequestPlan {
    Fetch(ClassEndpoint(q.className), QueryParams(q.(limit := Some(0))) + [Param("count", Text("1"))], q.useMasterKey, None)
  }

  /** `distinct`: the pipeline as the only parameter, always with the master flag. */
  function DistinctRequest(q: QueryState, field: string): RequestPlan {
    Fetch(AggregateEndpoint(q.className), [Param("pipeline", JsonText(Arr(DistinctPipeline(q.conditions, field))))], true, None)
  }

  /** `limit` is the second slot: it follows `where` when there is one and
      precedes everything else. */
  lemma LimitParamAt(q: QueryState, n: ISize)
    ensures var ps := QueryParams(q.(limit := Some(n)));
            var at := if q.conditions != map[] then 1 else 0;
            at < |ps| && ps[at] == Param("limit", Text(IntDecimal(n)))
  {
  }

  /** `first` sends `limit=1` and otherwise only parameters the query
      itself would send. */
  lemma FirstRequestParams(q: QueryState)
    ensures var ps := FirstRequest(q).params;
            Param("limit", Text("1")) in ps
            && forall i :: 0 <= i < |ps| && ps[i].name != "limit" ==> ps[i] in QueryParams(q)
  {
    LimitParamAt(q, 1);
    assert IntDecimal(1) == "1";
    var q1 := q.(limit := Some(1));
    var ps := QueryParams(q1);
    QueryParamsSound(q1);
    QueryParamsComplete(q);
    forall i | 0 <= i < |ps| && ps[i].name != "limit" ensures ps[i] in QueryParams(q) {
      assert ParamFor(q1, ps[i].name) == Some(ps[i]);
      assert ParamFor(q, ps[i].name) == ParamFor(q1, ps[i].name);
      assert ps[i].name in ParamNames;
    }
  }

  /** `count` sends `limit=0` and ends with `count=1`. */
  lemma CountRequestParams(q: QueryState)
    ensures var ps := CountRequest(q).params;
            ps[|ps| - 1] == Param("count", Text("1")) && Param("limit", Text("0")) in ps
  {
    LimitParamAt(q, 0);
    assert IntDecimal(0) == "0";
    var ps := QueryParams(q.(limit := Some(0)));
    var at := if q.conditions != map[] then 1 else 0;
    assert (ps + [Param("count", Text("1"))])[at] == ps[at];
  }

  /** `get` sends the query's own parameters; `distinct` sends only the
      pipeline, with the master flag; none of the five passes a token
      override. */
  lemma DerivedRequests(q: QueryState, objectId: string, field: string)
    ensures GetRequest(q, objectId).params == FindRequest(q).params
    ensures DistinctRequest(q, field).useMasterKey && |DistinctRequest(q, field).params| == 1
    ensures forall p :: p in [FindRequest(q), FirstRequest(q), GetRequest(q, objectId), CountRequest(q), DistinctRequest(q, field)]
              ==> p.Fetch? && p.tokenOverride.None?
  {
  }

  /** `FindResponse<Value>`: an object whose `results` member is an array. */
  predicate IsFindResponse(j: Json) {
    j.Obj? && "results" in j.fields && j.fields["results"].Arr?
  }

  function Results(j: Json): seq<Json>
    requires IsFindResponse(j)
  {
    j.fields["results"].items
  }

  /** `results.into_iter().next()`. */
  function FirstResult(j: Json): (r: Option<Json>)
    requires IsFindResponse(j)
    ensures r.None? <==> Results(j) == []
    ensures r.Some? ==> r.value == Results(j)[0]
  {
    if |Results(j)| == 0 then None else Some(Results(j)[0])
  }

  /** `CountResponse`: a `count` member that is a `u64`. */
  predicate IsCountResponse(j: Json) {
    j.Obj? && "count" in j.fields && j.fields["count"].Num?
    && 0 <= j.fields["count"].n < 0x1_0000_0000_0000_0000
  }

  /** `FindResponse<DistinctItem<Value>>`: every result carries `objectId`. */
  predicate IsDistinctResponse(j: Json) {
    IsFindResponse(j)
    && forall i :: 0 <= i < |Results(j)| ==> Results(j)[i].Obj? && "objectId" in Results(j)[i].fields
  }

  /** The values `distinct` returns: each result's `objectId`, in order. */
  function DistinctValues(j: Json): (r: seq<Json>)
    requires IsDistinctResponse(j)
    ensures |r| == |Results(j)|
    ensures forall i :: 0 <= i < |r| ==> r[i] == Results(j)[i].fields["objectId"]
  {
    seq(|Results(j)|, i requires 0 <= i < |Results(j)| && IsDistinctResponse(j) => Results(j)[i].fields["objectId"])
  }
}
