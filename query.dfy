/** The mutable query builder of src/query.rs. Each builder rewrites one
    entry of `conditions` or one optional field in place; the request
    methods read the state and build their parameter lists by pushing. */
module Query {
  import opened Wrappers
  import opened Json
  import opened Strings
  import opened Common
  import opened Dispatch
  import opened QueryValues
  import Client

  class ParseQuery {
    var className: string
    var conditions: map<string, Json>
    var limit: Option<ISize>
    var skip: Option<USize>
    var order: Option<string>
    var includes: Option<string>
    var keys: Option<string>
    var useMasterKey: bool

    /** The builder's fields as one value. */
    function State(): QueryState
      reads this
    {
      QueryState(className, conditions, limit, skip, order, includes, keys, useMasterKey)
    }

    /** `ParseQuery::new`. */
    constructor (className: string)
      ensures State() == NewQuery(className)
    {
      this.className := className;
      conditions := map[];
      limit := None;
      skip := None;
      order := None;
      includes := None;
      keys := None;
      useMasterKey := false;
    }

    /** `#[derive(Clone)]`: a separate builder in the same state. */
    method Clone() returns (q: ParseQuery)
      ensures fresh(q) && q.State() == State()
    {
      q := new ParseQuery(className);
      q.conditions := conditions;
      q.limit := limit;
      q.skip := skip;
      q.order := order;
      q.includes := includes;
      q.keys := keys;
      q.useMasterKey := useMasterKey;
    }

    method SetMasterKey(useKey: bool)
      modifies this
      ensures State() == old(State()).(useMasterKey := useKey)
    {
      useMasterKey := useKey;
    }

    // -------------------------------------------------------------------
    // constraints: each writes one key and leaves the others alone

    /** `add_simple_condition`: `"field": value`. */
    method AddSimpleCondition(key: string, value: Json)
      modifies this
      ensures State() == old(State()).(conditions := old(conditions)[key := value])
    {
      conditions := conditions[key := value];
    }

    /** `add_operator_condition`: `"field": {op: value}`, replacing whatever
        the field held before. */
    method AddOperatorCondition(key: string, operator: string, value: Json)
      modifies this
      ensures State() == old(State()).(conditions := old(conditions)[key := Single(operator, value)])
    {
      var opMap := map[operator := value];
      conditions := conditions[key := Obj(opMap)];
    }

    method EqualTo(key: string, value: Json)
      modifies this
      ensures State() == old(State()).(conditions := old(conditions)[key := value])
    {
      AddSimpleCondition(key, value);
    }

    method NotEqualTo(key: string, value: Json)
      modifies this
      ensures State() == old(State()).(conditions := old(conditions)[key := Single("$ne", value)])
    {
      AddOperatorCondition(key, "$ne", value);
    }

    method Exists(key: string)
      modifies this
      ensures State() == old(State()).(conditions := old(conditions)[key := Single("$exists", Bool(true))])
    {
      AddOperatorCondition(key, "$exists", Bool(true));
    }

    method DoesNotExist(key: string)
      modifies this
      ensures State() == old(State()).(conditions := old(conditions)[key := Single("$exists", Bool(false))])
    {
      AddOperatorCondition(key, "$exists", Bool(false));
    }

    method GreaterThan(key: string, value: Json)
      modifies this
      ensures State() == old(State()).(conditions := old(conditions)[key := Single("$gt", value)])
    {
      AddOperatorCondition(key, "$gt", value);
    }

    method GreaterThanOrEqualTo(key: string, value: Json)
      modifies this
      ensures State() == old(State()).(conditions := old(conditions)[key := Single("$gte", value)])
    {
      AddOperatorCondition(key, "$gte", value);
    }

    method LessThan(key: string, value: Json)
      modifies this
      ensures State() == old(State()).(conditions := old(conditions)[key := Single("$lt", value)])
    {
      AddOperatorCondition(key, "$lt", value);
    }

    method LessThanOrEqualTo(key: string, value: Json)
      modifies this
      ensures State() == old(State()).(conditions := old(conditions)[key := Single("$lte", value)])
    {
      AddOperatorCondition(key, "$lte", value);
    }

    /** `contained_in`: the values serialise to one array. */
    method ContainedIn(key: string, values: seq<Json>)
      modifies this
      ensures State() == old(State()).(conditions := old(conditions)[key := Single("$in", Arr(values))])
    {
      AddOperatorCondition(key, "$in", Arr(values));
    }

    method NotContainedIn(key: string, values: seq<Json>)
      modifies this
      ensures State() == old(State()).(conditions := old(conditions)[key := Single("$nin", Arr(values))])
    {
      AddOperatorCondition(key, "$nin", Arr(values));
    }

    method ContainsAll(key: string, values: seq<Json>)
      modifies this
      ensures State() == old(State()).(conditions := old(conditions)[key := Single("$all", Arr(values))])
    {
      AddOperatorCondition(key, "$all", Arr(values));
    }

    /** `starts_with`; `esc` stands for `regex::escape`. */
    method StartsWith(key: string, prefix: string, esc: string -> string)
      modifies this
      ensures State() == old(State()).(conditions := old(conditions)[key := RegexCondition("^" + esc(prefix), None)])
    {
      OperatorRegexIsPlainRegex(StartsWithPattern(esc(prefix)));
      AddOperatorCondition(key, "$regex", Str(StartsWithPattern(esc(prefix))));
    }

    method EndsWith(key: string, suffix: string, esc: string -> string)
      modifies this
      ensures State() == old(State()).(conditions := old(conditions)[key := RegexCondition(esc(suffix) + "$", None)])
    {
      OperatorRegexIsPlainRegex(EndsWithPattern(esc(suffix)));
      AddOperatorCondition(key, "$regex", Str(EndsWithPattern(esc(suffix))));
    }

    method Contains(key: string, substring: string, esc: string -> string)
      modifies this
      ensures State() == old(State()).(conditions := old(conditions)[key := RegexCondition(".*" + esc(substring) + ".*", None)])
    {
      OperatorRegexIsPlainRegex(ContainsPattern(esc(substring)));
      AddOperatorCondition(key, "$regex", Str(ContainsPattern(esc(substring))));
    }

    /** `matches_regex`: the pattern unescaped, `$options` only with modifiers. */
    method MatchesRegex(key: string, pattern: string, modifiers: Option<string>)
      modifies this
      ensures State() == old(State()).(conditions := old(conditions)[key := RegexCondition(pattern, modifiers)])
    {
      var regexMap := map["$regex" := Str(pattern)];
      if modifiers.Some? {
        regexMap := regexMap["$options" := Str(modifiers.value)];
      }
      conditions := conditions[key := Obj(regexMap)];
    }

    method Search(key: string, term: string, language: Option<string>, caseSensitive: Option<bool>, diacriticSensitive: Option<bool>)
      modifies this
      ensures State() == old(State()).(conditions := old(conditions)[key := SearchCondition(term, language, caseSensitive, diacriticSensitive)])
    {
      conditions := conditions[key := SearchCondition(term, language, caseSensitive, diacriticSensitive)];
    }

    /** `related_to`: writes the `"$relatedTo"` key only; the other
        constraints stay. */
    method RelatedTo(parent: Pointer, keyOnParent: string)
      modifies this
      ensures State() == old(State()).(conditions := old(conditions)[RelatedToKey := RelatedToCondition(parent, keyOnParent)])
    {
      var relatedMap := map["object" := PointerJson(parent)];
      relatedMap := relatedMap["key" := Str(keyOnParent)];
      conditions := conditions[RelatedToKey := Obj(relatedMap)];
    }

    // -------------------------------------------------------------------
    // pagination and sorting

    method Limit(count: ISize)
      modifies this
      ensures State() == old(State()).(limit := Some(count))
    {
      limit := Some(count);
    }

    method Skip(count: USize)
      modifies this
      ensures State() == old(State()).(skip := Some(count))
    {
      skip := Some(count);
    }

    method Order(fieldNames: string)
      modifies this
      ensures State() == old(State()).(order := Some(fieldNames))
    {
      order := Some(fieldNames);
    }

    method OrderByAscending(key: string)
      modifies this
      ensures State() == old(State()).(order := Some(key))
    {
      order := Some(key);
    }

    method OrderByDescending(key: string)
      modifies this
      ensures State() == old(State()).(order := Some("-" + key))
    {
      order := Some("-" + key);
    }

    /** `append_order_key`: pushes a comma only onto a non-empty order. */
    method AppendOrderKey(key: string, descending: bool)
      modifies this
      ensures State() == old(State()).(order := Some(AppendedOrder(old(order), key, descending)))
    {
      var newOrderKey := (if descending then "-" else "") + key;
      assert newOrderKey == OrderKey(key, descending);
      if order.Some? {
        var existing := order.value;
        if existing != "" {
          existing := existing + [','];
        }
        existing := existing + newOrderKey;
        assert order.value == "" ==> existing == newOrderKey;
        order := Some(existing);
      } else {
        order := Some(newOrderKey);
      }
    }

    method AddAscendingOrder(key: string)
      modifies this
      ensures State() == old(State()).(order := Some(AppendedOrder(old(order), key, false)))
    {
      AppendOrderKey(key, false);
    }

    method AddDescendingOrder(key: string)
      modifies this
      ensures State() == old(State()).(order := Some(AppendedOrder(old(order), key, true)))
    {
      AppendOrderKey(key, true);
    }

    /** `include`: take the current value, split it, drop empty pieces,
        extend, sort, dedup and join. */
    method Include(keysToInclude: seq<string>)
      modifies this
      ensures State() == old(State()).(includes := Some(MergeKeys(old(includes), keysToInclude)))
    {
      var currentInclude := includes.GetOr("");
      includes := None;
      var includeParts := NonEmpty(Split(currentInclude, ','));
      includeParts := includeParts + keysToInclude;
      SortDedupSorted(includeParts);
      includeParts := SortDedup(includeParts);
      includes := Some(Join(includeParts, ','));
    }

    /** `select`: the same merge on `keys`. */
    method Select(keysToSelect: seq<string>)
      modifies this
      ensures State() == old(State()).(keys := Some(MergeKeys(old(keys), keysToSelect)))
    {
      var currentKeys := keys.GetOr("");
      keys := None;
      var selectParts := NonEmpty(Split(currentKeys, ','));
      selectParts := selectParts + keysToSelect;
      SortDedupSorted(selectParts);
      selectParts := SortDedup(selectParts);
      keys := Some(Join(selectParts, ','));
    }

    // -------------------------------------------------------------------
    // requests derived from the state; none of these modifies the query

    /** `build_query_params`: one conditional push per field. */
    method BuildQueryParams() returns (params: seq<Param>)
      ensures params == QueryParams(State())
    {
      params := [];
      if conditions != map[] {
        params := params + [Param("where", JsonText(Obj(conditions)))];
      }
      ghost var expected: seq<Param> := if conditions != map[] then [Param("where", JsonText(Obj(conditions)))] else [];
      assert params == expected;
      if limit.Some? {
        params := params + [Param("limit", Text(IntDecimal(limit.value)))];
      }
      expected := expected + OptParam("limit", if limit.Some? then Some(IntDecimal(limit.value)) else None);
      assert params == expected;
      if skip.Some? {
        params := params + [Param("skip", Text(NatDecimal(skip.value)))];
      }
      expected := expected + OptParam("skip", if skip.Some? then Some(NatDecimal(skip.value)) else None);
      assert params == expected;
      if order.Some? {
        params := params + [Param("order", Text(order.value))];
      }
      expected := expected + OptParam("order", order);
      assert params == expected;
      if includes.Some? {
        params := params + [Param("include", Text(includes.value))];
      }
      expected := expected + OptParam("include", includes);
      assert params == expected;
      if keys.Some? {
        params := params + [Param("keys", Text(keys.value))];
      }
      expected := expected + OptParam("keys", keys);
      assert params == expected;
    }

    /** `find_raw`. */
    method FindPlan() returns (plan: RequestPlan)
      ensures plan == FindRequest(State())
    {
      var params := BuildQueryParams();
      plan := Fetch(ClassEndpoint(className), params, useMasterKey, None);
    }

    /** `first_raw`: a clone with limit 1, this builder untouched. */
    method FirstPlan() returns (plan: RequestPlan)
      ensures plan == FirstRequest(State())
    {
      var queryClone := Clone();
      queryClone.Limit(1);
      var params := queryClone.BuildQueryParams();
      plan := Fetch(ClassEndpoint(queryClone.className), params, useMasterKey, None);
    }

    /** `get`: the object's own endpoint, yet with every query parameter. */
    method GetPlan(objectId: string) returns (plan: RequestPlan)
      ensures plan == GetRequest(State(), objectId)
    {
      var params := BuildQueryParams();
      plan := Fetch(ClassEndpoint(className) + "/" + objectId, params, useMasterKey, None);
    }

    /** `count`: a clone with limit 0, then `count=1` pushed last. */
    method CountPlan() returns (plan: RequestPlan)
      ensures plan == CountRequest(State())
    {
      var queryClone := Clone();
      queryClone.Limit(0);
      var params := queryClone.BuildQueryParams();
      params := params + [Param("count", Text("1"))];
      plan := Fetch(ClassEndpoint(queryClone.className), params, useMasterKey, None);
    }

    /** `distinct`: the pipeline pushed stage by stage. */
    method DistinctPlan(field: string) returns (plan: RequestPlan)
      ensures plan == DistinctRequest(State(), field)
    {
      var pipeline: seq<Json> := [];
      if conditions != map[] {
        pipeline := pipeline + [Obj(map["$match" := Obj(conditions)])];
      }
      pipeline := pipeline + [Obj(map["$group" := Obj(map["_id" := Str("$" + field)])])];
      assert pipeline == DistinctPipeline(conditions, field);
      plan := Fetch(AggregateEndpoint(className), [Param("pipeline", JsonText(Arr(pipeline)))], true, None);
    }

    /** `aggregate`: hands the class and the pipeline to the client. */
    method AggregatePlan(pipeline: seq<Json>) returns (plan: RequestPlan)
      ensures plan == Client.AggregateRequest(className, Arr(pipeline))
    {
      plan := Client.AggregateRequest(className, Arr(pipeline));
    }
  }

  /** A caller's view of the builder: a later constraint on a key replaces
      the earlier one, other keys and fields stay, and the orders and
      include lists compose as their contracts imply. */
  method QueryScenario() {
    var q := new ParseQuery("GameScore");
    q.GreaterThan("score", Num(10));
    q.EqualTo("player", Str("Sean"));
    q.LessThan("score", Num(20));
    assert q.conditions["score"] == Single("$lt", Num(20));
    assert q.conditions["player"] == Str("Sean");
    q.OrderByAscending("x");
    q.AddDescendingOrder("y");
    AscendingThenDescending();
    assert q.order == Some("x,-y");
    q.Include([]);
    MergeNothingOnUnset();
    assert q.includes == Some("");
    var before := q.State();
    var plan := q.CountPlan();
    assert q.State() == before;
  }
}
