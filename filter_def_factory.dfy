/** The filter behaviours (`equal`, `in`, `range`), the `filterTypes`
    configurations they are selected from, and `filterDefFactory`.

    In the source a behaviour call returns `{ ...this, generate }` and
    `generate` reads `this.queryType` back off its receiver. Here that
    receiver is the explicit `FilterConfig`, carried by the generator. */
module FilterDefFactory {
  import opened QueryTypes
  import opened UseFilter

  /** `FilterTypeParams`: the codec the behaviours encode the field with. */
  datatype FilterConfig = FilterConfig(queryType: Codec)

  /** The entries of `filterTypes`. */
  const StringFilter: FilterConfig := FilterConfig(StringCodec)
  const FloatFilter: FilterConfig := FilterConfig(FloatCodec)
  const IntegerFilter: FilterConfig := FilterConfig(IntegerCodec)
  const BooleanFilter: FilterConfig := FilterConfig(BooleanCodec)

  function EnumFilter(values: seq<string>): FilterConfig {
    FilterConfig(StringEnumCodec(values))
  }

  /** Each `filterTypes` entry selects its behaviours over the matching
      `queryTypes` codec; `enum` over the string enum of the given values. */
  lemma FilterTypesCodecs(values: seq<string>)
    ensures StringFilter.queryType == StringCodec && FloatFilter.queryType == FloatCodec
    ensures IntegerFilter.queryType == IntegerCodec && BooleanFilter.queryType == BooleanCodec
    ensures EnumFilter(values).queryType == StringEnumCodec(values)
    ensures Generate(Equal(EnumFilter(values)), "category").schema == map["category" := StringEnumCodec(values)]
  {
  }

  /** Which of the three behaviours a generator was made by. */
  datatype Behavior = EqualBehavior | InBehavior | RangeBehavior(excludeNull: bool)

  /** `FilterTypeParams & FilterGenerator`: a configuration with a chosen behaviour. */
  datatype FilterGenerator = FilterGenerator(config: FilterConfig, behavior: Behavior)

  /** `selectBehavior.equal()`. */
  function Equal(config: FilterConfig): FilterGenerator {
    FilterGenerator(config, EqualBehavior)
  }

  /** `selectBehavior.in()`. */
  function In(config: FilterConfig): FilterGenerator {
    FilterGenerator(config, InBehavior)
  }

  /** `selectBehavior.range({ excludeNull = false } = {})`: `None` stands for
      both a call without options and options without `excludeNull`. */
  function Range(config: FilterConfig, excludeNull: Option<bool>): (g: FilterGenerator)
    ensures g.config == config && g.behavior.RangeBehavior?
    ensures g.behavior.excludeNull == (excludeNull == Some(true))
  {
    var flag := match excludeNull case Some(b) => b case None => false;
    FilterGenerator(config, RangeBehavior(flag))
  }

  /** The transform of `equal` and `in`: one `=` expression whenever the
      state value is not `undefined` (a `null` still counts). */
  function EqualExpressions(key: string, states: Snapshot): seq<FilterExpr> {
    var v := Lookup(states, key);
    if v != Missing then [FilterExpr(key, Eq, v)] else []
  }

  function MaxKey(key: string): string { key + "Max" }
  function MinKey(key: string): string { key + "Min" }

  /** The transform of `range`. The bounds are tested with strict
      `!== undefined`, so a `null` bound is still emitted; the test that adds
      the not-null expression is the loose `!= undefined`, which a `null`
      bound fails. */
  function RangeExpressions(key: string, excludeNull: bool, states: Snapshot): seq<FilterExpr> {
    var max := Lookup(states, MaxKey(key));
    var min := Lookup(states, MinKey(key));
    (if max != Missing then [FilterExpr(key, Le, max)] else [])
    + (if min != Missing then [FilterExpr(key, Ge, min)] else [])
    + (if excludeNull && (min.Present? || max.Present?) then [FilterExpr(key, Ne, Null)] else [])
  }

  /** The range transform as the source runs it, pushing onto a local array. */
  method RangeTransform(key: string, excludeNull: bool, states: Snapshot) returns (result: seq<FilterExpr>)
    ensures result == RangeExpressions(key, excludeNull, states)
  {
    result := [];
    var max := Lookup(states, MaxKey(key));
    var min := Lookup(states, MinKey(key));
    if max != Missing {
      result := result + [FilterExpr(key, Le, max)];
    }
    if min != Missing {
      result := result + [FilterExpr(key, Ge, min)];
    }
    if excludeNull && (min.Present? || max.Present?) {
      result := result + [FilterExpr(key, Ne, Null)];
    }
  }

  /** `generator.generate(key)`. */
  function Generate(g: FilterGenerator, key: string): FilterDef {
    var codec := g.config.queryType;
    match g.behavior
    case EqualBehavior =>
      FilterDef(map[key := codec], states => EqualExpressions(key, states))
    case InBehavior =>
      FilterDef(map[key := ArrayCodec(codec)], states => EqualExpressions(key, states))
    case RangeBehavior(excludeNull) =>
      FilterDef(map[MaxKey(key) := codec, MinKey(key) := codec],
                states => RangeExpressions(key, excludeNull, states))
  }

  /** `filterDefFactory`, over the record's entries in enumeration order. */
  function FilterDefs(entries: seq<(string, FilterGenerator)>): (defs: seq<FilterDef>)
    ensures |defs| == |entries|
    ensures forall i :: 0 <= i < |entries| ==> defs[i] == Generate(entries[i].1, entries[i].0)
  {
    if entries == [] then []
    else [Generate(entries[0].1, entries[0].0)] + FilterDefs(entries[1..])
  }

  /** `equal()`: the schema is exactly `{key: codec}`, and the transform emits
      `[key, "=", value]` exactly when the value is not `undefined`. */
  lemma EqualGenerates(config: FilterConfig, key: string, states: Snapshot)
    ensures Generate(Equal(config), key).schema == map[key := config.queryType]
    ensures var out := Generate(Equal(config), key).transform(states);
            var v := Lookup(states, key);
            (v != Missing ==> out == [FilterExpr(key, Eq, v)]) && (v == Missing ==> out == [])
  {
  }

  /** `in()`: the schema maps `key` to an array of the codec; the presence rule is that of `equal()`. */
  lemma InGenerates(config: FilterConfig, key: string, states: Snapshot)
    ensures Generate(In(config), key).schema == map[key := ArrayCodec(config.queryType)]
    ensures var out := Generate(In(config), key).transform(states);
            var v := Lookup(states, key);
            (v != Missing ==> out == [FilterExpr(key, Eq, v)]) && (v == Missing ==> out == [])
  {
  }

  /** `range()`: the schema has exactly the two distinct keys `key + "Max"`
      and `key + "Min"`, both with the configured codec. */
  lemma RangeSchema(config: FilterConfig, excludeNull: Option<bool>, key: string)
    ensures var schema := Generate(Range(config, excludeNull), key).schema;
            schema.Keys == {MaxKey(key), MinKey(key)} && |schema| == 2
            && schema[MaxKey(key)] == config.queryType && schema[MinKey(key)] == config.queryType
  {
    assert MaxKey(key)[|key| + 1] == 'a' && MinKey(key)[|key| + 1] == 'i';
    assert MaxKey(key) != MinKey(key);
  }

  /** The range generator's transform is the range expressions over its own
      `excludeNull`, which is false unless `true` was passed. */
  lemma RangeGenerates(config: FilterConfig, excludeNull: Option<bool>, key: string, states: Snapshot)
    ensures Generate(Range(config, excludeNull), key).transform(states)
            == RangeExpressions(key, excludeNull == Some(true), states)
  {
  }

  /** Order in which a range transform emits its operators. */
  function RangeRank(op: Operator): int {
    match op
    case Le => 0
    case Ge => 1
    case _ => 2
  }

  /** What a range transform emits: at most three expressions, in the order
      `<=`, `>=`, `!=`; the max bound exactly when it is not `undefined`, the
      min bound likewise, and the not-null expression exactly when
      `excludeNull` is set and some bound is neither `undefined` nor `null`. */
  lemma RangeExpressionsMeaning(key: string, excludeNull: bool, states: Snapshot)
    ensures var r := RangeExpressions(key, excludeNull, states);
            var max := Lookup(states, MaxKey(key));
            var min := Lookup(states, MinKey(key));
            && |r| <= 3
            && (forall i, j :: 0 <= i < j < |r| ==> RangeRank(r[i].op) < RangeRank(r[j].op))
            && (FilterExpr(key, Le, max) in r <==> max != Missing)
            && (FilterExpr(key, Ge, min) in r <==> min != Missing)
            && (FilterExpr(key, Ne, Null) in r <==> excludeNull && (min.Present? || max.Present?))
            && (forall e :: e in r ==> e.field == key && e.op in {Le, Ge, Ne})
            && (forall e :: e in r ==>
                  (e.op == Le && e.value == max) || (e.op == Ge && e.value == min) || (e.op == Ne && e.value == Null))
  {
  }

  /** Without `excludeNull` no not-null expression is ever emitted. */
  lemma RangeDefaultEmitsNoNotNull(config: FilterConfig, key: string, states: Snapshot)
    ensures forall e :: e in Generate(Range(config, None), key).transform(states) ==> e.op != Ne
  {
  }

  /** Two `null` bounds still give their `<=` and `>=` expressions, but no not-null expression. */
  lemma RangeNullBounds(key: string, states: Snapshot)
    requires Lookup(states, MaxKey(key)) == Null && Lookup(states, MinKey(key)) == Null
    ensures RangeExpressions(key, true, states) == [FilterExpr(key, Le, Null), FilterExpr(key, Ge, Null)]
  {
  }

  /** A min bound of 5, no max, and `excludeNull`: `[key, ">=", 5]` then `[key, "!=", null]`. */
  lemma RangeMinOnlyExample(key: string)
    ensures RangeExpressions(key, true, map[MinKey(key) := Present(Number(5))])
            == [FilterExpr(key, Ge, Present(Number(5))), FilterExpr(key, Ne, Null)]
  {
    assert MaxKey(key)[|key| + 1] != MinKey(key)[|key| + 1];
  }

  /** Every expression any generator emits names the generator's key, uses
      one of `=`, `<=`, `>=`, `!=`, and never carries `undefined`. */
  lemma GeneratedExpressionsWellFormed(g: FilterGenerator, key: string, states: Snapshot)
    ensures forall e :: e in Generate(g, key).transform(states) ==>
              e.field == key && e.op in {Eq, Le, Ge, Ne} && e.value != Missing
  {
  }

  /** The operator strings written into emitted triples are `"="`, `"<="`,
      `">="` and `"!="`, and each names one operator only. */
  lemma EmittedOperatorSymbols(g: FilterGenerator, key: string, states: Snapshot)
    ensures forall e :: e in Generate(g, key).transform(states) ==>
              Symbol(e.op) in {"=", "<=", ">=", "!="}
    ensures forall a: Operator, b: Operator :: Symbol(a) == Symbol(b) ==> a == b
  {
    GeneratedExpressionsWellFormed(g, key, states);
  }
}
