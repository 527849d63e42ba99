/** `useFilter`: combine several filter definitions into one schema, read one
    snapshot of the state for it, and collect every definition's filter
    expressions over that snapshot in definition order. */
module UseFilter {
  import opened QueryTypes

  /** The comparison operators a filter expression may carry. */
  datatype Operator = Eq | Ne | Lt | Gt | Le | Ge

  /** The operator as the string the source writes into the triple. */
  function Symbol(op: Operator): string {
    match op
    case Eq => "="
    case Ne => "!="
    case Lt => "<"
    case Gt => ">"
    case Le => "<="
    case Ge => ">="
  }

  /** The `[field, operator, value]` triple a transform emits. */
  datatype FilterExpr = FilterExpr(field: string, op: Operator, value: StateValue)

  /** `FilterDef`: the codecs a filter needs (`queryTypes`) and the transform
      from a snapshot of those keys to filter expressions. */
  datatype FilterDef = FilterDef(schema: Schema, transform: Snapshot -> seq<FilterExpr>)

  /** `Object.fromEntries(filterDefs.flatMap(f => Object.entries(f.queryTypes)))`:
      the entries are assigned in order, so a later definition overrides
      an earlier one on a shared key. */
  function MergeSchemas(defs: seq<FilterDef>): Schema {
    if defs == [] then map[]
    else MergeSchemas(defs[..|defs| - 1]) + defs[|defs| - 1].schema
  }

  /** `transforms.flatMap(transform => transform(states))`. */
  function ApplyAll(defs: seq<FilterDef>, states: Snapshot): seq<FilterExpr> {
    if defs == [] then []
    else defs[0].transform(states) + ApplyAll(defs[1..], states)
  }

  /** `useFilter`, with the store's `useQueryStates` read passed in as `read`:
      one read for the merged schema, every transform applied to its result. */
  function UseFilter(defs: seq<FilterDef>, read: Schema -> Snapshot): seq<FilterExpr> {
    ApplyAll(defs, read(MergeSchemas(defs)))
  }

  /** The merged schema has exactly the keys of all definitions' schemas. */
  lemma {:induction false} MergedKeysAreUnion(defs: seq<FilterDef>)
    ensures forall k :: k in MergeSchemas(defs) <==>
              exists i :: 0 <= i < |defs| && k in defs[i].schema
  {
    if defs != [] {
      var init := defs[..|defs| - 1];
      MergedKeysAreUnion(init);
      forall k
        ensures k in MergeSchemas(defs) <==> exists i :: 0 <= i < |defs| && k in defs[i].schema
      {
        if k in MergeSchemas(init) {
          var i :| 0 <= i < |init| && k in init[i].schema;
          assert defs[i] == init[i];
        }
        if exists i :: 0 <= i < |defs| && k in defs[i].schema {
          var i :| 0 <= i < |defs| && k in defs[i].schema;
          if i < |defs| - 1 {
            assert init[i] == defs[i];
          }
        }
      }
    }
  }

  /** On a shared key the codec of the last definition that declares it wins. */
  lemma {:induction false} LastDefinitionWins(defs: seq<FilterDef>, j: nat, k: string)
    requires j < |defs| && k in defs[j].schema
    requires forall i :: j < i < |defs| ==> k !in defs[i].schema
    ensures k in MergeSchemas(defs) && MergeSchemas(defs)[k] == defs[j].schema[k]
  {
    var init := defs[..|defs| - 1];
    if j < |defs| - 1 {
      assert init[j] == defs[j];
      assert k !in defs[|defs| - 1].schema;
      LastDefinitionWins(init, j, k);
    }
  }

  /** Collecting over two lists of definitions is collecting over each in turn. */
  lemma {:induction false} ApplyAllAppend(a: seq<FilterDef>, b: seq<FilterDef>, states: Snapshot)
    ensures ApplyAll(a + b, states) == ApplyAll(a, states) + ApplyAll(b, states)
  {
    if a == [] {
      assert a + b == b;
    } else {
      assert (a + b)[1..] == a[1..] + b;
      ApplyAllAppend(a[1..], b, states);
    }
  }

  /** Each definition's expressions appear whole, in definition order, and
      are computed from the very snapshot the single read returned. */
  lemma {:induction false} UseFilterIsOrderedConcatenation(defs: seq<FilterDef>, read: Schema -> Snapshot, i: nat)
    requires i < |defs|
    ensures var states := read(MergeSchemas(defs));
            UseFilter(defs, read) ==
              ApplyAll(defs[..i], states) + defs[i].transform(states) + ApplyAll(defs[i + 1..], states)
  {
    var states := read(MergeSchemas(defs));
    var rest := [defs[i]] + defs[i + 1..];
    assert defs == defs[..i] + rest;
    ApplyAllAppend(defs[..i], rest, states);
    assert rest[1..] == defs[i + 1..];
    assert ApplyAll(rest, states) == defs[i].transform(states) + ApplyAll(defs[i + 1..], states);
  }

  function Sum(xs: seq<nat>): nat {
    if xs == [] then 0 else xs[0] + Sum(xs[1..])
  }

  /** The number of expressions each definition produces on `states`. */
  function OutputLengths(defs: seq<FilterDef>, states: Snapshot): seq<nat> {
    seq(|defs|, i requires 0 <= i < |defs| => |defs[i].transform(states)|)
  }

  /** The output length is the sum of the transforms' output lengths. */
  lemma {:induction false} ApplyAllLength(defs: seq<FilterDef>, states: Snapshot)
    ensures |ApplyAll(defs, states)| == Sum(OutputLengths(defs, states))
  {
    if defs != [] {
      ApplyAllLength(defs[1..], states);
      assert OutputLengths(defs, states)[1..] == OutputLengths(defs[1..], states);
    }
  }

  /** No definitions, no expressions. */
  lemma UseFilterOfNothing(read: Schema -> Snapshot)
    ensures UseFilter([], read) == []
  {
  }

  /** The result depends on the store only through the one snapshot read for
      the merged schema: two stores that agree on it give the same expressions. */
  lemma UseFilterDependsOnOneSnapshot(defs: seq<FilterDef>, read1: Schema -> Snapshot, read2: Schema -> Snapshot)
    requires read1(MergeSchemas(defs)) == read2(MergeSchemas(defs))
    ensures UseFilter(defs, read1) == UseFilter(defs, read2)
  {
  }
}
