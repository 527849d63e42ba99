/** The sort-entry serializer behind `useSort`. */
module UseSort {
  import opened QueryTypes

  /** A raw query parameter: absent, one string, or every occurrence of a repeated key. */
  datatype Param = Undefined | Single(s: string) | Many(items: seq<string>)

  /** `SortType`: `+` or `-` followed by any (possibly empty) field name. */
  predicate IsSortType(s: string) {
    |s| >= 1 && (s[0] == '+' || s[0] == '-')
  }

  type SortType = s: string | IsSortType(s) witness "+"

  /** `firstParam`: the first occurrence of an array parameter (`undefined`
      for an empty array), or the string itself. */
  function FirstParam(v: Param): (r: Option<string>)
    ensures v.Undefined? ==> r == None
    ensures v.Single? ==> r == Some(v.s)
    ensures v.Many? ==> (r.Some? <==> |v.items| > 0) && (r.Some? ==> r.value == v.items[0])
  {
    match v
    case Undefined => None
    case Single(s) => Some(s)
    case Many(items) => if |items| > 0 then Some(items[0]) else None
  }

  /** `sortSerealizer.parse`: the first value when its first character is
      `+` or `-` (`charAt(0)` of the empty string and of `undefined` gives
      `""`, which matches neither), and `null` (here `None`) otherwise. */
  function Parse(v: Param): Option<SortType> {
    var str := FirstParam(v);
    if str.Some? && |str.value| > 0 && (str.value[0] == '+' || str.value[0] == '-')
    then Some(str.value)
    else None
  }

  /** `sortSerealizer.serialize`: the template literal `${v}`, which writes `null` as `"null"`. */
  function Serialize(v: Option<SortType>): string {
    match v
    case Some(s) => s
    case None => "null"
  }

  /** `parse` keeps the first value unchanged exactly when it is a `SortType`, and gives `null` otherwise. */
  lemma ParseAcceptsExactlySortTypes(v: Param)
    ensures Parse(v).Some? <==> FirstParam(v).Some? && IsSortType(FirstParam(v).value)
    ensures Parse(v).Some? ==> Parse(v).value == FirstParam(v).value
  {
  }

  /** `parse` of `undefined`, of the empty string and of an empty array is `null`. */
  lemma ParseOfNothingIsNull()
    ensures Parse(Undefined) == None
    ensures Parse(Single("")) == None
    ensures Parse(Many([])) == None
  {
  }

  /** Every `SortType` survives a round trip through the serializer. */
  lemma RoundTrip(s: SortType)
    ensures Parse(Single(Serialize(Some(s)))) == Some(s)
  {
  }

  /** `null` serializes to `"null"`, which parses back to `null`. */
  lemma NullRoundTrip()
    ensures Serialize(None) == "null"
    ensures Parse(Single(Serialize(None))) == None
  {
  }

  /** The sort entries as the values the store holds for them. */
  function SortValues(entries: seq<SortType>): (vs: seq<Value>)
    ensures |vs| == |entries|
    ensures forall i :: 0 <= i < |entries| ==> vs[i] == Text(entries[i])
  {
    if entries == [] then [] else [Text(entries[0])] + SortValues(entries[1..])
  }

  /** `useSort`'s schema for the `sort` key: an array of sort entries
      defaulting to `defaultSort`, which is empty unless given. */
  function SortSchema(defaultSort: Option<seq<SortType>>): (schema: Schema)
    ensures schema.Keys == {"sort"}
    ensures schema["sort"].WithDefault? && schema["sort"].inner == ArrayCodec(SortEntryCodec)
    ensures defaultSort.Some? ==> schema["sort"].default == List(SortValues(defaultSort.value))
    ensures defaultSort == None ==> schema["sort"].default == List([])
  {
    var entries := match defaultSort case Some(d) => d case None => [];
    map["sort" := WithDefault(ArrayCodec(SortEntryCodec), List(SortValues(entries)))]
  }
}
