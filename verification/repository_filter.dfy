/**
 * The filter pushed down to the record store by the repository's list query
 * (ListWithFilters and getTotalCount in internal/adapters/repository/dynamodb.go).
 *
 * Both builders produce the same expression string and the same attribute keys. They
 * differ in one respect: ListWithFilters allocates both attribute maps as soon as any
 * filter is active, so a price-only filter carries an empty (non-nil) name map, while
 * getTotalCount leaves the name map nil unless a name filter is present.
 */
module RepositoryFilter {
  import opened Wrappers
  import opened Domain
  import opened Ports

  /** An expression attribute value: a string (`S`) or a number (`N`). */
  datatype AttributeValue = S(s: string) | N(n: real)

  /** The filter fields of a scan input; `None` stands for a nil field. */
  datatype ScanFilter = ScanFilter(
    expression: Option<string>,
    names: Option<map<string, string>>,
    values: Option<map<string, AttributeValue>>)

  const NameCondition := "contains(#name, :name)"
  const MinPriceCondition := "price >= :min_price"
  const MaxPriceCondition := "price <= :max_price"
  const Separator := " AND "

  /** The guard both builders open with: some filter is active. */
  predicate FilterActive(f: ProductFilters) {
    f.name != "" || f.minPrice > 0.0 || f.maxPrice > 0.0
  }

  /** strings.Join. */
  function Join(parts: seq<string>, sep: string): string
    decreases |parts|
  {
    if |parts| == 0 then ""
    else if |parts| == 1 then parts[0]
    else parts[0] + sep + Join(parts[1..], sep)
  }

  /** The place of a condition in the fixed order name, minimum price, maximum price. */
  function Rank(c: string): nat {
    if c == NameCondition then 0 else if c == MinPriceCondition then 1 else 2
  }

  /** The conditions of an active filter: exactly one per active field, in the fixed order. */
  function ConditionsOf(f: ProductFilters): (cs: seq<string>)
    ensures NameCondition in cs <==> f.name != ""
    ensures MinPriceCondition in cs <==> f.minPrice > 0.0
    ensures MaxPriceCondition in cs <==> f.maxPrice > 0.0
    ensures forall c :: c in cs ==> c in {NameCondition, MinPriceCondition, MaxPriceCondition}
    ensures forall a, b :: 0 <= a < b < |cs| ==> Rank(cs[a]) < Rank(cs[b])
    ensures |cs| > 0 <==> FilterActive(f)
  {
    (if f.name != "" then [NameCondition] else [])
    + (if f.minPrice > 0.0 then [MinPriceCondition] else [])
    + (if f.maxPrice > 0.0 then [MaxPriceCondition] else [])
  }

  /** The attribute names of a filter: "#name" stands for the name attribute. */
  function NamesOf(f: ProductFilters): (m: map<string, string>)
    ensures "#name" in m <==> f.name != ""
    ensures m.Keys <= {"#name"}
    ensures forall k :: k in m ==> m[k] == "name"
  {
    if f.name != "" then map["#name" := "name"] else map[]
  }

  /** The attribute values of a filter: one placeholder per active field, holding its bound. */
  function ValuesOf(f: ProductFilters): (m: map<string, AttributeValue>)
    ensures ":name" in m <==> f.name != ""
    ensures ":min_price" in m <==> f.minPrice > 0.0
    ensures ":max_price" in m <==> f.maxPrice > 0.0
    ensures m.Keys <= {":name", ":min_price", ":max_price"}
    ensures ":name" in m ==> m[":name"] == S(f.name)
    ensures ":min_price" in m ==> m[":min_price"] == N(f.minPrice)
    ensures ":max_price" in m ==> m[":max_price"] == N(f.maxPrice)
  {
    var withName: map<string, AttributeValue> := if f.name != "" then map[":name" := S(f.name)] else map[];
    var withMin := if f.minPrice > 0.0 then withName[":min_price" := N(f.minPrice)] else withName;
    if f.maxPrice > 0.0 then withMin[":max_price" := N(f.maxPrice)] else withMin
  }

  /** The filter ListWithFilters attaches to its scan. */
  function ListScanFilter(f: ProductFilters): ScanFilter {
    if FilterActive(f) then
      ScanFilter(Some(Join(ConditionsOf(f), Separator)), Some(NamesOf(f)), Some(ValuesOf(f)))
    else
      ScanFilter(None, None, None)
  }

  /** The filter getTotalCount attaches to its count. */
  function CountScanFilter(f: ProductFilters): ScanFilter {
    if FilterActive(f) then
      ScanFilter(Some(Join(ConditionsOf(f), Separator)),
                 if f.name != "" then Some(NamesOf(f)) else None,
                 Some(ValuesOf(f)))
    else
      ScanFilter(None, None, None)
  }

  /** The keys of a possibly nil map. */
  function KeysOf<V>(m: Option<map<string, V>>): set<string> {
    if m.Some? then m.value.Keys else {}
  }

  /** The builder of ListWithFilters (dynamodb.go:95-128): appends the conditions and fills
      the two maps step by step. */
  method BuildListFilter(f: ProductFilters) returns (sf: ScanFilter)
    ensures sf == ListScanFilter(f)
  {
    sf := ScanFilter(None, None, None);
    if f.name != "" || f.minPrice > 0.0 || f.maxPrice > 0.0 {
      var names: map<string, string> := map[];
      var values: map<string, AttributeValue> := map[];
      var conditions: seq<string> := [];
      if f.name != "" {
        conditions := conditions + [NameCondition];
        names := names["#name" := "name"];
        values := values[":name" := S(f.name)];
      }
      if f.minPrice > 0.0 {
        conditions := conditions + [MinPriceCondition];
        values := values[":min_price" := N(f.minPrice)];
      }
      if f.maxPrice > 0.0 {
        conditions := conditions + [MaxPriceCondition];
        values := values[":max_price" := N(f.maxPrice)];
      }
      assert conditions == ConditionsOf(f);
      assert names == NamesOf(f);
      assert values == ValuesOf(f);
      sf := ScanFilter(Some(Join(conditions, Separator)), Some(names), Some(values));
    }
  }

  /** The builder of getTotalCount (dynamodb.go:176-216): each map is allocated only when a
      condition first needs it. */
  method BuildCountFilter(f: ProductFilters) returns (sf: ScanFilter)
    ensures sf == CountScanFilter(f)
  {
    sf := ScanFilter(None, None, None);
    if f.name != "" || f.minPrice > 0.0 || f.maxPrice > 0.0 {
      var names: Option<map<string, string>> := None;
      var values: Option<map<string, AttributeValue>> := None;
      var conditions: seq<string> := [];
      if f.name != "" {
        conditions := conditions + [NameCondition];
        if names.None? { names := Some(map[]); }
        if values.None? { values := Some(map[]); }
        names := Some(names.value["#name" := "name"]);
        values := Some(values.value[":name" := S(f.name)]);
      }
      if f.minPrice > 0.0 {
        conditions := conditions + [MinPriceCondition];
        if values.None? { values := Some(map[]); }
        values := Some(values.value[":min_price" := N(f.minPrice)]);
      }
      if f.maxPrice > 0.0 {
        conditions := conditions + [MaxPriceCondition];
        if values.None? { values := Some(map[]); }
        values := Some(values.value[":max_price" := N(f.maxPrice)]);
      }
      assert conditions == ConditionsOf(f);
      assert f.name != "" ==> names == Some(NamesOf(f));
      assert f.name == "" ==> names == None;
      assert values == Some(ValuesOf(f));
      if |conditions| > 0 {
        sf := ScanFilter(Some(Join(conditions, Separator)), names, values);
      }
    }
  }

  /** A filter expression is set exactly when a filter is active. */
  lemma ExpressionSetIffActive(f: ProductFilters)
    ensures ListScanFilter(f).expression.Some? <==> FilterActive(f)
    ensures CountScanFilter(f).expression.Some? <==> FilterActive(f)
  {
  }

  /** The count uses the same expression and the same attribute keys as the scan, for every
      filter; the scans differ only in a nil versus empty name map, exactly when the filter is
      price-only. */
  lemma CountFilterAgreesWithListFilter(f: ProductFilters)
    ensures CountScanFilter(f).expression == ListScanFilter(f).expression
    ensures KeysOf(CountScanFilter(f).names) == KeysOf(ListScanFilter(f).names)
    ensures KeysOf(CountScanFilter(f).values) == KeysOf(ListScanFilter(f).values)
    ensures CountScanFilter(f) != ListScanFilter(f) <==> FilterActive(f) && f.name == ""
  {
    if FilterActive(f) && f.name == "" {
      assert CountScanFilter(f).names == None;
      assert ListScanFilter(f).names == Some(map[]);
    }
  }

  lemma JoinTwo(a: string, b: string, sep: string)
    ensures Join([a, b], sep) == a + sep + b
  {
    assert [a, b][1..] == [b];
  }

  lemma JoinThree(a: string, b: string, c: string, sep: string)
    ensures Join([a, b, c], sep) == a + sep + (b + sep + c)
  {
    assert [a, b, c][1..] == [b, c];
    JoinTwo(b, c, sep);
  }

  /** With every filter active, the expression is the three conditions joined in order. */
  lemma FullExpression(f: ProductFilters)
    requires f.name != "" && f.minPrice > 0.0 && f.maxPrice > 0.0
    ensures ListScanFilter(f).expression
         == Some(NameCondition + Separator + (MinPriceCondition + Separator + MaxPriceCondition))
  {
    assert ConditionsOf(f) == [NameCondition, MinPriceCondition, MaxPriceCondition];
    JoinThree(NameCondition, MinPriceCondition, MaxPriceCondition, Separator);
  }

  /** With only a price range, the expression is the two price conditions joined. */
  lemma PriceRangeExpression(f: ProductFilters)
    requires f.name == "" && f.minPrice > 0.0 && f.maxPrice > 0.0
    ensures ListScanFilter(f).expression == Some(MinPriceCondition + Separator + MaxPriceCondition)
  {
    assert ConditionsOf(f) == [MinPriceCondition, MaxPriceCondition];
    JoinTwo(MinPriceCondition, MaxPriceCondition, Separator);
  }

  /** With a single active field, the expression is that field's condition alone. */
  lemma SingleConditionExpression(f: ProductFilters)
    requires f.name == "" && f.minPrice <= 0.0 && f.maxPrice > 0.0
    ensures ListScanFilter(f).expression == Some(MaxPriceCondition)
  {
    assert ConditionsOf(f) == [MaxPriceCondition];
  }

  // The meaning of a filter expression, for the three condition forms the builders write.

  predicate IsPrefix(pre: string, s: string) {
    |pre| <= |s| && s[..|pre|] == pre
  }

  /** contains(path, operand) on strings: operand occurs in the attribute as a substring. */
  predicate Contains(s: string, sub: string)
    decreases |s|
  {
    IsPrefix(sub, s) || (|s| > 0 && Contains(s[1..], sub))
  }

  /** The value a store evaluating one condition on product p computes. Any other condition
      text is rejected. */
  predicate EvalCondition(c: string, p: Product, names: map<string, string>, values: map<string, AttributeValue>) {
    if c == NameCondition then
      "#name" in names && names["#name"] == "name" && ":name" in values && values[":name"].S?
      && Contains(p.name, values[":name"].s)
    else if c == MinPriceCondition then
      ":min_price" in values && values[":min_price"].N? && p.price >= values[":min_price"].n
    else if c == MaxPriceCondition then
      ":max_price" in values && values[":max_price"].N? && p.price <= values[":max_price"].n
    else false
  }

  /** An AND of conditions holds when each one does. */
  predicate EvalConditions(cs: seq<string>, p: Product, names: map<string, string>, values: map<string, AttributeValue>) {
    forall i :: 0 <= i < |cs| ==> EvalCondition(cs[i], p, names, values)
  }

  /** What a list query promises of the products it admits. */
  predicate Matches(p: Product, f: ProductFilters) {
    && (f.name != "" ==> Contains(p.name, f.name))
    && (f.minPrice > 0.0 ==> p.price >= f.minPrice)
    && (f.maxPrice > 0.0 ==> p.price <= f.maxPrice)
  }

  /** The pushed-down conditions with their attribute maps admit exactly the products that
      contain the name filter and lie within the inclusive price bounds. */
  lemma FilterMeaning(f: ProductFilters, p: Product)
    ensures EvalConditions(ConditionsOf(f), p, NamesOf(f), ValuesOf(f)) <==> Matches(p, f)
  {
    var cs := ConditionsOf(f);
    var names, values := NamesOf(f), ValuesOf(f);
    if EvalConditions(cs, p, names, values) {
      if f.name != "" {
        var i :| 0 <= i < |cs| && cs[i] == NameCondition;
        assert EvalCondition(cs[i], p, names, values);
      }
      if f.minPrice > 0.0 {
        var i :| 0 <= i < |cs| && cs[i] == MinPriceCondition;
        assert EvalCondition(cs[i], p, names, values);
      }
      if f.maxPrice > 0.0 {
        var i :| 0 <= i < |cs| && cs[i] == MaxPriceCondition;
        assert EvalCondition(cs[i], p, names, values);
      }
    }
    if Matches(p, f) {
      forall i | 0 <= i < |cs| ensures EvalCondition(cs[i], p, names, values) {
        assert cs[i] in cs;
      }
    }
  }
}
