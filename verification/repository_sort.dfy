/**
 * The in-memory sort of the repository's list query (sortProducts in
 * internal/adapters/repository/dynamodb.go), modelled as the code is written.
 *
 * The inner loop of the insertion sort tests compare(j, j+1) instead of comparing
 * against the saved key, and the ascending comparator is `<`. Because the shifts copy
 * sorted[j] into sorted[j+1], every test the inner loop makes is, in effect, a test on
 * two neighbours of the sequence as it was when the outer step began. So outer step i
 * finds the start k of the longest run s[k], ..., s[i] in which each element "compares"
 * to its right neighbour, and rotates s[k..i+1] right by one place. The result is a
 * permutation of the input, but not an ordered one.
 */
module RepositorySort {
  import opened Domain

  /** Go's `<` on strings: lexicographic, a proper prefix being smaller. Go compares the UTF-8
      bytes; comparing code points one by one gives the same order. */
  predicate LexLess(a: string, b: string)
    ensures LexLess(a, b) ==> a != b
    ensures |a| < |b| && b[..|a|] == a ==> LexLess(a, b)
    decreases |a|
  {
    if |a| == 0 then |b| > 0
    else if |b| == 0 then false
    else if a[0] != b[0] then a[0] < b[0]
    else LexLess(a[1..], b[1..])
  }

  /** LexLess is a strict total order: irreflexive, asymmetric and connected. */
  lemma {:induction false} LexLessStrictTotal(a: string, b: string)
    ensures !LexLess(a, a)
    ensures LexLess(a, b) ==> !LexLess(b, a)
    ensures a != b ==> LexLess(a, b) || LexLess(b, a)
    decreases |a|
  {
    if |a| > 0 && |b| > 0 {
      LexLessStrictTotal(a[1..], b[1..]);
      if a[0] == b[0] && a != b {
        assert a == [a[0]] + a[1..] && b == [b[0]] + b[1..];
      }
    } else if |a| > 0 {
      LexLessStrictTotal(a[1..], a[1..]);
    }
  }

  /** LexLess is transitive. */
  lemma {:induction false} LexLessTransitive(a: string, b: string, c: string)
    requires LexLess(a, b) && LexLess(b, c)
    ensures LexLess(a, c)
    decreases |a|
  {
    if |a| > 0 && a[0] == b[0] && b[0] == c[0] {
      LexLessTransitive(a[1..], b[1..], c[1..]);
    }
  }

  /** The product field a sort uses. */
  datatype SortField = ByName | ByPrice | ByCreatedAt

  /** A sort field and a direction. */
  datatype Ordering = Ordering(field: SortField, descending: bool)

  /** The `switch sortBy`: "name" and "price" pick those fields; every other value, including
      "created_at", "updated_at" and strings the handler never lets through, sorts by CreatedAt.
      Only "desc" is descending. */
  function OrderingOf(sortBy: string, sortOrder: string): (o: Ordering)
    ensures o.field == ByName <==> sortBy == "name"
    ensures o.field == ByPrice <==> sortBy == "price"
    ensures o.field == ByCreatedAt <==> sortBy != "name" && sortBy != "price"
    ensures o.descending <==> sortOrder == "desc"
  {
    var field := if sortBy == "name" then ByName else if sortBy == "price" then ByPrice else ByCreatedAt;
    Ordering(field, sortOrder == "desc")
  }

  /** "updated_at" sorts exactly as "created_at" does. */
  lemma UpdatedAtSortsByCreatedAt(sortOrder: string)
    ensures OrderingOf("updated_at", sortOrder) == OrderingOf("created_at", sortOrder)
    ensures OrderingOf("updated_at", sortOrder).field == ByCreatedAt
  {
  }

  /** The comparator `compare`: for "desc" the left element is greater, otherwise smaller.
      Two products with the same key never compare, in either direction. */
  predicate Compare(a: Product, b: Product, o: Ordering)
    ensures Compare(a, b, o) && o.field == ByName ==> a.name != b.name
    ensures Compare(a, b, o) && o.field == ByPrice ==> a.price != b.price
    ensures Compare(a, b, o) && o.field == ByCreatedAt ==> a.createdAt != b.createdAt
  {
    match o.field
    case ByName => if o.descending then LexLess(b.name, a.name) else LexLess(a.name, b.name)
    case ByPrice => if o.descending then a.price > b.price else a.price < b.price
    case ByCreatedAt => if o.descending then a.createdAt > b.createdAt else a.createdAt < b.createdAt
  }

  /** "desc" is "asc" with the two products exchanged. */
  lemma DescendingMirrorsAscending(a: Product, b: Product, field: SortField)
    ensures Compare(a, b, Ordering(field, true)) <==> Compare(b, a, Ordering(field, false))
  {
  }

  /** Where outer step i stops shifting: the least k such that every neighbour pair in
      s[k..i+1] compares, the inner loop leaving at k - 1 either at the front or at a pair
      that does not compare. */
  function ChainStart(s: seq<Product>, i: nat, o: Ordering): (k: nat)
    requires i < |s|
    ensures k <= i
    decreases i
  {
    if i == 0 then 0
    else if Compare(s[i - 1], s[i], o) then ChainStart(s, i - 1, o)
    else i
  }

  /** ChainStart is where the inner loop stops: every neighbour pair from k to i compares,
      and the pair just before k does not. */
  lemma {:induction false} ChainStartStops(s: seq<Product>, i: nat, o: Ordering)
    requires i < |s|
    ensures var k := ChainStart(s, i, o);
      && (forall m :: k <= m < i ==> Compare(s[m], s[m + 1], o))
      && (k == 0 || !Compare(s[k - 1], s[k], o))
    decreases i
  {
    if i > 0 && Compare(s[i - 1], s[i], o) {
      ChainStartStops(s, i - 1, o);
    }
  }

  /** The two conditions of ChainStart fix it uniquely. */
  lemma {:induction false} ChainStartUnique(s: seq<Product>, i: nat, o: Ordering, k: nat)
    requires k <= i < |s|
    requires forall m :: k <= m < i ==> Compare(s[m], s[m + 1], o)
    requires k == 0 || !Compare(s[k - 1], s[k], o)
    ensures ChainStart(s, i, o) == k
    decreases i
  {
    if i > k {
      assert Compare(s[i - 1], s[i], o);
      ChainStartUnique(s, i - 1, o, k);
    }
  }

  /** Moves s[i] to position k and shifts s[k..i] one place to the right. */
  function RotateRight(s: seq<Product>, k: nat, i: nat): (r: seq<Product>)
    requires k <= i < |s|
    ensures |r| == |s|
  {
    s[..k] + [s[i]] + s[k..i] + s[i + 1..]
  }

  /** Position by position: s[i] lands at k, s[k..i] moves one place right, the rest stays. */
  lemma RotateRightPositions(s: seq<Product>, k: nat, i: nat)
    requires k <= i < |s|
    ensures var r := RotateRight(s, k, i);
      && (forall m :: 0 <= m < k ==> r[m] == s[m])
      && r[k] == s[i]
      && (forall m :: k < m <= i ==> r[m] == s[m - 1])
      && (forall m :: i < m < |s| ==> r[m] == s[m])
  {
  }

  /** A rotation is a permutation. */
  lemma RotateRightPermutes(s: seq<Product>, k: nat, i: nat)
    requires k <= i < |s|
    ensures multiset(RotateRight(s, k, i)) == multiset(s)
  {
    assert s == s[..k] + s[k..i] + [s[i]] + s[i + 1..];
  }

  /** A sequence that agrees with the rotation position by position is the rotation. */
  lemma RotateRightByPositions(s: seq<Product>, r: seq<Product>, k: nat, i: nat)
    requires k <= i < |s| && |r| == |s|
    requires forall m :: 0 <= m < k ==> r[m] == s[m]
    requires r[k] == s[i]
    requires forall m :: k < m <= i ==> r[m] == s[m - 1]
    requires forall m :: i < m < |s| ==> r[m] == s[m]
    ensures r == RotateRight(s, k, i)
  {
    RotateRightPositions(s, k, i);
  }

  /** Outer step i of the insertion loop. */
  function InsertStep(s: seq<Product>, i: nat, o: Ordering): (r: seq<Product>)
    requires i < |s|
    ensures |r| == |s|
  {
    RotateRight(s, ChainStart(s, i, o), i)
  }

  /** The sequence after outer steps 1, ..., n - 1. */
  function Passes(s: seq<Product>, n: nat, o: Ordering): (r: seq<Product>)
    requires 1 <= n <= |s|
    ensures |r| == |s|
    decreases n
  {
    if n == 1 then s else InsertStep(Passes(s, n - 1, o), n - 1, o)
  }

  /** One more outer step. */
  lemma PassesUnfold(s: seq<Product>, n: nat, o: Ordering)
    requires 1 <= n < |s|
    ensures Passes(s, n + 1, o) == InsertStep(Passes(s, n, o), n, o)
  {
  }

  /** What sortProducts returns: short inputs as they are, longer ones after all outer steps. */
  function SortOutcome(s: seq<Product>, o: Ordering): seq<Product>
  {
    if |s| <= 1 then s else Passes(s, |s|, o)
  }

  lemma {:induction false} PassesPermutes(s: seq<Product>, n: nat, o: Ordering)
    requires 1 <= n <= |s|
    ensures multiset(Passes(s, n, o)) == multiset(s)
    decreases n
  {
    if n > 1 {
      PassesPermutes(s, n - 1, o);
      var t := Passes(s, n - 1, o);
      RotateRightPermutes(t, ChainStart(t, n - 1, o), n - 1);
    }
  }

  /** The result is a permutation of the input, of the same length. */
  lemma SortOutcomePermutes(s: seq<Product>, o: Ordering)
    ensures |SortOutcome(s, o)| == |s|
    ensures multiset(SortOutcome(s, o)) == multiset(s)
  {
    if |s| > 1 {
      PassesPermutes(s, |s|, o);
    }
  }

  /** Every product of the result is a product of the input and conversely. */
  lemma SortOutcomeMembers(s: seq<Product>, o: Ordering, p: Product)
    ensures p in SortOutcome(s, o) <==> p in s
  {
    SortOutcomePermutes(s, o);
    assert p in SortOutcome(s, o) <==> p in multiset(SortOutcome(s, o));
  }

  /** Two products where the left one compares come out swapped: an "asc" sort of an
      ascending pair reverses it. */
  lemma PairThatComparesIsSwapped(a: Product, b: Product, o: Ordering)
    requires Compare(a, b, o)
    ensures SortOutcome([a, b], o) == [b, a]
  {
    assert ChainStart([a, b], 1, o) == 0;
    assert Passes([a, b], 1, o) == [a, b];
    assert SortOutcome([a, b], o) == RotateRight([a, b], 0, 1);
  }

  /** Two products where the left one does not compare stay as they are. */
  lemma PairThatDoesNotCompareIsKept(a: Product, b: Product, o: Ordering)
    requires !Compare(a, b, o)
    ensures SortOutcome([a, b], o) == [a, b]
  {
    assert ChainStart([a, b], 1, o) == 1;
    assert Passes([a, b], 1, o) == [a, b];
    assert SortOutcome([a, b], o) == RotateRight([a, b], 1, 1);
  }

  /** Three products with a compares to b and to c, and b not to a, come out as [b, c, a]. */
  lemma TripleRotates(a: Product, b: Product, c: Product, o: Ordering)
    requires Compare(a, b, o) && Compare(a, c, o) && !Compare(b, a, o)
    ensures SortOutcome([a, b, c], o) == [b, c, a]
  {
    var s := [a, b, c];
    assert ChainStart(s, 1, o) == 0;
    var t := Passes(s, 2, o);
    assert t == [b, a, c];
    ChainStartUnique(t, 2, o, 1);
    assert Passes(s, 3, o) == RotateRight(t, 1, 2);
  }

  function PricedAt(id: string, price: real): Product {
    Product(id, id, "", price, 0, 0)
  }

  /** Prices [1, 2] sorted "asc" come out [2, 1]: the result is not ascending. */
  lemma AscendingPairComesOutDescending()
    ensures SortOutcome([PricedAt("a", 1.0), PricedAt("b", 2.0)], OrderingOf("price", "asc"))
         == [PricedAt("b", 2.0), PricedAt("a", 1.0)]
  {
    PairThatComparesIsSwapped(PricedAt("a", 1.0), PricedAt("b", 2.0), OrderingOf("price", "asc"));
  }

  /** Prices [2, 1] sorted "desc" come out [1, 2]: the result is not descending. */
  lemma DescendingPairComesOutAscending()
    ensures SortOutcome([PricedAt("a", 2.0), PricedAt("b", 1.0)], OrderingOf("price", "desc"))
         == [PricedAt("b", 1.0), PricedAt("a", 2.0)]
  {
    PairThatComparesIsSwapped(PricedAt("a", 2.0), PricedAt("b", 1.0), OrderingOf("price", "desc"));
  }

  /** Prices [1, 2, 3] sorted "asc" come out [2, 3, 1]. */
  lemma AscendingTripleComesOutRotated()
    ensures SortOutcome([PricedAt("a", 1.0), PricedAt("b", 2.0), PricedAt("c", 3.0)], OrderingOf("price", "asc"))
         == [PricedAt("b", 2.0), PricedAt("c", 3.0), PricedAt("a", 1.0)]
  {
    TripleRotates(PricedAt("a", 1.0), PricedAt("b", 2.0), PricedAt("c", 3.0), OrderingOf("price", "asc"));
  }

  /** One outer step of the insertion loop (dynamodb.go:266-272), on the working copy. */
  method InsertionStep(sorted: array<Product>, i: nat, o: Ordering)
    requires 1 <= i < sorted.Length
    modifies sorted
    ensures sorted[..] == InsertStep(old(sorted[..]), i, o)
  {
    ghost var t := sorted[..];
    var key := sorted[i];
    var j := i - 1;
    while j >= 0 && Compare(sorted[j], sorted[j + 1], o)
      invariant -1 <= j <= i - 1
      invariant forall m :: 0 <= m <= j ==> sorted[m] == t[m]
      invariant sorted[j + 1] == t[j + 1]
      invariant forall m :: j + 2 <= m <= i ==> sorted[m] == t[m - 1]
      invariant forall m :: i < m < sorted.Length ==> sorted[m] == t[m]
      invariant ChainStart(t, j + 1, o) == ChainStart(t, i, o)
      decreases j
    {
      sorted[j + 1] := sorted[j];
      j := j - 1;
    }
    sorted[j + 1] := key;
    RotateRightByPositions(t, sorted[..], j + 1, i);
  }

  /** make followed by copy: a fresh array holding the products. */
  method CopyOf(products: seq<Product>) returns (a: array<Product>)
    ensures fresh(a) && a[..] == products
  {
    a := new Product[|products|];
    for m := 0 to |products|
      invariant forall n :: 0 <= n < m ==> a[n] == products[n]
    {
      a[m] := products[m];
    }
  }

  /** sortProducts: the loop runs on a copy of the input, so the caller's slice is never
      written. */
  method SortProducts(products: seq<Product>, sortBy: string, sortOrder: string) returns (r: seq<Product>)
    ensures r == SortOutcome(products, OrderingOf(sortBy, sortOrder))
    ensures |products| <= 1 ==> r == products
  {
    if |products| <= 1 {
      return products;
    }
    var o := OrderingOf(sortBy, sortOrder);
    var sorted := CopyOf(products);
    var i := 1;
    while i < sorted.Length
      invariant 1 <= i <= sorted.Length == |products|
      invariant sorted[..] == Passes(products, i, o)
    {
      InsertionStep(sorted, i, o);
      PassesUnfold(products, i, o);
      i := i + 1;
    }
    r := sorted[..];
    assert r == Passes(products, |products|, o) == SortOutcome(products, o);
  }
}
