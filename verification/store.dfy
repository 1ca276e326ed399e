/** `OrdersStore::all_orders` from the scan result onward: the first pass over
    the items, then one order per `META` item. The second pass iterates a hash
    map, whose order is not specified; the model takes that order as the
    parameter `iter`, any enumeration of the `META` partition keys. */
module Store {
  import opened Results
  import opened Model
  import opened Items
  import opened Classifier
  import opened Scan
  import opened Assembly

  /** What the table scan hands over: a failed request, or a response whose
      item list may be absent. */
  datatype ScanOutput = ScanFailed | Scanned(items: Option<seq<Item>>)

  /** The items the store works on: those of a successful response, and none
      when the request failed or the response carries no item list. */
  function ScannedItems(s: ScanOutput): (items: seq<Item>)
    ensures s.Scanned? && s.items.Some? ==> items == s.items.value
    ensures |items| == 0 <==> s.ScanFailed? || s.items.None? || s.items.value == []
  {
    match s
    case ScanFailed => []
    case Scanned(None) => []
    case Scanned(Some(items)) => items
  }

  /** `keys` lists every element of `s` exactly once. */
  predicate Enumerates(keys: seq<string>, s: set<string>) {
    && (forall i, j :: 0 <= i < j < |keys| ==> keys[i] != keys[j])
    && (forall k :: k in keys ==> k in s)
    && (forall k :: k in s ==> k in keys)
  }

  /** The whole computation. On success there is one order per `META`
      partition key, in iteration order, and each total is the sum of its lines. */
  function AllOrders(parse: NumParser, items: seq<Item>, iter: seq<string>): (r: Result<seq<Order>, Error>)
    requires Enumerates(iter, KeysOf(items, MetaKind))
    ensures r.Success? ==> |r.value| == |iter| && forall o :: o in r.value ==> TotalConsistent(o)
  {
    var t :- FirstPass(parse, items);
    MetaKeysOfFirstPass(parse, items);
    BuildOrders(t, iter)
  }

  // ---------------------------------------------------------------------
  // The expected result, stated over the input sequence alone.

  /** The order for `pk` can be assembled: its partition has a customer and a
      product, and the last `META` item of it has an `N` id and an `S` date. */
  predicate Complete(items: seq<Item>, pk: string)
    requires pk in KeysOf(items, MetaKind)
  {
    var meta := items[LastOf(items, pk, MetaKind).value];
    && LastOf(items, pk, CustomerKind).Some?
    && LastOf(items, pk, ProductKind).Some?
    && HasN(meta, "id")
    && HasS(meta, "date")
  }

  /** No `unwrap` of the call panics. */
  predicate BatchOk(parse: NumParser, items: seq<Item>) {
    && AllWellFormed(parse, items)
    && forall pk :: pk in KeysOf(items, MetaKind) ==> Complete(items, pk)
  }

  /** The order the partition `pk` should produce: id and date from its last
      `META` item, the customer of its last `CUSTOMER#` item, the lines of all
      its `PRODUCT#` items in scan order, and their sum as total. */
  function ExpectedOrder(parse: NumParser, items: seq<Item>, pk: string): Order
    requires AllWellFormed(parse, items)
    requires pk in KeysOf(items, MetaKind) && Complete(items, pk)
  {
    var meta := items[LastOf(items, pk, MetaKind).value];
    var customerItem := items[LastOf(items, pk, CustomerKind).value];
    var products := ProductsOf(parse, items, pk);
    var rec := Decode(parse, customerItem).value;
    assert rec.CustomerRec? by {
      assert Describes(parse, customerItem, rec);
    }
    Order(meta["id"].n, meta["date"].s, Sum(products), rec.customer, products)
  }

  /** The second pass, one key at a time, against the expected order. */
  lemma AssembleMatchesExpected(parse: NumParser, items: seq<Item>, pk: string)
    requires AllWellFormed(parse, items)
    requires pk in KeysOf(items, MetaKind)
    ensures FirstPass(parse, items).Success?
    ensures pk in FirstPass(parse, items).value.metas
    ensures Assemble(FirstPass(parse, items).value, pk).Success? <==> Complete(items, pk)
    ensures Assemble(FirstPass(parse, items).value, pk).Success? ==>
      Assemble(FirstPass(parse, items).value, pk).value == ExpectedOrder(parse, items, pk)
  {
    FirstPassSucceeds(parse, items);
    FirstPassCustomers(parse, items, pk);
    FirstPassProducts(parse, items, pk);
    FirstPassMetas(parse, items, pk);
  }

  /** The main theorem: the call succeeds exactly when no `unwrap` panics, and
      then yields, for each key in iteration order, the expected order. */
  lemma AllOrdersSpec(parse: NumParser, items: seq<Item>, iter: seq<string>)
    requires Enumerates(iter, KeysOf(items, MetaKind))
    ensures AllOrders(parse, items, iter).Success? <==> BatchOk(parse, items)
    ensures BatchOk(parse, items) ==>
      forall i :: 0 <= i < |iter| ==> AllOrders(parse, items, iter).value[i] == ExpectedOrder(parse, items, iter[i])
  {
    FirstPassSucceeds(parse, items);
    if AllWellFormed(parse, items) {
      var t := FirstPass(parse, items).value;
      MetaKeysOfFirstPass(parse, items);
      forall pk | pk in KeysOf(items, MetaKind)
        ensures Assemble(t, pk).Success? <==> Complete(items, pk)
        ensures Assemble(t, pk).Success? ==> Assemble(t, pk).value == ExpectedOrder(parse, items, pk)
      {
        AssembleMatchesExpected(parse, items, pk);
      }
    }
  }

  /** A panic in the first pass is the panic of the first malformed item. */
  lemma AllOrdersFailsAtFirstBadItem(parse: NumParser, items: seq<Item>, iter: seq<string>, k: nat)
    requires Enumerates(iter, KeysOf(items, MetaKind))
    requires k < |items| && !WellFormed(parse, items[k])
    requires forall j :: 0 <= j < k ==> WellFormed(parse, items[j])
    ensures AllOrders(parse, items, iter) == Failure(Decode(parse, items[k]).error)
  {
    FirstPassFailsAtFirstBadItem(parse, items, k);
  }

  /** On success the orders correspond one to one with the `META` partition
      keys: as many orders as keys, each key's expected order among them, and
      nothing else. */
  lemma OneOrderPerMetaKey(parse: NumParser, items: seq<Item>, iter: seq<string>)
    requires Enumerates(iter, KeysOf(items, MetaKind))
    requires BatchOk(parse, items)
    ensures AllOrders(parse, items, iter).Success?
    ensures |AllOrders(parse, items, iter).value| == |KeysOf(items, MetaKind)|
    ensures forall pk :: pk in KeysOf(items, MetaKind) ==>
      exists i :: 0 <= i < |iter| && AllOrders(parse, items, iter).value[i] == ExpectedOrder(parse, items, pk)
    ensures forall o :: o in AllOrders(parse, items, iter).value ==>
      exists pk :: pk in KeysOf(items, MetaKind) && o == ExpectedOrder(parse, items, pk)
  {
    AllOrdersSpec(parse, items, iter);
    EnumerationLength(iter, KeysOf(items, MetaKind));
    var orders := AllOrders(parse, items, iter).value;
    EveryMetaKeyHasItsOrder(parse, items, iter, orders);
    EveryOrderHasItsMetaKey(parse, items, iter, orders);
  }

  /** Every `META` key's expected order appears in the output. */
  lemma EveryMetaKeyHasItsOrder(parse: NumParser, items: seq<Item>, iter: seq<string>, orders: seq<Order>)
    requires Enumerates(iter, KeysOf(items, MetaKind))
    requires BatchOk(parse, items)
    requires |orders| == |iter|
    requires forall i :: 0 <= i < |iter| ==> orders[i] == ExpectedOrder(parse, items, iter[i])
    ensures forall pk :: pk in KeysOf(items, MetaKind) ==>
      exists i :: 0 <= i < |iter| && orders[i] == ExpectedOrder(parse, items, pk)
  {
    forall pk | pk in KeysOf(items, MetaKind)
      ensures exists i :: 0 <= i < |iter| && orders[i] == ExpectedOrder(parse, items, pk)
    {
      var i :| 0 <= i < |iter| && iter[i] == pk;
      assert orders[i] == ExpectedOrder(parse, items, iter[i]);
    }
  }

  /** Every output order is the expected order of some `META` key. */
  lemma EveryOrderHasItsMetaKey(parse: NumParser, items: seq<Item>, iter: seq<string>, orders: seq<Order>)
    requires Enumerates(iter, KeysOf(items, MetaKind))
    requires BatchOk(parse, items)
    requires |orders| == |iter|
    requires forall i :: 0 <= i < |iter| ==> orders[i] == ExpectedOrder(parse, items, iter[i])
    ensures forall o :: o in orders ==>
      exists pk :: pk in KeysOf(items, MetaKind) && o == ExpectedOrder(parse, items, pk)
  {
    forall o | o in orders
      ensures exists pk :: pk in KeysOf(items, MetaKind) && o == ExpectedOrder(parse, items, pk)
    {
      var i :| 0 <= i < |orders| && orders[i] == o;
      assert iter[i] in iter;
      assert o == ExpectedOrder(parse, items, iter[i]);
    }
  }

  /** Which enumeration of the hash map the second pass follows changes
      neither whether the call succeeds nor the multiset of orders it returns. */
  lemma IterationOrderIrrelevant(parse: NumParser, items: seq<Item>, iter1: seq<string>, iter2: seq<string>)
    requires Enumerates(iter1, KeysOf(items, MetaKind))
    requires Enumerates(iter2, KeysOf(items, MetaKind))
    ensures AllOrders(parse, items, iter1).Success? <==> AllOrders(parse, items, iter2).Success?
    ensures AllOrders(parse, items, iter1).Success? ==>
      multiset(AllOrders(parse, items, iter1).value) == multiset(AllOrders(parse, items, iter2).value)
  {
    AllOrdersSpec(parse, items, iter1);
    AllOrdersSpec(parse, items, iter2);
    if BatchOk(parse, items) {
      var keys := KeysOf(items, MetaKind);
      var expected := map pk | pk in keys :: ExpectedOrder(parse, items, pk);
      EnumerationsArePermutations(iter1, iter2, keys);
      MultisetOfLookups(expected, iter1, iter2, AllOrders(parse, items, iter1).value, AllOrders(parse, items, iter2).value);
    }
  }

  /** An item whose sort key is of no known kind, inserted anywhere in the
      scan, changes neither the `META` keys nor the result. */
  lemma IgnoredItemHasNoEffect(parse: NumParser, items: seq<Item>, k: nat, x: Item, iter: seq<string>)
    requires k <= |items|
    requires Routed(x, Ignored)
    requires Enumerates(iter, KeysOf(items, MetaKind))
    ensures KeysOf(items[..k] + [x] + items[k..], MetaKind) == KeysOf(items, MetaKind)
    ensures AllOrders(parse, items[..k] + [x] + items[k..], iter) == AllOrders(parse, items, iter)
  {
    var s := items[..k] + [x] + items[k..];
    assert forall i :: 0 <= i < k ==> s[i] == items[i];
    assert forall i :: k <= i < |items| ==> s[i + 1] == items[i];
    assert s[k] == x;
    forall pk
      ensures pk in KeysOf(s, MetaKind) <==> pk in KeysOf(items, MetaKind)
    {
      assert !RoutesTo(s[k], pk, MetaKind);
      if pk in KeysOf(items, MetaKind) {
        var i :| 0 <= i < |items| && RoutesTo(items[i], pk, MetaKind);
        if i < k {
          assert RoutesTo(s[i], pk, MetaKind);
        } else {
          assert RoutesTo(s[i + 1], pk, MetaKind);
        }
      }
      if pk in KeysOf(s, MetaKind) {
        var i :| 0 <= i < |s| && RoutesTo(s[i], pk, MetaKind);
        if i < k {
          assert RoutesTo(items[i], pk, MetaKind);
        } else {
          assert RoutesTo(items[i - 1], pk, MetaKind);
        }
      }
    }
    FirstPassIgnoresSkipped(parse, items, k, x);
  }

  /** A failed scan, or a response without items, yields no orders. */
  lemma UnusableScanYieldsNoOrders(parse: NumParser, s: ScanOutput, iter: seq<string>)
    requires s.ScanFailed? || s.items.None?
    requires Enumerates(iter, KeysOf(ScannedItems(s), MetaKind))
    ensures AllOrders(parse, ScannedItems(s), iter) == Success([])
  {
    assert ScannedItems(s) == [];
    assert KeysOf([], MetaKind) == {};
    EnumerationLength(iter, {});
  }

  /** The first loop of the source over its three mutable maps: a customer
      or a `META` item is inserted under its key, a product line is pushed
      onto its key's list, created empty when absent; the loop stops at the
      first panic. */
  method ScanLoop(parse: NumParser, items: seq<Item>) returns (r: Result<Tables, Error>)
    ensures r == FirstPass(parse, items)
  {
    var customers: map<string, Customer> := map[];
    var products: map<string, seq<ProductQuantity>> := map[];
    var metas: map<string, Item> := map[];
    var i := 0;
    while i < |items|
      invariant 0 <= i <= |items|
      invariant FirstPass(parse, items[..i]) == Success(Tables(customers, products, metas))
    {
      var rec := Decode(parse, items[i]);
      FirstPassStep(parse, items, i, Tables(customers, products, metas));
      if rec.Failure? {
        FirstPassPrefixFailure(parse, items, i + 1);
        return Failure(rec.error);
      }
      match rec.value {
        case CustomerRec(pk, c) =>
          customers := customers[pk := c];
        case ProductRec(pk, pq) =>
          var list := if pk in products then products[pk] else [];
          products := products[pk := list + [pq]];
        case MetaRec(pk, item) =>
          metas := metas[pk := item];
        case Skipped =>
      }
      i := i + 1;
    }
    assert items[..i] == items;
    r := Success(Tables(customers, products, metas));
  }

  /** The second loop of the source, assembling the orders key by key in
      iteration order; it stops at the first panic. */
  method AssembleLoop(t: Tables, iter: seq<string>) returns (r: Result<seq<Order>, Error>)
    requires forall i :: 0 <= i < |iter| ==> iter[i] in t.metas
    ensures r == BuildOrders(t, iter)
  {
    var orders: seq<Order> := [];
    var k := 0;
    while k < |iter|
      invariant 0 <= k <= |iter|
      invariant |orders| == k
      invariant forall j :: 0 <= j < k ==> Assemble(t, iter[j]) == Success(orders[j])
    {
      var o := Assemble(t, iter[k]);
      if o.Failure? {
        assert BuildOrders(t, iter) == Failure(o.error);
        return Failure(o.error);
      }
      orders := orders + [o.value];
      k := k + 1;
    }
    assert BuildOrders(t, iter).Success?;
    assert BuildOrders(t, iter).value == orders;
    r := Success(orders);
  }

  /** `all_orders` with its two loops. */
  method AllOrdersLoop(parse: NumParser, items: seq<Item>, iter: seq<string>) returns (r: Result<seq<Order>, Error>)
    requires Enumerates(iter, KeysOf(items, MetaKind))
    ensures r == AllOrders(parse, items, iter)
  {
    var tables := ScanLoop(parse, items);
    if tables.Failure? {
      return Failure(tables.error);
    }
    MetaKeysOfFirstPass(parse, items);
    r := AssembleLoop(tables.value, iter);
  }

  // ---------------------------------------------------------------------
  // Worked examples.

  /** A number parser that knows the two texts the examples use. */
  function ExampleParse(text: string): Option<real> {
    if text == "1.5" then Some(1.5) else if text == "1" then Some(1.0) else None
  }

  const JohnDoe: Item := map["PK" := S("1"), "SK" := S("CUSTOMER#1"),
                             "fullName" := S("John Doe"), "email" := S("john@company.com")]
  const Milk: Item := map["PK" := S("1"), "SK" := S("PRODUCT#1"),
                          "name" := S("Milk"), "price" := N("1.5"), "quantity" := N("1")]
  const OrderOne: Item := map["PK" := S("1"), "SK" := S("META"),
                              "id" := N("1"), "date" := S("2021-01-01 12:24:00")]

  const JohnDoeCustomer := Customer("John Doe", "john@company.com")
  const MilkLine := ProductQuantity(Product("Milk", 1.5), 1.0)
  const ExampleTables := Tables(map["1" := JohnDoeCustomer], map["1" := [MilkLine]], map["1" := OrderOne])

  /** The first pass over the example fills each table with one entry for "1". */
  lemma ExampleFirstPass()
    ensures FirstPass(ExampleParse, [JohnDoe, Milk, OrderOne]) == Success(ExampleTables)
  {
    var items := [JohnDoe, Milk, OrderOne];
    assert Decode(ExampleParse, JohnDoe) == Success(CustomerRec("1", JohnDoeCustomer));
    assert Decode(ExampleParse, Milk) == Success(ProductRec("1", MilkLine));
    assert Decode(ExampleParse, OrderOne) == Success(MetaRec("1", OrderOne));
    var t1 := Tables(map["1" := JohnDoeCustomer], map[], map[]);
    var t2 := t1.(products := map["1" := [MilkLine]]);
    assert [JohnDoe][..0] == [];
    assert FirstPass(ExampleParse, [JohnDoe]) == Success(t1);
    assert [JohnDoe, Milk][..1] == [JohnDoe];
    assert ListFor(t1.products, "1") + [MilkLine] == [MilkLine];
    assert FirstPass(ExampleParse, [JohnDoe, Milk]) == Success(t2);
    assert items[..2] == [JohnDoe, Milk];
  }

  /** A customer, one product and the order metadata under one partition key
      make exactly one order. */
  lemma ExampleSingleOrder()
    ensures KeysOf([JohnDoe, Milk, OrderOne], MetaKind) == {"1"}
    ensures AllOrders(ExampleParse, [JohnDoe, Milk, OrderOne], ["1"]) ==
      Success([Order("1", "2021-01-01 12:24:00", 1.5, Customer("John Doe", "john@company.com"),
                     [ProductQuantity(Product("Milk", 1.5), 1.0)])])
  {
    var items := [JohnDoe, Milk, OrderOne];
    assert RoutesTo(OrderOne, "1", MetaKind);
    assert items[2] == OrderOne;
    assert !Routed(JohnDoe, MetaKind) && !Routed(Milk, MetaKind);
    ExampleFirstPass();
    assert Total([MilkLine]) == 1.5 by {
      assert [MilkLine][..0] == [];
    }
    var order := Order("1", "2021-01-01 12:24:00", 1.5, JohnDoeCustomer, [MilkLine]);
    assert Assemble(ExampleTables, "1") == Success(order);
    var built := BuildOrders(ExampleTables, ["1"]);
    assert built.Success? && |built.value| == 1;
    assert Success(built.value[0]) == Assemble(ExampleTables, ["1"][0]);
    assert built.value == [order];
  }

  /** A price stored with the string tag panics the whole call; the product is
      not skipped. */
  lemma ExampleStringPriceFails()
    ensures KeysOf([JohnDoe, Milk["price" := S("abc")], OrderOne], MetaKind) == {"1"}
    ensures AllOrders(ExampleParse, [JohnDoe, Milk["price" := S("abc")], OrderOne], ["1"])
      == Failure(WrongType("price"))
  {
    var bad := Milk["price" := S("abc")];
    var items := [JohnDoe, bad, OrderOne];
    assert RoutesTo(OrderOne, "1", MetaKind);
    assert items[2] == OrderOne;
    assert !Routed(JohnDoe, MetaKind) && !Routed(bad, MetaKind);
    assert WellFormed(ExampleParse, items[0]);
    assert Decode(ExampleParse, bad) == Failure(WrongType("price"));
    FirstPassFailsAtFirstBadItem(ExampleParse, items, 1);
  }

  /** Order metadata without a product item panics in the second pass. */
  lemma ExampleOrderWithoutProductsFails()
    ensures KeysOf([JohnDoe, OrderOne], MetaKind) == {"1"}
    ensures AllOrders(ExampleParse, [JohnDoe, OrderOne], ["1"]) == Failure(NoProducts("1"))
  {
    var items := [JohnDoe, OrderOne];
    assert RoutesTo(OrderOne, "1", MetaKind);
    assert items[1] == OrderOne;
    assert !Routed(JohnDoe, MetaKind);
    assert Decode(ExampleParse, JohnDoe) == Success(CustomerRec("1", Customer("John Doe", "john@company.com")));
    assert Decode(ExampleParse, OrderOne) == Success(MetaRec("1", OrderOne));
    var t1 := Tables(map["1" := Customer("John Doe", "john@company.com")], map[], map[]);
    var t := t1.(metas := map["1" := OrderOne]);
    assert [JohnDoe][..0] == [];
    assert FirstPass(ExampleParse, [JohnDoe]) == Success(t1);
    assert items[..1] == [JohnDoe];
    assert FirstPass(ExampleParse, items) == Success(t);
  }

  // ---------------------------------------------------------------------
  // Enumerations of a key set.

  /** An enumeration has one entry per element. */
  lemma {:induction false} EnumerationLength(keys: seq<string>, s: set<string>)
    requires Enumerates(keys, s)
    ensures |keys| == |s|
  {
    if |keys| == 0 {
      assert s == {};
    } else {
      var rest := keys[1..];
      assert forall k :: k in rest ==> k in keys;
      assert Enumerates(rest, s - {keys[0]}) by {
        forall k | k in s - {keys[0]} ensures k in rest {
          var i :| 0 <= i < |keys| && keys[i] == k;
          assert i != 0;
          assert rest[i - 1] == k;
        }
        forall k | k in rest ensures k != keys[0] {
          var i :| 0 <= i < |rest| && rest[i] == k;
          assert keys[i + 1] == k;
        }
      }
      EnumerationLength(rest, s - {keys[0]});
    }
  }

  /** In a sequence without repetitions every element occurs once. */
  lemma {:induction false} DistinctMultiplicity(keys: seq<string>, k: string)
    requires forall i, j :: 0 <= i < j < |keys| ==> keys[i] != keys[j]
    ensures multiset(keys)[k] == if k in keys then 1 else 0
  {
    if |keys| > 0 {
      var rest := keys[1..];
      assert keys == [keys[0]] + rest;
      DistinctMultiplicity(rest, k);
      if k == keys[0] {
        assert k !in rest by {
          forall i | 0 <= i < |rest| ensures rest[i] != k {
            assert rest[i] == keys[i + 1];
          }
        }
      }
    }
  }

  /** Two enumerations of the same set are permutations of each other. */
  lemma EnumerationsArePermutations(a: seq<string>, b: seq<string>, s: set<string>)
    requires Enumerates(a, s) && Enumerates(b, s)
    ensures multiset(a) == multiset(b)
  {
    forall k ensures multiset(a)[k] == multiset(b)[k] {
      DistinctMultiplicity(a, k);
      DistinctMultiplicity(b, k);
    }
  }

  /** Looking the entries of two permuted key sequences up in one map gives
      permuted value sequences. */
  lemma {:induction false} MultisetOfLookups(m: map<string, Order>, a: seq<string>, b: seq<string>, x: seq<Order>, y: seq<Order>)
    requires multiset(a) == multiset(b)
    requires |x| == |a| && |y| == |b|
    requires forall i :: 0 <= i < |a| ==> a[i] in m && x[i] == m[a[i]]
    requires forall i :: 0 <= i < |b| ==> b[i] in m && y[i] == m[b[i]]
    ensures multiset(x) == multiset(y)
    decreases |a|
  {
    if |a| == 0 {
      assert |b| == |multiset(b)| == 0;
    } else {
      var k := a[0];
      assert k in multiset(b);
      var j :| 0 <= j < |b| && b[j] == k;
      var b' := Without(b, j);
      var y' := Without(y, j);
      var a' := Without(a, 0);
      var x' := Without(x, 0);
      assert multiset(a') == multiset(b') by {
        forall z ensures multiset(a')[z] == multiset(b')[z] {
          assert (multiset(a') + multiset{k})[z] == (multiset(b') + multiset{k})[z];
        }
      }
      MultisetOfLookups(m, a', b', x', y');
      assert x[0] == y[j];
    }
  }

  /** The sequence with its `j`th element taken out. */
  function Without<T>(s: seq<T>, j: nat): (r: seq<T>)
    requires j < |s|
    ensures |r| == |s| - 1
    ensures forall i :: 0 <= i < j ==> r[i] == s[i]
    ensures forall i :: j <= i < |r| ==> r[i] == s[i + 1]
    ensures multiset(r) + multiset{s[j]} == multiset(s)
  {
    assert s == s[..j] + [s[j]] + s[j + 1..];
    s[..j] + s[j + 1..]
  }
}
