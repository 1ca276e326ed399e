/** The first pass of the store: every scanned item, in scan order, is decoded
    and routed by its sort key into one of three tables keyed by the
    partition key `PK`. */
module Scan {
  import opened Results
  import opened Model
  import opened Items
  import opened Classifier

  /** What one item contributes to the tables once its fields are read. */
  datatype Record =
    | CustomerRec(pk: string, customer: Customer)
    | ProductRec(pk: string, line: ProductQuantity)
    | MetaRec(pk: string, item: Item)
    | Skipped

  /** The item has string `PK` and `SK`, and `SK` routes it to `kind`. */
  predicate Routed(item: Item, kind: Kind) {
    HasS(item, "PK") && HasS(item, "SK") && Classify(item["SK"].s) == kind
  }

  predicate RoutesTo(item: Item, pk: string, kind: Kind) {
    Routed(item, kind) && item["PK"].s == pk
  }

  /** The item can be processed without a panic: string `PK` and `SK`, and
      the fields its kind needs, with the right tags and parsable numbers. */
  predicate WellFormed(parse: NumParser, item: Item) {
    && HasS(item, "PK")
    && HasS(item, "SK")
    && match Classify(item["SK"].s)
       case CustomerKind => HasS(item, "fullName") && HasS(item, "email")
       case ProductKind =>
         HasS(item, "name") && HasNum(parse, item, "price") && HasNum(parse, item, "quantity")
       case _ => true
  }

  predicate AllWellFormed(parse: NumParser, items: seq<Item>) {
    forall i :: 0 <= i < |items| ==> WellFormed(parse, items[i])
  }

  /** The record faithfully reflects the item's attributes. */
  predicate Describes(parse: NumParser, item: Item, rec: Record) {
    match rec
    case CustomerRec(pk, c) =>
      && RoutesTo(item, pk, CustomerKind)
      && "fullName" in item && item["fullName"] == S(c.fullName)
      && "email" in item && item["email"] == S(c.email)
    case ProductRec(pk, pq) =>
      && RoutesTo(item, pk, ProductKind)
      && "name" in item && item["name"] == S(pq.product.name)
      && HasN(item, "price") && parse(item["price"].n) == Some(pq.product.price)
      && HasN(item, "quantity") && parse(item["quantity"].n) == Some(pq.quantity)
    case MetaRec(pk, m) =>
      RoutesTo(item, pk, MetaKind) && m == item
    case Skipped =>
      HasS(item, "PK") && HasS(item, "SK") && Classify(item["SK"].s) == Ignored
  }

  /** Reads one item the way the loop body does: `PK`, then `SK`, then the
      fields of its kind in source order; a `META` item is kept raw and an
      item of no known kind contributes nothing. */
  function Decode(parse: NumParser, item: Item): (r: Result<Record, Error>)
    ensures r.Success? <==> WellFormed(parse, item)
    ensures r.Success? ==> Describes(parse, item, r.value)
    ensures !HasS(item, "PK") ==> r == Failure(TagError(item, "PK"))
    ensures HasS(item, "PK") && !HasS(item, "SK") ==> r == Failure(TagError(item, "SK"))
  {
    var pk :- GetS(item, "PK");
    var sk :- GetS(item, "SK");
    match Classify(sk)
    case CustomerKind =>
      var fullName :- GetS(item, "fullName");
      var email :- GetS(item, "email");
      Success(CustomerRec(pk, Customer(fullName, email)))
    case ProductKind =>
      var name :- GetS(item, "name");
      var price :- GetNum(parse, item, "price");
      var quantity :- GetNum(parse, item, "quantity");
      Success(ProductRec(pk, ProductQuantity(Product(name, price), quantity)))
    case MetaKind =>
      Success(MetaRec(pk, item))
    case Ignored =>
      Success(Skipped)
  }

  /** The three maps of the first pass. */
  datatype Tables = Tables(
    customers: map<string, Customer>,
    products: map<string, seq<ProductQuantity>>,
    metas: map<string, Item>)

  const NoTables := Tables(map[], map[], map[])

  /** The product list stored for `pk`, the empty list when there is none
      (the `or_insert(vec![])` of the source). */
  function ListFor(products: map<string, seq<ProductQuantity>>, pk: string): seq<ProductQuantity> {
    if pk in products then products[pk] else []
  }

  /** The tables agree on everything stored under `k`. */
  predicate SameAt(t: Tables, u: Tables, k: string) {
    && (k in t.customers <==> k in u.customers)
    && (k in t.customers ==> t.customers[k] == u.customers[k])
    && (k in t.products <==> k in u.products)
    && ListFor(t.products, k) == ListFor(u.products, k)
    && (k in t.metas <==> k in u.metas)
    && (k in t.metas ==> t.metas[k] == u.metas[k])
  }

  /** Stores one record: a customer or a `META` item replaces whatever was
      stored under its key, a product line is appended to its key's list, and
      entries under every other key stay as they were. */
  function Apply(t: Tables, rec: Record): (r: Tables)
    ensures rec.Skipped? ==> r == t
    ensures !rec.Skipped? ==> forall k :: k != rec.pk ==> SameAt(t, r, k)
    ensures rec.CustomerRec? ==>
      && rec.pk in r.customers && r.customers[rec.pk] == rec.customer
      && r.products == t.products && r.metas == t.metas
    ensures rec.ProductRec? ==>
      && rec.pk in r.products
      && ListFor(r.products, rec.pk) == ListFor(t.products, rec.pk) + [rec.line]
      && r.customers == t.customers && r.metas == t.metas
    ensures rec.MetaRec? ==>
      && rec.pk in r.metas && r.metas[rec.pk] == rec.item
      && r.customers == t.customers && r.products == t.products
  {
    match rec
    case CustomerRec(pk, c) => t.(customers := t.customers[pk := c])
    case ProductRec(pk, pq) => t.(products := t.products[pk := ListFor(t.products, pk) + [pq]])
    case MetaRec(pk, item) => t.(metas := t.metas[pk := item])
    case Skipped => t
  }

  /** One iteration of the first loop: it panics exactly when the item is
      malformed, and otherwise touches only the entries under the item's own
      partition key. */
  function Route(parse: NumParser, t: Tables, item: Item): (r: Result<Tables, Error>)
    ensures r.Success? <==> WellFormed(parse, item)
    ensures r.Failure? ==> r.error == Decode(parse, item).error
    ensures r.Success? ==> forall k :: k != item["PK"].s ==> SameAt(t, r.value, k)
  {
    var rec :- Decode(parse, item);
    Success(Apply(t, rec))
  }

  /** The first loop, as a left fold over the items in scan order: a panic on
      any item ends the whole call. */
  function FirstPass(parse: NumParser, items: seq<Item>): (r: Result<Tables, Error>)
    ensures r.Success? ==> forall pk :: pk in r.value.products ==> |r.value.products[pk]| > 0
  {
    if |items| == 0 then Success(NoTables)
    else
      var t :- FirstPass(parse, items[..|items| - 1]);
      Route(parse, t, items[|items| - 1])
  }

  // ---------------------------------------------------------------------
  // Reference definitions, stated over the input sequence alone.

  /** The index of the last item routed to `kind` under `pk`. */
  function LastOf(items: seq<Item>, pk: string, kind: Kind): (r: Option<nat>)
    ensures r.Some? ==>
      && r.value < |items|
      && RoutesTo(items[r.value], pk, kind)
      && forall j :: r.value < j < |items| ==> !RoutesTo(items[j], pk, kind)
    ensures r.None? ==> forall j :: 0 <= j < |items| ==> !RoutesTo(items[j], pk, kind)
  {
    if |items| == 0 then None
    else if RoutesTo(items[|items| - 1], pk, kind) then Some(|items| - 1)
    else LastOf(items[..|items| - 1], pk, kind)
  }

  /** The partition keys that have at least one item routed to `kind`. */
  function KeysOf(items: seq<Item>, kind: Kind): (keys: set<string>)
    ensures forall pk :: pk in keys <==> exists i :: 0 <= i < |items| && RoutesTo(items[i], pk, kind)
  {
    set i | 0 <= i < |items| && Routed(items[i], kind) :: items[i]["PK"].s
  }

  /** The product lines decoded from the `PRODUCT#` items of `pk`, in scan order. */
  function ProductsOf(parse: NumParser, items: seq<Item>, pk: string): seq<ProductQuantity> {
    if |items| == 0 then []
    else
      var more := match Decode(parse, items[|items| - 1])
        case Success(ProductRec(p, pq)) => if p == pk then [pq] else []
        case _ => [];
      ProductsOf(parse, items[..|items| - 1], pk) + more
  }

  // ---------------------------------------------------------------------
  // The first pass against the reference definitions.

  /** The pass succeeds exactly when every item is well formed. */
  lemma {:induction false} FirstPassSucceeds(parse: NumParser, items: seq<Item>)
    ensures FirstPass(parse, items).Success? <==> AllWellFormed(parse, items)
  {
    if |items| > 0 {
      var init := items[..|items| - 1];
      FirstPassSucceeds(parse, init);
      assert forall i :: 0 <= i < |init| ==> init[i] == items[i];
    }
  }

  /** A panic in a prefix is the panic of the whole pass. */
  lemma {:induction false} FirstPassPrefixFailure(parse: NumParser, items: seq<Item>, n: nat)
    requires n <= |items|
    requires FirstPass(parse, items[..n]).Failure?
    ensures FirstPass(parse, items) == FirstPass(parse, items[..n])
    decreases |items| - n
  {
    if n < |items| {
      var init := items[..|items| - 1];
      assert init[..n] == items[..n];
      FirstPassPrefixFailure(parse, init, n);
    } else {
      assert items[..n] == items;
    }
  }

  /** The pass panics with the error of the first malformed item. */
  lemma {:induction false} FirstPassFailsAtFirstBadItem(parse: NumParser, items: seq<Item>, k: nat)
    requires k < |items|
    requires !WellFormed(parse, items[k])
    requires forall j :: 0 <= j < k ==> WellFormed(parse, items[j])
    ensures FirstPass(parse, items) == Failure(Decode(parse, items[k]).error)
  {
    FirstPassSucceeds(parse, items[..k]);
    assert forall j :: 0 <= j < k ==> items[..k][j] == items[j];
    assert items[..k + 1][..k] == items[..k];
    assert FirstPass(parse, items[..k + 1]) == Failure(Decode(parse, items[k]).error);
    FirstPassPrefixFailure(parse, items, k + 1);
  }

  /** Customers: one per partition key with a `CUSTOMER#` item, and it is the
      customer of the LAST such item (later items overwrite earlier ones). */
  lemma {:induction false} FirstPassCustomers(parse: NumParser, items: seq<Item>, pk: string)
    requires FirstPass(parse, items).Success?
    ensures pk in FirstPass(parse, items).value.customers <==> LastOf(items, pk, CustomerKind).Some?
    ensures pk in FirstPass(parse, items).value.customers ==>
      Decode(parse, items[LastOf(items, pk, CustomerKind).value])
        == Success(CustomerRec(pk, FirstPass(parse, items).value.customers[pk]))
  {
    if |items| > 0 {
      var n := |items| - 1;
      var init := items[..n];
      FirstPassCustomers(parse, init, pk);
      var rec := Decode(parse, items[n]).value;
      if !(rec.CustomerRec? && rec.pk == pk) {
        assert !RoutesTo(items[n], pk, CustomerKind);
      }
    }
  }

  /** Order metadata: one raw item per partition key with a `META` item, the
      LAST such item. */
  lemma {:induction false} FirstPassMetas(parse: NumParser, items: seq<Item>, pk: string)
    requires FirstPass(parse, items).Success?
    ensures pk in FirstPass(parse, items).value.metas <==> LastOf(items, pk, MetaKind).Some?
    ensures pk in FirstPass(parse, items).value.metas ==>
      FirstPass(parse, items).value.metas[pk] == items[LastOf(items, pk, MetaKind).value]
  {
    if |items| > 0 {
      var n := |items| - 1;
      var init := items[..n];
      FirstPassMetas(parse, init, pk);
      var rec := Decode(parse, items[n]).value;
      if !(rec.MetaRec? && rec.pk == pk) {
        assert !RoutesTo(items[n], pk, MetaKind);
      }
    }
  }

  /** Products: a list per partition key with a `PRODUCT#` item, holding the
      lines of all of them in scan order. */
  lemma {:induction false} FirstPassProducts(parse: NumParser, items: seq<Item>, pk: string)
    requires FirstPass(parse, items).Success?
    ensures pk in FirstPass(parse, items).value.products <==> LastOf(items, pk, ProductKind).Some?
    ensures ListFor(FirstPass(parse, items).value.products, pk) == ProductsOf(parse, items, pk)
  {
    if |items| > 0 {
      var n := |items| - 1;
      var init := items[..n];
      FirstPassProducts(parse, init, pk);
      var rec := Decode(parse, items[n]).value;
      if !(rec.ProductRec? && rec.pk == pk) {
        assert !RoutesTo(items[n], pk, ProductKind);
      }
    }
  }

  /** The keys of the metadata table are the partition keys of the `META` items. */
  lemma MetaKeysOfFirstPass(parse: NumParser, items: seq<Item>)
    requires FirstPass(parse, items).Success?
    ensures FirstPass(parse, items).value.metas.Keys == KeysOf(items, MetaKind)
  {
    var t := FirstPass(parse, items).value;
    forall pk
      ensures pk in t.metas <==> pk in KeysOf(items, MetaKind)
    {
      FirstPassMetas(parse, items, pk);
    }
  }

  /** Routing an item of no known kind leaves the tables as they are. */
  lemma SkippedRouteIsIdentity(parse: NumParser, t: Tables, x: Item)
    requires Routed(x, Ignored)
    ensures Route(parse, t, x) == Success(t)
  {
    assert Decode(parse, x) == Success(Skipped);
  }

  /** The pass over `items + [x]` is the pass over `items` followed by `x`. */
  lemma FirstPassSnoc(parse: NumParser, items: seq<Item>, x: Item)
    ensures FirstPass(parse, items + [x]) ==
      match FirstPass(parse, items)
      case Success(t) => Route(parse, t, x)
      case Failure(e) => Failure(e)
  {
    assert (items + [x])[..|items|] == items;
  }

  /** One more item extends the pass by one routing step. */
  lemma FirstPassStep(parse: NumParser, items: seq<Item>, i: nat, t: Tables)
    requires i < |items|
    requires FirstPass(parse, items[..i]) == Success(t)
    ensures FirstPass(parse, items[..i + 1]) == Route(parse, t, items[i])
  {
    var p := items[..i + 1];
    assert p[..i] == items[..i];
    assert p[i] == items[i];
  }

  /** An item of no known kind (with string `PK` and `SK`) changes nothing,
      wherever it stands in the scan. */
  lemma {:induction false} FirstPassIgnoresSkipped(parse: NumParser, items: seq<Item>, k: nat, x: Item)
    requires k <= |items|
    requires Routed(x, Ignored)
    ensures FirstPass(parse, items[..k] + [x] + items[k..]) == FirstPass(parse, items)
  {
    if k == |items| {
      assert items[..k] + [x] + items[k..] == items + [x];
      FirstPassSnoc(parse, items, x);
      if FirstPass(parse, items).Success? {
        SkippedRouteIsIdentity(parse, FirstPass(parse, items).value, x);
      }
    } else {
      var n := |items| - 1;
      var init := items[..n];
      FirstPassIgnoresSkipped(parse, init, k, x);
      assert items[..k] + [x] + items[k..] == (init[..k] + [x] + init[k..]) + [items[n]];
      FirstPassSnoc(parse, init[..k] + [x] + init[k..], items[n]);
      assert items == init + [items[n]];
      FirstPassSnoc(parse, init, items[n]);
    }
  }
}
