/** The second pass of the store: one order per stored `META` item, joined with
    the customer and the product lines of the same partition key. */
module Assembly {
  import opened Results
  import opened Model
  import opened Items
  import opened Scan

  function LineAmount(pq: ProductQuantity): real {
    pq.product.price * pq.quantity
  }

  /** `compute_total_amount`: a left fold of price times quantity from 0, in
      list order. */
  function Total(pqs: seq<ProductQuantity>): real {
    if |pqs| == 0 then 0.0
    else Total(pqs[..|pqs| - 1]) + LineAmount(pqs[|pqs| - 1])
  }

  /** The sum of the line amounts, as a reference definition nested the other
      way round. */
  function Sum(pqs: seq<ProductQuantity>): real {
    if |pqs| == 0 then 0.0 else LineAmount(pqs[0]) + Sum(pqs[1..])
  }

  lemma {:induction false} SumAppend(a: seq<ProductQuantity>, b: seq<ProductQuantity>)
    ensures Sum(a + b) == Sum(a) + Sum(b)
  {
    if |a| > 0 {
      assert (a + b)[1..] == a[1..] + b;
      SumAppend(a[1..], b);
    } else {
      assert a + b == b;
    }
  }

  /** The fold computes the sum of the line amounts. */
  lemma {:induction false} TotalIsSum(pqs: seq<ProductQuantity>)
    ensures Total(pqs) == Sum(pqs)
  {
    if |pqs| > 0 {
      var init := pqs[..|pqs| - 1];
      var last := pqs[|pqs| - 1];
      TotalIsSum(init);
      assert pqs == init + [last];
      SumAppend(init, [last]);
    }
  }

  /** With no negative price or quantity, the total is not negative. */
  lemma {:induction false} TotalNonNegative(pqs: seq<ProductQuantity>)
    requires forall i :: 0 <= i < |pqs| ==> pqs[i].product.price >= 0.0 && pqs[i].quantity >= 0.0
    ensures Total(pqs) >= 0.0
  {
    if |pqs| > 0 {
      TotalNonNegative(pqs[..|pqs| - 1]);
      var last := pqs[|pqs| - 1];
      assert LineAmount(last) >= 0.0 by {
        assert last.product.price >= 0.0 && last.quantity >= 0.0;
      }
    }
  }

  /** The invariant of every assembled order: its total is the sum of its lines. */
  predicate TotalConsistent(o: Order) {
    o.totalAmount == Sum(o.products)
  }

  /** The closure of the `map` over the metadata table. It looks up the
      customer, then the product list, computes the total, then reads `id`
      (kept as the raw decimal text) and `date`; each missing piece panics. */
  function Assemble(t: Tables, pk: string): (r: Result<Order, Error>)
    requires pk in t.metas
    ensures r.Success? <==>
      pk in t.customers && pk in t.products && HasN(t.metas[pk], "id") && HasS(t.metas[pk], "date")
    ensures r.Success? ==>
      && r.value.customer == t.customers[pk]
      && r.value.products == t.products[pk]
      && t.metas[pk]["id"] == N(r.value.id)
      && t.metas[pk]["date"] == S(r.value.date)
      && TotalConsistent(r.value)
    ensures pk !in t.customers ==> r == Failure(NoCustomer(pk))
    ensures pk in t.customers && pk !in t.products ==> r == Failure(NoProducts(pk))
  {
    if pk !in t.customers then Failure(NoCustomer(pk))
    else if pk !in t.products then Failure(NoProducts(pk))
    else
      var products := t.products[pk];
      var total := Total(products);
      var id :- GetN(t.metas[pk], "id");
      var date :- GetS(t.metas[pk], "date");
      TotalIsSum(products);
      Success(Order(id, date, total, t.customers[pk], products))
  }

  /** The `map(...).collect()` over the metadata keys in iteration order: the
      first order that cannot be assembled panics the call. */
  function BuildOrders(t: Tables, keys: seq<string>): (r: Result<seq<Order>, Error>)
    requires forall i :: 0 <= i < |keys| ==> keys[i] in t.metas
    ensures r.Success? <==> forall i :: 0 <= i < |keys| ==> Assemble(t, keys[i]).Success?
    ensures r.Success? ==>
      && |r.value| == |keys|
      && forall i :: 0 <= i < |keys| ==> Success(r.value[i]) == Assemble(t, keys[i])
    ensures forall k :: 0 <= k < |keys| && Assemble(t, keys[k]).Failure?
                        && (forall j :: 0 <= j < k ==> Assemble(t, keys[j]).Success?)
                        ==> r == Failure(Assemble(t, keys[k]).error)
  {
    if |keys| == 0 then Success([])
    else
      var o :- Assemble(t, keys[0]);
      var rest :- BuildOrders(t, keys[1..]);
      Success([o] + rest)
  }
}
