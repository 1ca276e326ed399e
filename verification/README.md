# Orders reconstruction: a Dafny model

The orders resolver reads the items returned by a single scan request of a
single-table store (one page: the continuation key is not followed). It
rebuilds `Order` aggregates from the flat items. Each item carries a
partition key `PK` and a sort key `SK`, and the sort key says what the item is:

- `CUSTOMER#…` is the order's customer (`fullName`, `email`);
- `PRODUCT#…` is one line of the order (`name`, `price`, `quantity`);
- exactly `META` holds the order's own `id` and `date`;
- anything else is ignored.

`OrdersStore::all_orders` does this in two passes.

- The first pass fills three maps keyed by `PK`: customers, lists of product lines, and raw `META` items.
- The second pass builds one `Order` per `META` entry. It joins the customer and the product list under the same key. The total is a left fold of `price * quantity`.

Every `unwrap` in the source panics the whole call. The model turns each
panic into a `Failure` of the `Result` the call returns, so the contracts
can say exactly when the call fails and with which error. No malformed item
and no incomplete order is skipped: either one fails the whole call.

Files (one module each):

- `results.dfy`: `Option` and `Result`.
- `model.dfy`: `Customer`, `Product`, `ProductQuantity`, `Order`.
- `items.dfy`: attribute values, items, error kinds and the field extractors.
- `classifier.dfy`: routing by sort key.
- `scan.dfy`: the first pass (a left fold over the items), plus reference definitions stated over the input alone (`LastOf`, `KeysOf`, `ProductsOf`) and the lemmas that connect the two.
- `assembly.dfy`: the total, the per-key assembly and the second pass.
- `store.dfy`: the whole call, its loop version, the main theorems and worked examples.

The second pass iterates a `HashMap`, whose order is unspecified. The model
takes that order as a parameter `iter`, which may be any enumeration of the
`META` partition keys. `IterationOrderIrrelevant` proves that the choice changes
neither success nor the multiset of orders.

## Model

| member | source | states |
|---|---|---|
| Model.OrderEqualityIsStructural | functions/orders-lambda/src/model.rs:23-31 | two orders are equal exactly when id, date, total, customer name and email, and every line's product name, price and quantity are equal, position by position |
| Items.GetS | functions/orders-lambda/src/store.rs:49-50 | reading a string field succeeds exactly when the key is present with the string tag, and yields that string; otherwise it fails as a missing attribute, or as a wrong type when the key is present |
| Items.GetN | functions/orders-lambda/src/store.rs:96 | reading a number field yields its raw decimal text exactly when the key is present with the number tag; otherwise the same two errors |
| Items.GetNum | functions/orders-lambda/src/store.rs:63-71 | reading a parsed number succeeds exactly when the field is number-tagged and its text parses, and yields the parsed value; a number-tagged but unparsable text fails as a bad number |
| Classifier.Classify | functions/orders-lambda/src/store.rs:52-81 | a sort key is a customer key iff it starts with `CUSTOMER#`, a product key iff it starts with `PRODUCT#`, a metadata key iff it is exactly `META`, and ignored iff none of these holds |
| Classifier.ClassifyExamples | functions/orders-lambda/src/store.rs:52-78 | `CUSTOMER#1` and `PRODUCT#` are routed; `CUSTOMER`, `META#x`, `meta` and the empty key are ignored; `META` is metadata |
| Scan.Decode | functions/orders-lambda/src/store.rs:49-81 | an item is processed without a panic exactly when it is well formed (string PK and SK, plus the fields its kind needs with the right tags and parsable numbers); the record produced carries exactly the item's PK and field values, a META item is kept whole, and a missing or mistyped PK, then SK, is the error reported |
| Scan.Apply | functions/orders-lambda/src/store.rs:58-80 | storing a record: a customer or META item replaces the entry under its key, a product line is appended to its key's list (created empty when absent), an item of no known kind changes nothing, and entries under every other key are unchanged |
| Scan.Route | functions/orders-lambda/src/store.rs:48-81 | one iteration of the first loop panics exactly when the item is malformed, with that item's decoding error, and otherwise changes only entries under the item's own PK |
| Scan.FirstPass | functions/orders-lambda/src/store.rs:76-77 | every product list stored in the table is non-empty |
| Scan.LastOf | functions/orders-lambda/src/store.rs:58 | finds the last item routed to a kind under a partition key, with no later such item, or reports that there is none |
| Scan.FirstPassSucceeds | functions/orders-lambda/src/store.rs:48-82 | the first pass succeeds iff every item is well formed, including items of no known kind, which still need string PK and SK |
| Scan.FirstPassFailsAtFirstBadItem | functions/orders-lambda/src/store.rs:48-82 | when the first pass fails, its error is the decoding error of the first malformed item in scan order |
| Scan.FirstPassPrefixFailure | functions/orders-lambda/src/store.rs:48-82 | a panic while processing a prefix of the scan is the panic of the whole pass |
| Scan.FirstPassStep | functions/orders-lambda/src/store.rs:48-82 | the pass over one more item is one more routing step on the tables built so far |
| Scan.FirstPassSnoc | functions/orders-lambda/src/store.rs:48-82 | the pass over `items + [x]` is the pass over `items` followed by routing `x`, and stops if that pass already failed |
| Scan.FirstPassCustomers | functions/orders-lambda/src/store.rs:52-58 | a partition key has a customer iff some `CUSTOMER#` item has that key, and the stored customer is the one decoded from the last such item (last write wins) |
| Scan.FirstPassProducts | functions/orders-lambda/src/store.rs:59-77 | a partition key has a product list iff some `PRODUCT#` item has that key, and the list is the lines of all such items in scan order |
| Scan.FirstPassMetas | functions/orders-lambda/src/store.rs:78-80 | a partition key has metadata iff some `META` item has that key, and the stored item is the last such item (last write wins) |
| Scan.MetaKeysOfFirstPass | functions/orders-lambda/src/store.rs:78-80 | the metadata table's keys are exactly the partition keys of the `META` items |
| Scan.SkippedRouteIsIdentity | functions/orders-lambda/src/store.rs:52-81 | routing an item of no known kind leaves the tables unchanged |
| Scan.FirstPassIgnoresSkipped | functions/orders-lambda/src/store.rs:52-81 | inserting an item of no known kind anywhere in the scan leaves the first pass's outcome unchanged |
| Assembly.TotalIsSum | functions/orders-lambda/src/store.rs:40-44 | `compute_total_amount`, modelled as `Assembly.Total`, a left fold from 0 in list order, equals the sum of price times quantity over the lines (0 for no lines) |
| Assembly.SumAppend | functions/orders-lambda/src/store.rs:40-44 | the sum over a concatenation of line lists is the sum of the two sums |
| Assembly.TotalNonNegative | functions/orders-lambda/src/store.rs:40-44 | when no price or quantity is negative, the total is not negative |
| Assembly.Assemble | functions/orders-lambda/src/store.rs:87-101 | an order is built iff its key has a customer, a product list, a number-tagged `id` and a string-tagged `date`; the order has that customer and list, the raw id text and the date, and a total equal to the sum of its lines; a missing customer is reported before a missing list |
| Assembly.BuildOrders | functions/orders-lambda/src/store.rs:85-103 | the second pass succeeds iff every key assembles; it then yields one order per key, in key order; otherwise it fails with the error of the first key that does not assemble |
| Store.AllOrders | functions/orders-lambda/src/store.rs:48-103 | on success there are as many orders as META keys, and every order's total is the sum of its lines |
| Store.AllOrdersSpec | functions/orders-lambda/src/store.rs:48-103 | the call succeeds iff every item is well formed and every META key has a customer, a product and, on its last META item, an `N` id and an `S` date; on success, the order at each position is the one expected from the items alone (id and date of the last META item, customer of the last CUSTOMER# item, lines of all PRODUCT# items in scan order, and their sum) |
| Store.AllOrdersFailsAtFirstBadItem | functions/orders-lambda/src/store.rs:48-82 | a malformed item makes the whole call fail with the error of the first malformed item |
| Store.OneOrderPerMetaKey | functions/orders-lambda/src/store.rs:78-103 | on success there are exactly as many orders as distinct META partition keys; each key's expected order is among them, and every order is some key's expected order |
| Store.IterationOrderIrrelevant | functions/orders-lambda/src/store.rs:85-87 | any two iteration orders of the metadata map agree on success and give the same multiset of orders |
| Store.IgnoredItemHasNoEffect | functions/orders-lambda/src/store.rs:52-81 | inserting an item with string PK and SK of no known kind, such as `META#x` or `CUSTOMER`, anywhere in the scan changes neither the META keys nor the result |
| Store.ScannedItems | functions/orders-lambda/src/store.rs:24 | the items worked on are those of a successful response, and there are none exactly when the request failed, the response has no item list, or the list is empty |
| Store.UnusableScanYieldsNoOrders | functions/orders-lambda/src/store.rs:18-24 | a failed scan, or a response without items, yields an empty list of orders |
| Store.ScanLoop | functions/orders-lambda/src/store.rs:48-82 | the first loop, written over three local maps with the source's inserts and the create-then-push of product lists, computes the same outcome as the fold, stopping at the first malformed item |
| Store.AssembleLoop | functions/orders-lambda/src/store.rs:85-103 | the imperative second loop computes the same outcome as the second pass, stopping at the first panic |
| Store.AllOrdersLoop | functions/orders-lambda/src/store.rs:28-103 | the two loops together compute the same outcome as the whole call |
| Store.ExampleFirstPass | functions/orders-lambda/src/store.rs:48-82 | one customer, one product and one META item under `"1"` fill each table with one entry for `"1"` |
| Store.ExampleSingleOrder | functions/orders-lambda/src/store.rs:48-103 | a customer, a product with price 1.5 and quantity 1, and a META item under one key give exactly one order, with total 1.5 |
| Store.ExampleStringPriceFails | functions/orders-lambda/src/store.rs:63 | a price with the string tag makes the whole call fail with a wrong-type error on `price`; the product is not silently skipped |
| Store.ExampleOrderWithoutProductsFails | functions/orders-lambda/src/store.rs:90 | a META item with a customer but no product items makes the call fail with a missing-products error for its key |

## Left out

- The table scan itself (`scan().send().await`) is out of scope because it is network I/O. Its result is the `ScanOutput` parameter, and a failed request or an absent item list becomes the empty item sequence. Pagination is not followed: the response's `last_evaluated_key` is never read, so only the first page of a larger table reaches the core, and an order whose items span two pages can fail to assemble.
- Store construction (`get_store`, `get_dynamodb_store`) is out of scope: it loads the AWS configuration, reads the `ORDERS_TABLE` environment variable and builds the client.
- The Lambda runtime, the async handler and the `info!` tracing calls are left out. They have no effect on the result.
- The serde renames `fullName` and `totalAmount` are left out. They only affect JSON output.
- The CDK stack, the sample-data construct and the TypeScript stub handler are left out. They contain no logic of the core.
- Items.GetNum: number parsing (`str::parse::<f64>`) is a parameter, not a fixed parser. The model says nothing about which texts parse, or about NaN and infinities.
- Assembly.TotalIsSum: amounts are exact `real` numbers. The IEEE-754 rounding of the `f64` fold is not modelled, so the real sum is independent of summation order while the source's is not.
- Store.AllOrdersSpec: the order of the second pass comes from the hash map and is unspecified. The model takes it as a parameter, so the position of an order in the output, and which error is reported when several orders cannot be assembled, depend on that parameter.
- Attribute tags other than string and number (binary, boolean, list, map, sets, null) are collapsed into one `Other` tag. The source only tests for the string and number tags.
