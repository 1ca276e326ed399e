/** The resolver's output types. All four are plain immutable values: two
    orders (customers, products, lines) are equal exactly when their fields are. */
module Model {

  datatype Customer = Customer(fullName: string, email: string)

  datatype Product = Product(name: string, price: real)

  /** One line of an order: a product and how many of it were bought. */
  datatype ProductQuantity = ProductQuantity(product: Product, quantity: real)

  datatype Order = Order(
    id: string,
    date: string,
    totalAmount: real,
    customer: Customer,
    products: seq<ProductQuantity>)

  /** Equality of orders is field-by-field equality, down to the customer and
      every line in order. */
  lemma OrderEqualityIsStructural(a: Order, b: Order)
    ensures a == b <==>
      && a.id == b.id
      && a.date == b.date
      && a.totalAmount == b.totalAmount
      && a.customer.fullName == b.customer.fullName
      && a.customer.email == b.customer.email
      && |a.products| == |b.products|
      && (forall i :: 0 <= i < |a.products| ==>
            && a.products[i].product.name == b.products[i].product.name
            && a.products[i].product.price == b.products[i].product.price
            && a.products[i].quantity == b.products[i].quantity)
  {
    if a != b && a.id == b.id && a.date == b.date && a.totalAmount == b.totalAmount
       && a.customer == b.customer && |a.products| == |b.products| {
      assert a.products != b.products;
      var i :| 0 <= i < |a.products| && a.products[i] != b.products[i];
    }
  }
}
