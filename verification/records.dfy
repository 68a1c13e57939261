/** The records the tools read (orders, products, customers) and a snapshot
    of the three mock stores they read them from. The stores' own module is
    not part of this model: its lookups are maps, and its queries and
    mutations (product search, recommendation, cancellation, return,
    preference update) are functions supplied with the snapshot. */
module Records {
  import opened Wrappers
  import opened PyDict

  /** A line item of an order; the price is in cents. */
  datatype Item = Item(name: string, quantity: nat, price: nat)

  /** An order as `get_order_status` returns it. `total` is in cents and
      `trackingNumber` is `None` when the record has no such key. */
  datatype Order = Order(
    orderId: string,
    status: string,
    orderDate: string,
    total: nat,
    items: seq<Item>,
    shippingAddress: string,
    trackingNumber: Option<string>)

  /** A product; `price` is in cents, `rating` is the printed form of the
      rating (e.g. `4.5`). */
  datatype Product = Product(
    productId: string,
    name: string,
    category: string,
    price: nat,
    availability: string,
    stockCount: nat,
    rating: string,
    description: string,
    features: seq<string>)

  datatype Preferences = Preferences(categories: seq<string>, brands: seq<string>, communication: string)

  /** A customer. `preferences` and `orderHistory` are `None` when the record
      lacks the key. */
  datatype Customer = Customer(
    name: string,
    email: string,
    phone: string,
    address: string,
    loyaltyPoints: nat,
    tier: string,
    preferences: Option<Preferences>,
    orderHistory: Option<seq<string>>)
  {
    /** `customer.get('order_history', [])`. */
    function Orders(): (r: seq<string>)
      ensures orderHistory.Some? ==> r == orderHistory.value
      ensures orderHistory.None? ==> r == []
    {
      orderHistory.GetOr([])
    }
  }

  /** A value of the `preferences` argument of `update_preferences`. */
  datatype PrefValue = PrefText(text: string) | PrefList(items: seq<string>)

  /** A snapshot of the order, product and customer stores. */
  datatype Stores = Stores(
    orders: map<string, Order>,
    products: map<string, Product>,
    customers: map<string, Customer>,
    customersByEmail: map<string, Customer>,
    // product_db.search_products(query, category)
    search: (string, Option<string>) -> seq<Product>,
    // product_db.get_recommendations(category, weather_condition)
    recommend: (Option<string>, Option<string>) -> seq<Product>,
    // the `message` of order_db.cancel_order(order_id)
    cancel: string -> string,
    // the `message` of order_db.process_return(order_id, reason)
    processReturn: (string, string) -> string,
    // the `message` of customer_db.update_preferences(customer_id, preferences)
    updatePreferences: (string, Dict<string, PrefValue>) -> string)
}
