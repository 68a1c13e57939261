/** The `_run` bodies of the tools in tools.py: each is a pure function of its
    arguments and a snapshot of the stores, returning one text result that
    starts with `RESULT: `. Python's `str.title()` is the parameter `title`. */
module Tools {
  import opened Wrappers
  import opened Text
  import opened PyDict
  import opened Records

  // ------------------------------------------------- the RESULT convention

  const ResultPrefix := "RESULT: "

  predicate IsResult(r: string) {
    StartsWith(r, ResultPrefix)
  }

  /** Marks `m` as a tool result. */
  function Wrap(m: string): (r: string)
    ensures IsResult(r) && |r| == |ResultPrefix| + |m|
  {
    ResultPrefix + m
  }

  /** The payload of a tool result, or `None` for text that is not one. */
  function Unwrap(r: string): Option<string> {
    if IsResult(r) then Some(r[|ResultPrefix|..]) else None
  }

  /** `Wrap` and `Unwrap` are inverse: a result is exactly a wrapped payload. */
  lemma WrapUnwrap(m: string, r: string)
    ensures Unwrap(Wrap(m)) == Some(m)
    ensures Unwrap(r) == Some(m) <==> r == Wrap(m)
  {
  }

  lemma ResultAppend(r: string, t: string)
    requires IsResult(r)
    ensures IsResult(r + t)
  {
  }

  /** The character right after the marker is the message's first. */
  lemma WrapAt(m: string, i: nat)
    requires i < |m|
    ensures Wrap(m)[|ResultPrefix| + i] == m[i]
  {
  }

  /** Two marked messages that differ at some position inside both cannot
      open the same text. */
  lemma WrappedTextsDiffer(m1: string, m2: string, i: nat, r: string)
    requires i < |m1| && i < |m2| && m1[i] != m2[i]
    requires StartsWith(r, Wrap(m1))
    ensures !StartsWith(r, Wrap(m2)) && r != Wrap(m2)
  {
    WrapAt(m1, i);
    WrapAt(m2, i);
    assert r[|ResultPrefix| + i] == Wrap(m1)[|ResultPrefix| + i];
  }

  /** What a tool's `_run` does: return a text, or raise `KeyError` for a
      key missing from a store record. */
  datatype Answer = Text(text: string) | MissingKey(key: string)

  // ---------------------------------------------------------- order status

  function OrderNotFound(orderId: string): string {
    Wrap("Order " + orderId + " not found. This order ID does not exist in our system. "
      + "Please verify the order ID or ask the customer for their email to search for orders differently.")
  }

  function OrderHeader(o: Order, title: string -> string): (r: string)
    ensures IsResult(r)
  {
    Wrap("Order Details Found\nOrder ID: " + o.orderId + "\nStatus: " + title(o.status)
      + "\nOrder Date: " + o.orderDate + "\nTotal: $" + FormatCents(o.total) + "\nItems:")
  }

  function ItemLine(it: Item): string {
    "\n  - " + it.name + " (Qty: " + NatToString(it.quantity) + ") - $" + FormatCents(it.price)
  }

  /** `order.get('tracking_number')` is truthy. */
  predicate HasTracking(o: Order) {
    Truthy(o.trackingNumber)
  }

  function AddressLine(o: Order): string {
    "\nShipping Address: " + o.shippingAddress
  }

  function TrackingLine(o: Order): string {
    if HasTracking(o) then "\nTracking Number: " + o.trackingNumber.value else ""
  }

  /** `OrderStatusTool._run` (tools.py:63-78). An unknown id gives the
      not-found message naming the id; a known one gives the header, one line
      per item in order, the address, and a tracking line exactly when the
      order has a truthy tracking number. */
  function OrderStatus(db: Stores, title: string -> string, orderId: string): (r: string)
    ensures IsResult(r)
    ensures orderId !in db.orders ==> r == OrderNotFound(orderId)
    ensures orderId in db.orders ==>
      var o := db.orders[orderId];
      r == OrderHeader(o, title) + Concat(MapSeq(o.items, ItemLine))
        + AddressLine(o) + TrackingLine(o)
  {
    if orderId !in db.orders then OrderNotFound(orderId)
    else
      var o := db.orders[orderId];
      var header := OrderHeader(o, title);
      var msg := AppendAll(header, MapSeq(o.items, ItemLine));
      ResultAppend(header, Concat(MapSeq(o.items, ItemLine)));
      ResultAppend(msg, AddressLine(o));
      ResultAppend(msg + AddressLine(o), TrackingLine(o));
      msg + AddressLine(o) + TrackingLine(o)
  }

  /** The last line of a found order's status is the tracking line when the
      order has a truthy tracking number and the address line otherwise. */
  lemma TrackingLineIffTracked(db: Stores, title: string -> string, orderId: string)
    requires orderId in db.orders
    ensures var o := db.orders[orderId]; var r := OrderStatus(db, title, orderId);
      && (HasTracking(o) ==> EndsWith(r, "\nTracking Number: " + o.trackingNumber.value))
      && (!HasTracking(o) ==> EndsWith(r, AddressLine(o)))
  {
  }

  // --------------------------------------------------- store-message tools

  /** `OrderCancelTool._run` (tools.py:85-87): the store's message, marked. */
  function CancelOrder(db: Stores, orderId: string): (r: string)
    ensures Unwrap(r) == Some(db.cancel(orderId))
  {
    WrapUnwrap(db.cancel(orderId), "");
    Wrap(db.cancel(orderId))
  }

  /** `ReturnProcessTool._run` (tools.py:94-96). */
  function ProcessReturn(db: Stores, orderId: string, reason: string): (r: string)
    ensures Unwrap(r) == Some(db.processReturn(orderId, reason))
  {
    WrapUnwrap(db.processReturn(orderId, reason), "");
    Wrap(db.processReturn(orderId, reason))
  }

  /** `UpdatePreferencesTool._run` (tools.py:202-204). */
  function UpdatePreferences(db: Stores, customerId: string, preferences: Dict<string, PrefValue>): (r: string)
    ensures Unwrap(r) == Some(db.updatePreferences(customerId, preferences))
  {
    WrapUnwrap(db.updatePreferences(customerId, preferences), "");
    Wrap(db.updatePreferences(customerId, preferences))
  }

  // -------------------------------------------------------- product search

  const NoProductsText := "No products found for '"
  const NoProductsLead := Wrap(NoProductsText)
  const FoundText := "Found "
  const FoundLead := Wrap(FoundText)
  const CountSuffix := " product(s):"

  /** The empty-result message: names the query, and the category only when
      a truthy one was given. No space separates it from the suggestion that
      follows. */
  function NoProductsFound(query: string, category: Option<string>): (r: string)
    ensures StartsWith(r, NoProductsLead)
  {
    var r := NoProductsLead + (query + "'"
      + (if Truthy(category) then " in category '" + category.value + "'" else "")
      + "You might want to try different search terms or browse our categories.");
    StartsWithAppend(NoProductsLead, r[|NoProductsLead|..], NoProductsLead);
    assert NoProductsLead[..|NoProductsLead|] == NoProductsLead;
    r
  }

  function SearchHeader(count: nat): string {
    FoundLead + NatToString(count) + CountSuffix + "\n\n"
  }

  function Availability(p: Product, title: string -> string): string {
    title(ReplaceChar(p.availability, '_', ' '))
  }

  function ProductBlock(title: string -> string, p: Product): string {
    "**" + p.name + "** (ID: " + p.productId + ")\nCategory: " + p.category
      + "\nPrice: $" + FormatCents(p.price) + "\nAvailability: " + Availability(p, title)
      + "\nRating: " + p.rating + "/5.0\nDescription: " + p.description + "\n\n"
  }

  function ProductBlocks(title: string -> string, ps: seq<Product>): seq<string> {
    MapSeq(ps, (p: Product) => ProductBlock(title, p))
  }

  /** The product count a search listing announces, read back from its text. */
  function ReportedCount(r: string): Option<nat> {
    if StartsWith(r, FoundLead) then
      var d := TakeDigits(r[|FoundLead|..]);
      if d == [] then None else Some(DigitsValue(d))
    else None
  }

  /** A count written after the listing lead reads back as that count. */
  lemma CountReadsBack(count: nat, tail: string)
    ensures ReportedCount(FoundLead + NatToString(count) + CountSuffix + tail) == Some(count)
  {
    var n := NatToString(count);
    var r := FoundLead + n + CountSuffix + tail;
    assert r[..|FoundLead|] == FoundLead;
    var after := CountSuffix + tail;
    assert r[|FoundLead|..] == n + after;
    assert after[0] == ' ';
    TakeDigitsOf(n, after);
    NatToStringRoundTrip(count);
  }

  /** Stripping a listing removes nothing before the end of the count
      suffix, which ends in a non-space character. */
  lemma StripListing(count: nat, rest: string)
    ensures exists tail :: Strip(SearchHeader(count) + rest) == FoundLead + NatToString(count) + CountSuffix + tail
  {
    var shown := FoundLead + NatToString(count) + CountSuffix;
    var s := shown + ("\n\n" + rest);
    assert s == SearchHeader(count) + rest;
    var k := |shown| - 1;
    assert s[k] == CountSuffix[|CountSuffix| - 1] == ':';
    assert s[0] == FoundLead[0] == 'R';
    StripKeepsPrefix(s, k);
    var r := Strip(s);
    assert r == r[..k + 1] + r[k + 1..];
  }

  /** The count in a listing header survives the final `strip()` and reads
      back as the number of products. */
  lemma HeaderCountReadsBack(count: nat, rest: string)
    ensures var r := Strip(SearchHeader(count) + rest);
      && ReportedCount(r) == Some(count)
      && StartsWith(r, FoundLead)
  {
    StripListing(count, rest);
    var tail :| Strip(SearchHeader(count) + rest) == FoundLead + NatToString(count) + CountSuffix + tail;
    CountReadsBack(count, tail);
    var r := Strip(SearchHeader(count) + rest);
    assert r[..|FoundLead|] == FoundLead;
  }

  /** A listing never opens like the empty-result message. */
  lemma SearchLeadsDiffer(r: string)
    requires StartsWith(r, FoundLead)
    ensures !StartsWith(r, NoProductsLead)
  {
    WrappedTextsDiffer(FoundText, NoProductsText, 0, r);
  }

  /** A text opening with a marked message is a result. */
  lemma OpensResult(m: string, r: string)
    requires StartsWith(r, Wrap(m))
    ensures IsResult(r)
  {
    assert r[..|ResultPrefix|] == Wrap(m)[..|ResultPrefix|];
  }

  /** What the final `strip()` leaves of a non-empty listing: a result that
      does not open like the empty-result message and announces the count. */
  lemma ListingFacts(title: string -> string, products: seq<Product>)
    ensures var r := Strip(SearchHeader(|products|) + Concat(ProductBlocks(title, products)));
      && IsResult(r) && !StartsWith(r, NoProductsLead) && ReportedCount(r) == Some(|products|)
  {
    HeaderCountReadsBack(|products|, Concat(ProductBlocks(title, products)));
    var r := Strip(SearchHeader(|products|) + Concat(ProductBlocks(title, products)));
    SearchLeadsDiffer(r);
    OpensResult(FoundText, r);
  }

  /** The text of `ProductSearchTool._run` (tools.py:103-110) for the
      products the store found: the empty-result message, or a listing whose
      header announces how many products follow, one block each, in order. */
  function SearchText(title: string -> string, query: string, category: Option<string>, products: seq<Product>): (r: string)
    ensures IsResult(r)
    ensures products == [] ==> r == NoProductsFound(query, category)
    ensures products != [] ==> r == Strip(SearchHeader(|products|) + Concat(ProductBlocks(title, products)))
    ensures products != [] ==> ReportedCount(r) == Some(|products|)
    ensures products == [] <==> StartsWith(r, NoProductsLead)
  {
    if products == [] then
      var r := NoProductsFound(query, category);
      OpensResult(NoProductsText, r);
      r
    else
      ListingFacts(title, products);
      Strip(AppendAll(SearchHeader(|products|), ProductBlocks(title, products)))
  }

  /** `ProductSearchTool._run`. */
  function SearchProducts(db: Stores, title: string -> string, query: string, category: Option<string>): (r: string)
    ensures IsResult(r)
    ensures db.search(query, category) == [] <==> StartsWith(r, NoProductsLead)
    ensures db.search(query, category) != [] ==> ReportedCount(r) == Some(|db.search(query, category)|)
  {
    SearchText(title, query, category, db.search(query, category))
  }

  // ------------------------------------------------------- product details

  function ProductNotFound(productId: string): (r: string)
    ensures IsResult(r)
  {
    Wrap("Product " + productId + " not found.This product ID does not exist in our catalog. "
      + "Please verify the product ID or ask the customer for their email to search for products differently.")
  }

  function ProductDetailsHeader(p: Product, title: string -> string): (r: string)
    ensures IsResult(r)
  {
    Wrap("Product Details Found\n**" + p.name + "** (ID: " + p.productId + ")\nCategory: " + p.category
      + "\nPrice: $" + FormatCents(p.price) + "\nAvailability: " + Availability(p, title)
      + "\nStock: " + NatToString(p.stockCount) + " units\nRating: " + p.rating
      + "/5.0\nDescription: " + p.description + "\n\nFeatures:")
  }

  function FeatureLine(f: string): string {
    "\n  \U{2022} " + f
  }

  /** `ProductDetailsTool._run` (tools.py:117-133): not-found message naming
      the id, or the details followed by one bullet line per feature, in
      order. */
  function ProductDetails(db: Stores, title: string -> string, productId: string): (r: string)
    ensures IsResult(r)
    ensures productId !in db.products ==> r == ProductNotFound(productId)
    ensures productId in db.products ==>
      var p := db.products[productId];
      r == ProductDetailsHeader(p, title) + Concat(MapSeq(p.features, FeatureLine))
  {
    if productId !in db.products then ProductNotFound(productId)
    else
      var p := db.products[productId];
      ResultAppend(ProductDetailsHeader(p, title), Concat(MapSeq(p.features, FeatureLine)));
      AppendAll(ProductDetailsHeader(p, title), MapSeq(p.features, FeatureLine))
  }

  /** A product with features ends with its last feature's bullet line; one
      without ends with the details header, whose last line is `Features:`. */
  lemma ProductDetailsEnding(db: Stores, title: string -> string, productId: string)
    requires productId in db.products
    ensures var p := db.products[productId]; var r := ProductDetails(db, title, productId);
      && (p.features != [] ==> EndsWith(r, FeatureLine(p.features[|p.features| - 1])))
      && (p.features == [] ==> r == ProductDetailsHeader(p, title))
  {
    var p := db.products[productId];
    var fs := p.features;
    if fs != [] {
      var n := |fs| - 1;
      var lines := MapSeq(fs, FeatureLine);
      assert lines == MapSeq(fs[..n], FeatureLine) + [FeatureLine(fs[n])];
      ConcatAppend(MapSeq(fs[..n], FeatureLine), [FeatureLine(fs[n])]);
      ConcatSingleton(FeatureLine(fs[n]));
      var r := ProductDetails(db, title, productId);
      var last := FeatureLine(fs[n]);
      assert r == (ProductDetailsHeader(p, title) + Concat(MapSeq(fs[..n], FeatureLine))) + last;
    } else {
      assert MapSeq(fs, FeatureLine) == [];
    }
  }

  // --------------------------------------------------------- customer info

  const CustomerNotFoundText := "Customer not found."
  const CustomerNotFound := Wrap(CustomerNotFoundText)
  const InformationText := "Customer Information\n"
  const InformationLead := Wrap(InformationText)

  /** The record `CustomerInfoTool` looks up: by a truthy `customer_id` if
      there is one (even when that lookup fails), otherwise by a truthy
      `email`, otherwise none. */
  function SelectCustomer(db: Stores, customerId: Option<string>, email: Option<string>): Option<Customer> {
    if Truthy(customerId) then
      (if customerId.value in db.customers then Some(db.customers[customerId.value]) else None)
    else if Truthy(email) then
      (if email.value in db.customersByEmail then Some(db.customersByEmail[email.value]) else None)
    else None
  }

  /** The information block of a customer, given the two keys the tool
      indexes directly. */
  function CustomerDetails(c: Customer, prefs: Preferences, history: seq<string>): string {
    "Name: " + c.name + "\nEmail: " + c.email + "\nPhone: " + c.phone
      + "\nAddress: " + c.address + "\nLoyalty Points: " + NatToString(c.loyaltyPoints)
      + "\nTier: " + c.tier
      + "\nPreferences: Categories - " + Join(", ", prefs.categories)
      + "; Brands - " + Join(", ", prefs.brands)
      + "; Communication - " + prefs.communication
      + "\nRecent Orders: " + Join(", ", history)
  }

  /** `CustomerInfoTool._run` (tools.py:140-157): the fixed not-found text
      exactly when no record was selected; a `KeyError` when the selected
      record lacks `preferences` (read first) or `order_history`; the
      record's details otherwise. */
  function CustomerInfo(db: Stores, customerId: Option<string>, email: Option<string>): (r: Answer)
    ensures r.Text? ==> IsResult(r.text)
    ensures r == Text(CustomerNotFound) <==> SelectCustomer(db, customerId, email).None?
    ensures var sel := SelectCustomer(db, customerId, email);
      r.MissingKey? <==> sel.Some? && (sel.value.preferences.None? || sel.value.orderHistory.None?)
    ensures var sel := SelectCustomer(db, customerId, email);
      r.MissingKey? ==> r.key == if sel.value.preferences.None? then "preferences" else "order_history"
    ensures var sel := SelectCustomer(db, customerId, email);
      sel.Some? && sel.value.preferences.Some? && sel.value.orderHistory.Some? ==>
        r == Text(InformationLead + CustomerDetails(sel.value, sel.value.preferences.value, sel.value.orderHistory.value))
  {
    match SelectCustomer(db, customerId, email)
    case None => Text(CustomerNotFound)
    case Some(c) =>
      if c.preferences.None? then MissingKey("preferences")
      else if c.orderHistory.None? then MissingKey("order_history")
      else
        var r := InformationLead + CustomerDetails(c, c.preferences.value, c.orderHistory.value);
        ResultAppend(InformationLead, CustomerDetails(c, c.preferences.value, c.orderHistory.value));
        WrappedTextsDiffer(InformationText, CustomerNotFoundText, 9, r);
        Text(r)
  }

  /** A truthy customer id decides the result on its own: the email is not
      consulted, not even when no customer has that id. */
  lemma CustomerIdTakesPrecedence(db: Stores, customerId: Option<string>, e1: Option<string>, e2: Option<string>)
    requires Truthy(customerId)
    ensures CustomerInfo(db, customerId, e1) == CustomerInfo(db, customerId, e2)
    ensures customerId.value !in db.customers ==> CustomerInfo(db, customerId, e1) == Text(CustomerNotFound)
  {
  }

  /** Without a truthy customer id (absent or empty), only the email counts. */
  lemma EmailOnlyWithoutId(db: Stores, customerId: Option<string>, email: Option<string>)
    requires !Truthy(customerId)
    ensures CustomerInfo(db, customerId, email) == CustomerInfo(db, None, email)
    ensures !Truthy(email) ==> CustomerInfo(db, customerId, email) == Text(CustomerNotFound)
  {
  }

  // ------------------------------------------------------- order listings

  /** The summary line of a known order. */
  function OrderSummary(title: string -> string, oid: string, o: Order): string {
    "Order " + oid + ": " + title(o.status) + " - $" + FormatCents(o.total) + " (Date: " + o.orderDate + ")\n"
  }

  /** The history ids the order store knows, in history order. */
  function Present(db: Stores, ids: seq<string>): (r: seq<string>)
    ensures forall i :: 0 <= i < |r| ==> r[i] in db.orders
    ensures |r| <= |ids|
  {
    if ids == [] then []
    else (if ids[0] in db.orders then [ids[0]] else []) + Present(db, ids[1..])
  }

  /** An id is listed exactly when it is in the history and the store
      knows it. */
  lemma {:induction false} PresentMembers(db: Stores, ids: seq<string>)
    ensures forall x :: x in Present(db, ids) <==> x in ids && x in db.orders
  {
    if ids != [] {
      PresentMembers(db, ids[1..]);
      assert forall x :: x in ids <==> x == ids[0] || x in ids[1..];
    }
  }

  /** One summary line per id, in order; every id must be a known order. */
  function Summaries(db: Stores, title: string -> string, ids: seq<string>): string
    requires forall i :: 0 <= i < |ids| ==> ids[i] in db.orders
  {
    if ids == [] then "" else OrderSummary(title, ids[0], db.orders[ids[0]]) + Summaries(db, title, ids[1..])
  }

  /** What the loop adds for one history id. */
  function LineFor(db: Stores, title: string -> string, oid: string): string {
    if oid in db.orders then OrderSummary(title, oid, db.orders[oid]) else ""
  }

  /** The lines the loop adds for a history, id by id. */
  function Lines(db: Stores, title: string -> string, ids: seq<string>): string {
    if ids == [] then "" else LineFor(db, title, ids[0]) + Lines(db, title, ids[1..])
  }

  /** Adding a line per history id lists exactly the summaries of the ids
      the store knows, in history order. */
  lemma {:induction false} LinesListPresent(db: Stores, title: string -> string, ids: seq<string>)
    ensures Lines(db, title, ids) == Summaries(db, title, Present(db, ids))
  {
    if ids != [] {
      LinesListPresent(db, title, ids[1..]);
      var p := Present(db, ids);
      var q := Present(db, ids[1..]);
      if ids[0] in db.orders {
        assert p == [ids[0]] + q;
        assert p[0] == ids[0] && p[1..] == q;
      } else {
        assert p == q;
      }
    }
  }

  lemma AppendAssoc(a: string, b: string, c: string)
    ensures (a + b) + c == a + (b + c)
  {
  }

  /** The loop both order tools run (`for oid in orders: if order: result
      += ...`), over an accumulator. */
  function AppendSummaries(db: Stores, title: string -> string, acc: string, ids: seq<string>): (r: string)
    ensures r == acc + Lines(db, title, ids)
    decreases |ids|
  {
    if ids == [] then acc
    else
      var line := LineFor(db, title, ids[0]);
      AppendAssoc(acc, line, Lines(db, title, ids[1..]));
      AppendSummaries(db, title, acc + line, ids[1..])
  }

  /** A history none of whose ids the order store knows lists nothing. */
  lemma AllMissingListsNothing(db: Stores, ids: seq<string>)
    requires forall i :: 0 <= i < |ids| ==> ids[i] !in db.orders
    ensures Present(db, ids) == []
  {
  }

  const OrdersLead := Wrap("Orders for ")

  /** The listing header, naming the customer or the email. */
  function ListingHeader(who: string): (r: string)
    ensures IsResult(r)
  {
    ResultAppend(OrdersLead, who + ":\n");
    OrdersLead + (who + ":\n")
  }

  function Listing(db: Stores, title: string -> string, who: string, ids: seq<string>): (r: string)
    ensures IsResult(r)
    ensures r == ListingHeader(who) + Summaries(db, title, Present(db, ids))
  {
    ResultAppend(ListingHeader(who), Summaries(db, title, Present(db, ids)));
    LinesListPresent(db, title, ids);
    AppendSummaries(db, title, ListingHeader(who), ids)
  }

  function UnknownCustomerId(customerId: string): (r: string)
    ensures IsResult(r)
  {
    Wrap("Customer ID " + customerId + " not found.Cannot retrieve orders for non-existent customer. "
      + "Ask customer for email address to search alternatively.")
  }

  function NoOrdersForCustomer(customerId: string): (r: string)
    ensures IsResult(r)
  {
    Wrap("No orders found for customer " + customerId + ".This customer has not placed any orders yet.")
  }

  /** `CustomerOrdersTool._run` (tools.py:164-176): unknown customer, customer
      without orders, or a listing headed with the customer's name that has
      one line per history id the order store knows. */
  function CustomerOrders(db: Stores, title: string -> string, customerId: string): (r: string)
    ensures IsResult(r)
    ensures customerId !in db.customers ==> r == UnknownCustomerId(customerId)
    ensures customerId in db.customers && db.customers[customerId].Orders() == [] ==>
      r == NoOrdersForCustomer(customerId)
    ensures customerId in db.customers && db.customers[customerId].Orders() != [] ==>
      var c := db.customers[customerId];
      r == ListingHeader(c.name) + Summaries(db, title, Present(db, c.Orders()))
  {
    if customerId !in db.customers then UnknownCustomerId(customerId)
    else
      var c := db.customers[customerId];
      if c.Orders() == [] then NoOrdersForCustomer(customerId)
      else Listing(db, title, c.name, c.Orders())
  }

  function UnknownEmail(email: string): (r: string)
    ensures IsResult(r)
  {
    Wrap("No customer found with email " + email + ". This email is not registered in our system.")
  }

  function NoOrdersForEmail(email: string): (r: string)
    ensures IsResult(r)
  {
    Wrap("Customer with email " + email + " exists but has no orders yet.")
  }

  /** `SearchOrdersByEmailTool._run` (tools.py:183-195): the same three
      outcomes, the listing headed with the email. */
  function SearchOrdersByEmail(db: Stores, title: string -> string, email: string): (r: string)
    ensures IsResult(r)
    ensures email !in db.customersByEmail ==> r == UnknownEmail(email)
    ensures email in db.customersByEmail && db.customersByEmail[email].Orders() == [] ==>
      r == NoOrdersForEmail(email)
    ensures email in db.customersByEmail && db.customersByEmail[email].Orders() != [] ==>
      r == ListingHeader(email) + Summaries(db, title, Present(db, db.customersByEmail[email].Orders()))
  {
    if email !in db.customersByEmail then UnknownEmail(email)
    else
      var c := db.customersByEmail[email];
      if c.Orders() == [] then NoOrdersForEmail(email)
      else Listing(db, title, email, c.Orders())
  }

  /** A customer whose history names only orders the store does not know
      gets a bare header, not the no-orders message. */
  lemma UnknownHistoryGivesBareHeader(db: Stores, title: string -> string, customerId: string)
    requires customerId in db.customers
    requires db.customers[customerId].Orders() != []
    requires forall i :: 0 <= i < |db.customers[customerId].Orders()| ==>
      db.customers[customerId].Orders()[i] !in db.orders
    ensures CustomerOrders(db, title, customerId) == ListingHeader(db.customers[customerId].name)
  {
    AllMissingListsNothing(db, db.customers[customerId].Orders());
  }

  // --------------------------------------------------------------- weather

  const Clarification := Wrap("Could you please provide more details or clarify your request so I can assist you better?")

  /** `WeatherTool._run` as it takes effect: the second definition
      (tools.py:230-231) replaces the first (tools.py:210-228), so the city
      is ignored and the answer is always the clarification request. */
  function Weather(city: string): (r: string)
    ensures IsResult(r)
    ensures r == Clarification
  {
    Clarification
  }

  lemma WeatherIgnoresCity(a: string, b: string)
    ensures Weather(a) == Weather(b)
  {
  }

  // ------------------------------------------------------- recommendations

  const NoRecommendationsText := "No recommendations available at the moment."
  const NoRecommendations := Wrap(NoRecommendationsText)
  const RecommendationLeadText := "Here are some recommended products:"
  const RecommendationLead := Wrap(RecommendationLeadText)

  /** `xs[:n]`. */
  function Take<T>(xs: seq<T>, n: nat): (r: seq<T>)
    ensures |r| == if |xs| <= n then |xs| else n
    ensures r == xs[..|r|]
  {
    if |xs| <= n then xs else xs[..n]
  }

  function RecommendationBlock(p: Product): string {
    "**" + p.name + "** - $" + FormatCents(p.price) + "\n" + p.description + "\n"
      + "Rating: " + p.rating + "/5.0\n\n"
  }

  /** The text of `ProductRecommendationTool._run` (tools.py:237-249) for the
      store's recommendations: the fixed message when there are none, else
      the header and a block for each of the first five, in order. */
  function RecommendationText(recs: seq<Product>): (r: string)
    ensures IsResult(r)
    ensures recs == [] ==> r == NoRecommendations
    ensures recs != [] ==>
      r == Strip(RecommendationLead + "\n\n" + Concat(MapSeq(Take(recs, 5), RecommendationBlock)))
    ensures recs != [] ==> StartsWith(r, RecommendationLead)
  {
    if recs == [] then NoRecommendations
    else
      var s := AppendAll(RecommendationLead + "\n\n", MapSeq(Take(recs, 5), RecommendationBlock));
      var k := |RecommendationLead| - 1;
      assert s[k] == RecommendationLead[k] == ':';
      assert s[0] == RecommendationLead[0] == 'R';
      StripKeepsPrefix(s, k);
      var r := Strip(s);
      assert r[..k + 1] == RecommendationLead;
      assert r[..|ResultPrefix|] == RecommendationLead[..|ResultPrefix|];
      r
  }

  /** Only the first five recommendations can show: any further ones leave
      the text unchanged. */
  lemma RecommendationsBeyondFiveIgnored(recs: seq<Product>, more: seq<Product>)
    requires |recs| >= 5
    ensures RecommendationText(recs + more) == RecommendationText(recs)
  {
    assert Take(recs + more, 5) == recs[..5] == Take(recs, 5);
  }

  /** `ProductRecommendationTool._run`: the fixed message exactly when the
      store has no recommendation. */
  function Recommendations(db: Stores, category: Option<string>, weatherCondition: Option<string>): (r: string)
    ensures IsResult(r)
    ensures r == NoRecommendations <==> db.recommend(category, weatherCondition) == []
  {
    var recs := db.recommend(category, weatherCondition);
    var r := RecommendationText(recs);
    if recs == [] then r
    else
      WrappedTextsDiffer(RecommendationLeadText, NoRecommendationsText, 0, r);
      r
  }
}
