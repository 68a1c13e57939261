/** The tool list the agent is built with (`get_tools`, tools.py:251-265)
    and the dispatch from a tool call to the tool's `_run`. */
module Registry {
  import opened Wrappers
  import opened PyDict
  import opened Records
  import opened Tools

  /** One constructor per tool class. */
  datatype ToolKind =
    | OrderStatusTool
    | OrderCancelTool
    | ReturnProcessTool
    | ProductSearchTool
    | ProductDetailsTool
    | CustomerInfoTool
    | CustomerOrdersTool
    | SearchOrdersByEmailTool
    | UpdatePreferencesTool
    | WeatherTool
    | ProductRecommendationTool

  /** The `name` class attribute of each tool. */
  function ToolName(k: ToolKind): string {
    match k
    case OrderStatusTool => "order_status"
    case OrderCancelTool => "cancel_order"
    case ReturnProcessTool => "process_return"
    case ProductSearchTool => "search_products"
    case ProductDetailsTool => "product_details"
    case CustomerInfoTool => "customer_info"
    case CustomerOrdersTool => "get_customer_orders"
    case SearchOrdersByEmailTool => "search_orders_by_email"
    case UpdatePreferencesTool => "update_preferences"
    case WeatherTool => "get_weather"
    case ProductRecommendationTool => "product_recommendations"
  }

  /** `get_tools()`: one instance of each of the eleven tools, in this order. */
  function GetTools(): (r: seq<ToolKind>)
    ensures |r| == 11
    ensures forall k: ToolKind :: r[Position(k)] == k
    ensures forall i, j :: 0 <= i < j < |r| ==> r[i] != r[j]
    ensures r[0] == OrderStatusTool && r[10] == ProductRecommendationTool
  {
    var r := [OrderStatusTool, OrderCancelTool, ReturnProcessTool, ProductSearchTool, ProductDetailsTool,
      CustomerInfoTool, CustomerOrdersTool, SearchOrdersByEmailTool, UpdatePreferencesTool,
      WeatherTool, ProductRecommendationTool];
    r
  }

  /** Where each tool sits in the list. */
  function Position(k: ToolKind): (i: nat)
    ensures i < 11
  {
    match k
    case OrderStatusTool => 0
    case OrderCancelTool => 1
    case ReturnProcessTool => 2
    case ProductSearchTool => 3
    case ProductDetailsTool => 4
    case CustomerInfoTool => 5
    case CustomerOrdersTool => 6
    case SearchOrdersByEmailTool => 7
    case UpdatePreferencesTool => 8
    case WeatherTool => 9
    case ProductRecommendationTool => 10
  }

  /** The names of a tool list, in order. */
  function Names(tools: seq<ToolKind>): (r: seq<string>)
    ensures |r| == |tools|
    ensures forall i :: 0 <= i < |r| ==> r[i] == ToolName(tools[i])
  {
    if tools == [] then [] else [ToolName(tools[0])] + Names(tools[1..])
  }

  /** The agent's tool list has eleven pairwise distinct names. */
  lemma ToolNamesDistinct()
    ensures var ns := Names(GetTools());
      |ns| == 11 && forall i, j :: 0 <= i < j < |ns| ==> ns[i] != ns[j]
  {
  }

  /** A call of one tool with the arguments its input schema declares;
      optional arguments are `None` when the model leaves them out. */
  datatype ToolCall =
    | OrderStatusCall(orderId: string)
    | CancelOrderCall(orderId: string)
    | ProcessReturnCall(orderId: string, reason: string)
    | SearchProductsCall(query: string, category: Option<string>)
    | ProductDetailsCall(productId: string)
    | CustomerInfoCall(byId: Option<string>, byEmail: Option<string>)
    | CustomerOrdersCall(customerId: string)
    | SearchOrdersByEmailCall(email: string)
    | UpdatePreferencesCall(customerId: string, preferences: Dict<string, PrefValue>)
    | WeatherCall(city: string)
    | RecommendationsCall(category: Option<string>, weatherCondition: Option<string>)
  {
    /** The tool the call is addressed to. */
    function Kind(): ToolKind {
      match this
      case OrderStatusCall(_) => OrderStatusTool
      case CancelOrderCall(_) => OrderCancelTool
      case ProcessReturnCall(_, _) => ReturnProcessTool
      case SearchProductsCall(_, _) => ProductSearchTool
      case ProductDetailsCall(_) => ProductDetailsTool
      case CustomerInfoCall(_, _) => CustomerInfoTool
      case CustomerOrdersCall(_) => CustomerOrdersTool
      case SearchOrdersByEmailCall(_) => SearchOrdersByEmailTool
      case UpdatePreferencesCall(_, _) => UpdatePreferencesTool
      case WeatherCall(_) => WeatherTool
      case RecommendationsCall(_, _) => ProductRecommendationTool
    }
  }

  /** The tool's `_run` on the call's arguments. Every text a tool returns
      is a `RESULT: ` text; only `customer_info` can raise instead, and only
      for a customer record that lacks a key it indexes. */
  function Run(db: Stores, title: string -> string, call: ToolCall): (r: Answer)
    ensures r.Text? ==> IsResult(r.text)
    ensures call.Kind() != CustomerInfoTool ==> r.Text?
    ensures r.MissingKey? ==> call.CustomerInfoCall?
    ensures call.CustomerInfoCall? ==>
      var c := SelectCustomer(db, call.byId, call.byEmail);
      (r.MissingKey? <==> c.Some? && (c.value.preferences.None? || c.value.orderHistory.None?))
  {
    match call
    case OrderStatusCall(id) => Text(OrderStatus(db, title, id))
    case CancelOrderCall(id) => Text(CancelOrder(db, id))
    case ProcessReturnCall(id, reason) => Text(ProcessReturn(db, id, reason))
    case SearchProductsCall(q, cat) => Text(SearchProducts(db, title, q, cat))
    case ProductDetailsCall(id) => Text(ProductDetails(db, title, id))
    case CustomerInfoCall(id, email) => CustomerInfo(db, id, email)
    case CustomerOrdersCall(id) => Text(CustomerOrders(db, title, id))
    case SearchOrdersByEmailCall(email) => Text(SearchOrdersByEmail(db, title, email))
    case UpdatePreferencesCall(id, prefs) => Text(UpdatePreferences(db, id, prefs))
    case WeatherCall(city) => Text(Weather(city))
    case RecommendationsCall(cat, cond) => Text(Recommendations(db, cat, cond))
  }
}
