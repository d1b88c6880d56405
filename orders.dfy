/** The order creation tool: validates its three fields and reports a new order. */
module Orders {
  import opened Wrappers
  import opened Values
  import opened Strings
  import opened ToolsBase
  import opened Fields

  const OrderTool := Tool("create_order", "Create a new order for a product", true, CreateOrder)

  predicate IsUpperHex(c: char) {
    '0' <= c <= '9' || 'A' <= c <= 'F'
  }

  /**
   * The first eight hex digits of a random UUID, upper-cased. The random
   * source is not modelled: the suffix is a parameter.
   */
  type OrderSuffix = s: string | |s| == 8 && forall i | 0 <= i < |s| :: IsUpperHex(s[i])
    witness "00000000"

  /** "ORD-" followed by eight upper-case hex digits. */
  predicate IsOrderId(s: string) {
    |s| == 12 && StartsWith(s, "ORD-") && forall i | 4 <= i < 12 :: IsUpperHex(s[i])
  }

  /** The arguments the input model accepts: two strings and a quantity in [1, 100]. */
  predicate ValidOrder(args: Object) {
    && "product_id" in args && args["product_id"].JStr?
    && "quantity" in args && args["quantity"].JInt? && 1 <= args["quantity"].n <= 100
    && "customer_id" in args && args["customer_id"].JStr?
  }

  /**
   * `CreateOrderTool.execute(**args)`: valid arguments yield an order record
   * echoing them with status "created" and a fresh order id; anything else
   * fails as invalid input.
   */
  function Execute(args: Object, suffix: OrderSuffix): (r: ToolResult)
    ensures WellFormed(r)
    ensures r.success <==> ValidOrder(args)
    ensures r.success ==> r.data == Some(map[
      "order_id" := JStr("ORD-" + suffix),
      "product_id" := args["product_id"],
      "quantity" := args["quantity"],
      "customer_id" := args["customer_id"],
      "status" := JStr("created")])
    ensures !r.success ==> r.error.Some? && StartsWith(r.error.value, "Invalid input: ")
  {
    match RequiredString(args, "product_id")
    case Err(e) => InvalidInput("CreateOrderInput", e)
    case Ok(productId) =>
      match RequiredIntInRange(args, "quantity", 1, 100)
      case Err(e) => InvalidInput("CreateOrderInput", e)
      case Ok(quantity) =>
        match RequiredString(args, "customer_id")
        case Err(e) => InvalidInput("CreateOrderInput", e)
        case Ok(customerId) =>
          ToolResult(true, Some(map[
            "order_id" := JStr("ORD-" + suffix),
            "product_id" := JStr(productId),
            "quantity" := JInt(quantity),
            "customer_id" := JStr(customerId),
            "status" := JStr("created")]), None)
  }

  /** Every order id the tool hands out has the documented format. */
  lemma OrderIdFormat(suffix: OrderSuffix)
    ensures IsOrderId("ORD-" + suffix)
  {
    var id := "ORD-" + suffix;
    forall i | 4 <= i < 12 ensures IsUpperHex(id[i]) {
      assert id[i] == suffix[i - 4];
    }
  }

  /**
   * The product id is not checked against the pricing catalogue: replacing it
   * by any other string does not change whether the order succeeds.
   */
  lemma ProductNotLookedUp(args: Object, p: string, q: string, suffix: OrderSuffix)
    ensures Execute(args["product_id" := JStr(p)], suffix).success
         == Execute(args["product_id" := JStr(q)], suffix).success
  {
  }
}
