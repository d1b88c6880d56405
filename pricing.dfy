/** The read-only price lookup tool over a fixed product catalogue. */
module Pricing {
  import opened Wrappers
  import opened Values
  import opened Strings
  import opened ToolsBase
  import opened Fields

  const PricingTool := Tool("get_pricing", "Get pricing information for a product by its ID", false, GetPricing)

  /** A catalogue entry; the price is in integer cents (29.99 is 2999). */
  datatype Product = Product(name: string, priceCents: int, currency: string)

  const Products: map<string, Product> := map[
    "PROD-001" := Product("Basic Widget", 2999, "USD"),
    "PROD-002" := Product("Pro Widget", 9999, "USD"),
    "PROD-003" := Product("Enterprise Widget", 29999, "USD")]

  /** The result data of a successful lookup. */
  function PriceData(id: string, p: Product): Object {
    map["product_id" := JStr(id), "name" := JStr(p.name),
        "price" := JInt(p.priceCents), "currency" := JStr(p.currency)]
  }

  /**
   * `GetPricingTool.execute(**args)`: a string `product_id` that is in the
   * catalogue yields its name, price and currency; anything else fails with
   * no data, as invalid input or as an unknown product.
   */
  function Execute(args: Object): (r: ToolResult)
    ensures WellFormed(r)
    ensures r.success <==> "product_id" in args && args["product_id"].JStr? && args["product_id"].s in Products
    ensures r.success ==>
      var id := args["product_id"].s;
      r.data == Some(PriceData(id, Products[id]))
    ensures !("product_id" in args && args["product_id"].JStr?) ==>
      r.error.Some? && StartsWith(r.error.value, "Invalid input: ")
    ensures "product_id" in args && args["product_id"].JStr? && args["product_id"].s !in Products ==>
      r.error == Some("Product not found: " + args["product_id"].s)
  {
    match RequiredString(args, "product_id")
    case Err(e) => InvalidInput("GetPricingInput", e)
    case Ok(id) =>
      if id !in Products then ToolResult(false, None, Some("Product not found: " + id))
      else ToolResult(true, Some(PriceData(id, Products[id])), None)
  }

  /** The catalogue holds exactly three products. */
  lemma CatalogueContents()
    ensures Products.Keys == {"PROD-001", "PROD-002", "PROD-003"}
  {
  }
}
