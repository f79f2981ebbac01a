/**
 The product detail page: loading one product by its route id out of the full
 list, the card of stock indicators and total stock value, and the rule
 choosing between the loading, error, product and empty views.
 */
module ProductDetailPage {
  import opened Domain
  import opened Stock

  datatype Page = Page(product: Option<Product>, isLoading: bool, error: string)

  /** The page as first rendered: no product, loading, no error. */
  const Initial := Page(None, true, "")

  /** The indicators and figures shown for a product. */
  datatype Card = Card(
    product: Product,
    badge: string,
    badgeTone: Tone,
    statusLabel: string,
    statusTone: Tone,
    totalValue: real)

  datatype View = Loading | Failure(message: string) | Shown(card: Card) | Blank

  /**
   `loadProduct(productId)`, given how the awaited `getAllProducts` settled: the
   first listed product with that id is shown; none matching, or a rejection,
   sets the matching error and leaves the product as it was. Loading always
   ends; the error is not cleared beforehand.
   */
  function Load(p: Page, productId: int, fetched: Outcome<seq<Product>>): (r: Page)
    ensures !r.isLoading
    ensures fetched.Returned? && FindById(fetched.value, productId).Some? ==>
      r.product == FindById(fetched.value, productId) && r.error == p.error
    ensures fetched.Returned? && FindById(fetched.value, productId).None? ==>
      r.product == p.product && r.error == ProductNotFound
    ensures fetched.Raised? ==> r.product == p.product && r.error == ProductLoadFailed
    ensures r.product != p.product ==>
      r.product.Some? && r.product.value.id == productId && r.product.value in fetched.value
  {
    var started := p.(isLoading := true);
    match fetched
    case Returned(products) =>
      (match FindById(products, productId)
       case Some(found) => started.(product := Some(found), isLoading := false)
       case None => started.(error := ProductNotFound, isLoading := false))
    case Raised(_) => started.(error := ProductLoadFailed, isLoading := false)
  }

  /** The mount effect: a load happens only when the route carries an id. */
  function Mount(route: Option<RouteParam>, fetched: Outcome<seq<Product>>): (r: Page)
    ensures RequestedId(route).None? ==> r == Initial
    ensures RequestedId(route).Some? ==> r == Load(Initial, RequestedId(route).value, fetched)
  {
    match RequestedId(route)
    case Some(id) => Load(Initial, id, fetched)
    case None => Initial
  }

  /** The header badge: a two-way rule, in stock exactly when the quantity is positive. */
  function Badge(quantity: int): (b: string)
    ensures b == "Em Estoque" <==> quantity > 0
    ensures b == "Sem Estoque" <==> quantity <= 0
  {
    if quantity > 0 then "Em Estoque" else "Sem Estoque"
  }

  /**
   The status label of the stock card, on the three-way thresholds. It agrees
   with the two-way badge on when there is no stock.
   */
  function StatusLabel(quantity: int): (l: string)
    ensures LevelOf(quantity) == High ==> l == "Estoque Alto"
    ensures LevelOf(quantity) == Low ==> l == "Estoque Baixo"
    ensures LevelOf(quantity) == Out ==> l == "Sem Estoque"
    ensures l == "Sem Estoque" <==> Badge(quantity) == "Sem Estoque"
  {
    if quantity > 10 then "Estoque Alto" else if quantity > 0 then "Estoque Baixo" else "Sem Estoque"
  }

  /**
   The card shown for a product: the two-way badge and the status label, both
   coloured by the stock level, and the total stock value, unit price times
   quantity. For a priced product the total is positive exactly when the badge
   says it is in stock.
   */
  function CardOf(p: Product): (c: Card)
    ensures c.product == p
    ensures c.badge == Badge(p.stockQuantity) && c.statusLabel == StatusLabel(p.stockQuantity)
    ensures c.badgeTone == ToneOf(LevelOf(p.stockQuantity)) && c.statusTone == c.badgeTone
    ensures c.totalValue == p.price * (p.stockQuantity as real)
    ensures p.price > 0.0 ==> (c.totalValue > 0.0 <==> c.badge == "Em Estoque")
  {
    var q := p.stockQuantity;
    Card(p, Badge(q), ToneFor(q), StatusLabel(q), ToneFor(q), p.price * (q as real))
  }

  /** Which view the page renders: loading first, then the error, then the product, else nothing. */
  function ViewOf(p: Page): (v: View)
    ensures v == Loading <==> p.isLoading
    ensures v.Failure? <==> !p.isLoading && p.error != ""
    ensures v.Failure? ==> v.message == p.error
    ensures v.Shown? <==> !p.isLoading && p.error == "" && p.product.Some?
    ensures v.Shown? ==> v.card == CardOf(p.product.value)
  {
    if p.isLoading then Loading
    else if p.error != "" then Failure(p.error)
    else if p.product.Some? then Shown(CardOf(p.product.value))
    else Blank
  }

  /** Without a route id nothing is loaded, so the page keeps showing the loading view. */
  lemma NoIdKeepsLoading(fetched: Outcome<seq<Product>>)
    ensures ViewOf(Mount(None, fetched)) == Loading
  {
  }

  /**
   Opening the page for an id shows the first listed product with that id, or
   the not-found error when no listed product has it.
   */
  lemma OpenShowsFirstMatch(param: RouteParam, products: seq<Product>)
    requires param.text != ""
    ensures var v := ViewOf(Mount(Some(param), Returned(products)));
      match FindById(products, param.value)
      case Some(found) => v == Shown(CardOf(found))
      case None => v == Failure(ProductNotFound)
  {
  }
}
