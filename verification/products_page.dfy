/**
 The product list page: `loadProducts`, the stock indicators of each row, and
 the rule choosing between the loading, error, empty and list views.
 */
module ProductsPage {
  import opened Domain
  import opened Stock
  import Api

  const LoadFailed := "Erro ao carregar produtos"

  datatype Page = Page(products: seq<Product>, isLoading: bool, error: string)

  /** The page as first rendered: no products, loading, no error. */
  const Initial := Page([], true, "")

  /** One rendered row: the product and its stock indicators. */
  datatype Row = Row(product: Product, dot: Tone, title: string, quantityTone: Tone)

  datatype View = Loading | Failure(message: string) | NoProducts | Listing(rows: seq<Row>)

  /** The tooltip of a row's status dot: one title per stock level. */
  function StatusTitle(quantity: int): (t: string)
    ensures t == "Em estoque" <==> LevelOf(quantity) == High
    ensures t == "Estoque baixo" <==> LevelOf(quantity) == Low
    ensures t == "Sem estoque" <==> LevelOf(quantity) == Out
  {
    if quantity > 10 then "Em estoque" else if quantity > 0 then "Estoque baixo" else "Sem estoque"
  }

  /** A row's dot and quantity figure share one colour rule. */
  function RowOf(p: Product): Row {
    Row(p, ToneFor(p.stockQuantity), StatusTitle(p.stockQuantity), ToneFor(p.stockQuantity))
  }

  /** The rows of a product list, one per product and in the fetched order. */
  function Rows(ps: seq<Product>): (rows: seq<Row>)
    ensures |rows| == |ps|
    ensures forall i :: 0 <= i < |ps| ==> rows[i].product == ps[i]
    ensures forall i :: 0 <= i < |ps| ==> rows[i] == RowOf(ps[i])
  {
    seq(|ps|, i requires 0 <= i < |ps| => RowOf(ps[i]))
  }

  /**
   `loadProducts`, given how the awaited `getAllProducts` settled: a list
   replaces the products wholesale, a rejection sets the load error; the error
   is never cleared, and loading always ends.
   */
  function Load(p: Page, fetched: Outcome<seq<Product>>): (r: Page)
    ensures !r.isLoading
    ensures fetched.Returned? ==> r.products == fetched.value && r.error == p.error
    ensures fetched.Raised? ==> r.products == p.products && r.error == LoadFailed
  {
    var started := p.(isLoading := true);
    match fetched
    case Returned(data) => started.(products := data, isLoading := false)
    case Raised(_) => started.(error := LoadFailed, isLoading := false)
  }

  /** Which view the page renders: loading first, then the error, then an empty list, then the rows. */
  function ViewOf(p: Page): (v: View)
    ensures v == Loading <==> p.isLoading
    ensures v.Failure? <==> !p.isLoading && p.error != ""
    ensures v.Failure? ==> v.message == p.error
    ensures v == NoProducts <==> !p.isLoading && p.error == "" && p.products == []
    ensures v.Listing? ==> v.rows == Rows(p.products) && p.products != []
  {
    if p.isLoading then Loading
    else if p.error != "" then Failure(p.error)
    else if |p.products| == 0 then NoProducts
    else Listing(Rows(p.products))
  }

  /** Once a load has failed, the error view stays, even after a later load succeeds. */
  lemma ErrorSticks(p: Page, fetched: Outcome<seq<Product>>)
    requires p.error != ""
    ensures ViewOf(Load(p, fetched)) == Failure(if fetched.Raised? then LoadFailed else p.error)
  {
  }

  /**
   Because the service turns a failed request into an empty list, a failed
   fetch shows the empty-inventory view, never the error view.
   */
  lemma FailedFetchLooksEmpty(s: Api.Storage, reply: Api.Reply<seq<Product>>)
    requires reply.NetworkError? || !reply.ok
    ensures ViewOf(Load(Initial, Api.GetAllProducts(s, reply).outcome)) == NoProducts
  {
  }

  /** A successful non-empty fetch lists exactly the fetched products, in order. */
  lemma FetchedListShown(p: Page, s: Api.Storage, reply: Api.Reply<seq<Product>>)
    requires p.error == "" && reply.Response? && reply.ok && reply.body != []
    ensures ViewOf(Load(p, Api.GetAllProducts(s, reply).outcome)) == Listing(Rows(reply.body))
  {
  }
}
