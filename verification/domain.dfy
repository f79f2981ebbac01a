/**
 The shared vocabulary of the inventory client: optional values, the way an
 awaited service call settles, the product and user records exchanged with the
 backend, the `:id` route parameter and the paths the pages navigate to.
 */
module Domain {

  /** A value that may be absent (`null`/`undefined` in the client). */
  datatype Option<+T> = None | Some(value: T) {

    /** The value, or `default` when absent. */
    function GetOr(default: T): T {
      match this
      case Some(v) => v
      case None => default
    }
  }

  /** Why a service call rejected its promise. */
  datatype ApiError =
    | NetworkFailure            // `fetch` itself rejected
    | Failed(message: string)   // the service threw `new Error(message)`

  /** How an awaited promise settles: it resolves with a value or rejects. */
  datatype Outcome<+T> = Returned(value: T) | Raised(error: ApiError)

  /** A product as the backend lists it. */
  datatype Product = Product(
    id: int,
    name: string,
    description: Option<string>,
    price: real,
    stockQuantity: int)

  /** The body of a create or update request; also the product form's state. */
  datatype ProductInput = ProductInput(
    name: string,
    description: Option<string>,
    price: real,
    stockQuantity: int)

  /** The signed-in identity the client keeps. */
  datatype User = User(id: int, email: string, name: string, token: string)

  /** The `:id` segment of a route: its text and the integer `parseInt` reads from it. */
  datatype RouteParam = RouteParam(text: string, value: int)

  /** The message both sign-in forms show when a field is left empty. */
  const FillAllFields := "Por favor, preencha todos os campos"

  /** The messages both product pages show when loading one product by id fails. */
  const ProductNotFound := "Produto não encontrado"
  const ProductLoadFailed := "Erro ao carregar produto"

  /** Navigation targets used by the pages. */
  datatype Path = ProductsPath | ProductPath(id: string)

  /**
   The id a page loads for its route: `parseInt(id)`, and only when the `:id`
   segment is present and non-empty.
   */
  function RequestedId(route: Option<RouteParam>): (r: Option<int>)
    ensures r.Some? <==> route.Some? && route.value.text != ""
    ensures r.Some? ==> r.value == route.value.value
  {
    match route
    case Some(param) => if param.text != "" then Some(param.value) else None
    case None => None
  }

  /** The product fields of a listed product, without its id. */
  function Fields(p: Product): ProductInput {
    ProductInput(p.name, p.description, p.price, p.stockQuantity)
  }

  /** The product `{ id, ...input }`. */
  function WithId(id: int, input: ProductInput): (p: Product)
    ensures p.id == id && Fields(p) == input
  {
    Product(id, input.name, input.description, input.price, input.stockQuantity)
  }

  /**
   `products.find((p) => p.id === id)`: the first product carrying `id`, or
   nothing when no product does.
   */
  function FindById(ps: seq<Product>, id: int): (r: Option<Product>)
    ensures r.None? <==> forall i :: 0 <= i < |ps| ==> ps[i].id != id
    ensures r.Some? ==>
      exists i :: 0 <= i < |ps| && ps[i] == r.value && ps[i].id == id &&
        forall j :: 0 <= j < i ==> ps[j].id != id
  {
    if |ps| == 0 then None
    else if ps[0].id == id then Some(ps[0])
    else
      var r := FindById(ps[1..], id);
      assert forall i :: 1 <= i < |ps| ==> ps[i] == ps[1..][i - 1];
      r
  }
}
