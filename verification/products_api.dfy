/**
 * The product collection endpoint: which filters a listing request turns
 * into a database `where` clause, and how a creation request is validated
 * and turned into the stored record. The database itself is not modelled:
 * a `where` clause is given its meaning by `Selects`.
 */
module ProductsApi {
  import opened Wrappers
  import opened Catalog

  // ---------------------------------------------------------------------
  // GET /api/products

  /** The `where` object: a present field constrains the product's field to that value. */
  datatype Where = Where(category: Option<string>, featured: Option<bool>, inStock: Option<bool>)

  /** What the database returns for a `where` clause: products equal to it on every present field. */
  predicate Selects(w: Where, p: Product)
  {
    && (w.category.Some? ==> p.category == w.category.value)
    && (w.featured.Some? ==> p.featured == w.featured.value)
    && (w.inStock.Some? ==> p.inStock == w.inStock.value)
  }

  /** The products a listing request asks for, by its query parameters (absent parameters are None). */
  predicate Requested(category: Option<string>, featured: Option<string>, inStock: Option<string>, p: Product)
  {
    && (category == None || category == Some("") || category == Some("All") || Some(p.category) == category)
    && (featured == Some("true") ==> p.featured)
    && (inStock == Some("true") ==> p.inStock)
  }

  /**
   * Builds the `where` object field by field. A category constraint is added
   * only for a present, non-empty category other than 'All'; `featured` and
   * `inStock` constraints only for the exact value 'true'.
   */
  method BuildWhere(category: Option<string>, featured: Option<string>, inStock: Option<string>)
    returns (w: Where)
    ensures w.category.Some? <==> category.Some? && category.value != "" && category.value != "All"
    ensures w.category.Some? ==> w.category == category
    ensures w.featured.Some? <==> featured == Some("true")
    ensures w.inStock.Some? <==> inStock == Some("true")
    ensures forall p :: Selects(w, p) <==> Requested(category, featured, inStock, p)
  {
    w := Where(None, None, None);
    if category.Some? && category.value != "" && category.value != "All" {
      w := w.(category := category);
    }
    if featured == Some("true") {
      w := w.(featured := Some(true));
    }
    if inStock == Some("true") {
      w := w.(inStock := Some(true));
    }
  }

  // ---------------------------------------------------------------------
  // POST /api/products

  /** A value of the parsed JSON request body; `Undefined` is a missing key. */
  datatype JsonValue = Undefined | Null | Bool(b: bool) | Number(n: real) | Str(s: string) | Composite

  /** JavaScript truthiness: `undefined`, `null`, `false`, `0` and `''` are falsy, everything else truthy. */
  predicate Truthy(v: JsonValue)
  {
    match v
    case Undefined => false
    case Null => false
    case Bool(b) => b
    case Number(n) => n != 0.0
    case Str(s) => s != ""
    case Composite => true
  }

  datatype ProductBody = ProductBody(
    name: JsonValue,
    description: JsonValue,
    price: JsonValue,
    image: JsonValue,
    category: JsonValue,
    stockCount: JsonValue,
    featured: JsonValue)

  /** The record handed to the database. `price` is None where `parseFloat` gave NaN. */
  datatype NewProduct = NewProduct(
    name: JsonValue,
    description: JsonValue,
    price: Option<int>,
    image: Option<JsonValue>,
    category: JsonValue,
    stockCount: int,
    inStock: bool,
    featured: bool)

  datatype Response = Created(product: NewProduct) | Rejected(status: int, message: string)

  const RequiredFieldsMessage := "Name, description, price, and category are required"

  /**
   * The creation handler. `parsedPrice` is `parseFloat(price)` in cents and
   * `parsedStock` is `parseInt(stockCount)`, None where they give NaN.
   */
  function Create(body: ProductBody, parsedPrice: Option<int>, parsedStock: Option<int>): (r: Response)
    ensures r.Rejected? <==>
      !Truthy(body.name) || !Truthy(body.description) || !Truthy(body.price) || !Truthy(body.category)
    ensures r.Rejected? ==> r.status == 400
    ensures r.Created? ==> r.product.inStock == (r.product.stockCount > 0)
    ensures r.Created? ==> r.product.stockCount == (if parsedStock.Some? then parsedStock.value else 0)
    ensures r.Created? ==> (r.product.featured <==> body.featured == Bool(true) || body.featured == Str("true"))
    ensures r.Created? ==> (r.product.image.None? <==> !Truthy(body.image))
    ensures r.Created? ==> r.product.image.Some? ==> r.product.image.value == body.image
    ensures r.Created? ==>
      r.product.name == body.name && r.product.description == body.description &&
      r.product.category == body.category && r.product.price == parsedPrice
  {
    if !Truthy(body.name) || !Truthy(body.description) || !Truthy(body.price) || !Truthy(body.category) then
      Rejected(400, RequiredFieldsMessage)
    else
      Created(NewProduct(
        body.name,
        body.description,
        parsedPrice,
        if Truthy(body.image) then Some(body.image) else None,
        body.category,
        // `parseInt(stockCount) || 0`: NaN falls back to 0, an integer is kept
        match parsedStock case Some(n) => n case None => 0,
        match parsedStock case Some(n) => n > 0 case None => false,
        body.featured == Bool(true) || body.featured == Str("true")))
  }

  const InternalErrorMessage := "Internal server error"

  /**
   * The whole POST handler. `body` is None when the request body cannot be
   * read as an object: it is not JSON, or it is JSON `null`, whose
   * destructuring throws. Both reach the handler's catch block. Any other
   * JSON value destructures; a primitive or an array gives `Undefined` for
   * every field (see `PrimitiveBodyRejected`).
   */
  function Post(body: Option<ProductBody>, parsedPrice: Option<int>, parsedStock: Option<int>): (r: Response)
    ensures body.None? ==> r == Rejected(500, InternalErrorMessage)
    ensures body.Some? ==> r == Create(body.value, parsedPrice, parsedStock)
    ensures r.Rejected? ==> r.status == 400 || r.status == 500
    ensures r.Created? ==> body.Some?
  {
    match body
    case None => Rejected(500, InternalErrorMessage)
    case Some(fields) => Create(fields, parsedPrice, parsedStock)
  }

  /** A body that parses to a number, string, boolean or array has no product fields, so it is answered with 400, not 500. */
  lemma PrimitiveBodyRejected(parsedPrice: Option<int>, parsedStock: Option<int>)
    ensures Post(Some(ProductBody(Undefined, Undefined, Undefined, Undefined, Undefined, Undefined, Undefined)),
                 parsedPrice, parsedStock) == Rejected(400, RequiredFieldsMessage)
  {
  }

  /** A price of numeric 0 or the empty string is rejected like a missing one, but the string "0" passes validation and is stored as price 0. */
  lemma PriceTruthiness(name: JsonValue, description: JsonValue, image: JsonValue, category: JsonValue,
                        stockCount: JsonValue, featured: JsonValue, parsedStock: Option<int>)
    requires Truthy(name) && Truthy(description) && Truthy(category)
    ensures Create(ProductBody(name, description, Number(0.0), image, category, stockCount, featured), Some(0), parsedStock).Rejected?
    ensures Create(ProductBody(name, description, Str(""), image, category, stockCount, featured), None, parsedStock).Rejected?
    ensures Create(ProductBody(name, description, Str("0"), image, category, stockCount, featured), Some(0), parsedStock).Created?
    ensures Create(ProductBody(name, description, Str("0"), image, category, stockCount, featured), Some(0), parsedStock).product.price == Some(0)
  {
  }
}
