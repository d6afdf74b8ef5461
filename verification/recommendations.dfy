/**
 * `GET /api/recommendations` of the catalogue backend: the category query
 * parameter is checked against `TYPE_MAP` and answered with a fixed list of
 * three products; `maxPrice` and `limit` are read but not used.
 */
module Recommendations {
  import opened Wrappers

  datatype Product = Product(id: string, name: string, price: real, img: string)

  /** The query; an absent `category` is `None`, the price and limit stay unparsed. */
  datatype Query = Query(category: Option<string>, maxPrice: Option<string>, limit: Option<string>)

  /**
   * The JSON answer: the product array, the `{ error }` object, `{}`, or no
   * body at all (what `res.json` sends for a function value).
   */
  datatype Body = Products(items: seq<Product>) | Error(message: string) | EmptyObject | NoBody

  datatype Reply = Reply(status: int, body: Body)

  /** The own entries of `TYPE_MAP`. */
  function TypeCode(category: string): (code: Option<string>)
    ensures code.Some? <==> category in {"Beer", "Wine", "RTD"}
    ensures code.Some? ==> |code.value| == 2 && code.value[0] == category[0]
  {
    match category
    case "Beer" => Some("BE")
    case "Wine" => Some("WI")
    case "RTD" => Some("RT")
    case _ => None
  }

  /** `hardcodedData[category]` for the three categories. */
  function Catalog(category: string): seq<Product> {
    match category
    case "Beer" => [
      Product("B001", "Corona Extra", 12.99, "https://via.placeholder.com/80?text=Corona"),
      Product("B002", "Stella Artois", 15.99, "https://via.placeholder.com/80?text=Stella"),
      Product("B003", "Guinness", 18.99, "https://via.placeholder.com/80?text=Guinness")]
    case "Wine" => [
      Product("W001", "Kendall-Jackson Chardonnay", 24.99, "https://via.placeholder.com/80?text=Chardonnay"),
      Product("W002", "Caymus Cabernet", 89.99, "https://via.placeholder.com/80?text=Caymus"),
      Product("W003", "La Marca Prosecco", 19.99, "https://via.placeholder.com/80?text=Prosecco")]
    case "RTD" => [
      Product("R001", "White Claw Variety Pack", 17.99, "https://via.placeholder.com/80?text=WhiteClaw"),
      Product("R002", "High Noon Vodka Soda", 19.99, "https://via.placeholder.com/80?text=HighNoon"),
      Product("R003", "Truly Hard Seltzer", 16.99, "https://via.placeholder.com/80?text=Truly")]
    case _ => []
  }

  /** The property name an absent parameter is looked up under. */
  function KeyOf(category: Option<string>): string {
    category.GetOr("undefined")
  }

  /**
   * The handler with `TYPE_MAP` read as a dictionary of its own entries:
   * 400 `Invalid category` for anything but the three categories, else 200
   * with the category's three products.
   */
  function Handle(q: Query): (r: Reply)
    ensures r.status == 400 <==> TypeCode(KeyOf(q.category)).None?
    ensures r.status == 400 ==> r.body == Error("Invalid category")
    ensures r.status != 400 ==> r.status == 200 && r.body.Products?
    ensures r.body.Products? ==>
              && |r.body.items| == 3
              && (forall p :: p in r.body.items ==> p.price > 0.0 && |p.id| == 4 && p.id[0] == KeyOf(q.category)[0])
  {
    var key := KeyOf(q.category);
    if TypeCode(key).None? then Reply(400, Error("Invalid category"))
    else Reply(200, Products(Catalog(key)))
  }

  /** `maxPrice` and `limit` never change the answer. */
  lemma PriceAndLimitIgnored(q: Query, maxPrice: Option<string>, limit: Option<string>)
    ensures Handle(q.(maxPrice := maxPrice, limit := limit)) == Handle(q)
  {
  }

  /** The names every plain JavaScript object inherits from `Object.prototype`. */
  const PrototypeNames: set<string> := {
    "constructor", "__defineGetter__", "__defineSetter__", "hasOwnProperty",
    "__lookupGetter__", "__lookupSetter__", "isPrototypeOf", "propertyIsEnumerable",
    "toString", "valueOf", "__proto__", "toLocaleString"}

  /** What reading a property of an object literal finds. */
  datatype Found = Own(code: string) | Inherited(name: string) | Missing

  /** `TYPE_MAP[key]` with the prototype chain. */
  function TypeMapGet(key: string): (f: Found)
    ensures f.Missing? <==> TypeCode(key).None? && key !in PrototypeNames
  {
    match TypeCode(key)
    case Some(code) => Own(code)
    case None => if key in PrototypeNames then Inherited(key) else Missing
  }

  /**
   * The handler as written: `!typeCode` only rejects missing properties, so
   * an inherited name passes and `hardcodedData[category]` yields the
   * inherited value, a function (sent as no body) or, for `__proto__`,
   * `Object.prototype` (sent as `{}`).
   */
  function HandleAsWritten(q: Query): (r: Reply)
    ensures r.status == 400 <==> TypeMapGet(KeyOf(q.category)).Missing?
  {
    var key := KeyOf(q.category);
    match TypeMapGet(key)
    case Missing => Reply(400, Error("Invalid category"))
    case Own(_) => Reply(200, Products(Catalog(key)))
    case Inherited(name) => Reply(200, if name == "__proto__" then EmptyObject else NoBody)
  }

  /** The two handlers agree on every category that is not an inherited name. */
  lemma AsWrittenAgreesOffPrototype(q: Query)
    requires KeyOf(q.category) !in PrototypeNames
    ensures HandleAsWritten(q) == Handle(q)
  {
  }

  /** `?category=constructor` is accepted with status 200 and no product list instead of 400. */
  lemma ConstructorAccepted()
    ensures HandleAsWritten(Query(Some("constructor"), None, None)) == Reply(200, NoBody)
    ensures Handle(Query(Some("constructor"), None, None)) == Reply(400, Error("Invalid category"))
  {
  }

  /** Every inherited name is accepted as written and rejected by the corrected handler. */
  lemma {:induction false} InheritedNamesAccepted(q: Query)
    requires KeyOf(q.category) in PrototypeNames
    ensures HandleAsWritten(q).status == 200 && !HandleAsWritten(q).body.Products?
    ensures Handle(q).status == 400
  {
    assert TypeCode(KeyOf(q.category)).None?;
  }
}
