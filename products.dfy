/** The products router: stock movements (entrada, saída, ajuste) that change a product's
    stock in place, the soft delete, and the active-only listing. Stock and movement
    quantities are integer units. */
module Products {
  import opened Common

  datatype Product = Product(id: int, name: string, price: int, stockQuantity: int, isActive: bool)

  /** The body of POST /products/{id}/stock-movement. */
  datatype MovementRequest = MovementRequest(movementType: string, quantity: int, reason: string)

  /** A recorded stock movement. */
  datatype StockMovement = StockMovement(
    id: int, productId: int, userId: int, movementType: string, quantity: int, reason: string)

  /** `DuplicateKeyword` is the unhandled `TypeError` of the endpoint as written, answered with
      500. */
  datatype ProductError = ProductNotFound | InsufficientStock | DuplicateKeyword {
    function StatusCode(): int {
      if ProductNotFound? then 404 else if InsufficientStock? then 400 else 500
    }
  }

  const Entrada := "entrada"
  const Saida := "saída"
  const Ajuste := "ajuste"

  function HasId(id: int): Product -> bool {
    (p: Product) => p.id == id
  }

  predicate HasProduct(products: seq<Product>, id: int) {
    exists j :: 0 <= j < |products| && products[j].id == id
  }

  /** The stock after a movement of `quantity` of kind `movementType`; `None` when an
      outflow asks for more than the stock holds. Unknown kinds leave the stock alone. */
  function MovedStock(stock: int, movementType: string, quantity: int): Option<int> {
    if movementType == Entrada then Some(stock + quantity)
    else if movementType == Saida then (if stock < quantity then None else Some(stock - quantity))
    else if movementType == Ajuste then Some(quantity)
    else Some(stock)
  }

  /** The only rejected movement is an outflow larger than the stock; an accepted outflow
      never drives a non-negative stock below zero, and neither does an inflow or an
      adjustment of a non-negative quantity. */
  lemma MovementRejectedOnlyWhenShort(stock: int, movementType: string, quantity: int)
    ensures MovedStock(stock, movementType, quantity).None? <==> movementType == Saida && stock < quantity
    ensures stock >= 0 && quantity >= 0 && MovedStock(stock, movementType, quantity).Some? ==>
      MovedStock(stock, movementType, quantity).value >= 0
    ensures movementType == Saida && MovedStock(stock, movementType, quantity).Some? ==>
      MovedStock(stock, movementType, quantity).value >= 0
  {
  }

  /** On a non-negative stock an outflow undoes an inflow of the same quantity, and an
      adjustment forgets the stock it replaces. */
  lemma InflowThenOutflowRestores(stock: int, quantity: int, other: int)
    requires stock >= 0
    ensures MovedStock(stock, Entrada, quantity).Some?
    ensures MovedStock(MovedStock(stock, Entrada, quantity).value, Saida, quantity) == Some(stock)
    ensures MovedStock(stock, Ajuste, quantity) == MovedStock(other, Ajuste, quantity)
  {
    assert Saida != Entrada by {
      assert |Saida| == 5 && |Entrada| == 7;
    }
  }

  /** The product table after the movement, or the error the endpoint raises. */
  function AfterMovement(products: seq<Product>, productId: int, movement: MovementRequest)
    : Result<seq<Product>, ProductError>
  {
    match FindFirst(products, HasId(productId))
    case None => Err(ProductNotFound)
    case Some(k) =>
      match MovedStock(products[k].stockQuantity, movement.movementType, movement.quantity)
      case None => Err(InsufficientStock)
      case Some(s) => Ok(products[k := products[k].(stockQuantity := s)])
  }

  /** A movement fails with 404 exactly when no product has the id, and with 400 exactly when
      it is an outflow larger than that product's stock; otherwise it changes the stock of that
      product alone and no other field. */
  lemma {:induction false} MovementTouchesOneProduct(products: seq<Product>, productId: int, movement: MovementRequest)
    ensures AfterMovement(products, productId, movement) == Err(ProductNotFound) <==>
      forall j :: 0 <= j < |products| ==> products[j].id != productId
    ensures AfterMovement(products, productId, movement).Ok? ==>
      var after := AfterMovement(products, productId, movement).value;
      && |after| == |products|
      && exists k :: 0 <= k < |products| && products[k].id == productId
           && MovedStock(products[k].stockQuantity, movement.movementType, movement.quantity) == Some(after[k].stockQuantity)
           && after[k] == products[k].(stockQuantity := after[k].stockQuantity)
           && forall j :: 0 <= j < |products| && j != k ==> after[j] == products[j]
  {
    match FindFirst(products, HasId(productId))
    case None =>
    case Some(k) =>
      assert products[k].id == productId;
  }

  /** The endpoint as written: once the product is found, the movement row is built with
      `product_id` passed by name and again among the body's fields, a call Python refuses
      before the stock is touched or anything is committed. */
  function AfterMovementAsWritten(products: seq<Product>, productId: int, movement: MovementRequest)
    : Result<seq<Product>, ProductError>
  {
    match FindFirst(products, HasId(productId))
    case None => Err(ProductNotFound)
    case Some(_) => Err(DuplicateKeyword)
  }

  /** As written, the endpoint never records a movement: it answers 404 exactly when the
      intended endpoint does, and 500 for every existing product, including an inflow the
      intended endpoint accepts. */
  lemma AsWrittenRecordsNoMovement(products: seq<Product>, productId: int, movement: MovementRequest)
    ensures AfterMovementAsWritten(products, productId, movement).Err?
    ensures AfterMovementAsWritten(products, productId, movement) == Err(ProductNotFound) <==>
      AfterMovement(products, productId, movement) == Err(ProductNotFound)
    ensures HasProduct(products, productId) ==>
      AfterMovementAsWritten(products, productId, movement).error.StatusCode() == 500
    ensures HasProduct(products, productId) && movement.movementType == Entrada ==>
      AfterMovement(products, productId, movement).Ok?
  {
  }

  /** One product holding 10 units and an inflow of 5: the intended endpoint raises the stock to
      15, the endpoint as written fails with 500. */
  lemma AsWrittenRejectsInflow()
    ensures var products := [Product(1, "Banana", 100, 10, true)];
      var movement := MovementRequest(Entrada, 5, "compra");
      && AfterMovementAsWritten(products, 1, movement) == Err(DuplicateKeyword)
      && AfterMovement(products, 1, movement) == Ok([Product(1, "Banana", 100, 15, true)])
  {
    var products := [Product(1, "Banana", 100, 10, true)];
    FindFirstIs(products, HasId(1), 0);
    assert MovedStock(10, Entrada, 5) == Some(15);
    assert products[0 := products[0].(stockQuantity := 15)] == [Product(1, "Banana", 100, 15, true)];
  }

  /** When every stock is non-negative and the movement quantity is too, every stock stays
      non-negative after an accepted movement. */
  lemma MovementKeepsStockNonNegative(products: seq<Product>, productId: int, movement: MovementRequest)
    requires forall j :: 0 <= j < |products| ==> products[j].stockQuantity >= 0
    requires movement.quantity >= 0
    ensures AfterMovement(products, productId, movement).Ok? ==>
      var after := AfterMovement(products, productId, movement).value;
      forall j :: 0 <= j < |after| ==> after[j].stockQuantity >= 0
  {
    match FindFirst(products, HasId(productId))
    case None =>
    case Some(k) =>
      MovementRejectedOnlyWhenShort(products[k].stockQuantity, movement.movementType, movement.quantity);
  }

  /** GET /products: the active products, one page of them. */
  function GetProducts(products: seq<Product>, skip: nat, limit: nat): seq<Product> {
    Page(Filter(products, (p: Product) => p.isActive), skip, limit)
  }

  /** The listing shows only active products; a first page large enough shows every active
      product of the table. */
  lemma ListingShowsActiveOnly(products: seq<Product>, skip: nat, limit: nat)
    ensures forall i :: 0 <= i < |GetProducts(products, skip, limit)| ==>
      GetProducts(products, skip, limit)[i].isActive && GetProducts(products, skip, limit)[i] in products
    ensures skip == 0 && limit >= |products| ==>
      forall j :: 0 <= j < |products| && products[j].isActive ==> products[j] in GetProducts(products, skip, limit)
  {
    var active := Filter(products, (p: Product) => p.isActive);
    FilterByIndex(products, (p: Product) => p.isActive);
    if skip == 0 && limit >= |products| {
      assert GetProducts(products, skip, limit) == active;
    }
  }

  /** The table after a soft delete of row `k`. */
  function Deactivated(products: seq<Product>, k: nat): seq<Product>
    requires k < |products|
  {
    products[k := products[k].(isActive := false)]
  }

  /** A deleted product keeps its row and every other field but no longer appears in any
      page of the listing; no other row changes. */
  lemma {:induction false} DeletedProductLeavesListing(products: seq<Product>, k: nat, skip: nat, limit: nat)
    requires k < |products|
    requires forall i, j :: 0 <= i < j < |products| ==> products[i].id != products[j].id
    ensures |Deactivated(products, k)| == |products|
    ensures Deactivated(products, k)[k] == products[k].(isActive := false)
    ensures forall j :: 0 <= j < |products| && j != k ==> Deactivated(products, k)[j] == products[j]
    ensures forall i :: 0 <= i < |GetProducts(Deactivated(products, k), skip, limit)| ==>
      GetProducts(Deactivated(products, k), skip, limit)[i].id != products[k].id
  {
    var after := Deactivated(products, k);
    var page := GetProducts(after, skip, limit);
    ListingShowsActiveOnly(after, skip, limit);
    forall i | 0 <= i < |page|
      ensures page[i].id != products[k].id
    {
      var j :| 0 <= j < |after| && after[j] == page[i];
      assert j != k;
    }
  }

  // ---------------------------------------------------------------------------
  // The tables the router works on

  class ProductCatalog {
    var products: seq<Product>
    var movements: seq<StockMovement>
    var nextMovementId: int

    /** Product ids are a primary key, and every movement refers to a product. */
    ghost predicate Valid()
      reads this
    {
      && (forall i, j :: 0 <= i < j < |products| ==> products[i].id != products[j].id)
      && (forall m :: 0 <= m < |movements| ==> HasProduct(products, movements[m].productId))
    }

    constructor (products: seq<Product>)
      requires forall i, j :: 0 <= i < j < |products| ==> products[i].id != products[j].id
      ensures Valid()
      ensures this.products == products && movements == [] && nextMovementId == 1
    {
      this.products := products;
      movements := [];
      nextMovementId := 1;
    }

    /** POST /products/{productId}/stock-movement by user `userId`. The movement row and the
        new stock are committed together, so a rejected movement records nothing. */
    method CreateStockMovement(productId: int, movement: MovementRequest, userId: int)
      returns (r: Result<StockMovement, ProductError>)
      requires Valid()
      modifies this
      ensures Valid()
      ensures AfterMovement(old(products), productId, movement).Err? ==>
        r == Err(AfterMovement(old(products), productId, movement).error)
        && products == old(products) && movements == old(movements) && nextMovementId == old(nextMovementId)
      ensures AfterMovement(old(products), productId, movement).Ok? ==>
        && products == AfterMovement(old(products), productId, movement).value
        && r == Ok(StockMovement(old(nextMovementId), productId, userId, movement.movementType, movement.quantity, movement.reason))
        && movements == old(movements) + [r.value]
        && nextMovementId == old(nextMovementId) + 1
    {
      var found := FindFirst(products, HasId(productId));
      if found.None? {
        return Err(ProductNotFound);
      }
      var k := found.value;
      var row := StockMovement(nextMovementId, productId, userId, movement.movementType, movement.quantity, movement.reason);
      var stock := products[k].stockQuantity;
      if movement.movementType == Entrada {
        stock := stock + movement.quantity;
      } else if movement.movementType == Saida {
        if stock < movement.quantity {
          return Err(InsufficientStock);
        }
        stock := stock - movement.quantity;
      } else if movement.movementType == Ajuste {
        stock := movement.quantity;
      }
      var newProducts := products[k := products[k].(stockQuantity := stock)];
      var newMovements := movements + [row];
      forall m | 0 <= m < |newMovements|
        ensures HasProduct(newProducts, newMovements[m].productId)
      {
        if m < |movements| {
          var j :| 0 <= j < |products| && products[j].id == movements[m].productId;
          assert newProducts[j].id == products[j].id;
        } else {
          assert newProducts[k].id == productId;
        }
      }
      products := newProducts;
      movements := newMovements;
      nextMovementId := nextMovementId + 1;
      r := Ok(row);
    }

    /** DELETE /products/{productId}: marks the product inactive and keeps its row. */
    method DeleteProduct(productId: int) returns (r: Result<(), ProductError>)
      requires Valid()
      modifies this
      ensures Valid()
      ensures movements == old(movements) && nextMovementId == old(nextMovementId)
      ensures FindFirst(old(products), HasId(productId)).None? ==> r == Err(ProductNotFound) && products == old(products)
      ensures FindFirst(old(products), HasId(productId)).Some? ==>
        r == Ok(()) && products == Deactivated(old(products), FindFirst(old(products), HasId(productId)).value)
    {
      var found := FindFirst(products, HasId(productId));
      if found.None? {
        return Err(ProductNotFound);
      }
      var k := found.value;
      var newProducts := Deactivated(products, k);
      forall m | 0 <= m < |movements|
        ensures HasProduct(newProducts, movements[m].productId)
      {
        var j :| 0 <= j < |products| && products[j].id == movements[m].productId;
        assert newProducts[j].id == products[j].id;
      }
      products := newProducts;
      r := Ok(());
    }
  }
}
