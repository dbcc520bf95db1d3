/** The point-of-sale screen (PDV): a cart of lines keyed by product id, the selected
    customer and the payment method, changed step by step by the screen's handlers.
    Prices and totals are integer cents, quantities integer units. */
module Pdv {
  import opened Common

  datatype Product = Product(id: int, name: string, price: int, stockQuantity: int, unit: string)

  datatype Customer = Customer(id: int, name: string, cpf: string)

  /** A cart line keeps the product as it was when first added, its quantity and its total. */
  datatype CartItem = CartItem(product: Product, quantity: int, total: int)

  /** The four options of the payment-method selector. */
  datatype PaymentMethod = Dinheiro | CartaoCredito | CartaoDebito | Pix {
    function Code(): string {
      match this
      case Dinheiro => "dinheiro"
      case CartaoCredito => "cartao_credito"
      case CartaoDebito => "cartao_debito"
      case Pix => "pix"
    }
  }

  datatype SaleItemPayload = SaleItemPayload(productId: int, quantity: int, unitPrice: int, totalPrice: int)

  datatype SalePayload = SalePayload(customerId: int, paymentMethod: string, totalAmount: int, items: seq<SaleItemPayload>)

  /** What pressing "Finalizar Venda" does: show an alert, or submit one sale. */
  datatype CheckoutOutcome = Rejected(alert: string) | Submitted(payload: SalePayload)

  const NoCustomerAlert := "Selecione um cliente"
  const EmptyCartAlert := "Adicione produtos ao carrinho"

  /** The handlers that change the cart, as events. */
  datatype CartEvent =
    | Add(product: Product)
    | Remove(productId: int)
    | ChangeQuantity(productId: int, newQuantity: int, catalog: seq<Product>)

  // ---------------------------------------------------------------------------
  // The cart as a value

  /** One line per product, each line at least one unit and priced at quantity × price. */
  predicate ValidCart(cart: seq<CartItem>) {
    && (forall i, j :: 0 <= i < j < |cart| ==> cart[i].product.id != cart[j].product.id)
    && (forall i :: 0 <= i < |cart| ==> LineConsistent(cart[i]))
  }

  predicate LineConsistent(item: CartItem) {
    item.quantity >= 1 && item.total == item.quantity * item.product.price
  }

  function IsProduct(id: int): CartItem -> bool {
    (item: CartItem) => item.product.id == id
  }

  function HasId(id: int): Product -> bool {
    (p: Product) => p.id == id
  }

  /** The line re-priced at a new quantity, at the price stored in the line. */
  function WithQuantity(item: CartItem, q: int): CartItem {
    item.(quantity := q, total := q * item.product.price)
  }

  /** The cart with every line of product `id` raised by one unit. */
  function Incremented(cart: seq<CartItem>, id: int): (r: seq<CartItem>)
    ensures |r| == |cart|
  {
    seq(|cart|, j requires 0 <= j < |cart| =>
      if cart[j].product.id == id then WithQuantity(cart[j], cart[j].quantity + 1) else cart[j])
  }

  /** The cart with every line of product `id` set to quantity `q`. */
  function QuantitySet(cart: seq<CartItem>, id: int, q: int): (r: seq<CartItem>)
    ensures |r| == |cart|
  {
    seq(|cart|, j requires 0 <= j < |cart| =>
      if cart[j].product.id == id then WithQuantity(cart[j], q) else cart[j])
  }

  /** The cart without the lines of product `id`. */
  function Removed(cart: seq<CartItem>, id: int): seq<CartItem> {
    Filter(cart, (item: CartItem) => item.product.id != id)
  }

  /** The cart after one handler. */
  function Step(cart: seq<CartItem>, e: CartEvent): seq<CartItem> {
    match e
    case Add(product) =>
      (match FindFirst(cart, IsProduct(product.id))
       case Some(i) =>
         if cart[i].quantity < product.stockQuantity then Incremented(cart, product.id) else cart
       case None => cart + [CartItem(product, 1, product.price)])
    case Remove(id) => Removed(cart, id)
    case ChangeQuantity(id, q, catalog) =>
      if q <= 0 then Removed(cart, id)
      else match FindFirst(catalog, HasId(id))
        case Some(k) => if q <= catalog[k].stockQuantity then QuantitySet(cart, id, q) else cart
        case None => cart
  }

  /** The cart after a sequence of handlers, in order. */
  function Replay(cart: seq<CartItem>, events: seq<CartEvent>): seq<CartItem>
    decreases |events|
  {
    if events == [] then cart else Replay(Step(cart, events[0]), events[1..])
  }

  /** The displayed total: the sum of the line totals. */
  function Total(cart: seq<CartItem>): int {
    if cart == [] then 0 else cart[0].total + Total(cart[1..])
  }

  /** The sum of quantity × price over the lines. */
  function ExtendedTotal(cart: seq<CartItem>): int {
    if cart == [] then 0 else cart[0].quantity * cart[0].product.price + ExtendedTotal(cart[1..])
  }

  /** The first customer with the selected id; `None` for the placeholder option. */
  function FindCustomer(customers: seq<Customer>, customerId: Option<int>): (r: Option<Customer>)
    ensures r.Some? <==> customerId.Some? && exists k :: 0 <= k < |customers| && customers[k].id == customerId.value
    ensures r.Some? ==> r.value in customers && r.value.id == customerId.value
  {
    match customerId
    case None => None
    case Some(id) =>
      match FindFirst(customers, (c: Customer) => c.id == id)
      case Some(k) => Some(customers[k])
      case None => None
  }

  /** The payload items: one per cart line, in cart order. */
  function SaleItems(cart: seq<CartItem>): (r: seq<SaleItemPayload>)
    ensures |r| == |cart|
  {
    seq(|cart|, i requires 0 <= i < |cart| =>
      SaleItemPayload(cart[i].product.id, cart[i].quantity, cart[i].product.price, cart[i].total))
  }

  function SumItemTotals(items: seq<SaleItemPayload>): int {
    if items == [] then 0 else items[0].totalPrice + SumItemTotals(items[1..])
  }

  // ---------------------------------------------------------------------------
  // Properties of the handlers on cart values

  /** Adding a product that has no line appends one line of one unit priced at the product's price. */
  lemma AddNewProduct(cart: seq<CartItem>, product: Product)
    requires forall j :: 0 <= j < |cart| ==> cart[j].product.id != product.id
    ensures Step(cart, Add(product)) == cart + [CartItem(product, 1, product.price)]
  {
  }

  /** Adding a product whose line is below the product's stock raises that line by exactly one
      unit, re-prices it, and leaves every other line as it was. */
  lemma AddExistingBelowStock(cart: seq<CartItem>, product: Product, i: nat)
    requires ValidCart(cart)
    requires i < |cart| && cart[i].product.id == product.id
    requires cart[i].quantity < product.stockQuantity
    ensures var r := Step(cart, Add(product));
      && |r| == |cart|
      && r[i].product == cart[i].product
      && r[i].quantity == cart[i].quantity + 1
      && r[i].total == (cart[i].quantity + 1) * cart[i].product.price
      && (forall j :: 0 <= j < |cart| && j != i ==> r[j] == cart[j])
  {
    FindFirstIs(cart, IsProduct(product.id), i);
  }

  /** Adding a product whose line has reached the product's stock changes nothing. */
  lemma AddExistingAtStock(cart: seq<CartItem>, product: Product, i: nat)
    requires ValidCart(cart)
    requires i < |cart| && cart[i].product.id == product.id
    requires cart[i].quantity >= product.stockQuantity
    ensures Step(cart, Add(product)) == cart
  {
    FindFirstIs(cart, IsProduct(product.id), i);
  }

  /** Setting a quantity of zero or less is the same as removing the line. */
  lemma UpdateNonPositiveRemoves(cart: seq<CartItem>, id: int, q: int, catalog: seq<Product>)
    requires q <= 0
    ensures Step(cart, ChangeQuantity(id, q, catalog)) == Step(cart, Remove(id))
  {
  }

  /** A positive quantity above the catalog stock, or for a product missing from the catalog,
      changes nothing. */
  lemma UpdateRejected(cart: seq<CartItem>, id: int, q: int, catalog: seq<Product>)
    requires q > 0
    requires forall k :: 0 <= k < |catalog| && catalog[k].id == id ==> q > catalog[k].stockQuantity
    ensures Step(cart, ChangeQuantity(id, q, catalog)) == cart
  {
    match FindFirst(catalog, HasId(id))
    case None =>
    case Some(k) => assert catalog[k].id == id;
  }

  /** An accepted quantity sets that product's line to `q`, re-priced, and nothing else. */
  lemma UpdateAccepted(cart: seq<CartItem>, id: int, q: int, catalog: seq<Product>, k: nat)
    requires q > 0 && k < |catalog| && catalog[k].id == id && q <= catalog[k].stockQuantity
    requires forall m :: 0 <= m < k ==> catalog[m].id != id
    ensures var r := Step(cart, ChangeQuantity(id, q, catalog));
      && |r| == |cart|
      && (forall j :: 0 <= j < |cart| && cart[j].product.id == id ==>
            r[j].product == cart[j].product && r[j].quantity == q && r[j].total == q * cart[j].product.price)
      && (forall j :: 0 <= j < |cart| && cart[j].product.id != id ==> r[j] == cart[j])
  {
    FindFirstIs(catalog, HasId(id), k);
  }

  /** Removing a product drops exactly its line; the other lines keep their order. */
  lemma {:induction false} RemovedDropsOnlyThatProduct(cart: seq<CartItem>, id: int)
    ensures forall j :: 0 <= j < |Removed(cart, id)| ==> Removed(cart, id)[j].product.id != id
    ensures forall j :: 0 <= j < |cart| && cart[j].product.id != id ==> cart[j] in Removed(cart, id)
    ensures (forall j :: 0 <= j < |cart| ==> cart[j].product.id != id) ==> Removed(cart, id) == cart
  {
    var p := (item: CartItem) => item.product.id != id;
    FilterByIndex(cart, p);
    if forall j :: 0 <= j < |cart| ==> cart[j].product.id != id {
      FilterKeepsAll(cart, p);
    }
  }

  /** With one line per product, raising every matching line by one is setting the line's
      quantity to one more than it was. */
  lemma IncrementedIsQuantitySet(cart: seq<CartItem>, i: nat)
    requires ValidCart(cart) && i < |cart|
    ensures Incremented(cart, cart[i].product.id) == QuantitySet(cart, cart[i].product.id, cart[i].quantity + 1)
  {
  }

  lemma {:induction false} RemovedKeepsValid(cart: seq<CartItem>, id: int)
    requires ValidCart(cart)
    ensures ValidCart(Removed(cart, id))
  {
    if cart != [] {
      RemovedKeepsValid(cart[1..], id);
      var p := (item: CartItem) => item.product.id != id;
      assert Removed(cart, id) == (if p(cart[0]) then [cart[0]] else []) + Removed(cart[1..], id);
      var rest := Removed(cart[1..], id);
      forall j | 0 <= j < |rest|
        ensures rest[j].product.id != cart[0].product.id
      {
        assert rest[j] in cart[1..];
      }
    }
  }

  /** Adding a product keeps one line per product, each priced at quantity × price. */
  lemma AddKeepsValid(cart: seq<CartItem>, product: Product)
    requires ValidCart(cart)
    ensures ValidCart(Step(cart, Add(product)))
  {
    match FindFirst(cart, IsProduct(product.id))
    case Some(i) =>
      if cart[i].quantity < product.stockQuantity {
        QuantitySetKeepsValid(cart, product.id, cart[i].quantity + 1);
        IncrementedIsQuantitySet(cart, i);
      }
    case None =>
      forall j | 0 <= j < |cart|
        ensures cart[j].product.id != product.id
      {
        assert !IsProduct(product.id)(cart[j]);
      }
  }

  /** Setting a product's quantity to a positive value keeps the cart valid. */
  lemma QuantitySetKeepsValid(cart: seq<CartItem>, id: int, q: int)
    requires ValidCart(cart) && q >= 1
    ensures ValidCart(QuantitySet(cart, id, q))
  {
  }

  /** Every handler keeps one line per product and every line priced at quantity × price. */
  lemma StepKeepsValid(cart: seq<CartItem>, e: CartEvent)
    requires ValidCart(cart)
    ensures ValidCart(Step(cart, e))
  {
    match e
    case Add(product) => AddKeepsValid(cart, product);
    case Remove(id) => RemovedKeepsValid(cart, id);
    case ChangeQuantity(id, q, catalog) =>
      if q <= 0 {
        RemovedKeepsValid(cart, id);
      } else {
        QuantitySetKeepsValid(cart, id, q);
      }
  }

  /** After any sequence of add / remove / update-quantity handlers the cart keeps one line per
      product and its total is the sum of quantity × price. */
  lemma {:induction false} ReplayKeepsValid(cart: seq<CartItem>, events: seq<CartEvent>)
    requires ValidCart(cart)
    ensures ValidCart(Replay(cart, events))
    ensures Total(Replay(cart, events)) == ExtendedTotal(Replay(cart, events))
    decreases |events|
  {
    if events == [] {
      TotalIsExtendedTotal(cart);
    } else {
      StepKeepsValid(cart, events[0]);
      ReplayKeepsValid(Step(cart, events[0]), events[1..]);
    }
  }

  /** On a consistent cart the sum of line totals equals the sum of quantity × price. */
  lemma {:induction false} TotalIsExtendedTotal(cart: seq<CartItem>)
    requires forall i :: 0 <= i < |cart| ==> LineConsistent(cart[i])
    ensures Total(cart) == ExtendedTotal(cart)
  {
    if cart != [] {
      TotalIsExtendedTotal(cart[1..]);
    }
  }

  lemma {:induction false} TotalAppend(cart: seq<CartItem>, item: CartItem)
    ensures Total(cart + [item]) == Total(cart) + item.total
  {
    if cart != [] {
      assert (cart + [item])[1..] == cart[1..] + [item];
      TotalAppend(cart[1..], item);
    }
  }

  /** Removing a product lowers the total by exactly that product's line total. */
  lemma {:induction false} TotalAfterRemove(cart: seq<CartItem>, i: nat)
    requires ValidCart(cart) && i < |cart|
    ensures Total(Removed(cart, cart[i].product.id)) == Total(cart) - cart[i].total
  {
    var id := cart[i].product.id;
    var p := (item: CartItem) => item.product.id != id;
    if i == 0 {
      assert Removed(cart, id) == Filter(cart[1..], p);
      FilterKeepsAll(cart[1..], p);
    } else {
      assert ValidCart(cart[1..]);
      TotalAfterRemove(cart[1..], i - 1);
      assert cart[1..][i - 1] == cart[i];
    }
  }

  /** Setting a line's quantity moves the total by the change in that line's total. */
  lemma {:induction false} TotalAfterQuantitySet(cart: seq<CartItem>, i: nat, q: int)
    requires ValidCart(cart) && i < |cart|
    ensures Total(QuantitySet(cart, cart[i].product.id, q))
         == Total(cart) - cart[i].total + q * cart[i].product.price
  {
    var id := cart[i].product.id;
    assert QuantitySet(cart, id, q)[1..] == QuantitySet(cart[1..], id, q);
    if i == 0 {
      assert QuantitySet(cart[1..], id, q) == cart[1..];
    } else {
      assert ValidCart(cart[1..]);
      TotalAfterQuantitySet(cart[1..], i - 1, q);
      assert cart[1..][i - 1] == cart[i];
    }
  }

  /** The submitted total equals the sum of the submitted item totals. */
  lemma {:induction false} PayloadTotalIsSumOfItems(cart: seq<CartItem>)
    ensures SumItemTotals(SaleItems(cart)) == Total(cart)
  {
    if cart != [] {
      assert SaleItems(cart)[1..] == SaleItems(cart[1..]);
      PayloadTotalIsSumOfItems(cart[1..]);
    }
  }

  // ---------------------------------------------------------------------------
  // The screen's state

  class PointOfSale {
    var selectedCustomer: Option<Customer>
    var cart: seq<CartItem>
    var paymentMethod: PaymentMethod

    ghost predicate Valid()
      reads this
    {
      ValidCart(cart)
    }

    /** The screen mounts with no customer, an empty cart and cash payment. */
    constructor ()
      ensures Valid()
      ensures selectedCustomer == None && cart == [] && paymentMethod == Dinheiro
    {
      selectedCustomer := None;
      cart := [];
      paymentMethod := Dinheiro;
    }

    method AddToCart(product: Product)
      requires Valid()
      modifies this
      ensures Valid()
      ensures cart == Step(old(cart), Add(product))
      ensures selectedCustomer == old(selectedCustomer) && paymentMethod == old(paymentMethod)
    {
      StepKeepsValid(cart, Add(product));
      var existing := FindFirst(cart, IsProduct(product.id));
      if existing.Some? {
        if cart[existing.value].quantity < product.stockQuantity {
          cart := Incremented(cart, product.id);
        }
      } else {
        cart := cart + [CartItem(product, 1, product.price)];
      }
    }

    method RemoveFromCart(productId: int)
      requires Valid()
      modifies this
      ensures Valid()
      ensures cart == Removed(old(cart), productId)
      ensures selectedCustomer == old(selectedCustomer) && paymentMethod == old(paymentMethod)
    {
      RemovedKeepsValid(cart, productId);
      cart := Removed(cart, productId);
    }

    /** `products` is the catalog as last fetched (empty while it is still loading). */
    method UpdateQuantity(productId: int, newQuantity: int, products: seq<Product>)
      requires Valid()
      modifies this
      ensures Valid()
      ensures cart == Step(old(cart), ChangeQuantity(productId, newQuantity, products))
      ensures newQuantity <= 0 ==> cart == Removed(old(cart), productId)
      ensures selectedCustomer == old(selectedCustomer) && paymentMethod == old(paymentMethod)
    {
      if newQuantity <= 0 {
        RemoveFromCart(productId);
        return;
      }
      StepKeepsValid(cart, ChangeQuantity(productId, newQuantity, products));
      var found := FindFirst(products, HasId(productId));
      if found.Some? && newQuantity <= products[found.value].stockQuantity {
        cart := QuantitySet(cart, productId, newQuantity);
      }
    }

    method SetPaymentMethod(choice: PaymentMethod)
      modifies this
      ensures paymentMethod == choice
      ensures cart == old(cart) && selectedCustomer == old(selectedCustomer)
    {
      paymentMethod := choice;
    }

    /** Choosing a customer in the selector. On a non-empty cart the change goes ahead only when
        the operator confirms the warning, and then empties the cart first. */
    method HandleCustomerChange(customerId: Option<int>, customers: seq<Customer>, confirmed: bool)
      requires Valid()
      modifies this
      ensures Valid()
      ensures |old(cart)| > 0 && !confirmed ==>
        cart == old(cart) && selectedCustomer == old(selectedCustomer)
      ensures |old(cart)| == 0 || confirmed ==>
        cart == [] && selectedCustomer == FindCustomer(customers, customerId)
      ensures paymentMethod == old(paymentMethod)
    {
      if |cart| > 0 {
        if confirmed {
          cart := [];
        } else {
          return;
        }
      }
      selectedCustomer := FindCustomer(customers, customerId);
    }

    /** Pressing "Finalizar Venda": the guards in order, then one sale payload built from the cart. */
    method HandleCheckout() returns (outcome: CheckoutOutcome)
      requires Valid()
      ensures selectedCustomer.None? ==> outcome == Rejected(NoCustomerAlert)
      ensures selectedCustomer.Some? && cart == [] ==> outcome == Rejected(EmptyCartAlert)
      ensures selectedCustomer.Some? && cart != [] ==>
        && outcome.Submitted?
        && outcome.payload.customerId == selectedCustomer.value.id
        && outcome.payload.paymentMethod == paymentMethod.Code()
        && outcome.payload.totalAmount == Total(cart) == ExtendedTotal(cart)
        && outcome.payload.totalAmount == SumItemTotals(outcome.payload.items)
        && |outcome.payload.items| == |cart|
        && (forall i :: 0 <= i < |cart| ==>
              outcome.payload.items[i] ==
                SaleItemPayload(cart[i].product.id, cart[i].quantity, cart[i].product.price, cart[i].total))
    {
      if selectedCustomer.None? {
        return Rejected(NoCustomerAlert);
      }
      if |cart| == 0 {
        return Rejected(EmptyCartAlert);
      }
      TotalIsExtendedTotal(cart);
      PayloadTotalIsSumOfItems(cart);
      outcome := Submitted(SalePayload(selectedCustomer.value.id, paymentMethod.Code(), Total(cart), SaleItems(cart)));
    }

    /** The sale was created: the screen starts over with an empty cart and no customer. */
    method OnSaleCreated()
      modifies this
      ensures cart == [] && selectedCustomer == None
      ensures paymentMethod == old(paymentMethod)
      ensures Valid()
    {
      cart := [];
      selectedCustomer := None;
    }
  }
}
