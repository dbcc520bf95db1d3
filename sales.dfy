/** The sales router: creating a sale (customer check, per-item stock check and decrement,
    one item row per requested item, one commit at the end) and the daily summary. */
module Sales {
  import opened Common

  datatype Product = Product(id: int, name: string, stockQuantity: int)

  datatype SaleItemRequest = SaleItemRequest(productId: int, quantity: int, unitPrice: int, totalPrice: int)

  datatype SaleRequest = SaleRequest(
    customerId: int, paymentMethod: string, totalAmount: int, status: string, items: seq<SaleItemRequest>)

  /** A stored sale; `day` is the calendar day of its creation time. */
  datatype Sale = Sale(
    id: int, customerId: int, sellerId: int, totalAmount: int, paymentMethod: string, status: string, day: int)

  datatype SaleItem = SaleItem(saleId: int, productId: int, quantity: int, unitPrice: int, totalPrice: int)

  datatype SaleError =
    | CustomerNotFound
    | ProductNotFound(productId: int)
    | InsufficientStock(productName: string)
  {
    function StatusCode(): int {
      if InsufficientStock? then 400 else 404
    }
  }

  // ---------------------------------------------------------------------------
  // Stock checks and decrements

  /** The stock after the items are taken in order, each checked against what the earlier
      items of the same sale left; or the first failing item's error. */
  function Applied(stock: map<int, Product>, items: seq<SaleItemRequest>): Result<map<int, Product>, SaleError>
    decreases |items|
  {
    if items == [] then Ok(stock)
    else
      var item := items[0];
      if item.productId !in stock then Err(ProductNotFound(item.productId))
      else if stock[item.productId].stockQuantity < item.quantity then Err(InsufficientStock(stock[item.productId].name))
      else
        var p := stock[item.productId];
        Applied(stock[item.productId := p.(stockQuantity := p.stockQuantity - item.quantity)], items[1..])
  }

  /** The total quantity the items ask of product `id`. */
  function QuantityOf(items: seq<SaleItemRequest>, id: int): int {
    if items == [] then 0
    else (if items[0].productId == id then items[0].quantity else 0) + QuantityOf(items[1..], id)
  }

  predicate Mentions(items: seq<SaleItemRequest>, id: int) {
    exists k :: 0 <= k < |items| && items[k].productId == id
  }

  /** The item rows recorded for sale `saleId`: one per requested item, as sent. */
  function ItemRows(saleId: int, items: seq<SaleItemRequest>): (r: seq<SaleItem>)
    ensures |r| == |items|
    ensures forall k :: 0 <= k < |items| ==>
      r[k] == SaleItem(saleId, items[k].productId, items[k].quantity, items[k].unitPrice, items[k].totalPrice)
  {
    seq(|items|, k requires 0 <= k < |items| =>
      SaleItem(saleId, items[k].productId, items[k].quantity, items[k].unitPrice, items[k].totalPrice))
  }

  /** A successful sale lowers each product's stock by exactly the quantity its items ask and
      touches no other field and no other product; every product it sold is left with
      non-negative stock, and so is every product that had non-negative stock before. */
  lemma {:induction false} AppliedDecrementsByQuantity(stock: map<int, Product>, items: seq<SaleItemRequest>)
    requires Applied(stock, items).Ok?
    ensures var after := Applied(stock, items).value;
      && after.Keys == stock.Keys
      && (forall id :: id in stock ==>
            after[id] == stock[id].(stockQuantity := stock[id].stockQuantity - QuantityOf(items, id)))
      && (forall id :: id in stock && (Mentions(items, id) || stock[id].stockQuantity >= 0) ==>
            stock[id].stockQuantity - QuantityOf(items, id) >= 0)
    decreases |items|
  {
    if items != [] {
      var item := items[0];
      var p := stock[item.productId];
      var next := stock[item.productId := p.(stockQuantity := p.stockQuantity - item.quantity)];
      AppliedDecrementsByQuantity(next, items[1..]);
      forall id | id in stock && Mentions(items, id) && id != item.productId
        ensures Mentions(items[1..], id)
      {
        var k :| 0 <= k < |items| && items[k].productId == id;
        assert items[1..][k - 1] == items[k];
      }
    }
  }

  /** Hence the items of a successful sale never ask more of a product than its stock held. */
  lemma SaleFitsStock(stock: map<int, Product>, items: seq<SaleItemRequest>, id: int)
    requires Applied(stock, items).Ok?
    requires id in stock && Mentions(items, id)
    ensures QuantityOf(items, id) <= stock[id].stockQuantity
  {
    AppliedDecrementsByQuantity(stock, items);
  }

  /** An item naming a product that does not exist makes the whole sale fail. */
  lemma {:induction false} MissingProductFails(stock: map<int, Product>, items: seq<SaleItemRequest>, k: nat)
    requires k < |items| && items[k].productId !in stock
    ensures Applied(stock, items).Err?
    decreases |items|
  {
    if k > 0 && items[0].productId in stock && stock[items[0].productId].stockQuantity >= items[0].quantity {
      var p := stock[items[0].productId];
      var next := stock[items[0].productId := p.(stockQuantity := p.stockQuantity - items[0].quantity)];
      assert items[1..][k - 1] == items[k];
      MissingProductFails(next, items[1..], k - 1);
    }
  }

  // ---------------------------------------------------------------------------
  // The database the router works on

  predicate HasSale(sales: seq<Sale>, id: int) {
    exists m :: 0 <= m < |sales| && sales[m].id == id
  }

  class SalesLedger {
    var customers: set<int>
    var products: map<int, Product>
    var sales: seq<Sale>
    var saleItems: seq<SaleItem>
    var nextSaleId: int

    /** Every item row belongs to a recorded sale, and sale ids are below the next id. */
    ghost predicate Valid()
      reads this
    {
      && (forall m :: 0 <= m < |sales| ==> sales[m].id < nextSaleId)
      && (forall k :: 0 <= k < |saleItems| ==> HasSale(sales, saleItems[k].saleId))
    }

    constructor (customers: set<int>, products: map<int, Product>)
      ensures Valid()
      ensures this.customers == customers && this.products == products
      ensures sales == [] && saleItems == [] && nextSaleId == 1
    {
      this.customers := customers;
      this.products := products;
      sales := [];
      saleItems := [];
      nextSaleId := 1;
    }

    /** POST /sales by user `sellerId` on day `today`. Every failure is raised before the
        single commit, so a failed sale changes nothing. */
    method CreateSale(sale: SaleRequest, sellerId: int, today: int) returns (r: Result<Sale, SaleError>)
      requires Valid()
      modifies this
      ensures Valid()
      ensures customers == old(customers)
      ensures sale.customerId !in customers ==> r == Err(CustomerNotFound)
      ensures sale.customerId in customers && Applied(old(products), sale.items).Err? ==>
        r == Err(Applied(old(products), sale.items).error)
      ensures sale.customerId in customers && Applied(old(products), sale.items).Ok? ==> r.Ok?
      ensures r.Err? ==>
        products == old(products) && sales == old(sales) && saleItems == old(saleItems) && nextSaleId == old(nextSaleId)
      ensures r.Ok? ==>
        && sale.customerId in customers
        && Applied(old(products), sale.items).Ok?
        && products == Applied(old(products), sale.items).value
        && r.value == Sale(old(nextSaleId), sale.customerId, sellerId, sale.totalAmount, sale.paymentMethod, sale.status, today)
        && sales == old(sales) + [r.value]
        && saleItems == old(saleItems) + ItemRows(r.value.id, sale.items)
        && nextSaleId == old(nextSaleId) + 1
    {
      if sale.customerId !in customers {
        return Err(CustomerNotFound);
      }
      var dbSale := Sale(nextSaleId, sale.customerId, sellerId, sale.totalAmount, sale.paymentMethod, sale.status, today);
      var stock := products;
      var rows: seq<SaleItem> := [];
      var i := 0;
      while i < |sale.items|
        invariant 0 <= i <= |sale.items|
        invariant Applied(products, sale.items) == Applied(stock, sale.items[i..])
        invariant rows == ItemRows(dbSale.id, sale.items[..i])
      {
        var item := sale.items[i];
        assert sale.items[i..][0] == item && sale.items[i..][1..] == sale.items[i + 1..];
        if item.productId !in stock {
          return Err(ProductNotFound(item.productId));
        }
        var product := stock[item.productId];
        if product.stockQuantity < item.quantity {
          return Err(InsufficientStock(product.name));
        }
        rows := rows + [SaleItem(dbSale.id, item.productId, item.quantity, item.unitPrice, item.totalPrice)];
        stock := stock[item.productId := product.(stockQuantity := product.stockQuantity - item.quantity)];
        i := i + 1;
      }
      assert sale.items[..i] == sale.items;
      var newSales, newItems := sales + [dbSale], saleItems + rows;
      forall k | 0 <= k < |newItems|
        ensures HasSale(newSales, newItems[k].saleId)
      {
        if k < |saleItems| {
          var m :| 0 <= m < |sales| && sales[m].id == saleItems[k].saleId;
          assert newSales[m] == sales[m];
        } else {
          assert newSales[|sales|].id == newItems[k].saleId;
        }
      }
      products := stock;
      sales := newSales;
      saleItems := newItems;
      nextSaleId := nextSaleId + 1;
      r := Ok(dbSale);
    }
  }

  // ---------------------------------------------------------------------------
  // Daily summary

  datatype MethodTotal = MethodTotal(paymentMethod: string, total: int, count: nat)

  datatype DailySummary = DailySummary(day: int, totalSales: int, totalCount: nat, paymentMethods: seq<MethodTotal>)

  function SalesOn(sales: seq<Sale>, day: int): seq<Sale> {
    Filter(sales, (s: Sale) => s.day == day)
  }

  /** The sum of the sales' amounts; zero for no sales. */
  function SumAmounts(sales: seq<Sale>): int {
    if sales == [] then 0 else SumAmounts(sales[..|sales| - 1]) + sales[|sales| - 1].totalAmount
  }

  /** The sales paid with method `m`, in order. */
  function WithMethod(sales: seq<Sale>, m: string): seq<Sale> {
    if sales == [] then []
    else WithMethod(sales[..|sales| - 1], m) + (if sales[|sales| - 1].paymentMethod == m then [sales[|sales| - 1]] else [])
  }

  function GroupIndex(groups: seq<MethodTotal>, m: string): Option<nat> {
    FindFirst(groups, (g: MethodTotal) => g.paymentMethod == m)
  }

  /** One more sale counted into its method's group, which is opened if it is new. */
  function AddToGroups(groups: seq<MethodTotal>, s: Sale): seq<MethodTotal> {
    match GroupIndex(groups, s.paymentMethod)
    case Some(k) => groups[k := MethodTotal(s.paymentMethod, groups[k].total + s.totalAmount, groups[k].count + 1)]
    case None => groups + [MethodTotal(s.paymentMethod, s.totalAmount, 1)]
  }

  /** The GROUP BY payment_method rows. The query sets no order; the model lists the groups by first appearance. */
  function GroupByMethod(sales: seq<Sale>): seq<MethodTotal> {
    if sales == [] then [] else AddToGroups(GroupByMethod(sales[..|sales| - 1]), sales[|sales| - 1])
  }

  /** GET /sales/daily-summary for the day `today`. */
  function GetDailySummary(sales: seq<Sale>, today: int): DailySummary {
    var todays := SalesOn(sales, today);
    DailySummary(today, SumAmounts(todays), |todays|, GroupByMethod(todays))
  }

  function SumGroupTotals(groups: seq<MethodTotal>): int {
    if groups == [] then 0 else groups[0].total + SumGroupTotals(groups[1..])
  }

  function SumGroupCounts(groups: seq<MethodTotal>): int {
    if groups == [] then 0 else groups[0].count + SumGroupCounts(groups[1..])
  }

  predicate DistinctMethods(groups: seq<MethodTotal>) {
    forall i, j :: 0 <= i < j < |groups| ==> groups[i].paymentMethod != groups[j].paymentMethod
  }

  lemma {:induction false} SumsAfterBump(groups: seq<MethodTotal>, k: nat, g: MethodTotal)
    requires k < |groups|
    ensures SumGroupTotals(groups[k := g]) == SumGroupTotals(groups) - groups[k].total + g.total
    ensures SumGroupCounts(groups[k := g]) == SumGroupCounts(groups) - groups[k].count + g.count
  {
    if k > 0 {
      assert groups[k := g][1..] == groups[1..][k - 1 := g];
      SumsAfterBump(groups[1..], k - 1, g);
    }
  }

  lemma {:induction false} SumsAfterAppend(groups: seq<MethodTotal>, g: MethodTotal)
    ensures SumGroupTotals(groups + [g]) == SumGroupTotals(groups) + g.total
    ensures SumGroupCounts(groups + [g]) == SumGroupCounts(groups) + g.count
  {
    if groups != [] {
      assert (groups + [g])[1..] == groups[1..] + [g];
      SumsAfterAppend(groups[1..], g);
    }
  }

  /** The per-method rows partition the day: their totals add up to the day's total and their
      counts to the day's number of sales. */
  lemma {:induction false} MethodsPartitionTheDay(sales: seq<Sale>)
    ensures SumGroupTotals(GroupByMethod(sales)) == SumAmounts(sales)
    ensures SumGroupCounts(GroupByMethod(sales)) == |sales|
  {
    if sales != [] {
      var init, s := sales[..|sales| - 1], sales[|sales| - 1];
      MethodsPartitionTheDay(init);
      AddToGroupsSums(GroupByMethod(init), s);
      assert GroupByMethod(sales) == AddToGroups(GroupByMethod(init), s);
      assert SumAmounts(sales) == SumAmounts(init) + s.totalAmount;
    }
  }

  /** Counting one sale in raises the rows' totals by its amount and their counts by one. */
  lemma AddToGroupsSums(groups: seq<MethodTotal>, s: Sale)
    ensures SumGroupTotals(AddToGroups(groups, s)) == SumGroupTotals(groups) + s.totalAmount
    ensures SumGroupCounts(AddToGroups(groups, s)) == SumGroupCounts(groups) + 1
  {
    match GroupIndex(groups, s.paymentMethod)
    case Some(k) =>
      SumsAfterBump(groups, k, MethodTotal(s.paymentMethod, groups[k].total + s.totalAmount, groups[k].count + 1));
    case None =>
      SumsAfterAppend(groups, MethodTotal(s.paymentMethod, s.totalAmount, 1));
  }

  /** Each row holds the total and the number of its method's sales. */
  ghost predicate RowsExact(groups: seq<MethodTotal>, sales: seq<Sale>) {
    forall k :: 0 <= k < |groups| ==>
      groups[k].total == SumAmounts(WithMethod(sales, groups[k].paymentMethod))
      && groups[k].count == |WithMethod(sales, groups[k].paymentMethod)|
  }

  /** Every method that was used has a row. */
  ghost predicate RowsCover(groups: seq<MethodTotal>, sales: seq<Sale>) {
    forall i :: 0 <= i < |sales| ==> HasRow(groups, sales[i].paymentMethod)
  }

  predicate HasRow(groups: seq<MethodTotal>, m: string) {
    exists k :: 0 <= k < |groups| && groups[k].paymentMethod == m
  }

  lemma {:induction false} WithMethodEmpty(sales: seq<Sale>, m: string)
    requires forall i :: 0 <= i < |sales| ==> sales[i].paymentMethod != m
    ensures WithMethod(sales, m) == []
  {
    if sales != [] {
      WithMethodEmpty(sales[..|sales| - 1], m);
    }
  }

  lemma WithMethodSnoc(sales: seq<Sale>, s: Sale, m: string)
    ensures WithMethod(sales + [s], m) == WithMethod(sales, m) + (if s.paymentMethod == m then [s] else [])
    ensures SumAmounts(WithMethod(sales + [s], m))
         == SumAmounts(WithMethod(sales, m)) + (if s.paymentMethod == m then s.totalAmount else 0)
  {
    var all := sales + [s];
    assert all[..|all| - 1] == sales && all[|all| - 1] == s;
    if s.paymentMethod == m {
      var w := WithMethod(sales, m) + [s];
      assert w[..|w| - 1] == WithMethod(sales, m);
    } else {
      assert WithMethod(sales, m) + [] == WithMethod(sales, m);
    }
  }

  /** A method's group row is never duplicated by counting one more sale. */
  lemma AddToGroupsKeepsDistinct(groups: seq<MethodTotal>, s: Sale)
    requires DistinctMethods(groups)
    ensures DistinctMethods(AddToGroups(groups, s))
  {
  }

  /** Counting one more sale keeps every method that was used in a row. */
  lemma AddToGroupsKeepsCover(groups: seq<MethodTotal>, sales: seq<Sale>, s: Sale)
    requires RowsCover(groups, sales)
    ensures RowsCover(AddToGroups(groups, s), sales + [s])
  {
    var r := AddToGroups(groups, s);
    var all := sales + [s];
    forall i | 0 <= i < |all|
      ensures HasRow(r, all[i].paymentMethod)
    {
      if i < |sales| {
        assert all[i] == sales[i];
        assert HasRow(groups, sales[i].paymentMethod);
        var j :| 0 <= j < |groups| && groups[j].paymentMethod == sales[i].paymentMethod;
        assert r[j].paymentMethod == groups[j].paymentMethod;
      } else {
        match GroupIndex(groups, s.paymentMethod)
        case Some(k) =>
          assert r[k].paymentMethod == s.paymentMethod;
        case None =>
          assert r[|groups|].paymentMethod == s.paymentMethod;
      }
    }
  }

  /** Counting one more sale keeps each row's total and count exact. */
  lemma AddToGroupsKeepsExact(groups: seq<MethodTotal>, sales: seq<Sale>, s: Sale)
    requires DistinctMethods(groups) && RowsExact(groups, sales) && RowsCover(groups, sales)
    ensures RowsExact(AddToGroups(groups, s), sales + [s])
  {
    match GroupIndex(groups, s.paymentMethod)
    case Some(k) => BumpKeepsExact(groups, sales, s, k);
    case None => OpenKeepsExact(groups, sales, s);
  }

  /** Counting a sale into the existing row `k` of its method keeps every row exact. */
  lemma BumpKeepsExact(groups: seq<MethodTotal>, sales: seq<Sale>, s: Sale, k: nat)
    requires DistinctMethods(groups) && RowsExact(groups, sales)
    requires GroupIndex(groups, s.paymentMethod) == Some(k)
    ensures RowsExact(AddToGroups(groups, s), sales + [s])
  {
    var r := AddToGroups(groups, s);
    var all := sales + [s];
    forall j | 0 <= j < |r|
      ensures r[j].total == SumAmounts(WithMethod(all, r[j].paymentMethod))
      ensures r[j].count == |WithMethod(all, r[j].paymentMethod)|
    {
      WithMethodSnoc(sales, s, r[j].paymentMethod);
      if j != k {
        assert r[j] == groups[j];
      }
    }
  }

  /** Opening a row for a method not seen before keeps every row exact. */
  lemma OpenKeepsExact(groups: seq<MethodTotal>, sales: seq<Sale>, s: Sale)
    requires RowsExact(groups, sales) && RowsCover(groups, sales)
    requires GroupIndex(groups, s.paymentMethod).None?
    ensures RowsExact(AddToGroups(groups, s), sales + [s])
  {
    var r := AddToGroups(groups, s);
    var all := sales + [s];
    forall i | 0 <= i < |sales|
      ensures sales[i].paymentMethod != s.paymentMethod
    {
      assert HasRow(groups, sales[i].paymentMethod);
    }
    WithMethodEmpty(sales, s.paymentMethod);
    forall j | 0 <= j < |r|
      ensures r[j].total == SumAmounts(WithMethod(all, r[j].paymentMethod))
      ensures r[j].count == |WithMethod(all, r[j].paymentMethod)|
    {
      WithMethodSnoc(sales, s, r[j].paymentMethod);
      if j < |groups| {
        assert r[j] == groups[j];
      }
    }
  }

  /** The three properties of a grouping of `sales` by method. */
  ghost predicate GroupedByMethod(groups: seq<MethodTotal>, sales: seq<Sale>) {
    DistinctMethods(groups) && RowsExact(groups, sales) && RowsCover(groups, sales)
  }

  lemma AddToGroupsKeepsGrouped(groups: seq<MethodTotal>, sales: seq<Sale>, s: Sale)
    requires GroupedByMethod(groups, sales)
    ensures GroupedByMethod(AddToGroups(groups, s), sales + [s])
  {
    AddToGroupsKeepsDistinct(groups, s);
    AddToGroupsKeepsCover(groups, sales, s);
    AddToGroupsKeepsExact(groups, sales, s);
  }

  lemma {:induction false} GroupByMethodGroups(sales: seq<Sale>)
    ensures GroupedByMethod(GroupByMethod(sales), sales)
  {
    if sales != [] {
      var init, s := sales[..|sales| - 1], sales[|sales| - 1];
      assert sales == init + [s];
      GroupByMethodGroups(init);
      AddToGroupsKeepsGrouped(GroupByMethod(init), init, s);
    }
  }

  /** Each method has exactly one row, that row holds the total and the number of that method's
      sales, and every method that was used has a row. */
  lemma MethodRowsAreExact(sales: seq<Sale>)
    ensures DistinctMethods(GroupByMethod(sales))
    ensures RowsExact(GroupByMethod(sales), sales)
    ensures RowsCover(GroupByMethod(sales), sales)
  {
    GroupByMethodGroups(sales);
  }

  /** The summary's headline numbers are the day's total and number of sales, and the
      per-method rows partition both. */
  lemma DailySummaryIsConsistent(sales: seq<Sale>, today: int)
    ensures var summary := GetDailySummary(sales, today);
      && summary.totalSales == SumAmounts(SalesOn(sales, today))
      && summary.totalCount == |SalesOn(sales, today)|
      && SumGroupTotals(summary.paymentMethods) == summary.totalSales
      && SumGroupCounts(summary.paymentMethods) == summary.totalCount
      && DistinctMethods(summary.paymentMethods)
  {
    MethodsPartitionTheDay(SalesOn(sales, today));
    MethodRowsAreExact(SalesOn(sales, today));
  }
}
