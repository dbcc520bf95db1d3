/** The low-stock panel of the dashboard: which products it lists, the counter, and the short
    list of at most five it details. */
module Dashboard {
  import opened Common

  /** The fields of a product the panel reads; quantities are integer units. */
  datatype ProductView = ProductView(id: int, name: string, stockQuantity: int, minStock: int, unit: string)

  function IsLow(p: ProductView): bool {
    p.stockQuantity <= p.minStock
  }

  /** The products at or below their minimum stock; `None` while the product list has not
      arrived. */
  function LowStockProducts(products: Option<seq<ProductView>>): seq<ProductView> {
    match products
    case None => []
    case Some(ps) => Filter(ps, IsLow)
  }

  /** The list is exactly the low products, and splitting the catalog splits the list the
      same way, which is to say it keeps catalog order. Without data it is empty. */
  lemma LowStockIsExact(products: seq<ProductView>, more: seq<ProductView>)
    ensures forall p :: p in LowStockProducts(Some(products)) <==> p in products && p.stockQuantity <= p.minStock
    ensures LowStockProducts(Some(products + more)) == LowStockProducts(Some(products)) + LowStockProducts(Some(more))
    ensures LowStockProducts(Some([])) == [] && LowStockProducts(None) == []
    ensures forall p :: LowStockProducts(Some([p])) == if p.stockQuantity <= p.minStock then [p] else []
  {
    FilterAppend(products, more, IsLow);
    forall p | p in products && IsLow(p)
      ensures p in LowStockProducts(Some(products))
    {
      var i :| 0 <= i < |products| && products[i] == p;
    }
  }

  /** The number on the low-stock card. */
  function LowStockCount(products: Option<seq<ProductView>>): nat {
    |LowStockProducts(products)|
  }

  /** The entries detailed under the card: the first five of the list. */
  function Shown(products: Option<seq<ProductView>>): seq<ProductView> {
    var low := LowStockProducts(products);
    if |low| <= 5 then low else low[..5]
  }

  /** The detail section is drawn when the list is not empty. */
  predicate SectionShown(products: Option<seq<ProductView>>) {
    LowStockCount(products) > 0
  }

  /** The details are the first min(5, count) low products, while the counter reports them
      all. */
  lemma ShownIsFirstFive(products: Option<seq<ProductView>>)
    ensures |Shown(products)| <= 5
    ensures |Shown(products)| == if LowStockCount(products) <= 5 then LowStockCount(products) else 5
    ensures Shown(products) == LowStockProducts(products)[..|Shown(products)|]
    ensures forall i :: 0 <= i < |Shown(products)| ==> IsLow(Shown(products)[i])
  {
    var low := LowStockProducts(products);
    assert forall i :: 0 <= i < |low| ==> IsLow(low[i]);
  }

  /** The section appears exactly when some product of the catalog is low. */
  lemma SectionShownIffSomeLow(products: Option<seq<ProductView>>)
    ensures SectionShown(products) <==>
      products.Some? && exists i :: 0 <= i < |products.value| && IsLow(products.value[i])
  {
    if products.Some? {
      var ps := products.value;
      if exists i :: 0 <= i < |ps| && IsLow(ps[i]) {
        var i :| 0 <= i < |ps| && IsLow(ps[i]);
        assert ps[i] in Filter(ps, IsLow);
      }
      if SectionShown(products) {
        var low := Filter(ps, IsLow);
        assert low[0] in ps && IsLow(low[0]);
      }
    }
  }
}
