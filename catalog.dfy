/** The product record both dashboards share, and the cashier screen's seed
    catalog. Prices are in paise (hundredths of a rupee). */
module Catalog {

  datatype Product = Product(id: int, name: string, price: int, quantity: int)

  /** The key `find(p => p.id === …)` compares. */
  function ProductId(p: Product): int
  {
    p.id
  }

  /** The quick-pick products the cashier screen starts from. */
  const QUICK_PRODUCTS: seq<Product> := [
    Product(2001, "Banarasi Silk Saree", 189900, 50),
    Product(2002, "Kanchipuram Pure Silk Saree", 249900, 30),
    Product(2003, "Cotton Printed Saree", 79900, 100),
    Product(2004, "Georgette Party Wear Saree", 129900, 40),
    Product(3001, "Anarkali Dress", 149900, 25),
    Product(3002, "Straight Cut Kurti", 99900, 60),
    Product(3003, "Lehenga Choli Set", 299900, 20),
    Product(3004, "Designer Gown", 199900, 35)
  ]

  /** The seed list has one entry per id, and every entry has a positive
      price and stock on hand. */
  lemma QuickProductsStocked()
    ensures forall i, j :: 0 <= i < j < |QUICK_PRODUCTS| ==> QUICK_PRODUCTS[i].id != QUICK_PRODUCTS[j].id
    ensures forall i :: 0 <= i < |QUICK_PRODUCTS| ==>
      QUICK_PRODUCTS[i].price > 0 && QUICK_PRODUCTS[i].quantity > 0
  {
  }

  predicate PricesNonNegative(products: seq<Product>)
  {
    forall k :: 0 <= k < |products| ==> products[k].price >= 0
  }
}
