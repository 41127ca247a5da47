/** The admin screen: the catalog and the cashier list, edited in place by its
    handlers. Persistence is left out; `Date.now()` becomes the `now` argument
    and the "Enter valid details!" alert a returned `false`. */
module Admin {
  import opened Lists
  import opened Text
  import opened Catalog

  /** The key `filter(c => c !== name)` compares: the name itself. */
  function CashierName(c: string): string
  {
    c
  }

  /** The blank product form. */
  const EMPTY_PRODUCT := Product(0, "", 0, 0)

  class AdminDashboard {
    var products: seq<Product>
    var cashiers: seq<string>
    var newProduct: Product
    var editMode: bool
    var selectedProduct: Option<Product>
    var newCashier: string

    /** The screen is in edit mode exactly while a product is selected. */
    ghost predicate Valid()
      reads this
    {
      editMode <==> selectedProduct.Some?
    }

    /** Field initialisers and the lists read back from storage. */
    constructor (savedProducts: seq<Product>, savedCashiers: seq<string>)
      ensures Valid()
      ensures products == savedProducts && cashiers == savedCashiers
      ensures newProduct == EMPTY_PRODUCT && !editMode && selectedProduct == None && newCashier == ""
    {
      products := savedProducts;
      cashiers := savedCashiers;
      newProduct := EMPTY_PRODUCT;
      editMode := false;
      selectedProduct := None;
      newCashier := "";
    }

    /** Add the product in the form under the id `now`; a form with no name or
        a price that is not positive is refused and changes nothing. */
    method AddProduct(now: int) returns (ok: bool)
      requires Valid()
      modifies this`products, this`newProduct
      ensures Valid()
      ensures ok <==> old(newProduct).name != "" && old(newProduct).price > 0
      ensures !ok ==> products == old(products) && newProduct == old(newProduct)
      ensures ok ==> products == old(products) + [old(newProduct).(id := now)] &&
                     newProduct == EMPTY_PRODUCT
      ensures ok && (forall k :: 0 <= k < |old(products)| ==> old(products)[k].id != now) ==>
                FirstIndex(products, ProductId, now) == Some(|products| - 1)
    {
      if newProduct.name == "" || newProduct.price <= 0 {
        return false;
      }
      newProduct := newProduct.(id := now);
      FirstIndexAppended(products, newProduct, ProductId, now);
      products := products + [newProduct];
      newProduct := EMPTY_PRODUCT;
      ok := true;
    }

    /** Drop every product with id `id`, keeping the rest in order. */
    method DeleteProduct(id: int)
      requires Valid()
      modifies this`products
      ensures Valid()
      ensures products == FilterOut(old(products), ProductId, id)
      ensures forall k :: 0 <= k < |products| ==> products[k].id != id
      ensures (forall k :: 0 <= k < |old(products)| ==> old(products)[k].id != id) ==>
                products == old(products)
    {
      FilterOutNoMatch(products, ProductId, id);
      products := FilterOut(products, ProductId, id);
    }

    /** Open the form on a copy of `p`. */
    method EditProduct(p: Product)
      modifies this`editMode, this`selectedProduct
      ensures Valid()
      ensures editMode && selectedProduct == Some(p)
    {
      editMode := true;
      selectedProduct := Some(p);
    }

    /** Write the selected product over the first product with its id, then
        close the form. Without a selection nothing happens. */
    method UpdateProduct()
      requires Valid()
      modifies this`products, this`editMode, this`selectedProduct
      ensures Valid()
      ensures old(selectedProduct).None? ==> unchanged(this)
      ensures !old(editMode) ==> unchanged(this)
      ensures old(selectedProduct).Some? ==>
        var s := old(selectedProduct).value;
        !editMode && selectedProduct == None &&
        match FirstIndex(old(products), ProductId, s.id)
        case None => products == old(products)
        case Some(i) => products == old(products)[i := s]
      ensures |products| == |old(products)|
    {
      if selectedProduct.None? {
        return;
      }
      var s := selectedProduct.value;
      var index := FirstIndex(products, ProductId, s.id);
      if index.Some? {
        products := products[index.value := s];
      }
      editMode := false;
      selectedProduct := None;
    }

    /** Append the trimmed name; a name of nothing but white space is ignored. */
    method AddCashier(name: string)
      requires Valid()
      modifies this`cashiers
      ensures Valid()
      ensures IsBlank(name) ==> cashiers == old(cashiers)
      ensures !IsBlank(name) ==> cashiers == old(cashiers) + [Trim(name)] && Trim(name) != []
    {
      if IsBlank(name) {
        return;
      }
      TrimBlank(name);
      cashiers := cashiers + [Trim(name)];
    }

    /** Drop every cashier called `name`, keeping the rest in order. */
    method DeleteCashier(name: string)
      requires Valid()
      modifies this`cashiers
      ensures Valid()
      ensures cashiers == FilterOut(old(cashiers), CashierName, name)
      ensures forall k :: 0 <= k < |cashiers| ==> cashiers[k] != name
    {
      cashiers := FilterOut(cashiers, CashierName, name);
    }

    /** Empty both lists (storage is cleared as well, which is not modelled). */
    method ClearAll()
      requires Valid()
      modifies this`products, this`cashiers
      ensures Valid()
      ensures products == [] && cashiers == []
    {
      products := [];
      cashiers := [];
    }
  }
}
