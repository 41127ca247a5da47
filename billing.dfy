/** The values of the cashier screen (cart lines and bills) and the pure rules
    its handlers apply to them: the discount clamp, the cart total, the change
    rule, what scanning a product does to the cart, and what finalizing a bill
    does to the catalog's stock. Money is in paise. */
module Billing {
  import opened Lists
  import opened Catalog

  /** A cart line: a copy of the product taken when it was first scanned, the
      number of units in the cart and a discount for the line. */
  datatype CartItem = CartItem(id: int, name: string, price: int, quantity: int,
                               cartQuantity: int, discount: int)

  function LineId(l: CartItem): int
  {
    l.id
  }

  /** The line `{ ...product, discount: 0, cartQuantity: 1 }` a first scan creates. */
  function NewLine(p: Product): (l: CartItem)
    ensures l.id == p.id && l.price == p.price && l.quantity == p.quantity
    ensures l.cartQuantity == 1 && l.discount == 0
    ensures WellFormedLine(l) <==> p.price >= 0
    ensures LineAmount(l) == p.price
  {
    CartItem(p.id, p.name, p.price, p.quantity, 1, 0)
  }

  /** A finalized or held bill; held bills carry the payment mode "Held". */
  datatype Bill = Bill(id: int, date: string, customerName: string, customerPhone: string,
                       paymentMode: string, items: seq<CartItem>, total: int)

  function BillId(b: Bill): int
  {
    b.id
  }

  const CASH := "Cash"
  const HELD := "Held"
  const HELD_CUSTOMER := "Held Customer"
  const WALK_IN_CUSTOMER := "Walk-in Customer"
  const NOT_AVAILABLE := "N/A"

  /** `a || fallback` on a string: the empty string is replaced. */
  function OrElse(a: string, fallback: string): string
  {
    if a == "" then fallback else a
  }

  /** Undoes OrElse on resume: the sentinel reads back as the empty string. */
  function Restore(a: string, sentinel: string): string
  {
    if a == sentinel then "" else a
  }

  /** A filled-in field is kept as it is and an empty one becomes the fallback,
      so with a non-empty fallback the result is never empty. */
  lemma OrElseFilled(a: string, fallback: string)
    ensures fallback != "" ==> OrElse(a, fallback) != ""
    ensures a != "" ==> OrElse(a, fallback) == a
    ensures a == "" ==> OrElse(a, fallback) == fallback
  {
  }

  /** A restored field never reads as the sentinel, and any other text is kept. */
  lemma RestoreClearsSentinel(a: string, sentinel: string)
    ensures sentinel != "" ==> Restore(a, sentinel) != sentinel
    ensures a != sentinel ==> Restore(a, sentinel) == a
  {
  }

  /** Resuming restores every customer field except one that happened to equal
      the sentinel, which comes back empty. */
  lemma RestoreOrElse(a: string, sentinel: string)
    requires sentinel != ""
    ensures Restore(OrElse(a, sentinel), sentinel) == (if a == sentinel then "" else a)
  {
  }

  function Max(a: int, b: int): int
  {
    if a >= b then a else b
  }

  function Min(a: int, b: int): int
  {
    if a <= b then a else b
  }

  /** The line discount `Math.max(0, Math.min(newDiscount, price * cartQuantity))`:
      the point of [0, price * cartQuantity] nearest to the requested amount. */
  function ClampDiscount(newDiscount: int, price: int, cartQuantity: int): (d: int)
    ensures d >= 0
    ensures price * cartQuantity >= 0 ==> d <= price * cartQuantity
    ensures 0 <= newDiscount <= price * cartQuantity ==> d == newDiscount
    ensures newDiscount > price * cartQuantity >= 0 ==> d == price * cartQuantity
    ensures newDiscount < 0 || price * cartQuantity < 0 ==> d == 0
  {
    Max(0, Min(newDiscount, price * cartQuantity))
  }

  /** What a line adds to the total: the discount is taken off every unit. */
  function LineAmount(l: CartItem): int
  {
    l.cartQuantity * (l.price - l.discount)
  }

  /** A line amount is at most the undiscounted subtotal, and it is not
      negative as long as the discount does not exceed the unit price. */
  lemma LineAmountBounds(l: CartItem)
    ensures l.discount == 0 ==> LineAmount(l) == l.cartQuantity * l.price
    ensures l.cartQuantity >= 0 && l.discount >= 0 ==> LineAmount(l) <= l.cartQuantity * l.price
    ensures l.cartQuantity >= 0 && l.discount <= l.price ==> LineAmount(l) >= 0
  {
    assert LineAmount(l) == l.cartQuantity * l.price - l.cartQuantity * l.discount;
  }

  /** The `reduce` over the cart that `calculateTotal` performs. */
  function CartTotal(cart: seq<CartItem>): (t: int)
    ensures cart == [] ==> t == 0
  {
    Sum(cart, LineAmount)
  }

  /** No line discount above its unit price means the total is not negative;
      the clamp allows discounts up to the whole line subtotal, so this
      condition is what keeps a total from going below zero. */
  lemma CartTotalNonNegative(cart: seq<CartItem>)
    ensures (forall i :: 0 <= i < |cart| ==> cart[i].cartQuantity >= 0 && cart[i].discount <= cart[i].price) ==>
      CartTotal(cart) >= 0
  {
    forall i | 0 <= i < |cart|
      ensures cart[i].cartQuantity >= 0 && cart[i].discount <= cart[i].price ==> LineAmount(cart[i]) >= 0
    {
      LineAmountBounds(cart[i]);
    }
    SumNonNegative(cart, LineAmount);
  }

  /** The units of product `id` a line holds. */
  function QtyIf(id: int): CartItem -> int
  {
    (l: CartItem) => if l.id == id then l.cartQuantity else 0
  }

  /** The units of product `id` in the whole cart. */
  function QtyOf(cart: seq<CartItem>, id: int): int
  {
    Sum(cart, QtyIf(id))
  }

  /** `calculateChange`: the excess of the tender over the total when paying
      cash, and 0 otherwise (including a cash tender short of the total). */
  function ChangeFor(mode: string, tendered: int, total: int): (r: int)
    ensures r >= 0
    ensures mode == CASH && tendered >= total ==> total + r == tendered
    ensures mode != CASH || tendered < total ==> r == 0
  {
    if mode == CASH && tendered >= total then tendered - total else 0
  }

  predicate UniqueIds(cart: seq<CartItem>)
  {
    forall i, j :: 0 <= i < j < |cart| ==> cart[i].id != cart[j].id
  }

  /** A line as the handlers leave it: at least one unit and a discount within
      the line subtotal. */
  predicate WellFormedLine(l: CartItem)
  {
    l.price >= 0 && l.cartQuantity >= 1 && 0 <= l.discount <= l.price * l.cartQuantity
  }

  predicate WellFormedCart(cart: seq<CartItem>)
  {
    UniqueIds(cart) && forall i :: 0 <= i < |cart| ==> WellFormedLine(cart[i])
  }

  /** In a cart with one line per product, the units of a product are that line's. */
  lemma QtyOfLine(cart: seq<CartItem>, j: nat)
    requires UniqueIds(cart) && j < |cart|
    ensures QtyOf(cart, cart[j].id) == cart[j].cartQuantity
  {
    SumSingle(cart, QtyIf(cart[j].id), j);
  }

  lemma QtyOfAbsent(cart: seq<CartItem>, id: int)
    requires forall i :: 0 <= i < |cart| ==> cart[i].id != id
    ensures QtyOf(cart, id) == 0
  {
    SumZero(cart, QtyIf(id));
  }

  // ----- discount and removal -----

  /** `updateCartItemDiscount` on line `i`. */
  function SetDiscount(cart: seq<CartItem>, i: nat, newDiscount: int): (r: seq<CartItem>)
    requires i < |cart|
    ensures |r| == |cart|
    ensures forall j :: 0 <= j < |r| && j != i ==> r[j] == cart[j]
    ensures r[i] == cart[i].(discount := ClampDiscount(newDiscount, cart[i].price, cart[i].cartQuantity))
    ensures r[i].id == cart[i].id && r[i].price == cart[i].price && r[i].cartQuantity == cart[i].cartQuantity
    ensures r[i].discount >= 0
    ensures cart[i].price * cart[i].cartQuantity >= 0 ==> r[i].discount <= cart[i].price * cart[i].cartQuantity
  {
    cart[i := cart[i].(discount := ClampDiscount(newDiscount, cart[i].price, cart[i].cartQuantity))]
  }

  /** Setting a discount keeps the cart well formed, touches only line `i`, and
      moves the total by the change in that line's amount. */
  lemma SetDiscountEffect(cart: seq<CartItem>, i: nat, newDiscount: int)
    requires WellFormedCart(cart) && i < |cart|
    ensures var c := SetDiscount(cart, i, newDiscount);
      WellFormedCart(c) &&
      0 <= c[i].discount <= c[i].price * c[i].cartQuantity &&
      (forall j :: 0 <= j < |cart| && j != i ==> c[j] == cart[j]) &&
      CartTotal(c) == CartTotal(cart) - LineAmount(cart[i]) + LineAmount(c[i])
  {
    var c := SetDiscount(cart, i, newDiscount);
    assert cart[i].price * cart[i].cartQuantity >= 0;
    SumUpdate(cart, i, c[i], LineAmount);
  }

  /** A discount is bounded by the line subtotal but taken off every unit, so a
      discount at its bound makes a line of two or more units negative. */
  lemma FullDiscountLineAmount(l: CartItem, newDiscount: int)
    requires WellFormedLine(l) && newDiscount >= l.price * l.cartQuantity
    ensures LineAmount(l.(discount := ClampDiscount(newDiscount, l.price, l.cartQuantity)))
            == l.cartQuantity * l.price * (1 - l.cartQuantity)
    ensures l.price > 0 && l.cartQuantity >= 2 ==>
            LineAmount(l.(discount := ClampDiscount(newDiscount, l.price, l.cartQuantity))) < 0
  {
    var q, p := l.cartQuantity, l.price;
    assert q * (p - p * q) == q * p * (1 - q);
    if p > 0 && q >= 2 {
      assert q * p > 0;
      assert (q * p) * (1 - q) < 0;
    }
  }

  /** Dropping one line keeps the others' order, so the cart stays well formed. */
  lemma DropLineWellFormed(cart: seq<CartItem>, j: nat)
    requires WellFormedCart(cart) && j < |cart|
    ensures WellFormedCart(cart[..j] + cart[j + 1..])
  {
    var r := cart[..j] + cart[j + 1..];
    forall a, b | 0 <= a < b < |r|
      ensures r[a].id != r[b].id
    {
      var a', b' := if a < j then a else a + 1, if b < j then b else b + 1;
      assert r[a] == cart[a'] && r[b] == cart[b'];
    }
    forall a | 0 <= a < |r|
      ensures WellFormedLine(r[a])
    {
      assert r[a] == cart[if a < j then a else a + 1];
    }
  }

  /** Two scans of the Banarasi saree and a discount request of 5000 rupees:
      the discount is clamped to the line subtotal of 3798 rupees, and since it
      is then taken off each of the two units the total is minus 3798 rupees. */
  lemma TwoSareesFullDiscount()
    ensures var first := AddByCode([], QUICK_PRODUCTS, Some(2001));
      var second := AddByCode(first.cart, QUICK_PRODUCTS, Some(2001));
      first.outcome == Added && second.outcome == Incremented &&
      second.cart == [CartItem(2001, "Banarasi Silk Saree", 189900, 50, 2, 0)] &&
      CartTotal(second.cart) == 379800 &&
      SetDiscount(second.cart, 0, 500000)[0].discount == 379800 &&
      CartTotal(SetDiscount(second.cart, 0, 500000)) == -379800
  {
    var line := CartItem(2001, "Banarasi Silk Saree", 189900, 50, 1, 0);
    assert AddByCode([], QUICK_PRODUCTS, Some(2001)) == AddStep(Added, [line]);
    var two := [line.(cartQuantity := 2)];
    assert AddByCode([line], QUICK_PRODUCTS, Some(2001)) == AddStep(Incremented, two);
    SumOne(two[0], LineAmount);
    var off := SetDiscount(two, 0, 500000);
    assert off == [two[0].(discount := 379800)];
    SumOne(off[0], LineAmount);
  }

  /** Removing by id keeps the cart well formed; it drops the one line with
      that id, keeps the others in order and takes that line's amount off the
      total, or changes nothing when no line has the id. */
  lemma RemoveLineEffect(cart: seq<CartItem>, id: int)
    requires WellFormedCart(cart)
    ensures WellFormedCart(FilterOut(cart, LineId, id))
    ensures (forall i :: 0 <= i < |cart| ==> cart[i].id != id) ==> FilterOut(cart, LineId, id) == cart
    ensures forall j :: 0 <= j < |cart| && cart[j].id == id ==>
      FilterOut(cart, LineId, id) == cart[..j] + cart[j + 1..] &&
      CartTotal(FilterOut(cart, LineId, id)) == CartTotal(cart) - LineAmount(cart[j])
  {
    match FirstIndex(cart, LineId, id)
    case None =>
      FilterOutNoMatch(cart, LineId, id);
    case Some(j) =>
      FilterOutSingle(cart, LineId, id, j);
      SumRemove(cart, j, LineAmount);
      DropLineWellFormed(cart, j);
      forall j' | 0 <= j' < |cart| && cart[j'].id == id
        ensures j' == j
      {
      }
  }

  // ----- scanning a product -----

  /** `products.find(p => p.id === productId)` for an already parsed code;
      a code that did not parse (NaN) matches nothing. */
  function Lookup(products: seq<Product>, code: Option<int>): (r: Option<nat>)
    ensures r.Some? ==> code.Some? && r.value < |products| && products[r.value].id == code.value
    ensures r.None? <==> code.None? || forall k :: 0 <= k < |products| ==> products[k].id != code.value
    ensures r.Some? ==> forall k :: 0 <= k < r.value ==> products[k].id != code.value
  {
    if code.None? then None else FirstIndex(products, ProductId, code.value)
  }

  datatype AddOutcome = BlankInput | NotFound | LowStock(left: int) | OutOfStock | Incremented | Added
  {
    predicate Succeeded()
    {
      Incremented? || Added?
    }
  }

  datatype AddStep = AddStep(outcome: AddOutcome, cart: seq<CartItem>)

  /** The cart branch of `addProductByBarcode` for a non-blank input: look the
      product up, then bump its line or append a new one, each guarded by the
      product's stock on hand. */
  function AddByCode(cart: seq<CartItem>, products: seq<Product>, code: Option<int>): (r: AddStep)
    ensures !r.outcome.Succeeded() ==> r.cart == cart
    ensures r.outcome != BlankInput
  {
    match Lookup(products, code)
    case None => AddStep(NotFound, cart)
    case Some(k) =>
      var p := products[k];
      match FirstIndex(cart, LineId, p.id)
      case Some(j) =>
        if cart[j].cartQuantity + 1 > p.quantity then AddStep(LowStock(p.quantity), cart)
        else AddStep(Incremented, cart[j := cart[j].(cartQuantity := cart[j].cartQuantity + 1)])
      case None =>
        if p.quantity < 1 then AddStep(OutOfStock, cart)
        else AddStep(Added, cart + [NewLine(p)])
  }

  /** A scan succeeds exactly when the product exists and the cart holds fewer
      of it than its stock on hand; an unknown code reports NotFound. */
  lemma AddByCodeSucceeds(cart: seq<CartItem>, products: seq<Product>, code: Option<int>)
    requires UniqueIds(cart)
    ensures var r := AddByCode(cart, products, code);
      (r.outcome == NotFound <==> Lookup(products, code).None?) &&
      (r.outcome.Succeeded() <==>
        Lookup(products, code).Some? &&
        QtyOf(cart, code.value) < products[Lookup(products, code).value].quantity)
  {
    match Lookup(products, code)
    case None =>
    case Some(k) =>
      var p := products[k];
      match FirstIndex(cart, LineId, p.id)
      case Some(j) =>
        QtyOfLine(cart, j);
      case None =>
        QtyOfAbsent(cart, p.id);
  }

  /** A successful scan adds exactly one unit of the scanned product and no
      unit of any other; a failed one changes no quantity. */
  lemma AddByCodeQuantities(cart: seq<CartItem>, products: seq<Product>, code: Option<int>, id: int)
    ensures var r := AddByCode(cart, products, code);
      QtyOf(r.cart, id) == QtyOf(cart, id) + (if r.outcome.Succeeded() && code == Some(id) then 1 else 0)
  {
    var r := AddByCode(cart, products, code);
    if r.outcome.Incremented? {
      var p := products[Lookup(products, code).value];
      var j := FirstIndex(cart, LineId, p.id).value;
      SumUpdate(cart, j, r.cart[j], QtyIf(id));
    } else if r.outcome.Added? {
      var p := products[Lookup(products, code).value];
      SumAppend(cart, [NewLine(p)], QtyIf(id));
      assert [NewLine(p)][..0] == [];
    }
  }

  /** Earlier lines keep their positions: only the scanned product's line may
      gain one unit, and a new line is appended at the end. */
  lemma AddByCodeKeepsLines(cart: seq<CartItem>, products: seq<Product>, code: Option<int>)
    ensures var r := AddByCode(cart, products, code);
      |r.cart| == |cart| + (if r.outcome.Added? then 1 else 0) &&
      (forall i :: 0 <= i < |cart| ==>
        r.cart[i] == cart[i] ||
        (r.outcome.Incremented? && code == Some(cart[i].id) &&
         r.cart[i] == cart[i].(cartQuantity := cart[i].cartQuantity + 1))) &&
      (r.outcome.Added? ==> r.cart[|cart|] == NewLine(products[Lookup(products, code).value]))
  {
  }

  /** Scanning keeps the cart one line per product, with well-formed lines. */
  lemma AddByCodeWellFormed(cart: seq<CartItem>, products: seq<Product>, code: Option<int>)
    requires WellFormedCart(cart) && PricesNonNegative(products)
    ensures WellFormedCart(AddByCode(cart, products, code).cart)
  {
    var r := AddByCode(cart, products, code);
    if r.outcome.Incremented? {
      var p := products[Lookup(products, code).value];
      var j := FirstIndex(cart, LineId, p.id).value;
      var l := cart[j];
      assert l.price * (l.cartQuantity + 1) == l.price * l.cartQuantity + l.price;
      assert WellFormedLine(r.cart[j]);
    }
  }

  /** The line of product `id` is within that product's stock on hand (the
      first catalog entry with that id, as `find` picks it). */
  predicate LineInStock(l: CartItem, products: seq<Product>)
  {
    match FirstIndex(products, ProductId, l.id)
    case None => true
    case Some(k) => l.cartQuantity <= products[k].quantity
  }

  predicate InStock(cart: seq<CartItem>, products: seq<Product>)
  {
    forall i :: 0 <= i < |cart| ==> LineInStock(cart[i], products)
  }

  /** The stock guards keep every line within its product's stock on hand. */
  lemma AddByCodeInStock(cart: seq<CartItem>, products: seq<Product>, code: Option<int>)
    requires InStock(cart, products)
    ensures InStock(AddByCode(cart, products, code).cart, products)
  {
    var r := AddByCode(cart, products, code);
    if r.outcome.Incremented? {
      var p := products[Lookup(products, code).value];
      var j := FirstIndex(cart, LineId, p.id).value;
      assert LineInStock(r.cart[j], products);
    } else if r.outcome.Added? {
      assert LineInStock(r.cart[|cart|], products);
    }
  }

  /** One more unit on line `j` adds that line's net unit price to the total. */
  lemma BumpLineTotal(cart: seq<CartItem>, j: nat)
    requires j < |cart|
    ensures var c := cart[j := cart[j].(cartQuantity := cart[j].cartQuantity + 1)];
      CartTotal(c) == CartTotal(cart) + c[j].price - c[j].discount
  {
    var l := cart[j];
    SumUpdate(cart, j, l.(cartQuantity := l.cartQuantity + 1), LineAmount);
    assert (l.cartQuantity + 1) * (l.price - l.discount)
        == l.cartQuantity * (l.price - l.discount) + (l.price - l.discount);
  }

  /** A new line adds one unit at its price to the total. */
  lemma AppendLineTotal(cart: seq<CartItem>, p: Product)
    ensures CartTotal(cart + [NewLine(p)]) == CartTotal(cart) + p.price
  {
    SumAppend(cart, [NewLine(p)], LineAmount);
    assert [NewLine(p)][..0] == [];
  }

  /** A successful scan raises the total by the net unit price (price less
      line discount) of the scanned product's line. */
  lemma AddByCodeTotal(cart: seq<CartItem>, products: seq<Product>, code: Option<int>)
    ensures var r := AddByCode(cart, products, code);
      r.outcome.Succeeded() ==>
        exists j :: 0 <= j < |r.cart| && Some(r.cart[j].id) == code &&
          CartTotal(r.cart) == CartTotal(cart) + r.cart[j].price - r.cart[j].discount
  {
    match Lookup(products, code)
    case None =>
    case Some(k) =>
      var p := products[k];
      match FirstIndex(cart, LineId, p.id)
      case Some(j) =>
        if cart[j].cartQuantity + 1 <= p.quantity {
          var c := cart[j := cart[j].(cartQuantity := cart[j].cartQuantity + 1)];
          BumpLineTotal(cart, j);
          assert Some(c[j].id) == code;
        }
      case None =>
        if p.quantity >= 1 {
          var c := cart + [NewLine(p)];
          AppendLineTotal(cart, p);
          assert Some(c[|cart|].id) == code;
        }
  }

  // ----- finalizing a bill -----

  /** One iteration of the stock loop in `finalizeBill`: the first catalog
      entry with the line's id loses the line's units; a line whose product is
      no longer in the catalog is skipped. */
  function SellLine(products: seq<Product>, l: CartItem): (r: seq<Product>)
    ensures |r| == |products|
  {
    match FirstIndex(products, ProductId, l.id)
    case None => products
    case Some(k) => products[k := products[k].(quantity := products[k].quantity - l.cartQuantity)]
  }

  /** The catalog after the stock loop has run over `cart` in order. */
  function ApplySale(products: seq<Product>, cart: seq<CartItem>): (r: seq<Product>)
    ensures |r| == |products|
  {
    if cart == [] then products
    else SellLine(ApplySale(products, cart[..|cart| - 1]), cart[|cart| - 1])
  }

  /** Entry `k` is the one `find` returns for its id. */
  predicate IsFirstOfId(products: seq<Product>, k: nat)
    requires k < |products|
  {
    FirstIndex(products, ProductId, products[k].id) == Some(k)
  }

  /** One loop iteration changes at most the quantity of entry `k`, and only
      when `k` is the entry `find` picks for the line. */
  lemma SellLineAt(products: seq<Product>, l: CartItem, k: nat)
    requires k < |products|
    ensures SellLine(products, l)[k] == products[k].(quantity := products[k].quantity -
      (if FirstIndex(products, ProductId, l.id) == Some(k) then l.cartQuantity else 0))
  {
  }

  /** The stock loop keeps every entry but its quantity, and takes off each
      product exactly the units the cart holds of it; later duplicates of an id
      and products not in the cart keep their stock. */
  lemma {:induction false} ApplySaleAt(products: seq<Product>, cart: seq<CartItem>)
    ensures |ApplySale(products, cart)| == |products|
    ensures forall k :: 0 <= k < |products| ==>
      ApplySale(products, cart)[k] == products[k].(quantity := products[k].quantity -
        (if IsFirstOfId(products, k) then QtyOf(cart, products[k].id) else 0))
  {
    if cart != [] {
      var init, l := cart[..|cart| - 1], cart[|cart| - 1];
      ApplySaleAt(products, init);
      var before := ApplySale(products, init);
      FirstIndexSameKeys(before, products, ProductId, ProductId, l.id);
      forall k | 0 <= k < |products|
        ensures ApplySale(products, cart)[k] == products[k].(quantity := products[k].quantity -
          (if IsFirstOfId(products, k) then QtyOf(cart, products[k].id) else 0))
      {
        SellLineAt(before, l, k);
        assert QtyOf(cart, products[k].id) == QtyOf(init, products[k].id) + QtyIf(products[k].id)(l);
        if FirstIndex(products, ProductId, l.id) == Some(k) {
          assert IsFirstOfId(products, k);
        }
      }
    }
  }

  /** With one line per product, each product in the cart loses exactly the
      units of its line. */
  lemma SaleTakesLineUnits(products: seq<Product>, cart: seq<CartItem>, j: nat, k: nat)
    requires UniqueIds(cart) && j < |cart|
    requires FirstIndex(products, ProductId, cart[j].id) == Some(k)
    ensures ApplySale(products, cart)[k].quantity == products[k].quantity - cart[j].cartQuantity
  {
    ApplySaleAt(products, cart);
    QtyOfLine(cart, j);
  }

  /** When every line was within stock, no product's stock goes negative. */
  lemma NoOversell(products: seq<Product>, cart: seq<CartItem>)
    requires UniqueIds(cart) && InStock(cart, products)
    requires forall k :: 0 <= k < |products| ==> products[k].quantity >= 0
    ensures forall k :: 0 <= k < |ApplySale(products, cart)| ==> ApplySale(products, cart)[k].quantity >= 0
  {
    ApplySaleAt(products, cart);
    forall k | 0 <= k < |products| && IsFirstOfId(products, k)
      ensures QtyOf(cart, products[k].id) <= products[k].quantity
    {
      var id := products[k].id;
      match FirstIndex(cart, LineId, id)
      case None =>
        QtyOfAbsent(cart, id);
      case Some(j) =>
        QtyOfLine(cart, j);
        assert LineInStock(cart[j], products);
    }
  }

  // ----- held bills -----

  predicate HeldWellFormed(held: seq<Bill>)
  {
    forall k :: 0 <= k < |held| ==> WellFormedCart(held[k].items)
  }

  /** `heldBills.splice(index, 1)`: the entry at `i` is dropped and the rest
      keep their order. */
  function RemoveAt(bills: seq<Bill>, i: nat): (r: seq<Bill>)
    requires i < |bills|
    ensures |r| == |bills| - 1
    ensures forall b :: b in r ==> b in bills
    ensures forall j :: 0 <= j < |r| ==> r[j] == (if j < i then bills[j] else bills[j + 1])
    ensures multiset(r) + multiset{bills[i]} == multiset(bills)
  {
    assert bills == bills[..i] + [bills[i]] + bills[i + 1..];
    bills[..i] + bills[i + 1..]
  }
}
