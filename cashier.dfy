/** The cashier screen: a component whose handlers change its own fields.
    Alerts become returned outcomes, `confirm` becomes a boolean argument, and
    `Date.now()` / `toLocaleString()` become the `now` and `date` arguments. */
module Cashier {
  import opened Lists
  import opened Text
  import opened Catalog
  import opened Billing

  datatype HoldOutcome = CartEmpty | HeldAs(billId: int)
  datatype ResumeOutcome = Declined | HeldBillNotFound | Resumed
  datatype FinalizeOutcome = NothingToBill | TenderShort | Finalized(bill: Bill, change: int)

  class CashierDashboard {
    var products: seq<Product>
    var cart: seq<CartItem>
    var barcodeInput: string
    var customerName: string
    var customerPhone: string
    var paymentMode: string
    var bills: seq<Bill>
    var total: int
    var heldBills: seq<Bill>
    var cashTendered: int
    var changeDue: int

    /** The cart has one well-formed line per product and `total` is its total;
        the change shown is never negative; catalog prices are non-negative;
        every held cart is well formed too. */
    ghost predicate Valid()
      reads this
    {
      WellFormedCart(cart) && total == CartTotal(cart) && changeDue >= 0 &&
      PricesNonNegative(products) &&
      HeldWellFormed(heldBills)
    }

    /** Field initialisers, the ledgers read back from storage, and `ngOnInit`
        resetting the catalog to the quick-pick list. */
    constructor (savedBills: seq<Bill>, savedHeldBills: seq<Bill>)
      requires HeldWellFormed(savedHeldBills)
      ensures Valid()
      ensures products == QUICK_PRODUCTS && cart == [] && barcodeInput == ""
      ensures customerName == "" && customerPhone == "" && paymentMode == CASH
      ensures bills == savedBills && heldBills == savedHeldBills
      ensures total == 0 && cashTendered == 0 && changeDue == 0
    {
      products := QUICK_PRODUCTS;
      cart := [];
      barcodeInput := "";
      customerName := "";
      customerPhone := "";
      paymentMode := CASH;
      bills := savedBills;
      total := 0;
      heldBills := savedHeldBills;
      cashTendered := 0;
      changeDue := 0;
    }

    method CalculateChange()
      modifies this`changeDue
      ensures changeDue == ChangeFor(paymentMode, cashTendered, total)
    {
      if paymentMode == CASH && cashTendered >= total {
        changeDue := cashTendered - total;
      } else {
        changeDue := 0;
      }
    }

    method CalculateTotal()
      modifies this`total, this`changeDue
      ensures total == CartTotal(cart)
      ensures changeDue == ChangeFor(paymentMode, cashTendered, total)
    {
      total := CartTotal(cart);
      CalculateChange();
    }

    /** Clamp the discount of line `i` into [0, its subtotal] and recompute. */
    method UpdateCartItemDiscount(i: nat, newDiscount: int)
      requires Valid() && i < |cart|
      modifies this`cart, this`total, this`changeDue
      ensures Valid()
      ensures cart == SetDiscount(old(cart), i, newDiscount)
      ensures 0 <= cart[i].discount <= cart[i].price * cart[i].cartQuantity
      ensures total == old(total) - LineAmount(old(cart)[i]) + LineAmount(cart[i])
      ensures changeDue == ChangeFor(paymentMode, cashTendered, total)
    {
      SetDiscountEffect(cart, i, newDiscount);
      var item := cart[i];
      cart := cart[i := item.(discount := ClampDiscount(newDiscount, item.price, item.cartQuantity))];
      CalculateTotal();
    }

    /** Drop the line with product `id` and recompute. */
    method RemoveCartItem(id: int)
      requires Valid()
      modifies this`cart, this`total, this`changeDue
      ensures Valid()
      ensures cart == FilterOut(old(cart), LineId, id)
      ensures forall j :: 0 <= j < |old(cart)| && old(cart)[j].id == id ==>
        cart == old(cart)[..j] + old(cart)[j + 1..] && total == old(total) - LineAmount(old(cart)[j])
      ensures (forall j :: 0 <= j < |old(cart)| ==> old(cart)[j].id != id) ==> cart == old(cart)
      ensures changeDue == ChangeFor(paymentMode, cashTendered, total)
    {
      RemoveLineEffect(cart, id);
      cart := FilterOut(cart, LineId, id);
      CalculateTotal();
    }

    /** The cart branch of `addProductByBarcode`: find the product, then bump
        its line or append one, each guarded by the stock on hand. */
    method ScanCode(code: Option<int>) returns (r: AddOutcome)
      modifies this`cart
      ensures AddStep(r, cart) == AddByCode(old(cart), products, code)
    {
      var k := Lookup(products, code);
      if k.None? {
        return NotFound;
      }
      var product := products[k.value];
      var existing := FirstIndex(cart, LineId, product.id);
      if existing.Some? {
        var j := existing.value;
        if cart[j].cartQuantity + 1 > product.quantity {
          return LowStock(product.quantity);
        }
        cart := cart[j := cart[j].(cartQuantity := cart[j].cartQuantity + 1)];
        r := Incremented;
      } else {
        if product.quantity < 1 {
          return OutOfStock;
        }
        cart := cart + [NewLine(product)];
        r := Added;
      }
    }

    /** Scan: `code` is the parsed barcode input (None when it is not a number). */
    method AddProductByBarcode(code: Option<int>) returns (r: AddOutcome)
      requires Valid()
      modifies this`barcodeInput, this`cart, this`total, this`changeDue
      ensures Valid()
      ensures IsBlank(old(barcodeInput)) ==>
        r == BlankInput && barcodeInput == old(barcodeInput) && cart == old(cart) && changeDue == old(changeDue)
      ensures !IsBlank(old(barcodeInput)) ==>
        barcodeInput == "" && AddStep(r, cart) == AddByCode(old(cart), products, code)
      ensures r.Succeeded() ==> changeDue == ChangeFor(paymentMode, cashTendered, total)
      ensures !r.Succeeded() ==> changeDue == old(changeDue)
    {
      if IsBlank(barcodeInput) {
        return BlankInput;
      }
      AddByCodeWellFormed(cart, products, code);
      r := ScanCode(code);
      barcodeInput := "";
      if r.Succeeded() {
        CalculateTotal();
      }
    }

    /** Quick pick: write the product's id into the input and scan it. */
    method AddQuickProduct(p: Product) returns (r: AddOutcome)
      requires Valid()
      modifies this`barcodeInput, this`cart, this`total, this`changeDue
      ensures Valid()
      ensures barcodeInput == "" && AddStep(r, cart) == AddByCode(old(cart), products, Some(p.id))
      ensures r.Succeeded() ==> changeDue == ChangeFor(paymentMode, cashTendered, total)
      ensures !r.Succeeded() ==> changeDue == old(changeDue)
    {
      barcodeInput := DecimalText(p.id);
      r := AddProductByBarcode(Some(p.id));
    }

    /** Park the cart as a held bill and clear the screen for the next customer. */
    method HoldBill(now: int, date: string) returns (r: HoldOutcome)
      requires Valid()
      modifies this`heldBills, this`cart, this`total, this`customerName, this`customerPhone,
               this`cashTendered, this`changeDue
      ensures Valid()
      ensures old(cart) == [] ==> r == CartEmpty && unchanged(this)
      ensures old(cart) != [] ==>
        r == HeldAs(now) &&
        heldBills == old(heldBills) + [Bill(now, date, OrElse(old(customerName), HELD_CUSTOMER),
                                            OrElse(old(customerPhone), NOT_AVAILABLE), HELD,
                                            old(cart), old(total))] &&
        cart == [] && total == 0 && customerName == "" && customerPhone == "" &&
        cashTendered == 0 && changeDue == 0
    {
      if |cart| == 0 {
        return CartEmpty;
      }
      var held := Bill(now, date, OrElse(customerName, HELD_CUSTOMER),
                       OrElse(customerPhone, NOT_AVAILABLE), HELD, cart, total);
      heldBills := heldBills + [held];
      cart := [];
      total := 0;
      customerName := "";
      customerPhone := "";
      cashTendered := 0;
      changeDue := 0;
      r := HeldAs(now);
    }

    /** The accepting branch of `resumeBill`: held bill `i` becomes the cart. */
    method LoadHeldBill(i: nat)
      requires Valid() && i < |heldBills|
      modifies this`cart, this`customerName, this`customerPhone, this`paymentMode,
               this`cashTendered, this`changeDue, this`total, this`heldBills
      ensures Valid()
      ensures var b := old(heldBills)[i];
        cart == b.items &&
        customerName == Restore(b.customerName, HELD_CUSTOMER) &&
        customerPhone == Restore(b.customerPhone, NOT_AVAILABLE) &&
        paymentMode == CASH && cashTendered == 0 &&
        total == CartTotal(b.items) && changeDue == ChangeFor(CASH, 0, total)
      ensures heldBills == RemoveAt(old(heldBills), i)
    {
      var toResume := heldBills[i];
      cart := toResume.items;
      customerName := Restore(toResume.customerName, HELD_CUSTOMER);
      customerPhone := Restore(toResume.customerPhone, NOT_AVAILABLE);
      paymentMode := CASH;
      cashTendered := 0;
      changeDue := 0;
      CalculateTotal();
      heldBills := RemoveAt(heldBills, i);
    }

    /** Bring back the first held bill with id `billId`; `confirmed` is the
        answer to the discard question, asked only when the cart is not empty. */
    method ResumeBill(billId: int, confirmed: bool) returns (r: ResumeOutcome)
      requires Valid()
      modifies this`cart, this`customerName, this`customerPhone, this`paymentMode,
               this`cashTendered, this`changeDue, this`total, this`heldBills
      ensures Valid()
      ensures old(cart) != [] && !confirmed ==> r == Declined && unchanged(this)
      ensures (old(cart) == [] || confirmed) && FirstIndex(old(heldBills), BillId, billId).None? ==>
        r == HeldBillNotFound && unchanged(this)
      ensures r == Resumed <==>
        (old(cart) == [] || confirmed) && FirstIndex(old(heldBills), BillId, billId).Some?
      ensures r == Resumed ==>
        var i := FirstIndex(old(heldBills), BillId, billId).value;
        var b := old(heldBills)[i];
        cart == b.items &&
        customerName == Restore(b.customerName, HELD_CUSTOMER) &&
        customerPhone == Restore(b.customerPhone, NOT_AVAILABLE) &&
        paymentMode == CASH && cashTendered == 0 &&
        total == CartTotal(b.items) && changeDue == ChangeFor(CASH, 0, total) &&
        heldBills == RemoveAt(old(heldBills), i)
    {
      if |cart| > 0 && !confirmed {
        return Declined;
      }
      var index := FirstIndex(heldBills, BillId, billId);
      if index.None? {
        return HeldBillNotFound;
      }
      LoadHeldBill(index.value);
      r := Resumed;
    }

    /** The stock loop of `finalizeBill`: for each line in order, the first
        catalog entry with its id loses the line's units; a line whose product
        is no longer in the catalog is skipped. */
    method DecrementStock(lines: seq<CartItem>)
      modifies this`products
      ensures products == ApplySale(old(products), lines)
      ensures PricesNonNegative(old(products)) ==> PricesNonNegative(products)
    {
      for i := 0 to |lines|
        invariant products == ApplySale(old(products), lines[..i])
        invariant PricesNonNegative(old(products)) ==> PricesNonNegative(products)
      {
        var k := FirstIndex(products, ProductId, lines[i].id);
        if k.Some? {
          var p := products[k.value];
          products := products[k.value := p.(quantity := p.quantity - lines[i].cartQuantity)];
        }
        assert lines[..i + 1][..i] == lines[..i];
      }
      assert lines[..|lines|] == lines;
    }

    /** The accepting branch of `finalizeBill`. */
    method Checkout(now: int, date: string) returns (bill: Bill)
      requires Valid()
      modifies this`products, this`bills, this`cart, this`total, this`customerName,
               this`customerPhone, this`paymentMode, this`cashTendered, this`changeDue
      ensures Valid()
      ensures products == ApplySale(old(products), old(cart))
      ensures bill == Bill(now, date, OrElse(old(customerName), WALK_IN_CUSTOMER),
                           OrElse(old(customerPhone), NOT_AVAILABLE), old(paymentMode),
                           old(cart), old(total))
      ensures bills == old(bills) + [bill]
      ensures cart == [] && total == 0 && customerName == "" && customerPhone == ""
      ensures paymentMode == CASH && cashTendered == 0 && changeDue == 0
    {
      DecrementStock(cart);
      bill := RecordBill(now, date);
      ClearSale();
    }

    /** Append the bill for the current screen to the sales list. */
    method RecordBill(now: int, date: string) returns (bill: Bill)
      modifies this`bills
      ensures bill == Bill(now, date, OrElse(customerName, WALK_IN_CUSTOMER),
                           OrElse(customerPhone, NOT_AVAILABLE), paymentMode, cart, total)
      ensures bills == old(bills) + [bill]
    {
      bill := Bill(now, date, OrElse(customerName, WALK_IN_CUSTOMER),
                   OrElse(customerPhone, NOT_AVAILABLE), paymentMode, cart, total);
      bills := bills + [bill];
    }

    /** Empty the cart and reset the customer and payment fields. */
    method ClearSale()
      modifies this`cart, this`total, this`customerName, this`customerPhone,
               this`paymentMode, this`cashTendered, this`changeDue
      ensures cart == [] && total == 0 && customerName == "" && customerPhone == ""
      ensures paymentMode == CASH && cashTendered == 0 && changeDue == 0
    {
      cart := [];
      total := 0;
      customerName := "";
      customerPhone := "";
      paymentMode := CASH;
      cashTendered := 0;
      changeDue := 0;
    }

    /** Sell the cart: take each line's units off the catalog, record the bill
        and reset the screen. Refused on an empty cart and on a cash tender
        short of the total. */
    method FinalizeBill(now: int, date: string) returns (r: FinalizeOutcome)
      requires Valid()
      modifies this`products, this`bills, this`cart, this`total, this`customerName,
               this`customerPhone, this`paymentMode, this`cashTendered, this`changeDue
      ensures Valid()
      ensures old(cart) == [] ==> r == NothingToBill && unchanged(this)
      ensures old(cart) != [] && old(paymentMode) == CASH && old(cashTendered) < old(total) ==>
        r == TenderShort && unchanged(this)
      ensures r.Finalized? <==>
        old(cart) != [] && !(old(paymentMode) == CASH && old(cashTendered) < old(total))
      ensures r.Finalized? ==>
        products == ApplySale(old(products), old(cart)) &&
        r.bill == Bill(now, date, OrElse(old(customerName), WALK_IN_CUSTOMER),
                       OrElse(old(customerPhone), NOT_AVAILABLE), old(paymentMode),
                       old(cart), old(total)) &&
        r.change == old(changeDue) &&
        bills == old(bills) + [r.bill] &&
        cart == [] && total == 0 && customerName == "" && customerPhone == "" &&
        paymentMode == CASH && cashTendered == 0 && changeDue == 0
    {
      if |cart| == 0 {
        return NothingToBill;
      }
      if paymentMode == CASH && cashTendered < total {
        return TenderShort;
      }
      var change := changeDue;
      var bill := Checkout(now, date);
      r := Finalized(bill, change);
    }

    /** Holding a cart and resuming it straight away gives the same cart and
        total back and leaves the held list as it was. */
    method HoldThenResume(now: int, date: string)
      requires Valid() && cart != []
      requires forall b :: b in heldBills ==> b.id != now
      modifies this`heldBills, this`cart, this`total, this`customerName, this`customerPhone,
               this`paymentMode, this`cashTendered, this`changeDue
      ensures Valid()
      ensures cart == old(cart) && total == old(total) && heldBills == old(heldBills)
      ensures customerName == (if old(customerName) == HELD_CUSTOMER then "" else old(customerName))
      ensures customerPhone == (if old(customerPhone) == NOT_AVAILABLE then "" else old(customerPhone))
      ensures paymentMode == CASH && cashTendered == 0
    {
      var h := HoldBill(now, date);
      var held := heldBills;
      assert FirstIndex(held, BillId, now) == Some(|held| - 1) by {
        assert held[|held| - 1].id == now;
        forall j | 0 <= j < |held| - 1 ensures held[j].id != now {
          assert held[j] in old(heldBills);
        }
      }
      RestoreOrElse(old(customerName), HELD_CUSTOMER);
      RestoreOrElse(old(customerPhone), NOT_AVAILABLE);
      var r := ResumeBill(now, false);
      assert RemoveAt(held, |held| - 1) == old(heldBills);
    }
  }
}
