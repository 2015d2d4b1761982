/** The checkout of app/payment/page.tsx: a fixed bill with tax and service charge, the
    choice of payment method, the cash field (which keeps only digits and shows them as
    rupiah), the change, the guard on the pay button and the success view. */
module Payment {
  import opened Basics
  import opened Decimal

  datatype PaymentMethod = Cash | Card | Qris | GoPay | Ovo | Dana

  /** The name each method button shows. */
  function MethodName(m: PaymentMethod): string
  {
    match m
    case Cash => "Cash"
    case Card => "Debit/Credit Card"
    case Qris => "QRIS"
    case GoPay => "GoPay"
    case Ovo => "OVO"
    case Dana => "DANA"
  }

  datatype BillItem = BillItem(name: string, quantity: int, price: int)

  /** The order being paid for. */
  function OrderItems(): seq<BillItem>
  {
    [BillItem("Nasi Goreng Special", 2, 30000), BillItem("Ayam Bakar", 1, 35000),
     BillItem("Es Teh Manis", 3, 5000), BillItem("Jus Alpukat", 1, 15000)]
  }

  function LineAmount(item: BillItem): int
  {
    item.price * item.quantity
  }

  function Subtotal(items: seq<BillItem>): int
  {
    SumOf(LineAmount, items)
  }

  /** Tax at 10 percent, in exact arithmetic. */
  function Tax(subtotal: int): real
  {
    subtotal as real * 0.1
  }

  /** Service charge at 5 percent. */
  function ServiceCharge(subtotal: int): real
  {
    subtotal as real * 0.05
  }

  /** `subtotal + tax + serviceCharge`: 115 percent of the subtotal. */
  function Total(subtotal: int): (t: real)
    ensures t == subtotal as real * 1.15
  {
    subtotal as real + Tax(subtotal) + ServiceCharge(subtotal)
  }

  /** The hard-coded order comes to 125000 before and 143750 after tax and service. */
  lemma FixedBill()
    ensures Subtotal(OrderItems()) == 125000
    ensures Total(Subtotal(OrderItems())) == 143750.0
  {
  }

  // ---------------------------------------------------------------- the cash field

  /** `Number.parseInt(s.replace(/\D/g, "")) || 0`: the digits of the field read as a
      number, 0 when there are none. */
  function CashAmountNumber(s: string): nat
  {
    DigitsValue(DigitsOnly(s))
  }

  /** `Rp ${n.toLocaleString("id-ID")}`. */
  function Rupiah(n: nat): string
  {
    "Rp " + LocaleId(n)
  }

  /** What the field stores after an edit that leaves the text `typed`: nothing when it
      has no digit, otherwise the amount its digits spell, as rupiah. */
  function CashInputText(typed: string): string
  {
    var digits := DigitsOnly(typed);
    if digits != "" then Rupiah(DigitsValue(digits)) else ""
  }

  /** The quick-cash amounts. */
  function QuickCash(): seq<nat>
  {
    [50000, 100000, 150000, 200000]
  }

  lemma PrefixHasNoDigits()
    ensures DigitsOnly("Rp ") == ""
  {
    assert "Rp "[1..] == "p ";
    assert "p "[1..] == " ";
    assert " "[1..] == "";
  }

  /** The digits of a rupiah text are the decimal digits of its amount. */
  lemma RupiahDigits(n: nat)
    ensures DigitsOnly(Rupiah(n)) == NatToString(n)
  {
    DigitsOnlyAppend("Rp ", LocaleId(n));
    PrefixHasNoDigits();
    GroupThousandsDigits(NatToString(n));
  }

  /** Reading a rupiah text back gives its amount; so a quick-cash button stores exactly
      its amount. */
  lemma RupiahRoundTrip(n: nat)
    ensures CashAmountNumber(Rupiah(n)) == n
  {
    RupiahDigits(n);
    NatRoundTrip(n);
  }

  /** The field stores "" exactly when the edit left no digit, and the stored text reads
      back as the number the typed digits spell. */
  lemma CashInputRoundTrip(typed: string)
    ensures CashInputText(typed) == "" <==> DigitsOnly(typed) == ""
    ensures CashAmountNumber(CashInputText(typed)) == CashAmountNumber(typed)
  {
    var digits := DigitsOnly(typed);
    if digits != "" {
      RupiahRoundTrip(DigitsValue(digits));
    } else {
      assert DigitsOnly("") == "";
    }
  }

  /** Editing the field without changing what it shows stores the same text again. */
  lemma CashInputIdempotent(typed: string)
    ensures CashInputText(CashInputText(typed)) == CashInputText(typed)
  {
    var digits := DigitsOnly(typed);
    if digits != "" {
      var n := DigitsValue(digits);
      RupiahDigits(n);
      NatRoundTrip(n);
    } else {
      assert DigitsOnly("") == "";
    }
  }

  // ---------------------------------------------------------------- change and paying

  function Change(cash: nat, total: real): real
  {
    cash as real - total
  }

  /** `selectedMethod === "cash" && change < 0`. */
  function PayDisabled(chosen: Option<PaymentMethod>, change: real): (disabled: bool)
    ensures disabled <==> chosen == Some(Cash) && change < 0.0
    ensures chosen.Some? && chosen.value != Cash ==> !disabled
  {
    chosen == Some(Cash) && change < 0.0
  }

  /** The change panel under the cash field. */
  datatype ChangePanel = NoPanel | ShowsChange(amount: real) | Short

  /** Shown for cash once the field holds a positive amount: the change when it is not
      negative, "Kurang" when the cash does not cover the bill. */
  function ChangePanelOf(chosen: Option<PaymentMethod>, cash: nat, change: real): (p: ChangePanel)
    ensures p != NoPanel <==> chosen == Some(Cash) && cash > 0
    ensures p.ShowsChange? ==> p.amount == change && change >= 0.0
    ensures p == Short ==> change < 0.0
  {
    if chosen == Some(Cash) && cash > 0 then (if change >= 0.0 then ShowsChange(change) else Short)
    else NoPanel
  }

  /** The success view lists change only for a cash payment that leaves some. */
  function SuccessChange(chosen: Option<PaymentMethod>, change: real): (c: Option<real>)
    ensures c.Some? <==> chosen == Some(Cash) && change > 0.0
    ensures c.Some? ==> c.value == change
  {
    if chosen == Some(Cash) && change > 0.0 then Some(change) else None
  }

  /** Whenever the pay button can be pressed for cash, the cash covers the bill, so any
      change the success view shows is the real surplus. */
  lemma PaidCashCovers(cashText: string)
    requires !PayDisabled(Some(Cash), Change(CashAmountNumber(cashText), Total(Subtotal(OrderItems()))))
    ensures CashAmountNumber(cashText) as real >= 143750.0
  {
    FixedBill();
  }

  // ---------------------------------------------------------------- the page

  class PaymentPage {
    var selectedMethod: Option<PaymentMethod>
    var cashAmount: string
    var isPaid: bool

    constructor ()
      ensures selectedMethod == None && cashAmount == "" && !isPaid
    {
      selectedMethod := None;
      cashAmount := "";
      isPaid := false;
    }

    function TotalDue(): real
    {
      Total(Subtotal(OrderItems()))
    }

    function CashNumber(): nat
      reads this
    {
      CashAmountNumber(cashAmount)
    }

    function CurrentChange(): real
      reads this
    {
      Change(CashNumber(), TotalDue())
    }

    method SelectMethod(m: PaymentMethod)
      modifies this`selectedMethod
      ensures selectedMethod == Some(m)
    {
      selectedMethod := Some(m);
    }

    /** The cash field's `onChange` with the field's new text; the field is shown only
        while cash is the chosen method. */
    method TypeCash(typed: string)
      requires selectedMethod == Some(Cash)
      modifies this`cashAmount
      ensures cashAmount == CashInputText(typed)
      ensures CashNumber() == CashAmountNumber(typed)
    {
      CashInputRoundTrip(typed);
      cashAmount := CashInputText(typed);
    }

    /** A quick-cash button, shown only while cash is the chosen method. */
    method PressQuickCash(amount: nat)
      requires selectedMethod == Some(Cash)
      modifies this`cashAmount
      ensures cashAmount == Rupiah(amount)
      ensures CashNumber() == amount
    {
      RupiahRoundTrip(amount);
      cashAmount := Rupiah(amount);
    }

    /** "Proses Pembayaran": the button exists only once a method is chosen, and does
        nothing while it is disabled. */
    method PressPay()
      modifies this`isPaid
      ensures isPaid == (old(isPaid) || (selectedMethod.Some? && !PayDisabled(selectedMethod, CurrentChange())))
    {
      if selectedMethod.Some? && !PayDisabled(selectedMethod, CurrentChange()) {
        isPaid := true;
      }
    }
  }
}
