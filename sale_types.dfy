/**
 * The Sale entity of `types/sale.ts`: a sale, its line items, the closed
 * payment-type and status unions, and the seeded record of the in-memory store.
 *
 * Amounts are integer cents (the source uses JavaScript numbers such as 29.99;
 * here that is 2999). Timestamps are kept as the text they were built from.
 */
module SaleTypes {
  import opened Wrappers

  /** An amount of money in cents. */
  type Money = int

  /** A `Date`, kept as the ISO text it was built from; nothing here computes with it. */
  datatype Instant = Instant(iso: string)

  /** `'CASH' | 'CARD' | 'TRANSFER'` */
  datatype PaymentType = CASH | CARD | TRANSFER

  /** `'PENDING' | 'PAID' | 'CANCELLED'` */
  datatype Status = PENDING | PAID | CANCELLED

  /** One line of a sale; it stores its own total beside quantity and unit price. */
  datatype SaleItem = SaleItem(productId: string, quantity: int, unitPrice: Money, totalPrice: Money)

  /**
   * A sale. `paymentType` is always present, even on a pending sale, and
   * `paymentDate` is nullable independently of `status`: the type ties neither
   * to the lifecycle.
   */
  datatype Sale = Sale(
    id: string,
    items: seq<SaleItem>,
    totalAmount: Money,
    customerName: string,
    customerPhone: string,
    saleDate: Instant,
    paymentDate: Option<Instant>,
    paymentType: PaymentType,
    status: Status)

  /** The string a payment type travels as. */
  function PaymentWire(p: PaymentType): string {
    match p
    case CASH => "CASH"
    case CARD => "CARD"
    case TRANSFER => "TRANSFER"
  }

  /** Reads a payment type back from its string; exactly the three spellings are accepted. */
  function ParsePaymentType(s: string): (r: Option<PaymentType>)
    ensures r.Some? <==> (s == "CASH" || s == "CARD" || s == "TRANSFER")
    ensures r.Some? ==> PaymentWire(r.value) == s
  {
    if s == "CASH" then Some(CASH)
    else if s == "CARD" then Some(CARD)
    else if s == "TRANSFER" then Some(TRANSFER)
    else None
  }

  /** The string a status travels as. */
  function StatusWire(s: Status): string {
    match s
    case PENDING => "PENDING"
    case PAID => "PAID"
    case CANCELLED => "CANCELLED"
  }

  /** Reads a status back from its string; exactly the three spellings are accepted. */
  function ParseStatus(s: string): (r: Option<Status>)
    ensures r.Some? <==> (s == "PENDING" || s == "PAID" || s == "CANCELLED")
    ensures r.Some? ==> StatusWire(r.value) == s
  {
    if s == "PENDING" then Some(PENDING)
    else if s == "PAID" then Some(PAID)
    else if s == "CANCELLED" then Some(CANCELLED)
    else None
  }

  /** Every payment type survives a trip through its string, and no two share one. */
  lemma PaymentWireRoundTrip(p: PaymentType)
    ensures ParsePaymentType(PaymentWire(p)) == Some(p)
    ensures PaymentWire(p) != ""
  {
  }

  /** Every status survives a trip through its string, and no two share one. */
  lemma StatusWireRoundTrip(s: Status)
    ensures ParseStatus(StatusWire(s)) == Some(s)
    ensures StatusWire(s) != ""
  {
  }

  /** quantity × unitPrice, the amount one line is worth. */
  function LineAmount(quantity: int, unitPrice: Money): Money {
    quantity * unitPrice
  }

  /** The sum of the stored `totalPrice` of every line, left to right. */
  function SumOfTotals(items: seq<SaleItem>): Money {
    if items == [] then 0 else SumOfTotals(items[..|items| - 1]) + items[|items| - 1].totalPrice
  }

  /** A line whose stored total is its quantity times its unit price. */
  predicate ItemConsistent(item: SaleItem) {
    item.totalPrice == LineAmount(item.quantity, item.unitPrice)
  }

  /**
   * Every line is consistent and the stored `totalAmount` is the sum of the
   * line totals. Nothing in the source enforces this: the fields are stored,
   * not derived.
   */
  predicate SaleConsistent(s: Sale) {
    && (forall k :: 0 <= k < |s.items| ==> ItemConsistent(s.items[k]))
    && s.totalAmount == SumOfTotals(s.items)
  }

  /** The one record `MOCK_SALES` starts with (services/sale-service.ts). */
  function SeedSale(): Sale {
    Sale(
      "1",
      [SaleItem("1", 2, 2999, 5998), SaleItem("2", 1, 1299, 1299)],
      7297,
      "Jean Dupont",
      "0123456789",
      Instant("2024-12-19T10:00:00"),
      Some(Instant("2024-12-19T10:00:00")),
      CASH,
      PAID)
  }

  /** The seeded sale adds up: 2 × 29.99 = 59.98, 1 × 12.99, and 72.97 in all. */
  lemma SeedSaleConsistent()
    ensures SaleConsistent(SeedSale())
    ensures SeedSale().totalAmount == 7297
    ensures SeedSale().status == PAID && SeedSale().paymentDate.Some?
  {
    var items := SeedSale().items;
    assert items[..1] == [items[0]];
    assert items[..0] == [];
  }

  /**
   * The lifecycle fields constrain nothing else: a sale may be PAID with no
   * payment date, or PENDING with one, and consistency does not look at them.
   */
  lemma LifecycleFieldsAreFree(s: Sale, status: Status, paymentDate: Option<Instant>, paymentType: PaymentType)
    ensures SaleConsistent(s.(status := status, paymentDate := paymentDate, paymentType := paymentType))
      <==> SaleConsistent(s)
    ensures SaleConsistent(SeedSale().(paymentDate := None))
  {
    SeedSaleConsistent();
  }

  /**
   * The stored totals are data, not derived: shifting the sale total, or the
   * total of any one line, of a consistent sale breaks its consistency.
   */
  lemma StoredTotalsAreNotDerived(s: Sale, delta: Money)
    requires SaleConsistent(s) && delta != 0
    ensures !SaleConsistent(s.(totalAmount := s.totalAmount + delta))
    ensures forall k :: 0 <= k < |s.items| ==>
      !SaleConsistent(s.(items := s.items[k := s.items[k].(totalPrice := s.items[k].totalPrice + delta)]))
  {
    forall k | 0 <= k < |s.items|
      ensures !SaleConsistent(s.(items := s.items[k := s.items[k].(totalPrice := s.items[k].totalPrice + delta)]))
    {
      var shifted := s.(items := s.items[k := s.items[k].(totalPrice := s.items[k].totalPrice + delta)]);
      assert !ItemConsistent(shifted.items[k]);
    }
  }
}
