/**
 * The sale forms of `components/sales/forms/sale-create-form.tsx` and
 * `sale-edit-form.tsx`. Both declare the same zod schema, the same blank line,
 * the same catalogue price prefill and the same quantity input; they differ in
 * their starting values (blank, or hydrated from a stored sale) and in what
 * they submit (a create payload with status PENDING, or an update patch
 * carrying a recomputed totalAmount).
 *
 * The validator returns every issue zod would report, each at its field path;
 * the form is valid exactly when there is none.
 */
module SaleForm {
  import opened Wrappers
  import opened SaleTypes
  import opened ProductTypes
  import JsText

  /** One line of the item field array and of both payloads: `{ productId, quantity, unitPrice }`. */
  datatype LineInput = LineInput(productId: string, quantity: int, unitPrice: Money)

  /** What the form holds before validation; the payment type is the selected string. */
  datatype SaleFormInput = SaleFormInput(
    customerName: string,
    customerPhone: string,
    paymentType: string,
    items: seq<LineInput>)

  /** `SaleFormValues`: what zod hands to `onSubmit` once the input is valid. */
  datatype SaleFormValues = SaleFormValues(
    customerName: string,
    customerPhone: string,
    paymentType: PaymentType,
    items: seq<LineInput>)

  datatype LineField = ProductIdField | QuantityField | UnitPriceField

  /** Where zod attaches an issue: a top-level field, the list, or one field of one line. */
  datatype Path = CustomerNamePath | CustomerPhonePath | PaymentTypePath | ItemsPath
                | ItemPath(index: nat, field: LineField)

  datatype Issue = Issue(path: Path, message: string)

  const ProductRequired: string := "Produit requis"
  const QuantityTooSmall: string := "Quantité minimale de 1"
  const UnitPriceInvalid: string := "Prix unitaire invalide"
  const NameTooShort: string := "Le nom doit contenir au moins 2 caractères"
  const PhoneInvalid: string := "Numéro de téléphone invalide"
  const ItemsRequired: string := "Au moins un produit est requis"
  /** zod's own message for a value outside `z.enum`; its wording is zod's, not the form's. */
  const InvalidEnum: string := "Invalid enum value"

  /** Whether one field of a line breaks its rule in `saleItemSchema`. */
  predicate FieldFails(line: LineInput, field: LineField) {
    match field
    case ProductIdField => |line.productId| < 1
    case QuantityField => line.quantity < 1
    case UnitPriceField => line.unitPrice < 0
  }

  /** `saleItemSchema`: a product is chosen, at least one unit, a price of at least zero. */
  predicate LineValid(line: LineInput) {
    |line.productId| >= 1 && line.quantity >= 1 && line.unitPrice >= 0
  }

  /** `saleSchema`, field by field. */
  predicate SaleInputValid(input: SaleFormInput) {
    && |input.customerName| >= 2
    && |input.customerPhone| >= 10
    && ParsePaymentType(input.paymentType).Some?
    && |input.items| >= 1
    && forall k :: 0 <= k < |input.items| ==> LineValid(input.items[k])
  }

  /** Whether some issue in the list sits at the path. */
  predicate HasIssue(issues: seq<Issue>, path: Path) {
    exists m :: m in issues && m.path == path
  }

  /** The one issue a failing rule reports at its path, or none. */
  function FieldIssue(fails: bool, path: Path, message: string): seq<Issue> {
    if fails then [Issue(path, message)] else []
  }

  /** The issues of one line at position `index`. */
  function LineIssues(line: LineInput, index: nat): (r: seq<Issue>)
    ensures r == [] <==> LineValid(line)
    ensures forall m :: m in r ==> m.path.ItemPath? && m.path.index == index
  {
    FieldIssue(FieldFails(line, ProductIdField), ItemPath(index, ProductIdField), ProductRequired)
    + FieldIssue(FieldFails(line, QuantityField), ItemPath(index, QuantityField), QuantityTooSmall)
    + FieldIssue(FieldFails(line, UnitPriceField), ItemPath(index, UnitPriceField), UnitPriceInvalid)
  }

  /** The issues of `lines`, the first of which sits at position `from` of the list. */
  function LinesIssues(lines: seq<LineInput>, from: nat): (r: seq<Issue>)
    ensures r == [] <==> forall k :: 0 <= k < |lines| ==> LineValid(lines[k])
    ensures forall m :: m in r ==> m.path.ItemPath? && from <= m.path.index < from + |lines|
    decreases |lines|
  {
    if lines == [] then []
    else LineIssues(lines[0], from) + LinesIssues(lines[1..], from + 1)
  }

  /** The issues of the sale's own fields and of the list's length, in schema order. */
  function FieldIssues(input: SaleFormInput): seq<Issue> {
    FieldIssue(|input.customerName| < 2, CustomerNamePath, NameTooShort)
    + FieldIssue(|input.customerPhone| < 10, CustomerPhonePath, PhoneInvalid)
    + FieldIssue(ParsePaymentType(input.paymentType).None?, PaymentTypePath, InvalidEnum)
    + FieldIssue(|input.items| < 1, ItemsPath, ItemsRequired)
  }

  /** Every issue `saleSchema` reports for the input, in schema order. */
  function SaleIssues(input: SaleFormInput): (r: seq<Issue>)
    ensures r == [] <==> SaleInputValid(input)
  {
    FieldIssues(input) + LinesIssues(input.items, 0)
  }

  /** Whether the rule that reports at `path` fails for the input. */
  predicate PathFails(input: SaleFormInput, path: Path) {
    match path
    case CustomerNamePath => |input.customerName| < 2
    case CustomerPhonePath => |input.customerPhone| < 10
    case PaymentTypePath => ParsePaymentType(input.paymentType).None?
    case ItemsPath => |input.items| < 1
    case ItemPath(k, field) => k < |input.items| && FieldFails(input.items[k], field)
  }

  /**
   * `zodResolver(saleSchema)`: the parsed values when every rule holds,
   * otherwise every issue. Shared by the create and the edit form.
   */
  function ValidateSale(input: SaleFormInput): (r: Result<SaleFormValues, seq<Issue>>)
    ensures r.Success? <==> SaleInputValid(input)
    ensures r.Success? ==>
      && r.value.customerName == input.customerName
      && r.value.customerPhone == input.customerPhone
      && PaymentWire(r.value.paymentType) == input.paymentType
      && r.value.items == input.items
    ensures r.Failure? ==> r.error != [] && r.error == SaleIssues(input)
  {
    var issues := SaleIssues(input);
    if issues != [] then Failure(issues)
    else
      Success(SaleFormValues(input.customerName, input.customerPhone,
                             ParsePaymentType(input.paymentType).value, input.items))
  }

  /** `{ productId: '', quantity: 1, unitPrice: 0 }`: the line the form starts with and `append` adds. */
  function BlankLine(): (r: LineInput)
    ensures FieldFails(r, ProductIdField)
    ensures !FieldFails(r, QuantityField) && !FieldFails(r, UnitPriceField)
  {
    LineInput("", 1, 0)
  }

  /** `defaultValues` of the create form. */
  function CreateDefaults(): (r: SaleFormInput)
    ensures ParsePaymentType(r.paymentType) == Some(CASH)
    ensures |r.items| == 1 && !LineValid(r.items[0])
    ensures !SaleInputValid(r)
  {
    SaleFormInput("", "", "CASH", [BlankLine()])
  }

  /** `parseInt(e.target.value) || 0`: the quantity a typed text sets; NaN and 0 both give 0. */
  function QuantityFromText(text: string): (q: int)
    ensures JsText.ParseInt(text).None? ==> q == 0
    ensures JsText.ParseInt(text).Some? ==> q == JsText.ParseInt(text).value
  {
    JsText.ParseInt(text).GetOr(0)
  }

  /**
   * `handleProductChange(value, index)`: when the catalogue has a product with
   * that id, the line takes the id and the catalogue price; otherwise nothing
   * changes.
   */
  function SelectProduct(lines: seq<LineInput>, index: nat, value: string, catalogue: seq<Product>): (r: seq<LineInput>)
    requires index < |lines|
    ensures |r| == |lines|
    ensures forall k :: 0 <= k < |lines| && k != index ==> r[k] == lines[k]
    ensures r[index].quantity == lines[index].quantity
  {
    match FindProduct(catalogue, value)
    case None => lines
    case Some(p) => lines[index := lines[index].(productId := value, unitPrice := p.price)]
  }

  // ---------------------------------------------------------------------------
  // Create: the payload
  // ---------------------------------------------------------------------------

  /** `CreateSaleData`: no id, no totals, no dates; lines carry no totalPrice. */
  datatype CreateSaleData = CreateSaleData(
    customerName: string,
    customerPhone: string,
    paymentType: PaymentType,
    items: seq<LineInput>,
    status: Status)

  /** The object `onSubmit` of the create form passes to `createSale`. */
  function CreatePayload(values: SaleFormValues): (r: CreateSaleData)
    ensures r.status == PENDING
    ensures r.items == values.items
    ensures r.customerName == values.customerName && r.customerPhone == values.customerPhone
    ensures r.paymentType == values.paymentType
  {
    CreateSaleData(
      values.customerName,
      values.customerPhone,
      values.paymentType,
      seq(|values.items|, k requires 0 <= k < |values.items| =>
        LineInput(values.items[k].productId, values.items[k].quantity, values.items[k].unitPrice)),
      PENDING)
  }

  // ---------------------------------------------------------------------------
  // Edit: hydration, total and the patch
  // ---------------------------------------------------------------------------

  /** One stored line as the edit form shows it: `productId || ''`, `quantity || 1`, `unitPrice || 0`. */
  function HydrateLine(item: SaleItem): (r: LineInput)
    ensures r.productId == item.productId && r.unitPrice == item.unitPrice
    ensures item.quantity != 0 ==> r.quantity == item.quantity
    ensures item.quantity == 0 ==> r.quantity == 1
  {
    LineInput(JsText.StringOr(item.productId, ""), JsText.NumberOr(item.quantity, 1), JsText.NumberOr(item.unitPrice, 0))
  }

  /**
   * `sale.items?.map(...) || [blank]`. The blank line replaces only a missing
   * list: an empty array is truthy, so it hydrates to no line at all.
   */
  function HydrateItems(items: Option<seq<SaleItem>>): (r: seq<LineInput>)
    ensures items.None? ==> r == [BlankLine()]
    ensures items.Some? ==> |r| == |items.value|
    ensures items.Some? ==> forall k :: 0 <= k < |r| ==> r[k] == HydrateLine(items.value[k])
  {
    match items
    case None => [BlankLine()]
    case Some(s) => seq(|s|, k requires 0 <= k < |s| => HydrateLine(s[k]))
  }

  /** `defaultValues` of the edit form: name, phone and payment type copied, lines hydrated. */
  function Hydrate(sale: Sale): (r: SaleFormInput)
    ensures r.customerName == sale.customerName && r.customerPhone == sale.customerPhone
    ensures ParsePaymentType(r.paymentType) == Some(sale.paymentType)
  {
    SaleFormInput(sale.customerName, sale.customerPhone, PaymentWire(sale.paymentType),
                  HydrateItems(Some(sale.items)))
  }

  /** `items.reduce((sum, item) => sum + item.quantity * item.unitPrice, 0)`. */
  function LinesTotal(lines: seq<LineInput>): (r: Money)
    ensures (forall k :: 0 <= k < |lines| ==> lines[k].quantity >= 0 && lines[k].unitPrice >= 0) ==> r >= 0
  {
    if lines == [] then 0
    else
      var init, last := lines[..|lines| - 1], lines[|lines| - 1];
      assert forall k :: 0 <= k < |init| ==> init[k] == lines[k];
      LinesTotal(init) + LineAmount(last.quantity, last.unitPrice)
  }

  /** `{ ...values, totalAmount }`: the lines carry no totalPrice. */
  datatype EditPatch = EditPatch(
    customerName: string,
    customerPhone: string,
    paymentType: PaymentType,
    items: seq<LineInput>,
    totalAmount: Money)

  /** `updateSale(sale.id, patch)` as a request. */
  datatype UpdateRequest = UpdateRequest(saleId: string, patch: EditPatch)

  /** What `onSubmit` of the edit form sends, for the sale's own id. */
  function EditSubmission(saleId: string, values: SaleFormValues): (r: UpdateRequest)
    ensures r.saleId == saleId
    ensures r.patch.items == values.items
    ensures r.patch.totalAmount == LinesTotal(r.patch.items)
    ensures r.patch.customerName == values.customerName && r.patch.customerPhone == values.customerPhone
    ensures r.patch.paymentType == values.paymentType
  {
    UpdateRequest(saleId, EditPatch(values.customerName, values.customerPhone, values.paymentType,
                                    values.items, LinesTotal(values.items)))
  }

  // ---------------------------------------------------------------------------
  // The form state both components keep
  // ---------------------------------------------------------------------------

  /** The react-hook-form state: the current input, changed by the field handlers. */
  class SaleFormState {
    var input: SaleFormInput

    /** The create form mounts with its blank defaults. */
    constructor ForCreate()
      ensures input == CreateDefaults()
    {
      input := CreateDefaults();
    }

    /** The edit form mounts with the stored sale hydrated. */
    constructor ForEdit(sale: Sale)
      ensures input == Hydrate(sale)
    {
      input := Hydrate(sale);
    }

    /** "Ajouter un produit": `append` a blank line at the end. */
    method AppendLine()
      modifies this
      ensures input == old(input).(items := old(input.items) + [BlankLine()])
    {
      input := input.(items := input.items + [BlankLine()]);
    }

    /** The bin button of a line: `remove(index)`. */
    method RemoveLine(index: nat)
      requires index < |input.items|
      modifies this
      ensures input == old(input).(items := old(input.items)[..index] + old(input.items)[index + 1..])
    {
      input := input.(items := input.items[..index] + input.items[index + 1..]);
    }

    /** The product select of a line. */
    method HandleProductChange(value: string, index: nat, catalogue: seq<Product>)
      requires index < |input.items|
      modifies this
      ensures input == old(input).(items := SelectProduct(old(input.items), index, value, catalogue))
    {
      var found := FindProduct(catalogue, value);
      if found.Some? {
        var line := input.items[index];
        input := input.(items := input.items[index := line.(productId := value, unitPrice := found.value.price)]);
      }
    }

    /** The quantity input of a line: `field.onChange(parseInt(e.target.value) || 0)`. */
    method SetQuantityText(index: nat, text: string)
      requires index < |input.items|
      modifies this
      ensures input == old(input).(items := old(input.items)[index := old(input.items)[index].(quantity := QuantityFromText(text))])
    {
      input := input.(items := input.items[index := input.items[index].(quantity := QuantityFromText(text))]);
    }

    /** The customer name input. */
    method SetCustomerName(name: string)
      modifies this
      ensures input == old(input).(customerName := name)
    {
      input := input.(customerName := name);
    }

    /** The customer phone input. */
    method SetCustomerPhone(phone: string)
      modifies this
      ensures input == old(input).(customerPhone := phone)
    {
      input := input.(customerPhone := phone);
    }

    /** The payment select, which offers exactly the three payment types. */
    method SelectPaymentType(p: PaymentType)
      modifies this
      ensures input == old(input).(paymentType := PaymentWire(p))
    {
      input := input.(paymentType := PaymentWire(p));
    }

    /**
     * Submitting the create form: `handleSubmit` validates, and only valid
     * values reach `onSubmit`, which builds a PENDING payload from them.
     */
    method SubmitCreate() returns (r: Result<CreateSaleData, seq<Issue>>)
      ensures r.Success? <==> SaleInputValid(input)
      ensures r.Failure? ==> r.error == SaleIssues(input)
      ensures r.Success? ==>
        && r.value.status == PENDING
        && r.value.items == input.items
        && PaymentWire(r.value.paymentType) == input.paymentType
      ensures r.Success? ==> ValidateSale(input).Success? && r.value == CreatePayload(ValidateSale(input).value)
    {
      var checked := ValidateSale(input);
      if checked.Failure? {
        return Failure(checked.error);
      }
      r := Success(CreatePayload(checked.value));
    }

    /**
     * Submitting the edit form of sale `saleId`: only valid values are sent,
     * with the total recomputed from the lines.
     */
    method SubmitEdit(saleId: string) returns (r: Result<UpdateRequest, seq<Issue>>)
      ensures r.Success? <==> SaleInputValid(input)
      ensures r.Failure? ==> r.error == SaleIssues(input)
      ensures r.Success? ==>
        && r.value.saleId == saleId
        && r.value.patch.items == input.items
        && r.value.patch.totalAmount == LinesTotal(input.items)
      ensures r.Success? ==> ValidateSale(input).Success? && r.value == EditSubmission(saleId, ValidateSale(input).value)
    {
      var checked := ValidateSale(input);
      if checked.Failure? {
        return Failure(checked.error);
      }
      r := Success(EditSubmission(saleId, checked.value));
    }
  }

  // ---------------------------------------------------------------------------
  // What the forms promise
  // ---------------------------------------------------------------------------

  /** An issue list built by concatenation has an issue at a path when either part has. */
  lemma HasIssueConcat(a: seq<Issue>, b: seq<Issue>, path: Path)
    ensures HasIssue(a + b, path) <==> HasIssue(a, path) || HasIssue(b, path)
  {
    if HasIssue(a + b, path) {
      var m :| m in a + b && m.path == path;
      assert m in a || m in b;
    }
    if HasIssue(a, path) {
      var m :| m in a && m.path == path;
      assert m in a + b;
    }
    if HasIssue(b, path) {
      var m :| m in b && m.path == path;
      assert m in a + b;
    }
  }

  lemma FieldIssueAt(fails: bool, at: Path, message: string, path: Path)
    ensures HasIssue(FieldIssue(fails, at, message), path) <==> fails && path == at
  {
    if fails && path == at {
      assert Issue(at, message) in FieldIssue(fails, at, message);
    }
  }

  /** A line's issues sit at one of its fields exactly when that field breaks its rule. */
  lemma LineIssueAt(line: LineInput, index: nat, path: Path)
    ensures HasIssue(LineIssues(line, index), path) <==>
      path.ItemPath? && path.index == index && FieldFails(line, path.field)
  {
    var a := FieldIssue(FieldFails(line, ProductIdField), ItemPath(index, ProductIdField), ProductRequired);
    var b := FieldIssue(FieldFails(line, QuantityField), ItemPath(index, QuantityField), QuantityTooSmall);
    var c := FieldIssue(FieldFails(line, UnitPriceField), ItemPath(index, UnitPriceField), UnitPriceInvalid);
    HasIssueConcat(a + b, c, path);
    HasIssueConcat(a, b, path);
    FieldIssueAt(FieldFails(line, ProductIdField), ItemPath(index, ProductIdField), ProductRequired, path);
    FieldIssueAt(FieldFails(line, QuantityField), ItemPath(index, QuantityField), QuantityTooSmall, path);
    FieldIssueAt(FieldFails(line, UnitPriceField), ItemPath(index, UnitPriceField), UnitPriceInvalid, path);
  }

  /** An issue sits at one field of line `k` exactly when that line breaks that field's rule. */
  lemma {:induction false} LinesIssueAt(lines: seq<LineInput>, from: nat, k: nat, field: LineField)
    ensures HasIssue(LinesIssues(lines, from), ItemPath(k, field)) <==>
      from <= k < from + |lines| && FieldFails(lines[k - from], field)
    decreases |lines|
  {
    if lines != [] {
      var path := ItemPath(k, field);
      var head, tail := LineIssues(lines[0], from), LinesIssues(lines[1..], from + 1);
      assert LinesIssues(lines, from) == head + tail;
      HasIssueConcat(head, tail, path);
      LineIssueAt(lines[0], from, path);
      LinesIssueAt(lines[1..], from + 1, k, field);
      if k == from {
        forall m | m in tail
          ensures m.path != path
        {
        }
      } else if from + 1 <= k < from + |lines| {
        forall m | m in head
          ensures m.path != path
        {
        }
        assert lines[1..][k - (from + 1)] == lines[k - from];
      }
    }
  }

  /**
   * The validator points at every broken rule and only there: for every path,
   * an issue sits at it exactly when the rule reporting there fails.
   */
  lemma SaleIssuesAt(input: SaleFormInput, path: Path)
    ensures HasIssue(SaleIssues(input), path) <==> PathFails(input, path)
  {
    HasIssueConcat(FieldIssues(input), LinesIssues(input.items, 0), path);
    FieldIssuesAt(input, path);
    if path.ItemPath? {
      LinesIssueAt(input.items, 0, path.index, path.field);
    } else {
      assert !HasIssue(LinesIssues(input.items, 0), path);
    }
  }

  /** The field-level issues sit exactly at the failing fields, never at a line. */
  lemma FieldIssuesAt(input: SaleFormInput, path: Path)
    ensures HasIssue(FieldIssues(input), path) <==> !path.ItemPath? && PathFails(input, path)
  {
    var a := FieldIssue(|input.customerName| < 2, CustomerNamePath, NameTooShort);
    var b := FieldIssue(|input.customerPhone| < 10, CustomerPhonePath, PhoneInvalid);
    var c := FieldIssue(ParsePaymentType(input.paymentType).None?, PaymentTypePath, InvalidEnum);
    var d := FieldIssue(|input.items| < 1, ItemsPath, ItemsRequired);
    HasIssueConcat(a + b + c, d, path);
    HasIssueConcat(a + b, c, path);
    HasIssueConcat(a, b, path);
    FieldIssueAt(|input.customerName| < 2, CustomerNamePath, NameTooShort, path);
    FieldIssueAt(|input.customerPhone| < 10, CustomerPhonePath, PhoneInvalid, path);
    FieldIssueAt(ParsePaymentType(input.paymentType).None?, PaymentTypePath, InvalidEnum, path);
    FieldIssueAt(|input.items| < 1, ItemsPath, ItemsRequired, path);
  }

  /**
   * The form as it first appears is rejected: name, phone and the blank line's
   * product are flagged, and nothing else.
   */
  lemma DefaultsRejected()
    ensures SaleIssues(CreateDefaults()) == [
      Issue(CustomerNamePath, NameTooShort),
      Issue(CustomerPhonePath, PhoneInvalid),
      Issue(ItemPath(0, ProductIdField), ProductRequired)]
  {
    assert LinesIssues([BlankLine()], 0) == LineIssues(BlankLine(), 0) + LinesIssues([], 1);
  }

  /** A blank line, wherever it sits, fails validation on its product id and only there. */
  lemma BlankLineRejected(input: SaleFormInput, k: nat)
    requires k < |input.items| && input.items[k] == BlankLine()
    ensures ValidateSale(input).Failure?
    ensures HasIssue(SaleIssues(input), ItemPath(k, ProductIdField))
    ensures !HasIssue(SaleIssues(input), ItemPath(k, QuantityField))
    ensures !HasIssue(SaleIssues(input), ItemPath(k, UnitPriceField))
  {
    SaleIssuesAt(input, ItemPath(k, ProductIdField));
    SaleIssuesAt(input, ItemPath(k, QuantityField));
    SaleIssuesAt(input, ItemPath(k, UnitPriceField));
  }

  /** A quantity text with no digits sets 0, which the at-least-one rule then flags. */
  lemma NonNumericQuantityRejected(input: SaleFormInput, k: nat, text: string)
    requires k < |input.items|
    requires JsText.ParseInt(text).None?
    ensures var after := input.(items := input.items[k := input.items[k].(quantity := QuantityFromText(text))]);
      && after.items[k].quantity == 0
      && HasIssue(SaleIssues(after), ItemPath(k, QuantityField))
  {
    var q := QuantityFromText(text);
    assert q == 0;
    SmallQuantityFlagged(input, k, q);
  }

  /** Setting a quantity below one puts an issue at that line's quantity. */
  lemma SmallQuantityFlagged(input: SaleFormInput, k: nat, q: int)
    requires k < |input.items| && q < 1
    ensures HasIssue(SaleIssues(input.(items := input.items[k := input.items[k].(quantity := q)])), ItemPath(k, QuantityField))
  {
    var after := input.(items := input.items[k := input.items[k].(quantity := q)]);
    assert FieldFails(after.items[k], QuantityField);
    SaleIssuesAt(after, ItemPath(k, QuantityField));
  }

  /** Typing the decimal spelling of a whole number sets exactly that quantity. */
  lemma TypedQuantityRoundTrip(q: int)
    ensures QuantityFromText(JsText.IntToString(q)) == q
  {
    JsText.ParseIntRoundTrip(q);
  }

  /** Choosing a catalogued product sets the line's id and copies the catalogue price into it. */
  lemma SelectProductCopiesPrice(lines: seq<LineInput>, index: nat, value: string, catalogue: seq<Product>, p: Product)
    requires index < |lines|
    requires p in catalogue && p.id == value
    ensures var r := SelectProduct(lines, index, value, catalogue);
      && r[index].productId == value
      && r[index].unitPrice == FindProduct(catalogue, value).value.price
      && ((forall q :: q in catalogue && q.id == value ==> q == p) ==> r[index].unitPrice == p.price)
  {
  }

  /** Choosing an id the catalogue does not have changes nothing. */
  lemma SelectUnknownProductIsNoop(lines: seq<LineInput>, index: nat, value: string, catalogue: seq<Product>)
    requires index < |lines|
    requires forall q :: q in catalogue ==> q.id != value
    ensures SelectProduct(lines, index, value, catalogue) == lines
  {
  }

  /** The reduce total splits over concatenation of the line lists. */
  lemma {:induction false} LinesTotalAppend(a: seq<LineInput>, b: seq<LineInput>)
    ensures LinesTotal(a + b) == LinesTotal(a) + LinesTotal(b)
    decreases |b|
  {
    if b != [] {
      var last := b[|b| - 1];
      assert (a + b)[..|a + b| - 1] == a + b[..|b| - 1];
      LinesTotalAppend(a, b[..|b| - 1]);
    } else {
      assert a + b == a;
    }
  }

  /**
   * The submitted total matches what the stored lines record: for lines whose
   * stored total is quantity × unitPrice and none of whose quantity is 0,
   * the hydrated lines total exactly the sum of the stored line totals.
   */
  lemma {:induction false} HydratedTotalMatchesStored(items: seq<SaleItem>)
    requires forall k :: 0 <= k < |items| ==> ItemConsistent(items[k]) && items[k].quantity != 0
    ensures LinesTotal(HydrateItems(Some(items))) == SumOfTotals(items)
  {
    if items != [] {
      var init := items[..|items| - 1];
      HydratedTotalMatchesStored(init);
      var lines := HydrateItems(Some(items));
      assert lines[..|lines| - 1] == HydrateItems(Some(init));
    }
  }

  /**
   * Opening a consistent, valid stored sale in the edit form and saving it
   * untouched sends back the same customer, payment type and totalAmount.
   */
  lemma EditUnchangedKeepsTotal(sale: Sale)
    requires SaleConsistent(sale)
    requires |sale.customerName| >= 2 && |sale.customerPhone| >= 10 && sale.items != []
    requires forall k :: 0 <= k < |sale.items| ==>
      sale.items[k].productId != "" && sale.items[k].quantity >= 1 && sale.items[k].unitPrice >= 0
    ensures ValidateSale(Hydrate(sale)).Success?
    ensures var req := EditSubmission(sale.id, ValidateSale(Hydrate(sale)).value);
      && req.saleId == sale.id
      && req.patch.totalAmount == sale.totalAmount
      && req.patch.customerName == sale.customerName
      && req.patch.paymentType == sale.paymentType
  {
    HydratedTotalMatchesStored(sale.items);
  }

  /** A stored line with quantity 0 reappears as quantity 1 in the edit form. */
  lemma ZeroQuantityHydratesToOne(item: SaleItem)
    requires item.quantity == 0
    ensures HydrateLine(item).quantity == 1
  {
  }

  /** The missing-list fallback: an absent list gives one blank line, an empty one gives none. */
  lemma HydrateFallbackOnlyWhenMissing()
    ensures HydrateItems(None) == [BlankLine()]
    ensures HydrateItems(Some([])) == []
  {
  }

  /** Every create payload that can be built from valid values is PENDING and keeps the lines in order. */
  lemma CreatePayloadAlwaysPending(input: SaleFormInput)
    requires ValidateSale(input).Success?
    ensures CreatePayload(ValidateSale(input).value).status == PENDING
    ensures CreatePayload(ValidateSale(input).value).items == input.items
  {
  }
}
