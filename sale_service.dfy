/**
 * The in-memory sale store of `services/sale-service.ts`: the module-level
 * array `MOCK_SALES`, changed in place by `createSale` (push), `updateSale`
 * (write back by index) and `deleteSale` (splice), and read by `getSales`
 * and `getSaleById`.
 *
 * The store is a class over a sequence. What each call leaves behind is stated
 * by a function on sequences (`FirstIndex`, `Lookup`, `Updated`, `Deleted`),
 * and the lemmas at the end say what those functions promise.
 */
module SaleService {
  import opened Wrappers
  import opened SaleTypes

  /** `Omit<Sale, 'id'>`: what `createSale` is given. */
  datatype SaleInput = SaleInput(
    items: seq<SaleItem>,
    totalAmount: Money,
    customerName: string,
    customerPhone: string,
    saleDate: Instant,
    paymentDate: Option<Instant>,
    paymentType: PaymentType,
    status: Status)

  /**
   * `Partial<Sale>`: each field either absent (`None`) or given. A given
   * `paymentDate` may itself be `null`.
   */
  datatype SalePatch = SalePatch(
    id: Option<string>,
    items: Option<seq<SaleItem>>,
    totalAmount: Option<Money>,
    customerName: Option<string>,
    customerPhone: Option<string>,
    saleDate: Option<Instant>,
    paymentDate: Option<Option<Instant>>,
    paymentType: Option<PaymentType>,
    status: Option<Status>)

  /** The patch that names no field. */
  function EmptyPatch(): SalePatch {
    SalePatch(None, None, None, None, None, None, None, None, None)
  }

  const NotFound: string := "Sale not found"

  /** `{ id, ...sale }`: the generated id (a parameter here) followed by every given field. */
  function WithId(id: string, input: SaleInput): (s: Sale)
    ensures s.id == id && WithoutId(s) == input
  {
    Sale(id, input.items, input.totalAmount, input.customerName, input.customerPhone,
         input.saleDate, input.paymentDate, input.paymentType, input.status)
  }

  /** Every field of a sale but its id. */
  function WithoutId(s: Sale): SaleInput {
    SaleInput(s.items, s.totalAmount, s.customerName, s.customerPhone,
              s.saleDate, s.paymentDate, s.paymentType, s.status)
  }

  /**
   * `{ ...current, ...patch, id }`: a field the patch gives replaces the
   * current one, the others stay, and the id is the requested one whatever
   * the patch says.
   */
  function Merge(current: Sale, patch: SalePatch, id: string): (r: Sale)
    ensures r.id == id
    ensures patch.items.Some? ==> r.items == patch.items.value
    ensures patch.items.None? ==> r.items == current.items
    ensures patch.totalAmount.Some? ==> r.totalAmount == patch.totalAmount.value
    ensures patch.totalAmount.None? ==> r.totalAmount == current.totalAmount
    ensures patch.customerName.Some? ==> r.customerName == patch.customerName.value
    ensures patch.customerName.None? ==> r.customerName == current.customerName
    ensures patch.customerPhone.Some? ==> r.customerPhone == patch.customerPhone.value
    ensures patch.customerPhone.None? ==> r.customerPhone == current.customerPhone
    ensures patch.saleDate.Some? ==> r.saleDate == patch.saleDate.value
    ensures patch.saleDate.None? ==> r.saleDate == current.saleDate
    ensures patch.paymentDate.Some? ==> r.paymentDate == patch.paymentDate.value
    ensures patch.paymentDate.None? ==> r.paymentDate == current.paymentDate
    ensures patch.paymentType.Some? ==> r.paymentType == patch.paymentType.value
    ensures patch.paymentType.None? ==> r.paymentType == current.paymentType
    ensures patch.status.Some? ==> r.status == patch.status.value
    ensures patch.status.None? ==> r.status == current.status
  {
    Sale(
      id,
      patch.items.GetOr(current.items),
      patch.totalAmount.GetOr(current.totalAmount),
      patch.customerName.GetOr(current.customerName),
      patch.customerPhone.GetOr(current.customerPhone),
      patch.saleDate.GetOr(current.saleDate),
      patch.paymentDate.GetOr(current.paymentDate),
      patch.paymentType.GetOr(current.paymentType),
      patch.status.GetOr(current.status))
  }

  /** Two patches applied one after the other: fields of the later one win. */
  function Then(first: SalePatch, second: SalePatch): SalePatch {
    SalePatch(
      if second.id.Some? then second.id else first.id,
      if second.items.Some? then second.items else first.items,
      if second.totalAmount.Some? then second.totalAmount else first.totalAmount,
      if second.customerName.Some? then second.customerName else first.customerName,
      if second.customerPhone.Some? then second.customerPhone else first.customerPhone,
      if second.saleDate.Some? then second.saleDate else first.saleDate,
      if second.paymentDate.Some? then second.paymentDate else first.paymentDate,
      if second.paymentType.Some? then second.paymentType else first.paymentType,
      if second.status.Some? then second.status else first.status)
  }

  /**
   * `findIndex(s => s.id === id)`: the position of the first sale with that
   * id, or -1 when there is none.
   */
  function FirstIndex(sales: seq<Sale>, id: string): (r: int)
    ensures -1 <= r < |sales|
    ensures r == -1 <==> forall k :: 0 <= k < |sales| ==> sales[k].id != id
    ensures 0 <= r ==> sales[r].id == id && forall k :: 0 <= k < r ==> sales[k].id != id
  {
    if sales == [] then -1
    else if sales[0].id == id then 0
    else
      var r := FirstIndex(sales[1..], id);
      if r == -1 then -1 else r + 1
  }

  /** `find(s => s.id === id) || null`. */
  function Lookup(sales: seq<Sale>, id: string): (r: Option<Sale>)
    ensures r.None? <==> forall k :: 0 <= k < |sales| ==> sales[k].id != id
    ensures r.Some? ==> r.value.id == id && r.value in sales
    ensures r.Some? ==> exists i :: 0 <= i < |sales| && r.value == sales[i] && forall k :: 0 <= k < i ==> sales[k].id != id
  {
    var i := FirstIndex(sales, id);
    if i == -1 then None else Some(sales[i])
  }

  /** The store after `updateSale(id, patch)`, or the error it throws. */
  function Updated(sales: seq<Sale>, id: string, patch: SalePatch): (r: Result<seq<Sale>, string>)
    ensures r.Failure? <==> forall k :: 0 <= k < |sales| ==> sales[k].id != id
    ensures r.Failure? ==> r.error == NotFound
    ensures r.Success? ==> |r.value| == |sales|
  {
    var i := FirstIndex(sales, id);
    if i == -1 then Failure(NotFound)
    else Success(sales[i := Merge(sales[i], patch, id)])
  }

  /** The store after `deleteSale(id)`: the first sale with that id spliced out, if any. */
  function Deleted(sales: seq<Sale>, id: string): (r: seq<Sale>)
    ensures |r| == if FirstIndex(sales, id) == -1 then |sales| else |sales| - 1
  {
    var i := FirstIndex(sales, id);
    if i == -1 then sales else sales[..i] + sales[i + 1..]
  }

  /** `Array.prototype.findIndex` over the store: a left-to-right scan. */
  method FindIndex(sales: seq<Sale>, id: string) returns (index: int)
    ensures -1 <= index < |sales|
    ensures index == -1 <==> forall k :: 0 <= k < |sales| ==> sales[k].id != id
    ensures 0 <= index ==> sales[index].id == id && forall k :: 0 <= k < index ==> sales[k].id != id
  {
    var k := 0;
    while k < |sales|
      invariant 0 <= k <= |sales|
      invariant forall j :: 0 <= j < k ==> sales[j].id != id
    {
      if sales[k].id == id {
        return k;
      }
      k := k + 1;
    }
    return -1;
  }

  /** The module-level `MOCK_SALES` array and the service functions over it. */
  class SaleStore {
    var sales: seq<Sale>

    /** Module load: the store holds the one seeded sale. */
    constructor ()
      ensures sales == [SeedSale()]
    {
      sales := [SeedSale()];
    }

    /** `getSales`: the whole store, in insertion order. */
    method GetSales() returns (r: seq<Sale>)
      ensures r == sales
    {
      r := sales;
    }

    /**
     * `createSale`: pushes exactly one sale, carrying every given field and the
     * id, at the end; earlier entries are untouched; the pushed sale is returned.
     */
    method CreateSale(input: SaleInput, id: string) returns (created: Sale)
      modifies this
      ensures created.id == id && WithoutId(created) == input
      ensures sales == old(sales) + [created]
    {
      created := WithId(id, input);
      sales := sales + [created];
    }

    /**
     * `updateSale`: fails with "Sale not found" and changes nothing when no
     * sale has the id; otherwise merges the patch into the first such sale,
     * writes it back at the same index and returns it.
     */
    method UpdateSale(id: string, patch: SalePatch) returns (r: Result<Sale, string>)
      modifies this
      ensures r.Failure? <==> Updated(old(sales), id, patch).Failure?
      ensures r.Failure? ==> r.error == NotFound && sales == old(sales)
      ensures r.Success? ==>
        var i := FirstIndex(old(sales), id);
        && r.value == Merge(old(sales)[i], patch, id)
        && sales == Updated(old(sales), id, patch).value
        && sales[i] == r.value
    {
      var index := FindIndex(sales, id);
      if index == -1 {
        return Failure(NotFound);
      }
      var updatedSale := Merge(sales[index], patch, id);
      sales := sales[index := updatedSale];
      r := Success(updatedSale);
    }

    /** `deleteSale`: splices out the first sale with the id; an unknown id is a silent no-op. */
    method DeleteSale(id: string)
      modifies this
      ensures sales == Deleted(old(sales), id)
    {
      var index := FindIndex(sales, id);
      FirstIndexUnique(sales, id, index);
      if index != -1 {
        sales := sales[..index] + sales[index + 1..];
      }
    }

    /** `getSaleById`: the first sale with the id, or `null`. */
    method GetSaleById(id: string) returns (r: Option<Sale>)
      ensures r == Lookup(sales, id)
    {
      var index := FindIndex(sales, id);
      assert index == FirstIndex(sales, id) by { FirstIndexUnique(sales, id, index); }
      r := if index == -1 then None else Some(sales[index]);
    }
  }

  // ---------------------------------------------------------------------------
  // What the store functions promise
  // ---------------------------------------------------------------------------

  /** The first-match conditions pin down one index. */
  lemma FirstIndexUnique(sales: seq<Sale>, id: string, i: int)
    requires -1 <= i < |sales|
    requires i == -1 <==> forall k :: 0 <= k < |sales| ==> sales[k].id != id
    requires 0 <= i ==> sales[i].id == id && forall k :: 0 <= k < i ==> sales[k].id != id
    ensures i == FirstIndex(sales, id)
  {
  }

  /** Appending never moves the first match of an id already present. */
  lemma {:induction false} FirstIndexAppend(sales: seq<Sale>, s: Sale, id: string)
    ensures FirstIndex(sales + [s], id) ==
      if FirstIndex(sales, id) != -1 then FirstIndex(sales, id)
      else if s.id == id then |sales| else -1
  {
    if sales != [] {
      assert (sales + [s])[1..] == sales[1..] + [s];
      FirstIndexAppend(sales[1..], s, id);
    }
  }

  /** After `createSale` with an id no earlier sale has, `getSaleById` finds exactly the created sale. */
  lemma LookupAfterCreate(sales: seq<Sale>, input: SaleInput, id: string)
    requires Lookup(sales, id).None?
    ensures Lookup(sales + [WithId(id, input)], id) == Some(WithId(id, input))
  {
    FirstIndexAppend(sales, WithId(id, input), id);
  }

  /** After `createSale`, every id that was found before is found at the same sale. */
  lemma LookupUnchangedByCreate(sales: seq<Sale>, input: SaleInput, newId: string, id: string)
    requires Lookup(sales, id).Some?
    ensures Lookup(sales + [WithId(newId, input)], id) == Lookup(sales, id)
  {
    FirstIndexAppend(sales, WithId(newId, input), id);
  }

  /**
   * `updateSale` on a present id replaces only the first sale with that id
   * by the merge, keeps the length, and keeps every other entry.
   */
  lemma UpdateReplacesFirstOnly(sales: seq<Sale>, id: string, patch: SalePatch)
    requires Lookup(sales, id).Some?
    ensures var i := FirstIndex(sales, id);
      && Updated(sales, id, patch).Success?
      && |Updated(sales, id, patch).value| == |sales|
      && Updated(sales, id, patch).value[i] == Merge(sales[i], patch, id)
      && forall k :: 0 <= k < |sales| && k != i ==> Updated(sales, id, patch).value[k] == sales[k]
  {
  }

  /** After `updateSale`, `getSaleById` on the same id returns the merged sale. */
  lemma LookupAfterUpdate(sales: seq<Sale>, id: string, patch: SalePatch)
    requires Updated(sales, id, patch).Success?
    ensures Lookup(Updated(sales, id, patch).value, id) == Some(Merge(Lookup(sales, id).value, patch, id))
  {
    var i := FirstIndex(sales, id);
    var after := Updated(sales, id, patch).value;
    assert after[i].id == id;
    FirstIndexUnique(after, id, i);
  }

  /** `updateSale` on a missing id is an error and leaves nothing to write back. */
  lemma UpdateUnknownFails(sales: seq<Sale>, id: string, patch: SalePatch)
    requires Lookup(sales, id).None?
    ensures Updated(sales, id, patch) == Failure(NotFound)
  {
  }

  /**
   * `deleteSale` removes exactly the first sale with the id: what comes
   * before it and after it is kept in order, and one copy of it is gone.
   */
  lemma DeleteRemovesFirst(sales: seq<Sale>, id: string)
    requires Lookup(sales, id).Some?
    ensures var i := FirstIndex(sales, id);
      && Deleted(sales, id)[..i] == sales[..i]
      && Deleted(sales, id)[i..] == sales[i + 1..]
      && multiset(Deleted(sales, id)) + multiset{sales[i]} == multiset(sales)
  {
    var i := FirstIndex(sales, id);
    assert Deleted(sales, id) == sales[..i] + sales[i + 1..];
    RemoveAtMultiset(sales, i);
  }

  /** Cutting out position `i` loses exactly one copy of the element there. */
  lemma RemoveAtMultiset(sales: seq<Sale>, i: nat)
    requires i < |sales|
    ensures multiset(sales[..i] + sales[i + 1..]) + multiset{sales[i]} == multiset(sales)
  {
    assert sales == sales[..i] + [sales[i]] + sales[i + 1..];
  }

  /** `deleteSale` with an unknown id changes nothing and throws nothing. */
  lemma DeleteUnknownIsNoop(sales: seq<Sale>, id: string)
    requires Lookup(sales, id).None?
    ensures Deleted(sales, id) == sales
  {
  }

  /** Deleting the only sale with an id makes `getSaleById` answer `null` for it. */
  lemma {:induction false} LookupAfterDeleteOfUnique(sales: seq<Sale>, id: string)
    requires forall j, k :: 0 <= j < k < |sales| && sales[j].id == id ==> sales[k].id != id
    ensures Lookup(Deleted(sales, id), id).None?
  {
    var i := FirstIndex(sales, id);
    if i != -1 {
      var after := Deleted(sales, id);
      forall k | 0 <= k < |after|
        ensures after[k].id != id
      {
        if k >= i { assert after[k] == sales[k + 1]; }
      }
    }
  }

  /** A patch's own `id` never reaches the store: the requested id wins. */
  lemma MergeIgnoresPatchId(current: Sale, patch: SalePatch, other: string, id: string)
    ensures Merge(current, patch.(id := Some(other)), id) == Merge(current, patch, id)
  {
  }

  /** Merging the empty patch for the sale's own id gives the sale back unchanged. */
  lemma MergeEmptyPatch(current: Sale)
    ensures Merge(current, EmptyPatch(), current.id) == current
  {
  }

  /** Applying the same patch twice is the same as applying it once. */
  lemma MergeIdempotent(current: Sale, patch: SalePatch, id: string)
    ensures Merge(Merge(current, patch, id), patch, id) == Merge(current, patch, id)
  {
  }

  /** Two updates in a row are one update with the combined patch. */
  lemma MergeThen(current: Sale, first: SalePatch, second: SalePatch, id: string)
    ensures Merge(Merge(current, first, id), second, id) == Merge(current, Then(first, second), id)
  {
  }
}
