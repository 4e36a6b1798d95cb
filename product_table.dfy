/**
 * `components/products/product-table.tsx`: the products loaded from the API
 * with their ids turned into strings, the stock, category and price cells,
 * and the delete confirmation flow. The API call and the product service are
 * outside the model; their outcomes are parameters.
 */
module ProductTable {
  import opened Wrappers
  import opened SaleTypes
  import opened ProductTypes
  import JsText
  import Toast

  /** A product as it arrives from the API: `id` and `categoryId` may be numbers. */
  datatype RawProduct = RawProduct(
    id: JsText.JsValue,
    name: string,
    description: string,
    price: Money,
    stock: int,
    categoryId: JsText.JsValue,
    category: Option<Category>,
    supplierId: string)

  /** `{ ...product, id: String(product.id), categoryId: String(product.categoryId) }` */
  function Normalise(raw: RawProduct): (p: Product)
    ensures p.id == JsText.ToJsString(raw.id) && p.categoryId == JsText.ToJsString(raw.categoryId)
    ensures p.name == raw.name && p.description == raw.description && p.price == raw.price
    ensures p.stock == raw.stock && p.category == raw.category && p.supplierId == raw.supplierId
  {
    Product(JsText.ToJsString(raw.id), raw.name, raw.description, raw.price, raw.stock,
            JsText.ToJsString(raw.categoryId), raw.category, raw.supplierId)
  }

  /** `data.map(...)`: one product per raw record, in the same order. */
  function NormaliseAll(raws: seq<RawProduct>): (r: seq<Product>)
    ensures |r| == |raws|
    ensures forall k :: 0 <= k < |raws| ==> r[k] == Normalise(raws[k])
  {
    if raws == [] then [] else [Normalise(raws[0])] + NormaliseAll(raws[1..])
  }

  /** A typed product as the API would send it, ids already strings. */
  function AsRaw(p: Product): RawProduct {
    RawProduct(JsText.JsString(p.id), p.name, p.description, p.price, p.stock,
               JsText.JsString(p.categoryId), p.category, p.supplierId)
  }

  /** Records whose ids are already strings come through unchanged. */
  lemma NormaliseKeepsTypedProducts(ps: seq<Product>)
    ensures NormaliseAll(seq(|ps|, k requires 0 <= k < |ps| => AsRaw(ps[k]))) == ps
  {
  }

  /** A numeric id becomes its decimal text, which `parseInt` reads back as the same number. */
  lemma NumericIdsReadBack(raw: RawProduct)
    requires raw.id.JsNumber? && raw.categoryId.JsNumber?
    ensures JsText.ParseInt(Normalise(raw).id) == Some(raw.id.n)
    ensures JsText.ParseInt(Normalise(raw).categoryId) == Some(raw.categoryId.n)
  {
    JsText.ParseIntRoundTrip(raw.id.n);
    JsText.ParseIntRoundTrip(raw.categoryId.n);
  }

  // ---------------------------------------------------------------------------
  // Cells
  // ---------------------------------------------------------------------------

  datatype StockBadge = Secondary | Destructive

  const LowStockLimit: int := 10

  /** The stock badge: `secondary` above ten units, `destructive` otherwise. */
  function StockVariant(stock: int): (r: StockBadge)
    ensures r == Destructive <==> stock <= LowStockLimit
  {
    if stock > LowStockLimit then Secondary else Destructive
  }

  /** `product.category?.name || 'Non catégorisé'` */
  function CategoryCell(p: Product): (r: string)
    ensures r != ""
    ensures p.category.Some? && p.category.value.name != "" ==> r == p.category.value.name
  {
    if p.category.Some? then JsText.StringOr(p.category.value.name, "Non catégorisé") else "Non catégorisé"
  }

  /** `product.price || 0`, before formatting: on a number that is always present, the fallback is the identity. */
  function PriceCell(p: Product): (r: Money)
    ensures r == p.price
  {
    JsText.NumberOr(p.price, 0)
  }

  /** The badge turns `destructive` at ten units and below, and only there. */
  lemma LowStockThreshold(stock: int)
    ensures StockVariant(stock) == Destructive <==> stock <= 10
    ensures StockVariant(10) == Destructive && StockVariant(11) == Secondary
  {
  }

  /** A named category shows its name; no category, or an unnamed one, shows the placeholder. */
  lemma CategoryCellFallback(p: Product)
    ensures p.category.Some? && p.category.value.name != "" ==> CategoryCell(p) == p.category.value.name
    ensures p.category.None? ==> CategoryCell(p) == "Non catégorisé"
    ensures CategoryCell(p) != ""
  {
  }

  // ---------------------------------------------------------------------------
  // The table's state
  // ---------------------------------------------------------------------------

  const LoadFailed := Toast.Toast("Erreur", Some("Impossible de charger les produits"), Some(Toast.Destructive))
  const DeleteFailed := Toast.Toast("Erreur", Some("Impossible de supprimer le produit"), Some(Toast.Destructive))
  const Deleted := Toast.Toast("Produit supprimé avec succès", None, None)

  class ProductTableView {
    var products: seq<Product>
    var deletingProduct: Option<Product>
    var isLoading: bool
    var toasts: seq<Toast.Toast>
    /** The ids handed to `ProductService.deleteProduct`, in order. */
    var deleteCalls: seq<string>

    constructor ()
      ensures products == [] && deletingProduct.None? && isLoading
      ensures toasts == [] && deleteCalls == []
    {
      products := [];
      deletingProduct := None;
      isLoading := true;
      toasts := [];
      deleteCalls := [];
    }

    /**
     * `fetchProducts`: on a response, the normalised list replaces the old one;
     * on a failure an error toast and the list is kept. Loading ends either way.
     */
    method FetchProducts(response: Result<seq<RawProduct>, string>)
      modifies this`products, this`toasts, this`isLoading
      ensures !isLoading
      ensures response.Success? ==> products == NormaliseAll(response.value) && toasts == old(toasts)
      ensures response.Failure? ==> products == old(products) && toasts == old(toasts) + [LoadFailed]
    {
      if response.Success? {
        products := NormaliseAll(response.value);
      } else {
        toasts := toasts + [LoadFailed];
      }
      isLoading := false;
    }

    /** The trash button: the product waits for confirmation. */
    method HandleDelete(p: Product)
      modifies this`deletingProduct
      ensures deletingProduct == Some(p)
    {
      deletingProduct := Some(p);
    }

    /** The dialog closed without confirming. */
    method DismissDelete()
      modifies this`deletingProduct
      ensures deletingProduct.None?
    {
      deletingProduct := None;
    }

    /**
     * `confirmDelete`: nothing happens when no product is pending. Otherwise the
     * pending id is sent for deletion; on success the list is fetched again
     * (that fetch catches its own failure) and a success toast follows; on
     * failure an error toast. The pending product is cleared either way.
     */
    method ConfirmDelete(deleted: bool, refetch: Result<seq<RawProduct>, string>)
      modifies this`products, this`toasts, this`isLoading, this`deletingProduct, this`deleteCalls
      ensures old(deletingProduct).None? ==>
        && products == old(products) && toasts == old(toasts) && isLoading == old(isLoading)
        && deleteCalls == old(deleteCalls) && deletingProduct.None?
      ensures old(deletingProduct).Some? ==>
        && deletingProduct.None?
        && deleteCalls == old(deleteCalls) + [old(deletingProduct).value.id]
      ensures old(deletingProduct).Some? && deleted ==>
        && !isLoading
        && (refetch.Success? ==> products == NormaliseAll(refetch.value) && toasts == old(toasts) + [Deleted])
        && (refetch.Failure? ==> products == old(products) && toasts == old(toasts) + [LoadFailed, Deleted])
      ensures old(deletingProduct).Some? && !deleted ==>
        && products == old(products) && isLoading == old(isLoading)
        && toasts == old(toasts) + [DeleteFailed]
    {
      if deletingProduct.None? {
        return;
      }
      deleteCalls := deleteCalls + [deletingProduct.value.id];
      if deleted {
        FetchProducts(refetch);
        toasts := toasts + [Deleted];
      } else {
        toasts := toasts + [DeleteFailed];
      }
      deletingProduct := None;
    }
  }
}
