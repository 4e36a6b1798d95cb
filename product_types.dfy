/** The product and category records of `types/product.ts` that the sale forms and the product table read. */
module ProductTypes {
  import opened Wrappers
  import opened SaleTypes

  datatype Category = Category(id: string, name: string)

  /** A catalogue product; `price` is in cents. The optional nested supplier is not kept. */
  datatype Product = Product(
    id: string,
    name: string,
    description: string,
    price: Money,
    stock: int,
    categoryId: string,
    category: Option<Category>,
    supplierId: string)

  /** `products.find((p) => p.id === value)`: the first product with that id, if any. */
  function FindProduct(products: seq<Product>, id: string): (r: Option<Product>)
    ensures r.None? <==> forall k :: 0 <= k < |products| ==> products[k].id != id
    ensures r.Some? ==> r.value.id == id && r.value in products
    ensures r.Some? ==> exists i :: 0 <= i < |products| && r.value == products[i] && forall k :: 0 <= k < i ==> products[k].id != id
  {
    if products == [] then None
    else if products[0].id == id then Some(products[0])
    else
      var r := FindProduct(products[1..], id);
      if r.Some? then
        var i :| 0 <= i < |products[1..]| && r.value == products[1..][i] && forall k :: 0 <= k < i ==> products[1..][k].id != id;
        assert r.value == products[i + 1] && forall k :: 0 <= k < i + 1 ==> products[k].id != id;
        r
      else r
  }
}
