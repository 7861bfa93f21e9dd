/** The product list (`components/products-table.tsx`): five rows per page, a delete by id, and the
    "first-last of n items" label under the table. */
module ProductsTable {
  import opened Util

  /** A catalogue entry; the price is kept in cents. */
  datatype Product = Product(
    id: string,
    name: string,
    category: string,
    priceCents: int,
    stock: int,
    status: string,
    image: string)

  /** `itemsPerPage`. */
  const ItemsPerPage: nat := 5

  /** `currentItems`. */
  function CurrentItems(products: seq<Product>, page: int): seq<Product>
  {
    PageRows(products, page, ItemsPerPage)
  }

  /** `totalPages`. */
  function ProductPages(products: seq<Product>): nat
  {
    TotalPages(|products|, ItemsPerPage)
  }

  function IdIsNot(id: string): Product -> bool
  {
    (p: Product) => p.id != id
  }

  /** `deleteProduct(id)`. */
  function DeleteProduct(products: seq<Product>, id: string): seq<Product>
  {
    Filter(products, IdIsNot(id))
  }

  /** Deleting keeps exactly the products with another id; when the id belongs to one product, the
      list loses that product and the rest keep their positions around it. */
  lemma DeleteProductIff(products: seq<Product>, id: string, p: Product)
    ensures p in DeleteProduct(products, id) <==> p in products && p.id != id
  {
    FilterMembers(products, IdIsNot(id), p);
  }

  lemma DeleteUniqueProduct(products: seq<Product>, i: nat)
    requires i < |products|
    requires forall j :: 0 <= j < |products| && j != i ==> products[j].id != products[i].id
    ensures DeleteProduct(products, products[i].id) == products[..i] + products[i + 1..]
  {
    FilterDropsOne(products, i, IdIsNot(products[i].id));
  }

  /** The label under the table counts the rows of the page it describes, from first + 1. */
  lemma LabelCountsRows(products: seq<Product>, page: int)
    requires 1 <= page <= ProductPages(products)
    ensures var r := RangeLabel(|products|, page, ItemsPerPage);
      r.Some? && r.value.first == (page - 1) * ItemsPerPage + 1 && r.value.total == |products| &&
      r.value.last - r.value.first + 1 == |CurrentItems(products, page)|
  {
    RangeLabelMatchesRows(products, page, ItemsPerPage);
  }

  /** Deleting the only row of the last page (a product with an id of its own) leaves the page number
      past the new page count, and the table shows no rows. */
  lemma DeleteLastRowLeavesStalePage(products: seq<Product>, page: int)
    requires page >= 2 && |products| == (page - 1) * ItemsPerPage + 1
    requires forall j :: 0 <= j < |products| - 1 ==> products[j].id != products[|products| - 1].id
    ensures var after := DeleteProduct(products, products[|products| - 1].id);
      ProductPages(products) == page && ProductPages(after) == page - 1 && CurrentItems(after, page) == []
  {
    var last := |products| - 1;
    DeleteUniqueProduct(products, last);
    var after := DeleteProduct(products, products[last].id);
    assert |after| == (page - 1) * ItemsPerPage;
    PastLastPageEmpty(after, page, ItemsPerPage);
  }

  class ProductsPage {
    var productList: seq<Product>
    var currentPage: int

    constructor (sample: seq<Product>)
      ensures productList == sample && currentPage == 1
    {
      productList := sample;
      currentPage := 1;
    }

    /** `deleteProduct(id)`; the page is kept. */
    method Delete(id: string)
      modifies this`productList
      ensures productList == DeleteProduct(old(productList), id)
    {
      productList := DeleteProduct(productList, id);
    }

    /** `handlePageChange`. */
    method HandlePageChange(page: int)
      modifies this`currentPage
      ensures currentPage == page
    {
      currentPage := page;
    }

    /** The rows on screen and the label under them. */
    function Rows(): seq<Product>
      reads this
    {
      CurrentItems(productList, currentPage)
    }

    function Label(): Option<Range>
      reads this
    {
      RangeLabel(|productList|, currentPage, ItemsPerPage)
    }
  }
}
