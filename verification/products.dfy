/**
 * The products mirror (src/context/products.jsx): the list of products and
 * its loading flag, patched locally after each successful remote call and
 * left as it was after a failed one.
 */
module ProductContext {
  import opened Inventory
  import opened ListPatch

  class ProductProvider {
    var products: seq<Product>
    var isProductsDataFetching: bool

    constructor ()
      ensures products == [] && !isProductsDataFetching
    {
      products, isProductsDataFetching := [], false;
    }

    /** `fetchProducts` up to its `await`: the flag goes up, nothing else changes. */
    method StartFetch()
      modifies this
      ensures isProductsDataFetching && products == old(products)
    {
      isProductsDataFetching := true;
    }

    /** `fetchProducts` after its `await`: replace wholesale on success; clear the flag on both paths. */
    method CompleteFetch(response: Remote<seq<Product>>)
      modifies this
      ensures !isProductsDataFetching
      ensures products == if response.Ok? then response.payload else old(products)
    {
      match response
      case Ok(data) =>
        products := data;
        isProductsDataFetching := false;
      case Err =>
        isProductsDataFetching := false;
    }

    method FetchProducts(response: Remote<seq<Product>>)
      modifies this
      ensures !isProductsDataFetching
      ensures products == if response.Ok? then response.payload else old(products)
    {
      StartFetch();
      CompleteFetch(response);
    }

    /** `createProduct`: on success the server's product is appended at the end. */
    method CreateProduct(response: Remote<Product>)
      modifies this
      ensures products == if response.Ok? then old(products) + [response.payload] else old(products)
      ensures isProductsDataFetching == old(isProductsDataFetching)
    {
      if response.Ok? {
        products := products + [response.payload];
      }
    }

    /** `updateProduct(id, …)`: on success every product with that id becomes the server's product. */
    method UpdateProduct(id: Id, response: Remote<Product>)
      modifies this
      ensures products == if response.Ok? then ReplaceById(old(products), ProductKey, id, response.payload) else old(products)
      ensures isProductsDataFetching == old(isProductsDataFetching)
    {
      if response.Ok? {
        products := ReplaceById(products, ProductKey, id, response.payload);
      }
    }

    /** `deleteProduct(id)`: on success drop every product with that id. */
    method DeleteProduct(id: Id, response: Remote<()>)
      modifies this
      ensures products == if response.Ok? then RemoveById(old(products), ProductKey, id) else old(products)
      ensures isProductsDataFetching == old(isProductsDataFetching)
    {
      if response.Ok? {
        products := RemoveById(products, ProductKey, id);
      }
    }
  }

}
