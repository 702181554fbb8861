/**
 * canteen/service/ProductService.java: editing, deleting and toggling catalog products,
 * and the available-product queries. The product repository is a map from id to product;
 * a query's result is the matching part of that map, since the repository gives no order.
 */
module CanteenProducts {
  import opened Wrappers
  import opened Text
  import opened CanteenModel

  function NotFound(id: int): string { "Product not found with id: " + IntToString(id) }

  /** updateProduct's copy: six fields from the details, the id from the stored product. */
  function Updated(p: Product, details: Product): (r: Product)
    ensures r.id == p.id
    ensures r.name == details.name && r.description == details.description && r.price == details.price
    ensures r.category == details.category && r.imageUrl == details.imageUrl
    ensures r.available == details.available
  {
    Product(p.id, details.name, details.description, details.price, details.category,
            details.imageUrl, details.available)
  }

  /** Updating with the product's own fields changes nothing. */
  lemma UpdatedWithItself(p: Product)
    ensures Updated(p, p) == p
  {
  }

  /** toggleAvailability's change: `available` negated and nothing else. */
  function Toggled(p: Product): (r: Product)
    ensures r.available == !p.available
    ensures r.id == p.id && r.name == p.name && r.description == p.description && r.price == p.price
    ensures r.category == p.category && r.imageUrl == p.imageUrl
  {
    p.(available := !p.available)
  }

  lemma ToggledTwice(p: Product)
    ensures Toggled(Toggled(p)) == p
  {
  }

  /** Toggling the same stored product twice restores the catalog. */
  lemma ToggleTwiceRestores(products: map<int, Product>, id: int)
    requires id in products
    ensures products[id := Toggled(products[id])][id := Toggled(Toggled(products[id]))] == products
  {
    ToggledTwice(products[id]);
  }

  /** getAvailableProducts: exactly the stored products whose flag is set. */
  function AvailableProducts(products: map<int, Product>): (r: map<int, Product>)
    ensures forall id :: id in r <==> id in products && products[id].available
    ensures forall id :: id in r ==> r[id] == products[id]
  {
    map id | id in products && products[id].available :: products[id]
  }

  /** getAvailableProductsByCategory: the available products in one category. */
  function AvailableProductsByCategory(products: map<int, Product>, category: string): (r: map<int, Product>)
    ensures forall id :: id in r <==> id in products && products[id].available && products[id].category == category
    ensures forall id :: id in r ==> r[id] == products[id]
  {
    map id | id in products && products[id].category == category && products[id].available :: products[id]
  }

  /** A category's available products are the available products of that category. */
  lemma CategoryWithinAvailable(products: map<int, Product>, category: string)
    ensures AvailableProductsByCategory(products, category)
      == map id | id in AvailableProducts(products) && AvailableProducts(products)[id].category == category
           :: AvailableProducts(products)[id]
  {
  }

  class ProductService {
    var products: map<int, Product>

    /** Every product is stored under its own id. */
    ghost predicate Valid()
      reads this
    {
      forall id :: id in products ==> products[id].id == id
    }

    constructor (products: map<int, Product>)
      requires forall id :: id in products ==> products[id].id == id
      ensures this.products == products && Valid()
    {
      this.products := products;
    }

    /** updateProduct: the six editable fields are overwritten; a missing id throws and changes nothing. */
    method UpdateProduct(id: int, details: Product) returns (r: Result<Product, string>)
      requires Valid()
      modifies this`products
      ensures Valid()
      ensures id !in old(products) ==> r == Failure(NotFound(id)) && products == old(products)
      ensures id in old(products) ==>
        && r == Success(Updated(old(products)[id], details))
        && products == old(products)[id := r.value]
    {
      if id !in products {
        return Failure(NotFound(id));
      }
      var product := Updated(products[id], details);
      products := products[id := product];
      r := Success(product);
    }

    /** deleteProduct: exactly that product leaves the catalog; a missing id throws and changes nothing. */
    method DeleteProduct(id: int) returns (r: Result<(), string>)
      requires Valid()
      modifies this`products
      ensures Valid()
      ensures id !in old(products) ==> r == Failure(NotFound(id)) && products == old(products)
      ensures id in old(products) ==> r == Success(()) && products == old(products) - {id}
    {
      if id !in products {
        return Failure(NotFound(id));
      }
      products := products - {id};
      r := Success(());
    }

    /** toggleAvailability: the product's flag is negated; a missing id throws and changes nothing. */
    method ToggleAvailability(id: int) returns (r: Result<Product, string>)
      requires Valid()
      modifies this`products
      ensures Valid()
      ensures id !in old(products) ==> r == Failure(NotFound(id)) && products == old(products)
      ensures id in old(products) ==>
        && r == Success(Toggled(old(products)[id]))
        && products == old(products)[id := r.value]
    {
      if id !in products {
        return Failure(NotFound(id));
      }
      var product := Toggled(products[id]);
      products := products[id := product];
      r := Success(product);
    }
  }
}
