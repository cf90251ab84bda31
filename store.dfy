/** The store screen of src/app/components/StoreView.tsx: a fixed catalogue filtered by
    category and name, and a cart of (product, quantity) entries with one entry per
    product. Prices are integer cents. */
module Store {
  import opened Common

  datatype Product = Product(
    id: string, name: string, priceCents: nat, category: string, image: string, description: string)

  datatype CartItem = CartItem(product: Product, quantity: int)

  const ALL_CATEGORIES: string := "Todos"

  const PRODUCTS: seq<Product> := [
    Product("1", "Elo Premium Mensal", 2990, "Assinaturas", "💎", "Acesso ilimitado a todas as funcionalidades por 1 mês."),
    Product("2", "Elo Premium Anual", 29990, "Assinaturas", "👑", "Economize 20% com o plano anual."),
    Product("3", "Pacote 100 Créditos", 1990, "Serviços IA", "🪙", "Créditos para gerar imagens ou mensagens especiais."),
    Product("4", "Camiseta Elo", 5990, "Itens Físicos", "👕", "Mostre seu estilo com a camiseta oficial."),
    Product("5", "Caneca Elo", 3490, "Itens Físicos", "☕", "Sua companhia perfeita para o café."),
    Product("6", "Boost de Perfil", 990, "Serviços IA", "🚀", "Fique em destaque na descoberta por 24h.")
  ]

  const CATEGORIES: seq<string> := [ALL_CATEGORIES, "Assinaturas", "Itens Físicos", "Serviços IA"]

  // ---------------------------------------------------------------------------
  // Catalogue filter

  /** The test of `filteredProducts`: category (or 'Todos') and case-blind name search. */
  predicate Listed(p: Product, category: string, query: string) {
    (category == ALL_CATEGORIES || p.category == category) && Contains(Lower(p.name), Lower(query))
  }

  function FilteredProducts(products: seq<Product>, category: string, query: string): (r: seq<Product>)
    ensures forall p :: p in r <==> p in products && Listed(p, category, query)
    ensures IsSubsequence(r, products)
  {
    Filter(products, p => Listed(p, category, query))
  }

  lemma ContainsEmpty(hay: string)
    ensures Contains(hay, "")
  {
    assert StartsWith(hay, "");
  }

  /** The initial screen, 'Todos' with an empty search, lists the whole catalogue. */
  lemma EverythingListedInitially(products: seq<Product>)
    ensures FilteredProducts(products, ALL_CATEGORIES, "") == products
  {
    forall i | 0 <= i < |products| ensures Listed(products[i], ALL_CATEGORIES, "") {
      ContainsEmpty(Lower(products[i].name));
    }
    FilterKeepsAll(products, p => Listed(p, ALL_CATEGORIES, ""));
  }

  /** The search does not depend on the case of the query. */
  lemma SearchIgnoresQueryCase(p: Product, category: string, query: string)
    ensures Listed(p, category, Lower(query)) <==> Listed(p, category, query)
  {
    LowerIdempotent(query);
  }

  // ---------------------------------------------------------------------------
  // Cart

  predicate HasId(cart: seq<CartItem>, id: string) {
    exists i :: 0 <= i < |cart| && cart[i].product.id == id
  }

  predicate DistinctIds(cart: seq<CartItem>) {
    forall i, j :: 0 <= i < j < |cart| ==> cart[i].product.id != cart[j].product.id
  }

  /** One entry per product, each with a quantity of at least 1. */
  predicate ValidCart(cart: seq<CartItem>) {
    DistinctIds(cart) && forall item :: item in cart ==> item.quantity >= 1
  }

  /** The badge: `cart.reduce((a, b) => a + b.quantity, 0)`. */
  function Badge(cart: seq<CartItem>): int {
    if cart == [] then 0 else cart[0].quantity + Badge(cart[1..])
  }

  /** `total`: the sum of price times quantity, in cents. */
  function Total(cart: seq<CartItem>): int {
    if cart == [] then 0 else cart[0].product.priceCents * cart[0].quantity + Total(cart[1..])
  }

  lemma {:induction false} BadgeAppend(cart: seq<CartItem>, item: CartItem)
    ensures Badge(cart + [item]) == Badge(cart) + item.quantity
    ensures Total(cart + [item]) == Total(cart) + item.product.priceCents * item.quantity
  {
    if cart == [] {
      assert cart + [item] == [item];
    } else {
      assert (cart + [item])[1..] == cart[1..] + [item];
      BadgeAppend(cart[1..], item);
    }
  }

  /** A valid cart shows a badge of at least its number of entries, and a total of
      at least nothing. */
  lemma {:induction false} ValidCartBounds(cart: seq<CartItem>)
    requires ValidCart(cart)
    ensures Badge(cart) >= |cart|
    ensures Total(cart) >= 0
  {
    if cart != [] {
      assert cart[0] in cart;
      assert forall item :: item in cart[1..] ==> item in cart;
      ValidCartBounds(cart[1..]);
    }
  }

  /** The `map` that adds one to the entry of product `id`. */
  function Increment(cart: seq<CartItem>, id: string): (r: seq<CartItem>)
    ensures |r| == |cart|
    ensures forall i :: 0 <= i < |cart| ==> r[i].product == cart[i].product
    ensures forall i :: 0 <= i < |cart| ==>
      r[i].quantity == cart[i].quantity + (if cart[i].product.id == id then 1 else 0)
  {
    if cart == [] then []
    else
      var head := if cart[0].product.id == id then cart[0].(quantity := cart[0].quantity + 1) else cart[0];
      [head] + Increment(cart[1..], id)
  }

  lemma IncrementAbsent(cart: seq<CartItem>, id: string)
    requires !HasId(cart, id)
    ensures Increment(cart, id) == cart
  {
  }

  lemma DistinctTail(cart: seq<CartItem>)
    requires cart != [] && DistinctIds(cart)
    ensures DistinctIds(cart[1..])
    ensures !HasId(cart[1..], cart[0].product.id)
  {
    forall i, j | 0 <= i < j < |cart[1..]| ensures cart[1..][i].product.id != cart[1..][j].product.id {
      assert cart[1..][i] == cart[i + 1] && cart[1..][j] == cart[j + 1];
    }
    forall k | 0 <= k < |cart[1..]| ensures cart[1..][k].product.id != cart[0].product.id {
      assert cart[1..][k] == cart[k + 1];
    }
  }

  lemma MulSucc(a: int, b: int)
    ensures a * (b + 1) == a * b + a
  {
  }

  /** Adding a product already in a cart with distinct ids raises the badge by one and
      the total by that entry's price. */
  lemma {:induction false} IncrementSums(cart: seq<CartItem>, p: Product)
    requires DistinctIds(cart)
    requires exists i :: 0 <= i < |cart| && cart[i].product == p
    ensures Badge(Increment(cart, p.id)) == Badge(cart) + 1
    ensures Total(Increment(cart, p.id)) == Total(cart) + p.priceCents
  {
    var r := Increment(cart, p.id);
    var rest := Increment(cart[1..], p.id);
    assert r == [r[0]] + rest;
    assert r[1..] == rest;
    DistinctTail(cart);
    if cart[0].product.id == p.id {
      var i :| 0 <= i < |cart| && cart[i].product == p;
      assert i == 0;
      IncrementAbsent(cart[1..], p.id);
      MulSucc(p.priceCents, cart[0].quantity);
    } else {
      var i :| 0 <= i < |cart| && cart[i].product == p;
      assert cart[1..][i - 1] == cart[i];
      IncrementSums(cart[1..], p);
    }
  }

  /** `addToCart`'s update: bump the entry of the product, or append it with quantity 1. */
  function AddItem(cart: seq<CartItem>, product: Product): (r: seq<CartItem>)
    ensures HasId(cart, product.id) ==> |r| == |cart|
    ensures !HasId(cart, product.id) ==> r == cart + [CartItem(product, 1)]
    ensures HasId(r, product.id)
    ensures forall i :: 0 <= i < |cart| && cart[i].product.id != product.id ==> r[i] == cart[i]
  {
    if HasId(cart, product.id) then Increment(cart, product.id)
    else
      assert (cart + [CartItem(product, 1)])[|cart|].product.id == product.id;
      cart + [CartItem(product, 1)]
  }

  /** Bumping a quantity keeps a cart valid. */
  lemma IncrementKeepsValid(cart: seq<CartItem>, id: string)
    requires ValidCart(cart)
    ensures ValidCart(Increment(cart, id))
  {
    var r := Increment(cart, id);
    forall item | item in r ensures item.quantity >= 1 {
      var k :| 0 <= k < |r| && r[k] == item;
      assert cart[k] in cart;
    }
  }

  /** Appending a product the cart lacks, with quantity 1, keeps it valid. */
  lemma AppendKeepsValid(cart: seq<CartItem>, product: Product)
    requires ValidCart(cart) && !HasId(cart, product.id)
    ensures ValidCart(cart + [CartItem(product, 1)])
  {
    var r := cart + [CartItem(product, 1)];
    forall i, j | 0 <= i < j < |r| ensures r[i].product.id != r[j].product.id {
      assert r[i] == cart[i];
      if j < |cart| {
        assert r[j] == cart[j];
      }
    }
  }

  /** Adding keeps the cart valid and raises the badge by one. */
  lemma AddItemKeepsValid(cart: seq<CartItem>, product: Product)
    requires ValidCart(cart)
    ensures ValidCart(AddItem(cart, product))
    ensures Badge(AddItem(cart, product)) == Badge(cart) + 1
  {
    if HasId(cart, product.id) {
      IncrementKeepsValid(cart, product.id);
      var i :| 0 <= i < |cart| && cart[i].product.id == product.id;
      IncrementSums(cart, cart[i].product);
    } else {
      AppendKeepsValid(cart, product);
      BadgeAppend(cart, CartItem(product, 1));
    }
  }

  /** When the cart's entry for the id holds this very product, adding raises the total
      by its price. */
  lemma AddItemTotal(cart: seq<CartItem>, product: Product)
    requires ValidCart(cart)
    requires forall item :: item in cart && item.product.id == product.id ==> item.product == product
    ensures Total(AddItem(cart, product)) == Total(cart) + product.priceCents
  {
    if HasId(cart, product.id) {
      var i :| 0 <= i < |cart| && cart[i].product.id == product.id;
      assert cart[i] in cart;
      IncrementSums(cart, product);
    } else {
      BadgeAppend(cart, CartItem(product, 1));
    }
  }

  /** Adding keeps the cart valid, bumps the matching entry by exactly one (or appends a
      new one), raises the badge by one and, when the cart's entry for that id holds the
      same product, the total by its price. */
  lemma AddItemSpec(cart: seq<CartItem>, product: Product)
    requires ValidCart(cart)
    ensures var r := AddItem(cart, product);
      && ValidCart(r)
      && (HasId(cart, product.id) ==> forall i :: 0 <= i < |cart| && cart[i].product.id == product.id ==>
            r[i] == cart[i].(quantity := cart[i].quantity + 1))
      && Badge(r) == Badge(cart) + 1
      && ((forall item :: item in cart && item.product.id == product.id ==> item.product == product) ==>
            Total(r) == Total(cart) + product.priceCents)
  {
    AddItemKeepsValid(cart, product);
    if HasId(cart, product.id) {
      assert AddItem(cart, product) == Increment(cart, product.id);
    }
    if forall item :: item in cart && item.product.id == product.id ==> item.product == product {
      AddItemTotal(cart, product);
    }
  }

  function ItemId(item: CartItem): string { item.product.id }

  /** `removeFromCart`: drop the entry of `id`, keep the others in order. */
  function RemoveItem(cart: seq<CartItem>, id: string): (r: seq<CartItem>)
    ensures !HasId(r, id)
    ensures forall item :: item in r <==> item in cart && item.product.id != id
    ensures IsSubsequence(r, cart)
  {
    RemoveKey(cart, ItemId, id)
  }

  /** A product not yet in a cart with distinct ids can go in front of it. */
  lemma DistinctCons(h: CartItem, rest: seq<CartItem>)
    requires DistinctIds(rest) && !HasId(rest, h.product.id)
    ensures DistinctIds([h] + rest)
  {
    var r := [h] + rest;
    forall i, j | 0 <= i < j < |r| ensures r[i].product.id != r[j].product.id {
      assert r[j] == rest[j - 1];
      if i > 0 {
        assert r[i] == rest[i - 1];
      }
    }
  }

  /** A cart drawn from the entries of another lacks every id the other lacks. */
  lemma NoIdInMembers(sub: seq<CartItem>, full: seq<CartItem>, id: string)
    requires forall item :: item in sub ==> item in full
    requires !HasId(full, id)
    ensures !HasId(sub, id)
  {
    forall k | 0 <= k < |sub| ensures sub[k].product.id != id {
      assert sub[k] in full;
    }
  }

  lemma {:induction false} RemoveKeepsDistinct(cart: seq<CartItem>, id: string)
    requires DistinctIds(cart)
    ensures DistinctIds(RemoveItem(cart, id))
  {
    if cart != [] {
      DistinctTail(cart);
      RemoveKeepsDistinct(cart[1..], id);
      var rest := RemoveItem(cart[1..], id);
      if cart[0].product.id != id {
        assert RemoveItem(cart, id) == [cart[0]] + rest;
        NoIdInMembers(rest, cart[1..], cart[0].product.id);
        DistinctCons(cart[0], rest);
      } else {
        assert RemoveItem(cart, id) == rest;
      }
    }
  }

  lemma {:induction false} RemoveBadge(cart: seq<CartItem>, id: string, i: nat)
    requires DistinctIds(cart) && i < |cart| && cart[i].product.id == id
    ensures Badge(RemoveItem(cart, id)) == Badge(cart) - cart[i].quantity
  {
    DistinctTail(cart);
    if i == 0 {
      RemoveKeyAbsent(cart[1..], ItemId, id);
    } else {
      assert cart[1..][i - 1] == cart[i];
      RemoveBadge(cart[1..], id, i - 1);
      var rest := RemoveItem(cart[1..], id);
      assert RemoveItem(cart, id) == [cart[0]] + rest;
      assert ([cart[0]] + rest)[1..] == rest;
    }
  }

  /** Removing keeps the cart valid, removes exactly the entry's quantity from the
      badge, changes nothing for an unknown id, and is idempotent. */
  lemma RemoveItemSpec(cart: seq<CartItem>, id: string)
    requires ValidCart(cart)
    ensures ValidCart(RemoveItem(cart, id))
    ensures !HasId(cart, id) ==> RemoveItem(cart, id) == cart
    ensures RemoveItem(RemoveItem(cart, id), id) == RemoveItem(cart, id)
    ensures forall i :: 0 <= i < |cart| && cart[i].product.id == id ==>
              Badge(RemoveItem(cart, id)) == Badge(cart) - cart[i].quantity
  {
    RemoveKeepsDistinct(cart, id);
    if !HasId(cart, id) {
      RemoveKeyAbsent(cart, ItemId, id);
    }
    RemoveKeyIdempotent(cart, ItemId, id);
    forall i | 0 <= i < |cart| && cart[i].product.id == id
      ensures Badge(RemoveItem(cart, id)) == Badge(cart) - cart[i].quantity
    {
      RemoveBadge(cart, id, i);
    }
  }

  function Max(a: int, b: int): int { if a >= b then a else b }

  /** `updateQuantity`'s map: the entry of `id` moves by `delta`, but not below 1. */
  function UpdateItem(cart: seq<CartItem>, id: string, delta: int): (r: seq<CartItem>)
    ensures |r| == |cart|
    ensures forall i :: 0 <= i < |cart| ==> r[i].product == cart[i].product
    ensures forall i :: 0 <= i < |cart| && cart[i].product.id != id ==> r[i] == cart[i]
    ensures forall i :: 0 <= i < |cart| && cart[i].product.id == id ==>
              r[i].quantity >= 1 && r[i].quantity == Max(1, cart[i].quantity + delta)
  {
    if cart == [] then []
    else
      var head := if cart[0].product.id == id then cart[0].(quantity := Max(1, cart[0].quantity + delta)) else cart[0];
      [head] + UpdateItem(cart[1..], id, delta)
  }

  /** Updating keeps the cart valid, and a zero step changes nothing. */
  lemma UpdateItemSpec(cart: seq<CartItem>, id: string, delta: int)
    requires ValidCart(cart)
    ensures ValidCart(UpdateItem(cart, id, delta))
    ensures UpdateItem(cart, id, 0) == cart
  {
    var r := UpdateItem(cart, id, delta);
    forall item | item in r ensures item.quantity >= 1 {
      var k :| 0 <= k < |r| && r[k] == item;
      assert cart[k] in cart;
    }
    var z := UpdateItem(cart, id, 0);
    forall k | 0 <= k < |cart| ensures z[k] == cart[k] {
      assert cart[k] in cart;
    }
  }

  // ---------------------------------------------------------------------------
  // The screen's state

  class StoreView {
    var selectedCategory: string
    var searchQuery: string
    var cart: seq<CartItem>
    var selectedProduct: Option<Product>
    var isCartOpen: bool

    ghost predicate Valid()
      reads this
    {
      ValidCart(cart)
    }

    constructor ()
      ensures Valid()
      ensures selectedCategory == ALL_CATEGORIES && searchQuery == ""
      ensures cart == [] && selectedProduct.None? && !isCartOpen
    {
      selectedCategory := ALL_CATEGORIES;
      searchQuery := "";
      cart := [];
      selectedProduct := None;
      isCartOpen := false;
    }

    function Shown(): seq<Product>
      reads this
    {
      FilteredProducts(PRODUCTS, selectedCategory, searchQuery)
    }

    method SelectCategory(category: string)
      modifies this
      ensures selectedCategory == category
      ensures searchQuery == old(searchQuery) && cart == old(cart)
      ensures selectedProduct == old(selectedProduct) && isCartOpen == old(isCartOpen)
    {
      selectedCategory := category;
    }

    method SetSearchQuery(query: string)
      modifies this
      ensures searchQuery == query
      ensures selectedCategory == old(selectedCategory) && cart == old(cart)
      ensures selectedProduct == old(selectedProduct) && isCartOpen == old(isCartOpen)
    {
      searchQuery := query;
    }

    /** `addToCart`: update the cart and always close the product modal. */
    method AddToCart(product: Product)
      requires Valid()
      modifies this
      ensures Valid()
      ensures cart == AddItem(old(cart), product)
      ensures Badge(cart) == Badge(old(cart)) + 1
      ensures selectedProduct.None?
      ensures selectedCategory == old(selectedCategory) && searchQuery == old(searchQuery)
      ensures isCartOpen == old(isCartOpen)
    {
      AddItemSpec(cart, product);
      cart := AddItem(cart, product);
      selectedProduct := None;
    }

    method RemoveFromCart(id: string)
      requires Valid()
      modifies this
      ensures Valid()
      ensures cart == RemoveItem(old(cart), id)
      ensures selectedCategory == old(selectedCategory) && searchQuery == old(searchQuery)
      ensures selectedProduct == old(selectedProduct) && isCartOpen == old(isCartOpen)
    {
      RemoveItemSpec(cart, id);
      cart := RemoveItem(cart, id);
    }

    method UpdateQuantity(id: string, delta: int)
      requires Valid()
      modifies this
      ensures Valid()
      ensures cart == UpdateItem(old(cart), id, delta)
      ensures selectedCategory == old(selectedCategory) && searchQuery == old(searchQuery)
      ensures selectedProduct == old(selectedProduct) && isCartOpen == old(isCartOpen)
    {
      UpdateItemSpec(cart, id, delta);
      cart := UpdateItem(cart, id, delta);
    }
  }
}
