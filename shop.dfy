/**
 * The storefront page script: the product catalog, the shopping cart kept in
 * local storage, the catalog filters and price sorts, the related-products
 * strip of the detail page, the quantity control, the signed-in test and the
 * simulated inbox helper.
 */
module Shop {
  import opened Wrappers
  import opened Text
  import opened Money
  import opened Seqs
  import opened Storage
  import Orders

  // ---------------------------------------------------------------- catalog

  /** A catalog entry; prices in cents. */
  datatype Product = Product(
    id: int, name: string, price: int, originalPrice: int, category: string, image: string,
    sizes: seq<string>, colors: seq<string>)

  /** The `products` array, in its order. */
  const Catalog: seq<Product> := [
    Product(1, "Anime T-Shirt", 2999, 3999, "anime", "img/Anime_T.png",
            ["S", "M", "L", "XL"], ["Black", "White", "Navy", "Gray"]),
    Product(2, "Movie Poster", 1999, 2499, "movies", "img/Movie_Poster.png", ["One Size"], []),
    Product(3, "Meme Bag", 1499, 1999, "memes", "img/meme_mugbag.png", ["One Size"], []),
    Product(5, "Anime Hoodie", 4999, 5999, "anime", "img/Anime_hoodie.png", ["S", "M", "L", "XL"], []),
    Product(6, "Meme Mug", 1499, 1999, "memes", "img/Meme_mug.png", ["One Size"], []),
    Product(7, "Meme Sticker Pack", 999, 1499, "memes", "img/Meme_stickers.png", ["One Size"], []),
    Product(10, "Movie Blu-ray", 2499, 2999, "movies", "img/Movie_2.png", ["One Size"], []),
    Product(11, "Meme T-Shirt", 2799, 3799, "memes", "img/meme_T.png",
            ["S", "M", "L", "XL"], ["Black", "White", "Red", "Blue"])
  ]

  /** What the page code relies on in the catalog: it has a first entry, and identifiers are unique. */
  predicate ValidCatalog(catalog: seq<Product>) {
    |catalog| > 0 && forall i, j :: 0 <= i < j < |catalog| ==> catalog[i].id != catalog[j].id
  }

  lemma CatalogValid()
    ensures ValidCatalog(Catalog)
  {
  }

  /** `products.find(p => p.id === id)` */
  function FindProduct(catalog: seq<Product>, id: int): (r: Option<Product>)
    ensures r.Some? ==> r.value in catalog && r.value.id == id
    ensures r.None? <==> forall i :: 0 <= i < |catalog| ==> catalog[i].id != id
  {
    var i := FindIndex(catalog, (p: Product) => p.id == id);
    if i < |catalog| then Some(catalog[i]) else None
  }

  /** Every catalog entry is the one `find` returns for its identifier. */
  lemma FindProductFindsEach(catalog: seq<Product>, p: Product)
    requires ValidCatalog(catalog) && p in catalog
    ensures FindProduct(catalog, p.id) == Some(p)
  {
    var k :| 0 <= k < |catalog| && catalog[k] == p;
    var i := FindIndex(catalog, (q: Product) => q.id == p.id);
    assert i <= k;
  }

  // ---------------------------------------------------------------- cart

  /** The line `addToCart` pushes: the product's name, price and image, and the shopper's choices. */
  function Snapshot(p: Product, id: int, size: string, quantity: int, color: Option<string>): CartItem {
    CartItem(id, p.id, p.name, p.price, p.image, size, quantity, Orders.OrNull(color))
  }

  /** The `reduce` of `updateCartCount`: the number of pieces in the cart. */
  function CartCount(cart: seq<CartItem>): int {
    if cart == [] then 0 else CartCount(cart[..|cart| - 1]) + cart[|cart| - 1].quantity
  }

  /** The sum `renderCart` shows: price times quantity over the cart. */
  function CartValue(cart: seq<CartItem>): int {
    if cart == [] then 0 else CartValue(cart[..|cart| - 1]) + cart[|cart| - 1].price * cart[|cart| - 1].quantity
  }

  /** Counting two carts put together adds their counts and their values. */
  lemma {:induction false} CartAppend(a: seq<CartItem>, b: seq<CartItem>)
    ensures CartCount(a + b) == CartCount(a) + CartCount(b)
    ensures CartValue(a + b) == CartValue(a) + CartValue(b)
    decreases |b|
  {
    if b == [] {
      assert a + b == a;
    } else {
      var c := b[..|b| - 1];
      assert (a + b)[..|a + b| - 1] == a + c;
      assert (a + b)[|a + b| - 1] == b[|b| - 1];
      CartAppend(a, c);
    }
  }

  /** Adding a line raises the count by its quantity and the value by its price times quantity. */
  lemma AddedLineCounts(cart: seq<CartItem>, item: CartItem)
    ensures CartCount(cart + [item]) == CartCount(cart) + item.quantity
    ensures CartValue(cart + [item]) == CartValue(cart) + item.price * item.quantity
  {
    assert (cart + [item])[..|cart + [item]| - 1] == cart;
  }

  /** The lines kept by the removal of `id`. */
  function Kept(cart: seq<CartItem>, id: int): seq<CartItem> {
    Filter(cart, (it: CartItem) => it.id != id)
  }

  /** The lines dropped by the removal of `id`. */
  function Dropped(cart: seq<CartItem>, id: int): seq<CartItem> {
    Filter(cart, (it: CartItem) => it.id == id)
  }

  /** Removal splits the cart: the kept and dropped lines account for the whole count and value. */
  lemma {:induction false} RemovalSplitsCart(cart: seq<CartItem>, id: int)
    ensures CartCount(Kept(cart, id)) + CartCount(Dropped(cart, id)) == CartCount(cart)
    ensures CartValue(Kept(cart, id)) + CartValue(Dropped(cart, id)) == CartValue(cart)
    decreases |cart|
  {
    if cart != [] {
      var init := cart[..|cart| - 1];
      var last := cart[|cart| - 1];
      assert cart == init + [last];
      RemovalSplitsCart(init, id);
      KeptSnoc(init, last, id);
      if last.id == id {
        AddedLineCounts(Dropped(init, id), last);
      } else {
        AddedLineCounts(Kept(init, id), last);
      }
      AddedLineCounts(init, last);
    }
  }

  /** Removal looks at a line added last on its own. */
  lemma KeptSnoc(init: seq<CartItem>, last: CartItem, id: int)
    ensures Kept(init + [last], id) == if last.id != id then Kept(init, id) + [last] else Kept(init, id)
    ensures Dropped(init + [last], id) == if last.id == id then Dropped(init, id) + [last] else Dropped(init, id)
  {
    FilterAppend(init, [last], (it: CartItem) => it.id != id);
    FilterAppend(init, [last], (it: CartItem) => it.id == id);
  }

  /** Removing an identifier no line has leaves the cart as it was; removing twice is removing once. */
  lemma RemoveAbsentOrTwice(cart: seq<CartItem>, id: int)
    ensures (forall i :: 0 <= i < |cart| ==> cart[i].id != id) ==> Kept(cart, id) == cart
    ensures Kept(Kept(cart, id), id) == Kept(cart, id)
  {
    FilterKeepsAll(cart, (it: CartItem) => it.id != id);
    FilterKeepsAll(Kept(cart, id), (it: CartItem) => it.id != id);
  }

  /** `parseInt(...) || 1`: an unparsable or zero value counts as one. */
  function OrOne(parsed: Option<int>): int {
    match parsed
    case Some(n) => if n == 0 then 1 else n
    case None => 1
  }

  /** The quantity the detail page accepts. */
  predicate QuantityAccepted(q: int) {
    1 <= q <= 10
  }

  /** The "+" button: one more while below ten. */
  function Increment(current: int): (r: int)
    ensures current < 10 ==> r == current + 1
    ensures current >= 10 ==> r == current
  {
    if current < 10 then current + 1 else current
  }

  /** The "-" button: one fewer while above one. */
  function Decrement(current: int): (r: int)
    ensures current > 1 ==> r == current - 1
    ensures current <= 1 ==> r == current
  {
    if current > 1 then current - 1 else current
  }

  /** From any accepted quantity, both buttons give an accepted quantity. */
  lemma StepsStayAccepted(q: int)
    requires QuantityAccepted(q)
    ensures QuantityAccepted(Increment(q)) && QuantityAccepted(Decrement(q))
  {
  }

  /** Any run of button presses from an accepted quantity stays accepted. */
  lemma {:induction false} PressesStayAccepted(q: int, presses: seq<bool>)
    requires QuantityAccepted(q)
    ensures QuantityAccepted(Press(q, presses))
    decreases |presses|
  {
    if presses != [] {
      StepsStayAccepted(q);
      PressesStayAccepted(if presses[0] then Increment(q) else Decrement(q), presses[1..]);
    }
  }

  /** The quantity after a run of presses, `true` for "+" and `false` for "-". */
  function Press(q: int, presses: seq<bool>): int
    decreases |presses|
  {
    if presses == [] then q
    else Press(if presses[0] then Increment(q) else Decrement(q), presses[1..])
  }

  // ---------------------------------------------------------------- filters

  /** The three conditions of `applyFilters`; the slider gives whole dollars. */
  predicate Matches(p: Product, search: string, categories: seq<string>, maxPriceDollars: int) {
    Includes(ToLower(p.name), ToLower(search)) &&
    (|categories| == 0 || p.category in categories) &&
    p.price <= 100 * maxPriceDollars
  }

  /** The catalog entries the filters let through, in catalog order. */
  function Visible(catalog: seq<Product>, search: string, categories: seq<string>, maxPriceDollars: int): seq<Product> {
    Filter(catalog, (p: Product) => Matches(p, search, categories, maxPriceDollars))
  }

  /** A product is listed exactly when it is in the catalog and meets all three conditions. */
  lemma VisibleExactly(catalog: seq<Product>, search: string, categories: seq<string>, maxPriceDollars: int, p: Product)
    ensures p in Visible(catalog, search, categories, maxPriceDollars) <==>
            p in catalog && Matches(p, search, categories, maxPriceDollars)
  {
    var v := Visible(catalog, search, categories, maxPriceDollars);
    if p in v {
      var i :| 0 <= i < |v| && v[i] == p;
    }
    if p in catalog && Matches(p, search, categories, maxPriceDollars) {
      var i :| 0 <= i < |catalog| && catalog[i] == p;
    }
  }

  /** With an empty search and no category ticked, the slider alone decides. */
  lemma {:induction false} EmptySearchKeepsAffordable(catalog: seq<Product>, maxPriceDollars: int)
    requires forall i :: 0 <= i < |catalog| ==> catalog[i].price <= 100 * maxPriceDollars
    ensures Visible(catalog, "", [], maxPriceDollars) == catalog
  {
    forall i | 0 <= i < |catalog|
      ensures Matches(catalog[i], "", [], maxPriceDollars)
    {
      assert OccursAt(ToLower(catalog[i].name), ToLower(""), 0);
    }
    FilterKeepsAll(catalog, (p: Product) => Matches(p, "", [], maxPriceDollars));
  }

  /** After "clear filters" (empty search, no category, slider at 200) the whole catalog is listed. */
  lemma ClearedFiltersListAll()
    ensures Visible(Catalog, "", [], 200) == Catalog
  {
    CatalogPrices();
    EmptySearchKeepsAffordable(Catalog, 200);
  }

  /** The catalog's prices lie between $9.99 and $49.99. */
  lemma CatalogPrices()
    ensures forall i :: 0 <= i < |Catalog| ==> 999 <= Catalog[i].price <= 4999
  {
  }

  /** `a` comes no later than `b` under the price comparator of the chosen direction. */
  predicate InOrder(a: Product, b: Product, ascending: bool) {
    if ascending then a.price <= b.price else a.price >= b.price
  }

  predicate SortedByPrice(s: seq<Product>, ascending: bool) {
    forall i, j :: 0 <= i < j < |s| ==> InOrder(s[i], s[j], ascending)
  }

  /** `filtered.sort(...)` by price, in place, as an insertion sort. */
  method SortByPrice(a: array<Product>, ascending: bool)
    modifies a
    ensures SortedByPrice(a[..], ascending)
    ensures multiset(a[..]) == multiset(old(a[..]))
  {
    var i := 0;
    while i < a.Length
      invariant 0 <= i <= a.Length
      invariant forall k, l :: 0 <= k < l < i ==> InOrder(a[k], a[l], ascending)
      invariant multiset(a[..]) == multiset(old(a[..]))
    {
      var j := i;
      while j > 0 && !InOrder(a[j - 1], a[j], ascending)
        invariant 0 <= j <= i
        invariant forall k, l :: 0 <= k < l <= i && k != j && l != j ==> InOrder(a[k], a[l], ascending)
        invariant forall l :: j < l <= i ==> InOrder(a[j], a[l], ascending)
        invariant multiset(a[..]) == multiset(old(a[..]))
      {
        a[j - 1], a[j] := a[j], a[j - 1];
        j := j - 1;
      }
      assert forall k :: 0 <= k < j ==> InOrder(a[k], a[j], ascending) by {
        if j > 0 {
          assert InOrder(a[j - 1], a[j], ascending);
          assert forall k :: 0 <= k < j - 1 ==> InOrder(a[k], a[j - 1], ascending);
        }
      }
      i := i + 1;
    }
  }

  /**
   * `applyFilters`: the filtered catalog, sorted in place by price for the two
   * price options and left in catalog order otherwise.
   */
  method ApplyFilters(catalog: seq<Product>, search: string, categories: seq<string>, maxPriceDollars: int, sortOption: string)
    returns (shown: seq<Product>)
    ensures multiset(shown) == multiset(Visible(catalog, search, categories, maxPriceDollars))
    ensures forall p :: p in shown <==> p in catalog && Matches(p, search, categories, maxPriceDollars)
    ensures sortOption == "price-low" ==> SortedByPrice(shown, true)
    ensures sortOption == "price-high" ==> SortedByPrice(shown, false)
    ensures sortOption != "price-low" && sortOption != "price-high" ==>
      shown == Visible(catalog, search, categories, maxPriceDollars)
  {
    var filtered := Visible(catalog, search, categories, maxPriceDollars);
    shown := filtered;
    if sortOption == "price-low" || sortOption == "price-high" {
      var a := new Product[|filtered|](i requires 0 <= i < |filtered| => filtered[i]);
      assert a[..] == filtered;
      SortByPrice(a, sortOption == "price-low");
      shown := a[..];
    }
    forall p ensures p in shown <==> p in catalog && Matches(p, search, categories, maxPriceDollars) {
      VisibleExactly(catalog, search, categories, maxPriceDollars, p);
      assert p in shown <==> p in multiset(shown);
      assert p in filtered <==> p in multiset(filtered);
    }
  }

  // ---------------------------------------------------------------- detail page

  /** `parseInt(urlParams.get('id')) || 1` */
  function RequestedId(parsed: Option<int>): int {
    OrOne(parsed)
  }

  /** `products.find(p => p.id === productId) || products[0]` */
  function CurrentProduct(catalog: seq<Product>, id: int): (r: Product)
    requires |catalog| > 0
    ensures r in catalog
    ensures FindProduct(catalog, id).Some? ==> r.id == id
    ensures FindProduct(catalog, id).None? ==> r == catalog[0]
  {
    match FindProduct(catalog, id)
    case Some(p) => p
    case None => catalog[0]
  }

  /** The related strip as written: it leaves out the requested identifier rather than the shown product. */
  function RelatedAsWritten(catalog: seq<Product>, id: int): seq<Product>
    requires |catalog| > 0
  {
    var shown := CurrentProduct(catalog, id);
    Take(Filter(catalog, (p: Product) => p.id != id && p.category == shown.category), 4)
  }

  /** The products `loadRelatedProducts` should list, before the cut to four. */
  function RelatedCandidates(catalog: seq<Product>, id: int): seq<Product>
    requires |catalog| > 0
  {
    var shown := CurrentProduct(catalog, id);
    Filter(catalog, (p: Product) => p.id != shown.id && p.category == shown.category)
  }

  /** The related strip: up to four other products of the shown product's category, in catalog order. */
  function Related(catalog: seq<Product>, id: int): seq<Product>
    requires |catalog| > 0
  {
    Take(RelatedCandidates(catalog, id), 4)
  }

  /** The related strip lists at most four products, all of the shown product's category and none of them the shown product. */
  lemma RelatedProperties(catalog: seq<Product>, id: int)
    requires |catalog| > 0
    ensures |Related(catalog, id)| <= 4
    ensures Related(catalog, id) == RelatedCandidates(catalog, id)[..|Related(catalog, id)|]
    ensures forall i :: 0 <= i < |Related(catalog, id)| ==>
      Related(catalog, id)[i] in catalog &&
      Related(catalog, id)[i].category == CurrentProduct(catalog, id).category &&
      Related(catalog, id)[i].id != CurrentProduct(catalog, id).id
    ensures CurrentProduct(catalog, id) !in Related(catalog, id)
  {
    var f := RelatedCandidates(catalog, id);
    var r := Related(catalog, id);
    assert forall i :: 0 <= i < |r| ==> r[i] == f[i];
  }

  /** For an identifier the catalog has, the strip as written is the intended one. */
  lemma RelatedAsWrittenAgreesOnKnownIds(catalog: seq<Product>, id: int)
    requires |catalog| > 0 && FindProduct(catalog, id).Some?
    ensures RelatedAsWritten(catalog, id) == Related(catalog, id)
  {
    var shown := CurrentProduct(catalog, id);
    FilterSameTest(catalog,
      (p: Product) => p.id != id && p.category == shown.category,
      (p: Product) => p.id != shown.id && p.category == shown.category);
  }

  /** When the requested identifier is unknown, the strip as written lists the shown product itself, if the first product passes its own test. */
  lemma RelatedAsWrittenListsFallback(catalog: seq<Product>, id: int)
    requires |catalog| > 0 && FindProduct(catalog, id).None?
    ensures CurrentProduct(catalog, id) == catalog[0]
    ensures RelatedAsWritten(catalog, id)[0] == catalog[0]
  {
    var shown := catalog[0];
    var test := (p: Product) => p.id != id && p.category == shown.category;
    assert test(catalog[0]);
    assert Filter(catalog, test) == [catalog[0]] + Filter(catalog[1..], test);
  }

  /** `?id=99` shows the first product, and the strip as written lists that same product among the related ones. */
  lemma RelatedAsWrittenListsShownProduct()
    ensures CurrentProduct(Catalog, 99) == Catalog[0]
    ensures Catalog[0] in RelatedAsWritten(Catalog, 99)
  {
    assert FindProduct(Catalog, 99).None?;
    RelatedAsWrittenListsFallback(Catalog, 99);
  }

  /** The active size button, else the product's first size, else "M". */
  function ChosenSize(p: Product, selected: Option<string>): (r: string)
    ensures selected.Some? ==> r == selected.value
    ensures selected.None? && |p.sizes| > 0 ==> r == p.sizes[0] && r in p.sizes
    ensures selected.None? && |p.sizes| == 0 ==> r == "M"
  {
    if selected.Some? then selected.value else if |p.sizes| > 0 then p.sizes[0] else "M"
  }

  /** The active color button, else the product's first color, else none. */
  function ChosenColor(p: Product, selected: Option<string>): (r: Option<string>)
    ensures selected.Some? ==> r == selected
    ensures selected.None? ==> (r.Some? <==> |p.colors| > 0)
    ensures selected.None? && |p.colors| > 0 ==> r == Some(p.colors[0]) && r.value in p.colors
  {
    if selected.Some? then selected else if |p.colors| > 0 then Some(p.colors[0]) else None
  }

  // ---------------------------------------------------------------- page state

  /** The page script over local storage; the `cart` global is the `cart` key, saved after every change. */
  class Storefront {
    const store: LocalStore
    /** the `products` array */
    const products: seq<Product>

    constructor (store: LocalStore)
      ensures this.store == store && products == Catalog
      ensures ValidCatalog(products)
    {
      this.store := store;
      products := Catalog;
      CatalogValid();
    }

    /** `isLoggedIn`: the flag says `'true'` and a user record is stored. */
    predicate IsLoggedIn()
      reads store
    {
      store.loggedInFlag == Some("true") && store.currentUser.Some?
    }

    /** `setCurrentUser` */
    method SetCurrentUser(user: Option<User>)
      modifies store`currentUser, store`loggedInFlag
      ensures store.currentUser == user
      ensures store.loggedInFlag == Some(if user.Some? then "true" else "false")
      ensures IsLoggedIn() <==> user.Some?
    {
      store.currentUser := user;
      store.loggedInFlag := Some(if user.Some? then "true" else "false");
    }

    /** `getUserEmails`: the stored user's inbox, empty when absent. */
    function UserEmails(): seq<InboxMessage>
      reads store
    {
      if store.currentUser.None? then []
      else if store.currentUser.value.email in store.userEmails then store.userEmails[store.currentUser.value.email]
      else []
    }

    /** `addUserEmail`: the message, as given, goes to the front of the stored user's inbox; other inboxes are untouched. */
    method AddUserEmail(data: InboxMessage)
      modifies store`userEmails
      ensures store.currentUser.None? ==> store.userEmails == old(store.userEmails)
      ensures store.currentUser.Some? ==>
        var key := store.currentUser.value.email;
        key in store.userEmails &&
        store.userEmails == old(store.userEmails)[key := [data] + old(UserEmails())]
      ensures UserEmails() == if store.currentUser.None? then [] else [data] + old(UserEmails())
      ensures forall k :: k in old(store.userEmails) && (store.currentUser.None? || k != store.currentUser.value.email) ==>
        k in store.userEmails && store.userEmails[k] == old(store.userEmails)[k]
    {
      if store.currentUser.None? {
        return;
      }
      var key := store.currentUser.value.email;
      var before := if key in store.userEmails then store.userEmails[key] else [];
      store.userEmails := store.userEmails[key := [data] + before];
    }

    /** `addToCart`: an unknown product leaves the cart alone; a known one appends one snapshot line. */
    method AddToCart(productId: int, size: string, quantity: int, color: Option<string>, now: int)
      modifies store`cart
      ensures FindProduct(products, productId).None? ==> store.cart == old(store.cart)
      ensures FindProduct(products, productId).Some? ==>
        store.cart == old(store.cart) + [Snapshot(FindProduct(products, productId).value, now, size, quantity, color)]
      ensures FindProduct(products, productId).Some? ==>
        CartCount(store.cart) == CartCount(old(store.cart)) + quantity
    {
      var product := FindProduct(products, productId);
      if product.None? {
        return;
      }
      var item := Snapshot(product.value, now, size, quantity, color);
      AddedLineCounts(store.cart, item);
      store.cart := store.cart + [item];
    }

    /** `removeFromCart`: every line with that identifier goes, the rest keep their order. */
    method RemoveFromCart(cartItemId: int)
      modifies store`cart
      ensures store.cart == Kept(old(store.cart), cartItemId)
      ensures CartCount(store.cart) == CartCount(old(store.cart)) - CartCount(Dropped(old(store.cart), cartItemId))
    {
      RemovalSplitsCart(store.cart, cartItemId);
      store.cart := Kept(store.cart, cartItemId);
    }

    /** The total of `renderCart`: the accumulator loop and the two-decimal text it shows. */
    method RenderCartTotal() returns (total: int, text: string)
      ensures total == CartValue(store.cart)
      ensures text == FormatCents(total)
    {
      var cart := store.cart;
      total := 0;
      for i := 0 to |cart|
        invariant total == CartValue(cart[..i])
      {
        assert cart[..i + 1][..i] == cart[..i];
        total := total + cart[i].price * cart[i].quantity;
      }
      assert cart[..|cart|] == cart;
      text := FormatCents(total);
    }

    /**
     * The detail page's "add to cart" button: the quantity box read with
     * `parseInt(...) || 1` must lie in 1..10; the size defaults to the first
     * listed one and the color to the first listed one, or none.
     */
    method AddFromDetailPage(parsedId: Option<int>, selectedSize: Option<string>, parsedQuantity: Option<int>,
                             selectedColor: Option<string>, now: int)
      returns (added: bool)
      requires ValidCatalog(products)
      modifies store`cart
      ensures added <==> QuantityAccepted(OrOne(parsedQuantity))
      ensures !added ==> store.cart == old(store.cart)
      ensures added ==>
        var p := CurrentProduct(products, RequestedId(parsedId));
        |store.cart| == |old(store.cart)| + 1 &&
        store.cart[..|old(store.cart)|] == old(store.cart) &&
        store.cart[|old(store.cart)|].productId == p.id &&
        store.cart[|old(store.cart)|].quantity == OrOne(parsedQuantity) &&
        1 <= store.cart[|old(store.cart)|].quantity <= 10 &&
        store.cart[|old(store.cart)|] ==
          Snapshot(p, now, ChosenSize(p, selectedSize), OrOne(parsedQuantity), ChosenColor(p, selectedColor))
    {
      var product := CurrentProduct(products, RequestedId(parsedId));
      var size := ChosenSize(product, selectedSize);
      var quantity := OrOne(parsedQuantity);
      if !QuantityAccepted(quantity) {
        return false;
      }
      var color := ChosenColor(product, selectedColor);
      FindProductFindsEach(products, product);
      AddToCart(product.id, size, quantity, color, now);
      added := true;
    }
  }

  /** An empty cart shows "0.00". */
  lemma EmptyCartShowsZero()
    ensures CartValue([]) == 0 && FormatCents(0) == "0.00"
  {
    assert Digits(0) == "0";
    assert Padded(0, 2) == "00";
  }
}
