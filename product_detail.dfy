/** The product detail page, in its two copies: the one under
    AnticcaReale-main/src/pages/ProductDetailPage.tsx (adds one unit to the cart) and the
    nested one under AnticcaReale-main/AnticcaReale-main/src/pages/ProductDetailPage.tsx
    (with a quantity selector). Both share the image carousel and the related-products strip. */
module ProductDetail {
  import opened Types
  import opened Seqs

  // ---------------------------------------------------------------- image carousel

  /** `handlePrevImage`'s updater in a gallery of `count` images. */
  function PrevImage(prev: int, count: int): int
  {
    if prev == 0 then count - 1 else prev - 1
  }

  /** `handleNextImage`'s updater in a gallery of `count` images. */
  function NextImage(prev: int, count: int): int
  {
    if prev == count - 1 then 0 else prev + 1
  }

  /** Prev steps back one image and wraps from the first to the last; next steps forward
      and wraps from the last to the first; from a shown image both stay in the gallery. */
  lemma ImageStepsWrap(i: int, count: int)
    requires 0 <= i < count
    ensures PrevImage(i, count) == (i - 1) % count
    ensures NextImage(i, count) == (i + 1) % count
    ensures 0 <= PrevImage(i, count) < count && 0 <= NextImage(i, count) < count
  {
    if i == 0 {
      assert -1 == count * (-1) + (count - 1);
    } else {
      assert i - 1 == count * 0 + (i - 1);
    }
    if i == count - 1 {
      assert i + 1 == count * 1 + 0;
    } else {
      assert i + 1 == count * 0 + (i + 1);
    }
  }

  /** Prev and next undo each other on every shown image. */
  lemma ImageStepsInverse(i: int, count: int)
    requires 0 <= i < count
    ensures PrevImage(NextImage(i, count), count) == i
    ensures NextImage(PrevImage(i, count), count) == i
  {
  }

  /** The image reached after pressing next `k` times. */
  function NextTimes(i: int, count: int, k: nat): int
  {
    if k == 0 then i else NextImage(NextTimes(i, count, k - 1), count)
  }

  /** `x` brought back into `[0, count)` by whole laps. */
  function Wrap(x: int, count: int): int
    requires 0 <= x && 0 < count
    decreases x
  {
    if x < count then x else Wrap(x - count, count)
  }

  lemma {:induction false} WrapSucc(x: int, count: int)
    requires 0 <= x && 0 < count
    ensures 0 <= Wrap(x, count) < count
    ensures Wrap(x + 1, count) == if Wrap(x, count) == count - 1 then 0 else Wrap(x, count) + 1
    decreases x
  {
    if x >= count {
      WrapSucc(x - count, count);
    }
  }

  /** Pressing next `k` times rotates the gallery by `k` places; after `count` presses the
      carousel is back where it started. */
  lemma {:induction false} NextTimesRotates(i: int, count: int, k: nat)
    requires 0 <= i < count
    ensures NextTimes(i, count, k) == Wrap(i + k, count)
    ensures k == count ==> NextTimes(i, count, k) == i
  {
    if k > 0 {
      NextTimesRotates(i, count, k - 1);
      WrapSucc(i + k - 1, count);
    }
    if k == count {
      assert Wrap(i + k, count) == Wrap(i, count);
    }
  }

  // ---------------------------------------------------------------- related products

  function NotProduct(id: string): Product -> bool
  {
    (p: Product) => p.id != id
  }

  /** `filteredRelated`: the shop's newest products other than the one on show, at most four. */
  function FilteredRelated(related: seq<Product>, current: Product): seq<Product>
  {
    Take(Filter(related, NotProduct(current.id)), 4)
  }

  /** The strip never shows the current product, shows at most four products, all from the
      fetched list; when the list is short enough, every other product is shown. */
  lemma FilteredRelatedContract(related: seq<Product>, current: Product)
    ensures |FilteredRelated(related, current)| <= 4
    ensures forall i :: 0 <= i < |FilteredRelated(related, current)| ==>
      FilteredRelated(related, current)[i].id != current.id && FilteredRelated(related, current)[i] in related
    ensures |related| <= 4 ==>
      forall p :: p in FilteredRelated(related, current) <==> p in related && p.id != current.id
  {
    var kept := Filter(related, NotProduct(current.id));
    FilterSound(related, NotProduct(current.id));
    var r := FilteredRelated(related, current);
    assert r == kept[..|r|];
    forall i | 0 <= i < |r|
      ensures r[i].id != current.id && r[i] in related
    {
      assert r[i] == kept[i];
      FilterMembership(related, NotProduct(current.id), r[i]);
    }
    if |related| <= 4 {
      assert r == kept;
      forall p
        ensures p in r <==> p in related && p.id != current.id
      {
        FilterMembership(related, NotProduct(current.id), p);
      }
    }
  }

  // ---------------------------------------------------------------- quantity selector

  /** The minus button of the nested page. */
  function Decrement(quantity: int): int
  {
    if 1 >= quantity - 1 then 1 else quantity - 1
  }

  /** The plus button of the nested page. */
  function Increment(quantity: int, stock: int): int
  {
    if stock <= quantity + 1 then stock else quantity + 1
  }

  /** Both buttons keep an in-stock quantity in stock; minus never goes below one and plus
      never above the stock, whatever the quantity was. */
  lemma QuantityStaysInStock(quantity: int, stock: int)
    ensures Decrement(quantity) >= 1 && Increment(quantity, stock) <= stock
    ensures 1 <= quantity <= stock ==>
      1 <= Decrement(quantity) <= stock && 1 <= Increment(quantity, stock) <= stock
  {
  }

  /** Away from the bounds, the two buttons undo each other; at the bounds, they are idle. */
  lemma QuantityStepsInverse(quantity: int, stock: int)
    ensures 1 <= quantity < stock ==> Decrement(Increment(quantity, stock)) == quantity
    ensures 1 < quantity <= stock ==> Increment(Decrement(quantity), stock) == quantity
    ensures quantity == 1 ==> Decrement(quantity) == quantity
    ensures quantity == stock ==> Increment(quantity, stock) == quantity
  {
  }

  datatype QuantityButton = Minus | Plus

  /** The quantity after a sequence of button presses, first press first. */
  function Pressed(quantity: int, stock: int, presses: seq<QuantityButton>): int
    decreases |presses|
  {
    if presses == [] then quantity
    else
      var q := if presses[0] == Minus then Decrement(quantity) else Increment(quantity, stock);
      Pressed(q, stock, presses[1..])
  }

  /** From an in-stock quantity (the page starts at one), any sequence of presses on an
      in-stock product leaves a quantity between one and the stock. */
  lemma {:induction false} PressesStayInStock(quantity: int, stock: int, presses: seq<QuantityButton>)
    requires 1 <= quantity <= stock
    ensures 1 <= Pressed(quantity, stock, presses) <= stock
    decreases |presses|
  {
    if presses != [] {
      QuantityStaysInStock(quantity, stock);
      var q := if presses[0] == Minus then Decrement(quantity) else Increment(quantity, stock);
      PressesStayInStock(q, stock, presses[1..]);
    }
  }

  // ---------------------------------------------------------------- the two pages

  /** A call of the cart context's `addToCart`. */
  datatype CartAdd = CartAdd(product: Product, quantity: int)

  /** The page without a quantity selector. */
  class ProductDetailPage {
    var selectedImage: int
    var addedToCart: bool
    var cartAdds: seq<CartAdd>

    constructor ()
      ensures selectedImage == 0 && !addedToCart && cartAdds == []
    {
      selectedImage := 0;
      addedToCart := false;
      cartAdds := [];
    }

    /** `handleAddToCart`: one unit of an in-stock product. */
    method HandleAddToCart(product: Option<Product>)
      modifies this
      ensures product.Some? && product.value.stock > 0 ==>
        cartAdds == old(cartAdds) + [CartAdd(product.value, 1)] && addedToCart
      ensures !(product.Some? && product.value.stock > 0) ==>
        cartAdds == old(cartAdds) && addedToCart == old(addedToCart)
      ensures selectedImage == old(selectedImage)
    {
      if product.Some? && product.value.stock > 0 {
        cartAdds := cartAdds + [CartAdd(product.value, 1)];
        addedToCart := true;
      }
    }

    /** `handlePrevImage`. */
    method HandlePrevImage(product: Option<Product>)
      modifies this
      ensures product.Some? ==> selectedImage == PrevImage(old(selectedImage), |product.value.images|)
      ensures product.None? ==> selectedImage == old(selectedImage)
      ensures product.Some? && 0 <= old(selectedImage) < |product.value.images| ==>
        0 <= selectedImage < |product.value.images|
      ensures cartAdds == old(cartAdds) && addedToCart == old(addedToCart)
    {
      if product.Some? {
        var n := |product.value.images|;
        if 0 <= selectedImage < n {
          ImageStepsWrap(selectedImage, n);
        }
        selectedImage := if selectedImage == 0 then n - 1 else selectedImage - 1;
      }
    }

    /** `handleNextImage`. */
    method HandleNextImage(product: Option<Product>)
      modifies this
      ensures product.Some? ==> selectedImage == NextImage(old(selectedImage), |product.value.images|)
      ensures product.None? ==> selectedImage == old(selectedImage)
      ensures product.Some? && 0 <= old(selectedImage) < |product.value.images| ==>
        0 <= selectedImage < |product.value.images|
      ensures cartAdds == old(cartAdds) && addedToCart == old(addedToCart)
    {
      if product.Some? {
        var n := |product.value.images|;
        if 0 <= selectedImage < n {
          ImageStepsWrap(selectedImage, n);
        }
        selectedImage := if selectedImage == n - 1 then 0 else selectedImage + 1;
      }
    }

    /** A thumbnail click. */
    method SelectImage(index: int)
      modifies this
      ensures selectedImage == index
      ensures cartAdds == old(cartAdds) && addedToCart == old(addedToCart)
    {
      selectedImage := index;
    }
  }

  /** The nested page: the same carousel plus a quantity selector. */
  class ProductDetailPageWithQuantity {
    var selectedImage: int
    var quantity: int
    var addedToCart: bool
    var cartAdds: seq<CartAdd>

    constructor ()
      ensures selectedImage == 0 && quantity == 1 && !addedToCart && cartAdds == []
    {
      selectedImage := 0;
      quantity := 1;
      addedToCart := false;
      cartAdds := [];
    }

    predicate QuantityInStock(stock: int)
      reads this
    {
      1 <= quantity <= stock
    }

    /** The minus button. */
    method DecreaseQuantity()
      modifies this
      ensures quantity == Decrement(old(quantity)) && quantity >= 1
      ensures forall stock :: old(QuantityInStock(stock)) ==> QuantityInStock(stock)
      ensures selectedImage == old(selectedImage) && cartAdds == old(cartAdds) && addedToCart == old(addedToCart)
    {
      quantity := if 1 >= quantity - 1 then 1 else quantity - 1;
    }

    /** The plus button, shown only for an in-stock product. */
    method IncreaseQuantity(product: Product)
      modifies this
      ensures quantity == Increment(old(quantity), product.stock) && quantity <= product.stock
      ensures old(QuantityInStock(product.stock)) ==> QuantityInStock(product.stock)
      ensures selectedImage == old(selectedImage) && cartAdds == old(cartAdds) && addedToCart == old(addedToCart)
    {
      QuantityStaysInStock(quantity, product.stock);
      quantity := if product.stock <= quantity + 1 then product.stock else quantity + 1;
    }

    /** `handleAddToCart`: the chosen quantity of an in-stock product. */
    method HandleAddToCart(product: Option<Product>)
      modifies this
      ensures product.Some? && product.value.stock > 0 ==>
        cartAdds == old(cartAdds) + [CartAdd(product.value, old(quantity))] && addedToCart
      ensures !(product.Some? && product.value.stock > 0) ==>
        cartAdds == old(cartAdds) && addedToCart == old(addedToCart)
      ensures selectedImage == old(selectedImage) && quantity == old(quantity)
    {
      if product.Some? && product.value.stock > 0 {
        cartAdds := cartAdds + [CartAdd(product.value, quantity)];
        addedToCart := true;
      }
    }

    /** `handlePrevImage`. */
    method HandlePrevImage(product: Option<Product>)
      modifies this
      ensures product.Some? ==> selectedImage == PrevImage(old(selectedImage), |product.value.images|)
      ensures product.None? ==> selectedImage == old(selectedImage)
      ensures product.Some? && 0 <= old(selectedImage) < |product.value.images| ==>
        0 <= selectedImage < |product.value.images|
      ensures quantity == old(quantity) && cartAdds == old(cartAdds) && addedToCart == old(addedToCart)
    {
      if product.Some? {
        var n := |product.value.images|;
        if 0 <= selectedImage < n {
          ImageStepsWrap(selectedImage, n);
        }
        selectedImage := if selectedImage == 0 then n - 1 else selectedImage - 1;
      }
    }

    /** `handleNextImage`. */
    method HandleNextImage(product: Option<Product>)
      modifies this
      ensures product.Some? ==> selectedImage == NextImage(old(selectedImage), |product.value.images|)
      ensures product.None? ==> selectedImage == old(selectedImage)
      ensures product.Some? && 0 <= old(selectedImage) < |product.value.images| ==>
        0 <= selectedImage < |product.value.images|
      ensures quantity == old(quantity) && cartAdds == old(cartAdds) && addedToCart == old(addedToCart)
    {
      if product.Some? {
        var n := |product.value.images|;
        if 0 <= selectedImage < n {
          ImageStepsWrap(selectedImage, n);
        }
        selectedImage := if selectedImage == n - 1 then 0 else selectedImage + 1;
      }
    }
  }
}
