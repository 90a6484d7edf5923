/** The product detail page: the main image and its thumbnail strip, the
    category label, the prices and the two buttons. */
module DetailPage {
  import opened Types
  import opened CartEngine
  import opened Storefront
  import opened Catalog

  /** The category label above the product's name. */
  function CategoryLabel(c: Category): string
  {
    match c
    case Doors => "أبواب"
    case Windows => "نوافذ"
    case Wedding => "أعراس"
    case _ => "أخرى"
  }

  /** Doors, windows and wedding pieces have labels of their own; home and
      tools pieces share the fallback label. */
  lemma CategoryLabels(c: Category, d: Category)
    ensures CategoryLabel(c) == CategoryLabel(d) <==> c == d || (c in {Home, Tools} && d in {Home, Tools})
  {
    assert CategoryLabel(Doors)[0] != CategoryLabel(Windows)[0];
    assert CategoryLabel(Doors)[1] != CategoryLabel(Wedding)[1];
    assert CategoryLabel(Doors)[1] != CategoryLabel(Home)[1];
    assert CategoryLabel(Windows)[0] != CategoryLabel(Wedding)[0];
    assert CategoryLabel(Windows)[0] != CategoryLabel(Home)[0];
    assert CategoryLabel(Wedding)[1] != CategoryLabel(Home)[1];
  }

  /** The thumbnail strip shows only when there is more than one image. */
  predicate ShowsThumbnails(p: Product)
  {
    |p.images| > 1
  }

  /** The detail page's own state: the image shown large. It starts as the
      first image, which is undefined for a product without images. */
  class ProductDetailView {
    const product: Product
    var mainImage: Option<string>

    /** The main image is one of the product's images, or undefined exactly
        when there are none. */
    ghost predicate Valid()
      reads this
    {
      if product.images == [] then mainImage == None
      else mainImage.Some? && mainImage.value in product.images
    }

    constructor (p: Product)
      ensures product == p && Valid()
      ensures mainImage == if p.images == [] then None else Some(p.images[0])
    {
      product := p;
      mainImage := if p.images == [] then None else Some(p.images[0]);
    }

    /** A thumbnail of the strip makes its image the main one. */
    method ClickThumbnail(idx: nat)
      requires Valid() && ShowsThumbnails(product) && idx < |product.images|
      modifies this
      ensures mainImage == Some(product.images[idx]) && Valid()
    {
      mainImage := Some(product.images[idx]);
    }

    /** The old price above the price. */
    function OldPrice(): (s: OldPriceSlot)
      ensures s.StruckPrice? <==> product.oldPrice.Some? && product.oldPrice.value != 0
    {
      OldPriceSlotFor(product)
    }

    /** The add-to-cart button adds the product shown, unchanged. */
    method PressAddToCart(app: App)
      requires app.Valid()
      modifies app
      ensures app.State() == old(app.State()).(cart := AddToCart(old(app.cart), product))
      ensures app.Valid()
    {
      app.HandleAddToCart(product);
    }

    /** The back button returns to the product list. */
    method Back(app: App)
      modifies app
      ensures app.State() == old(app.State()).(view := Products)
    {
      app.SetView(Products);
    }
  }
}
