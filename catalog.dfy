/** The WooCommerce filters that turn a waitlist product into a
    non-purchasable one (`make_not_purchasable`, `variation_not_purchasable`,
    `remove_variations`) and the product test they rely on
    (`is_waitlist_product`). Category membership itself is the platform's
    `has_term` lookup. */
module Catalog {
  import opened Php
  import opened Platform
  import opened Settings

  /** What the filters receive as `$product`: a bare numeric id, or a product
      object, which is a variation with a parent product or not. */
  datatype ProductRef =
    | NumericId(id: nat)
    | ProductObject(id: nat, isVariation: bool, parentId: nat)

  /** The id whose categories decide: a variation is judged by its parent. */
  function CatalogId(product: ProductRef): nat {
    match product
    case NumericId(id) => id
    case ProductObject(id, isVariation, parentId) => if isVariation then parentId else id
  }

  /** `$settings['category_slug'] ?: 'waitlist'`. */
  function WaitlistCategory(settings: Blob): (slug: string)
    ensures !Falsy(slug)
    ensures !Falsy(Setting(settings, CategorySlug)) ==> slug == Setting(settings, CategorySlug)
    ensures Falsy(Setting(settings, CategorySlug)) ==> slug == DefaultCategorySlug
  {
    var slug := Setting(settings, CategorySlug);
    if Falsy(slug) then DefaultCategorySlug else slug
  }

  /** `is_waitlist_product($product)`: a variation is judged by its parent
      product, and without saved settings the category is "waitlist". */
  predicate IsWaitlistProduct(p: Platform, stored: Option<Blob>, product: ProductRef): (b: bool)
    ensures product.ProductObject? && product.isVariation ==>
              (b <==> p.hasTerm(WaitlistCategory(GetSettings(stored)), product.parentId))
    ensures product.NumericId? || !product.isVariation ==>
              (b <==> p.hasTerm(WaitlistCategory(GetSettings(stored)), product.id))
    ensures stored.None? ==> (b <==> p.hasTerm(DefaultCategorySlug, CatalogId(product)))
  {
    p.hasTerm(WaitlistCategory(GetSettings(stored)), CatalogId(product))
  }

  /** `make_not_purchasable`: the filter only ever withdraws purchasability,
      and does so exactly for waitlist products. */
  function MakeNotPurchasable(p: Platform, stored: Option<Blob>, purchasable: bool, product: ProductRef): (r: bool)
    ensures r ==> purchasable
    ensures r <==> purchasable && !IsWaitlistProduct(p, stored, product)
  {
    if IsWaitlistProduct(p, stored, product) then false else purchasable
  }

  /** `variation_not_purchasable`: the same rule applied to a variation. */
  function VariationNotPurchasable(p: Platform, stored: Option<Blob>, purchasable: bool, variation: ProductRef): (r: bool)
    ensures r ==> purchasable
    ensures r <==> purchasable && !IsWaitlistProduct(p, stored, variation)
  {
    if IsWaitlistProduct(p, stored, variation) then false else purchasable
  }

  /** `remove_variations`: outside the admin screens a waitlist product shows
      no variations; everything else passes through unchanged. */
  function RemoveVariations<V>(p: Platform, stored: Option<Blob>, isAdmin: bool, variations: seq<V>, product: ProductRef): (r: seq<V>)
    ensures r == [] || r == variations
    ensures !isAdmin && IsWaitlistProduct(p, stored, product) ==> r == []
    ensures isAdmin || !IsWaitlistProduct(p, stored, product) ==> r == variations
  {
    if isAdmin then variations
    else if IsWaitlistProduct(p, stored, product) then []
    else variations
  }

  /** A variation is withheld from sale exactly when its parent product is. */
  lemma VariationFollowsParent(p: Platform, stored: Option<Blob>, purchasable: bool, variationId: nat, parentId: nat)
    ensures VariationNotPurchasable(p, stored, purchasable, ProductObject(variationId, true, parentId))
         == MakeNotPurchasable(p, stored, purchasable, ProductObject(parentId, false, 0))
  {
  }

  /** Running a filter on its own output changes nothing. */
  lemma FiltersIdempotent<V>(p: Platform, stored: Option<Blob>, purchasable: bool, isAdmin: bool, variations: seq<V>, product: ProductRef)
    ensures MakeNotPurchasable(p, stored, MakeNotPurchasable(p, stored, purchasable, product), product)
         == MakeNotPurchasable(p, stored, purchasable, product)
    ensures RemoveVariations(p, stored, isAdmin, RemoveVariations(p, stored, isAdmin, variations, product), product)
         == RemoveVariations(p, stored, isAdmin, variations, product)
  {
  }
}
