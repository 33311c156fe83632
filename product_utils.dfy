/** util/ProductUtils.kt: the picture shown for a product. */
module ProductUtilities {
  import opened Results
  import opened Model
  import opened Text
  import opened CarrefourScrapers
  import EsselungaScrapers

  const ImageUrlKey := "imageUrl"

  /**
   * The picture of a product: the value stored under "imageUrl" (read as
   * text by `getString`), a category icon, or none (`null`).
   */
  datatype Image = ImageUrl(value: JsonValue) | Icon(image: string) | NoImage

  predicate HasImageUrl(p: Product) {
    p.json.Some? && ImageUrlKey in p.json.value
  }

  /**
   * `getProductImage`: the stored image url comes first, whatever the store;
   * otherwise a CARREFOUR product shows the icon of its category, which
   * raises when no CARREFOUR category has that id; otherwise there is none.
   */
  function GetProductImage(p: Product): (c: Completion<Image>)
    ensures HasImageUrl(p) ==> c == Returned(ImageUrl(p.json.value[ImageUrlKey]))
    ensures !HasImageUrl(p) && p.storeId == Carrefour.Value() ==>
              (c.Thrown? <==> p.category !in CarrefourCategoryIds()) &&
              (c.Thrown? ==> c.crash == NoSuchElement) &&
              (c.Returned? ==> c == Returned(Icon(GetIcon(p.category).result)))
    ensures !HasImageUrl(p) && p.storeId != Carrefour.Value() ==> c == Returned(NoImage)
  {
    if HasImageUrl(p) then Returned(ImageUrl(p.json.value[ImageUrlKey]))
    else if p.storeId == Carrefour.Value() then
      match GetIcon(p.category)
      case Thrown(e) => Thrown(e)
      case Returned(icon) => Returned(Icon(icon))
    else Returned(NoImage)
  }

  /** An ESSELUNGA product shows the picture url of the item it was built from. */
  lemma EsselungaProductImage(item: EsselungaScrapers.EsselungaItem, category: string)
    requires EsselungaScrapers.Readable(item)
    ensures GetProductImage(EsselungaScrapers.EsselungaProduct(item, category)) == Returned(ImageUrl(JText(item.imgUrl)))
  {
  }

  /**
   * A CARREFOUR product built for the i-th category carries no image url,
   * so it shows that category's icon and never raises.
   */
  lemma CarrefourProductImage(item: CarrefourItem, i: nat)
    requires Readable(item) && i < |CarrefourCategories|
    ensures GetProductImage(CarrefourProduct(item, CarrefourCategories[i].id)) ==
            Returned(Icon(CarrefourCategories[i].image))
  {
    GetIconOfEntry(i);
    NoImageUrl(item);
  }

  /** None of the keys a CARREFOUR product's json can hold is "imageUrl" (they all differ from it in length). */
  lemma NoImageUrl(item: CarrefourItem)
    requires Readable(item)
    ensures ImageUrlKey !in CarrefourJson(item)
  {
    var keys := {"brand", "discountedUnitPrice", "discountPercentage", "originalUnitPrice", "promotionName",
                 "promotionEndDate"};
    assert CarrefourJson(item).Keys <= keys;
    assert forall k | k in keys :: |k| != |ImageUrlKey|;
  }
}
