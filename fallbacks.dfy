/** The category-to-placeholder tables. The exact table is keyed by the store's own
    category names and is shared, character for character, by `getFallbackImage` and
    both product cards; the short table, keyed by lower-case words, belongs to
    `OptimizedImage`. */
module Fallbacks {
  import opened Js
  import opened Text

  const SmartphonesImage: string := "https://images.unsplash.com/photo-1511707171634-5f897ff02aa9?w=400&h=300&fit=crop&crop=center&auto=format&q=80"
  const LaptopsImage: string := "https://images.unsplash.com/photo-1496181133206-80ce9b88a853?w=400&h=300&fit=crop&crop=center&auto=format&q=80"
  const TabletsImage: string := "https://images.unsplash.com/photo-1544244015-0df4b3ffc6b0?w=400&h=300&fit=crop&crop=center&auto=format&q=80"
  const WatchesImage: string := "https://images.unsplash.com/photo-1523275335684-37898b6baf30?w=400&h=300&fit=crop&crop=center&auto=format&q=80"
  const HeadphonesImage: string := "https://images.unsplash.com/photo-1505740420928-5e560c06d30e?w=400&h=300&fit=crop&crop=center&auto=format&q=80"
  const GamingImage: string := "https://images.unsplash.com/photo-1606144042614-b2417e99c4e3?w=400&h=300&fit=crop&crop=center&auto=format&q=80"
  const CamerasImage: string := "https://images.unsplash.com/photo-1502920917128-1aa500764cbd?w=400&h=300&fit=crop&crop=center&auto=format&q=80"
  const SmartHomeImage: string := "https://images.unsplash.com/photo-1558618666-fcd25c85cd64?w=400&h=300&fit=crop&crop=center&auto=format&q=80"
  const DisplaysImage: string := "https://images.unsplash.com/photo-1593359677879-a4bb92f829d1?w=400&h=300&fit=crop&crop=center&auto=format&q=80"
  const ElectronicsImage: string := "https://images.unsplash.com/photo-1498049794561-7780e7231661?w=400&h=300&fit=crop&crop=center&auto=format&q=80"
  const GadgetsImage: string := "https://images.unsplash.com/photo-1560472354-b33ff0c44a43?w=400&h=300&fit=crop&crop=center&auto=format&q=80"

  /** The `default` entry of both tables; it is the same picture as the smartphones one. */
  const DefaultImage: string := "https://images.unsplash.com/photo-1511707171634-5f897ff02aa9?w=400&h=300&fit=crop&crop=center&auto=format&q=80"

  /** The exact, case-sensitive table: eleven category names and `default`. */
  const CategoryImages: map<string, string> := map[
    "Smartphones" := SmartphonesImage,
    "Laptops & Computers" := LaptopsImage,
    "Tablets" := TabletsImage,
    "Smart Watches" := WatchesImage,
    "Headphones & Audio" := HeadphonesImage,
    "Gaming Consoles" := GamingImage,
    "Cameras & Photography" := CamerasImage,
    "Smart Home Devices" := SmartHomeImage,
    "Televisions & Displays" := DisplaysImage,
    "Electronics" := ElectronicsImage,
    "Gadgets" := GadgetsImage,
    "default" := DefaultImage
  ]

  /** `fallbackImages[category] || fallbackImages.default`; an `undefined` category
      looks up the key "undefined", which the table does not have. */
  function FallbackImage(category: Option<string>): (url: string)
    ensures url in CategoryImages.Values
    ensures url != ""
  {
    var key := if category.Some? then category.value else "undefined";
    assert CategoryImages["default"] == DefaultImage;
    if key in CategoryImages && CategoryImages[key] != "" then CategoryImages[key] else DefaultImage
  }

  /** The lookup is exact: a listed key gets its own entry, anything else the default. */
  lemma FallbackImageExact(category: Option<string>)
    ensures category.Some? && category.value in CategoryImages ==>
      FallbackImage(category) == CategoryImages[category.value]
    ensures (category.None? || category.value !in CategoryImages) ==> FallbackImage(category) == DefaultImage
  {
    assert "undefined" !in CategoryImages;
  }

  /** Keys are case-sensitive: "Tablets" finds its picture, "tablets" does not. */
  lemma FallbackImageCaseSensitive()
    ensures FallbackImage(Some("Tablets")) == TabletsImage
    ensures FallbackImage(Some("tablets")) == DefaultImage
  {
    assert "tablets" !in CategoryImages;
  }

  /** `OptimizedImage`'s own table, keyed by lower-case short words. */
  const ShortCategoryImages: map<string, string> := map[
    "smartphones" := SmartphonesImage,
    "laptops" := LaptopsImage,
    "tablets" := TabletsImage,
    "watches" := WatchesImage,
    "headphones" := HeadphonesImage,
    "gaming" := GamingImage,
    "cameras" := CamerasImage,
    "smart_home" := SmartHomeImage,
    "tv" := DisplaysImage,
    "default" := DefaultImage
  ]

  /** `categoryFallbacks[category.toLowerCase()] || categoryFallbacks.default`, where a
      missing `category` prop takes its default value "default". */
  function ShortFallbackImage(category: Option<string>): (url: string)
    ensures url in ShortCategoryImages.Values
    ensures url != ""
  {
    var key := Lower(if category.Some? then category.value else "default");
    assert ShortCategoryImages["default"] == DefaultImage;
    if key in ShortCategoryImages && ShortCategoryImages[key] != "" then ShortCategoryImages[key] else DefaultImage
  }

  /** The short lookup ignores case and sends every unlisted key to the default. */
  lemma ShortFallbackImageLookup(category: string)
    ensures Lower(category) in ShortCategoryImages ==>
      ShortFallbackImage(Some(category)) == ShortCategoryImages[Lower(category)]
    ensures Lower(category) !in ShortCategoryImages ==> ShortFallbackImage(Some(category)) == DefaultImage
  {
  }

  /** Of the store's own category names, the short table knows only "Smartphones" and
      "Tablets" (after lower-casing); "Laptops & Computers", for one, falls to the default. */
  lemma ShortTableMissesStoreNames()
    ensures ShortFallbackImage(Some("Tablets")) == TabletsImage
    ensures ShortFallbackImage(Some("Laptops & Computers")) == DefaultImage
    ensures ShortFallbackImage(None) == DefaultImage
  {
    assert Lower("Tablets") == "tablets";
    assert Lower("Laptops & Computers") == "laptops & computers";
    assert Lower("default") == "default";
  }
}
