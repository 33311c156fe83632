/**
 * The app's data model: store ids (model/StoreId.kt), the store-settings
 * protobuf messages (`Store`, `StoreSettings`, `StoresSettings`), the product
 * record (model/Product.kt, storage/room/ProductRoom.kt) and the product order
 * (model/ProductsOrder.kt).
 */
module Model {
  import opened Results

  /** model/StoreId.kt */
  datatype StoreId = Unknown | Esselunga | Carrefour | Tigros {
    function Value(): int {
      match this
      case Unknown => -1
      case Esselunga => 0
      case Carrefour => 1
      case Tigros => 2
    }
  }

  /** The inverse of `value` over the entries declared in model/StoreId.kt. */
  function StoreIdOf(v: int): (r: Option<StoreId>)
    ensures r.Some? ==> r.value.Value() == v
    ensures r.None? ==> v !in {-1, 0, 1, 2}
  {
    if v == -1 then Some(Unknown)
    else if v == 0 then Some(Esselunga)
    else if v == 1 then Some(Carrefour)
    else if v == 2 then Some(Tigros)
    else None
  }

  /** Toggle stores have one implicit outlet; Selectable stores need an outlet url. */
  datatype StoreType = Toggle | Selectable

  /** The `Store` message: the last seen promotion code and the outlet url. */
  datatype Store = Store(codPromo: int, url: string)

  /** What protobuf's `getStore()` yields for an entry whose store is unset. */
  const DefaultStore: Store := Store(0, "")

  /** One `StoreSettings` entry; `store` is `storeOrNull`. */
  datatype StoreSettings = StoreSettings(storeType: StoreType, store: Option<Store>) {
    function StoreOrDefault(): Store {
      if store.Some? then store.value else DefaultStore
    }
  }

  /** The whole `StoresSettings` message: entries keyed by store id, plus a version. */
  datatype StoresSettings = StoresSettings(entries: map<int, StoreSettings>, version: int)

  /** `StoresSettings.getDefaultInstance()`: what the DataStore holds before seeding. */
  const DefaultStoresSettings: StoresSettings := StoresSettings(map[], 0)

  /** Values found in the products' free-form `json` payload and in the cloud copy of the settings. */
  datatype JsonValue = JInt(i: int) | JReal(r: real) | JBool(b: bool) | JText(s: string)

  type JsonObject = map<string, JsonValue>

  /**
   * A product.  `ProductRoom` is the same record as a row object of the
   * table (a `ProductRoom` instance); `Product` is a plain `Product` built by
   * the scrapers.  Prices are the reported values, unconverted.
   */
  datatype Product =
    | Product(productName: string, storeId: int, originalPrice: Option<real>,
              discountedPrice: real, category: string, isFavorite: bool,
              json: Option<JsonObject>)
    | ProductRoom(productName: string, storeId: int, originalPrice: Option<real>,
                  discountedPrice: real, category: string, isFavorite: bool,
                  json: Option<JsonObject>)
  {
    /** The table's composite primary key (`primaryKeys = ["productName", "storeId"]`). */
    function Key(): (string, int) {
      (productName, storeId)
    }
  }

  /** model/ProductsOrder.kt */
  datatype ProductsOrder = Asc | Desc
}
