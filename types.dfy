/** The records of the storefront: categories, the three product photos and the product itself. */
module Types {

  /** A value or its absence (`Product | null`). */
  datatype Option<T> = None | Some(value: T)

  /** The three tabs of the catalog. */
  datatype Category = Iphone | Xiaomi | Demais

  datatype StockStatus = InStock | LastUnits | OutOfStock

  /** The three photo angles a product may have. */
  datatype ImageKey = Front | Side | Back

  /** A product's photos. An empty string means there is no photo for that angle. */
  datatype Images = Images(front: string, side: string, back: string) {

    /** `images[key]`. */
    function Get(key: ImageKey): string {
      match key
      case Front => front
      case Side => side
      case Back => back
    }

    /** `images[key]` is truthy: a photo for that angle exists. */
    predicate Has(key: ImageKey) {
      Get(key) != []
    }
  }

  /** A catalog entry. Prices are in reais; `availableQuantity` is independent of
      `stockStatus`. */
  datatype Product = Product(
    id: string,
    name: string,
    category: Category,
    basePrice: real,
    finalPrice: real,
    colors: seq<string>,
    specs: seq<string>,
    description: string,
    images: Images,
    stockStatus: StockStatus,
    availableQuantity: int)
}
