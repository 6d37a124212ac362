/** The storefront's record shapes (frontend/src/store/types/index.ts) and the
    product list bundled with the frontend
    (frontend/src/store/data/storeProducts.ts). Prices are integer cents. */
module StoreTypes {
  import opened Wrappers

  /** One size's measurements in a size chart. */
  datatype Measurement = Measurement(bodyLength: string, chestWidth: string, sleeveLength: string)

  datatype SizeChart = SizeChart(sizes: seq<string>, measurements: map<string, Measurement>)

  /** `Product`; the optional fields of the interface are `Option`s. */
  datatype Product = Product(
    id: string,
    mainCategory: string,
    title: string,
    price: int,
    image: string,
    images: Option<seq<string>>,
    description: string,
    fullDescription: Option<string>,
    details: Option<string>,
    sizeChart: Option<SizeChart>,
    sizes: Option<seq<string>>,
    colors: Option<seq<string>>)

  /** `CartItem`. */
  datatype CartItem = CartItem(id: string, title: string, price: int, image: string,
                               description: string, quantity: int)

  /** The chart shared by the cursive button-up shirt in the bundled list and in
      the catalog's local fallback data. */
  function CursiveSizeChart(): SizeChart {
    SizeChart(["S", "M", "L", "XL", "2XL", "3XL"],
      map[
        "S" := Measurement("27 1/2", "21 1/2", "34"),
        "M" := Measurement("28 1/2", "23", "35"),
        "L" := Measurement("29 1/2", "24 1/2", "36"),
        "XL" := Measurement("30 1/2", "26", "37"),
        "2XL" := Measurement("31", "27 1/2", "38"),
        "3XL" := Measurement("31 1/2", "29", "38 3/4")])
  }

  const CursiveDetails: string :=
    "2.9 oz./yd² (US), 4.8 oz./L yd (CA), 100% polyester\n" +
    "Mechanical stretch two-tone mélange fabric\n" +
    "Moisture-wicking performance\n" +
    "Hidden button-down collar\n" +
    "Double-needle flat-felled side and underarm seams\n" +
    "Tailored adjustable cuffs with buttoned sleeve plackets\n" +
    "Back yoke with side pleats"

  /** `storeProducts`: the one product shipped with the frontend. */
  const StoreProducts: seq<Product> := [
    Product(
      "balm-shirt-2", "art", "BALM Chest Print Button-Up Cursive", 2500,
      "/img/products/balm-cursive.png",
      Some([
        "/img/products/balm-cursive.png",
        "/img/products/balm-cursive-1-longhair.png",
        "/img/products/balm-cursive-1-sideways.png",
        "/img/products/balm-cursive-1-duo.png",
        "/img/products/balm-cursive-1-cream.png"]),
      "", None, Some(CursiveDetails), Some(CursiveSizeChart()),
      Some(["L", "XL"]), Some(["Black", "White", "Navy"]))]
}
