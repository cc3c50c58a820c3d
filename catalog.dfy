/**
 * The static catalog: celebrity personas and products, as records, with the
 * storefront's bundled data as fixture constants (src/mock/data.js).
 */
module Catalog {

  /** A celebrity persona; `matchPercentage` is shown but never used by the logic. */
  datatype Celebrity = Celebrity(
    id: int,
    name: string,
    image: string,
    vibeTags: seq<string>,
    description: string,
    matchPercentage: int)

  /** A product; `price` is a whole amount of rupees, `category` one of five labels. */
  datatype Product = Product(
    id: int,
    name: string,
    price: int,
    originalPrice: int,
    image: string,
    category: string,
    celebrityId: int,
    vibeTags: seq<string>,
    purity: string,
    color: string,
    description: string,
    deliveryTime: string)

  const Rihanna := Celebrity(1, "RIHANNA", "/images/celebrities/rihanna.jpg",
    ["Bold", "Statement", "Edgy"], "Fearless, bold statement pieces.", 88)
  const BlakeLively := Celebrity(2, "BLAKE LIVELY", "/images/celebrities/blake.jpg",
    ["Romantic", "Vintage", "Sophisticated"], "Romantic, vintage-inspired sophistication.", 92)
  const Zendaya := Celebrity(3, "ZENDAYA", "/images/celebrities/zendaya.jpg",
    ["Classic", "Elegant", "Timeless"], "Classic elegance with a modern twist.", 95)

  /** The bundled celebrity catalog, in its published order. */
  const Celebrities: seq<Celebrity> := [Rihanna, BlakeLively, Zendaya]

  const StarCrossedNecklace := Product(1, "Star-Crossed Lovers Diamond Necklace", 68963, 68963,
    "/images/products/necklace2.jpg", "NECKLACES", 1, ["Bold", "Statement"], "18kt", "Yellow Gold",
    "Cross-shaped diamond necklace.", "15-17 DAYS")
  const WanderlustNecklace := Product(2, "Wanderlust Mix Diamond Necklace", 814282, 814282,
    "/images/products/necklace3.jpg", "NECKLACES", 2, ["Bohemian", "Eclectic"], "18kt", "Yellow Gold",
    "Mixed-design necklace.", "15-17 DAYS")
  const SereneNecklace := Product(3, "Serene Solitaire Necklace", 12500, 12500,
    "/images/products/necklace1.jpg", "NECKLACES", 1, ["Classic", "Elegant"], "14kt", "Yellow Gold",
    "Solitaire necklace in yellow gold.", "15-17 DAYS")
  const DropEarrings := Product(4, "Elegant Drop Earrings", 45000, 45000,
    "/images/products/earrings1.jpg", "EARRINGS", 3, ["Romantic", "Elegant"], "14kt", "Rose Gold",
    "Delicate drop earrings.", "15-17 DAYS")

  /** The bundled product catalog, in its published order. */
  const Products: seq<Product> := [StarCrossedNecklace, WanderlustNecklace, SereneNecklace, DropEarrings]

  /** The five category labels products are drawn from. */
  const Categories: seq<string> := ["NECKLACES", "EARRINGS", "RINGS", "BRACELETS", "PENDANTS"]
}
