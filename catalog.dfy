/** The catalog item record shared by the listing, the details screen and the cart. */
module Catalog {

  /** One purchasable prompt package. Prices are exact reals rather than
      IEEE doubles; only `id` and `discountPrice` take part in the logic. */
  datatype Course = Course(
    id: int,
    title: string,
    author: string,
    rating: real,
    reviews: string,
    promptsNo: int,
    price: real,
    discountPrice: real,
    image: string,
    category: string,
    tag: string
  )
}
