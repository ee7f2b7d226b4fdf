/** The two documents the application stores, as the forms save them: every
    field is text (numbers are saved as digit strings with their commas
    removed). The `createdAt` timestamp is not modelled. */
module Records {

  /** A document of the `buyerRequests` collection. */
  datatype BuyerRequest = BuyerRequest(
    brand: string,
    model: string,
    minYear: string,
    maxYear: string,
    minPrice: string,
    maxPrice: string,
    contact: string)

  /** A document of the `sellerListings` collection, which is also the body
      posted to the notifier. */
  datatype Listing = Listing(
    brand: string,
    model: string,
    year: string,
    price: string,
    contact: string,
    imageUrl: string)
}
