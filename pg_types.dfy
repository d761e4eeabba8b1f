/** The listing and review records shared by every page. */
module PgTypes {

  /** A guest review. Its rating is a floating-point score that nothing in the model reasons about. */
  datatype Review = Review(
    id: string,
    userId: string,
    userName: string,
    rating: real,
    comment: string,
    date: string)

  /**
   * One advertised PG. Prices are whole rupees per month; `roomTypes` and
   * `facilities` are ordered lists searched with `includes`.
   */
  datatype PgListing = PgListing(
    id: string,
    name: string,
    location: string,
    price: int,
    description: string,
    images: seq<string>,
    rating: real,
    reviews: seq<Review>,
    roomTypes: seq<string>,
    facilities: seq<string>,
    owner: string)

  /** The facility ids both the dashboard filter and the details page offer, in display order. */
  const FacilityIds: seq<string> := ["wifi", "ac", "food", "laundry"]
}
