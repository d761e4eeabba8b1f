/** The fixed dataset the dashboards start from, transcribed record by record. */
module MockData {
  import opened PgTypes

  /** Every fixture image is a Pexels photo URL with the same size parameters. */
  function PexelsPhoto(photoId: string): (url: string)
    ensures url != ""
  {
    "https://images.pexels.com/photos/" + photoId + "/pexels-photo-" + photoId
      + ".jpeg?auto=compress&cs=tinysrgb&w=1260&h=750&dpr=2"
  }

  const Pg1: PgListing := PgListing(
    id := "pg-1",
    name := "Comfort PG for Men",
    location := "Koramangala, Bangalore",
    price := 15000,
    description := "A modern PG with all amenities including WiFi, food, laundry, and AC. Located near tech parks and shopping areas.",
    images := [
      PexelsPhoto("1571460"),
      PexelsPhoto("1457842"),
      PexelsPhoto("1879061")],
    rating := 4.5,
    reviews := [],
    roomTypes := ["Single", "Double", "Triple"],
    facilities := ["wifi", "food", "ac", "laundry"],
    owner := "owner-1")

  const Pg2: PgListing := PgListing(
    id := "pg-2",
    name := "Urban Nest PG",
    location := "HSR Layout, Bangalore",
    price := 12000,
    description := "Affordable PG with basic amenities including WiFi and food. Perfect for students and working professionals.",
    images := [
      PexelsPhoto("1743229"),
      PexelsPhoto("3144581")],
    rating := 4.2,
    reviews := [],
    roomTypes := ["Double", "Triple"],
    facilities := ["wifi", "food"],
    owner := "owner-2")

  const Pg3: PgListing := PgListing(
    id := "pg-3",
    name := "Luxury Women's PG",
    location := "Indiranagar, Bangalore",
    price := 18000,
    description := "Premium PG exclusively for women with high-end amenities, security, and comfortable living spaces.",
    images := [
      PexelsPhoto("1648776"),
      PexelsPhoto("1643383")],
    rating := 4.8,
    reviews := [],
    roomTypes := ["Single", "Double"],
    facilities := ["wifi", "food", "ac", "laundry"],
    owner := "owner-3")

  const Pg4: PgListing := PgListing(
    id := "pg-4",
    name := "Student Haven PG",
    location := "Marathahalli, Bangalore",
    price := 10000,
    description := "Budget-friendly PG ideal for students with essential amenities and study spaces.",
    images := [
      PexelsPhoto("2082087"),
      PexelsPhoto("2255424")],
    rating := 3.9,
    reviews := [],
    roomTypes := ["Double", "Dormitory"],
    facilities := ["wifi", "food"],
    owner := "owner-4")

  const Pg5: PgListing := PgListing(
    id := "pg-5",
    name := "Elite Rooms PG",
    location := "Whitefield, Bangalore",
    price := 22000,
    description := "Upscale PG with premium amenities, spacious rooms, and excellent location near tech parks.",
    images := [
      PexelsPhoto("1918291"),
      PexelsPhoto("3315291")],
    rating := 4.7,
    reviews := [],
    roomTypes := ["Single", "Double"],
    facilities := ["wifi", "food", "ac", "laundry"],
    owner := "owner-5")

  const Pg6: PgListing := PgListing(
    id := "pg-6",
    name := "Comfort Zone PG",
    location := "Electronic City, Bangalore",
    price := 13000,
    description := "Well-maintained PG with good amenities and convenient location for IT professionals.",
    images := [
      PexelsPhoto("3659683"),
      PexelsPhoto("3797991")],
    rating := 4.1,
    reviews := [],
    roomTypes := ["Single", "Double", "Triple"],
    facilities := ["wifi", "food", "laundry"],
    owner := "owner-6")

  const OwnerPg1: PgListing := PgListing(
    id := "pg-owner-1",
    name := "Sunshine PG for Women",
    location := "Jayanagar, Bangalore",
    price := 16000,
    description := "A clean and comfortable PG for women with all modern amenities.",
    images := [
      PexelsPhoto("271816"),
      PexelsPhoto("6585740")],
    rating := 4.3,
    reviews := [],
    roomTypes := ["Single", "Double"],
    facilities := ["wifi", "food", "ac", "laundry"],
    owner := "current-user")

  const OwnerPg2: PgListing := PgListing(
    id := "pg-owner-2",
    name := "Green Park Men's PG",
    location := "JP Nagar, Bangalore",
    price := 14000,
    description := "Modern PG accommodation for men with great amenities and location.",
    images := [
      PexelsPhoto("276724"),
      PexelsPhoto("439227")],
    rating := 4.0,
    reviews := [],
    roomTypes := ["Single", "Double", "Triple"],
    facilities := ["wifi", "food"],
    owner := "current-user")

  /** The seeker-side listings, in the order the dashboard shows them. */
  const MockPgListings: seq<PgListing> := [Pg1, Pg2, Pg3, Pg4, Pg5, Pg6]

  /** The listings the owner dashboard starts with. */
  const MockOwnerPgListings: seq<PgListing> := [OwnerPg1, OwnerPg2]
}
