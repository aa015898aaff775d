/** The `create-food-listing` request handler: a lister publishes a listing. */
module CreateFoodListing {
  import opened Wrappers
  import opened Store

  const ONLY_LISTERS := "Only listers can create food listings"

  /** A new row's `is_available` is the table's column default. */
  const DEFAULT_AVAILABLE := true

  /** The request body. `price` is absent when the listing is a free donation. */
  datatype ListingRequest = ListingRequest(
    title: string,
    description: string,
    foodType: string,
    quantity: int,
    unit: string,
    pickupLocation: string,
    pickupTimeStart: string,
    pickupTimeEnd: string,
    expiryDate: string,
    price: Option<int>,
    specialInstructions: string,
    contactPhone: string,
    imageUrl: string)

  /** `price || 0`: an absent or zero price is stored as 0, any other as given. */
  function PriceOrZero(price: Option<int>): (r: int)
    ensures price.Some? && price.value != 0 ==> r == price.value
    ensures price.None? ==> r == 0
    ensures r == 0 <==> price.None? || price == Some(0)
  {
    if price.Some? && price.value != 0 then price.value else 0
  }

  /** Lines 71-86: the row inserted for a request by `caller`. */
  function NewListing(id: ListingId, caller: UserId, req: ListingRequest): (r: Listing)
    ensures r.id == id && r.listerId == caller
    ensures r.price == PriceOrZero(req.price) && r.quantity == req.quantity
    ensures r.isAvailable == DEFAULT_AVAILABLE
  {
    Listing(id, caller, req.title, req.description, req.foodType, req.quantity, req.unit,
            req.pickupLocation, req.pickupTimeStart, req.pickupTimeEnd, req.expiryDate,
            PriceOrZero(req.price), req.specialInstructions, req.contactPhone, req.imageUrl,
            DEFAULT_AVAILABLE)
  }

  /** The request a listing row answers to, with its price always present. */
  function RequestOf(l: Listing): ListingRequest {
    ListingRequest(l.title, l.description, l.foodType, l.quantity, l.unit, l.pickupLocation,
                   l.pickupTimeStart, l.pickupTimeEnd, l.expiryDate, Some(l.price),
                   l.specialInstructions, l.contactPhone, l.imageUrl)
  }

  /** Every request field reaches the row unchanged, except that a missing
      price reads back as 0; the row is owned by the caller. */
  lemma NewListingKeepsRequest(id: ListingId, caller: UserId, req: ListingRequest)
    ensures NewListing(id, caller, req).listerId == caller
    ensures RequestOf(NewListing(id, caller, req)) == req.(price := Some(PriceOrZero(req.price)))
    ensures req.price.Some? ==> RequestOf(NewListing(id, caller, req)) == req
  {
  }

  /** Lines 27-50: authentication, then the lister role. */
  function Admit(sessions: map<string, UserId>, profiles: map<UserId, Profile>, header: Option<string>): (r: Result<UserId>)
    ensures Authenticate(sessions, header).Err? ==> r == Err(Authenticate(sessions, header).error)
    ensures r.Ok? <==>
      Authenticate(sessions, header).Ok? && RoleOf(profiles, Authenticate(sessions, header).value) == Some(LISTER)
    ensures r.Ok? ==> r.value == Authenticate(sessions, header).value
    ensures Authenticate(sessions, header).Ok? && r.Err? ==> r.error == ONLY_LISTERS
  {
    match Authenticate(sessions, header)
    case Err(e) => Err(e)
    case Ok(caller) => if RoleOf(profiles, caller) == Some(LISTER) then Ok(caller) else Err(ONLY_LISTERS)
  }

  /** The handler. `insertError` is the backend's answer to the insert. */
  method CreateFoodListing(
    db: Database,
    header: Option<string>,
    req: ListingRequest,
    insertError: Option<string>) returns (resp: Result<Listing>)
    requires db.Valid()
    modifies db
    ensures db.Valid()
    ensures var admitted := Admit(old(db.sessions), old(db.profiles), header);
      admitted.Err? ==> resp == Err(admitted.error) && unchanged(db)
    ensures Admit(old(db.sessions), old(db.profiles), header).Ok? && insertError.Some?
      ==> resp == Err(insertError.value) && unchanged(db)
    ensures resp.Ok? <==> Admit(old(db.sessions), old(db.profiles), header).Ok? && insertError.None?
    ensures resp.Ok? ==>
      var caller := Admit(old(db.sessions), old(db.profiles), header).value;
      && resp.value == NewListing(old(db.nextListingId), caller, req)
      && resp.value.id !in old(db.listings)
      && db.listings == old(db.listings)[resp.value.id := resp.value]
      && db.nextListingId == old(db.nextListingId) + 1
      && db.bookings == old(db.bookings)
      && db.notifications == old(db.notifications)
      && db.sessions == old(db.sessions)
      && db.profiles == old(db.profiles)
      && db.nextBookingId == old(db.nextBookingId)
  {
    var admitted := Admit(db.sessions, db.profiles, header);
    if admitted.Err? {
      return Err(admitted.error);
    }
    if insertError.Some? {
      return Err(insertError.value);
    }
    var listing := NewListing(db.nextListingId, admitted.value, req);
    db.listings := db.listings[listing.id := listing];
    db.nextListingId := db.nextListingId + 1;
    return Ok(listing);
  }
}
