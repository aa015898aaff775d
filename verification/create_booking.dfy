/** The `create-booking` request handler: a buyer claims part of an available
    listing. */
module CreateBooking {
  import opened Wrappers
  import opened Store

  const ONLY_BUYERS := "Only buyers can create bookings"
  const LISTING_UNAVAILABLE := "Food listing not found or not available"
  const QUANTITY_EXCEEDS := "Requested quantity exceeds available quantity"
  const PENDING := "pending"

  /** The request body. `quantityRequested` is not checked to be positive. */
  datatype BookingRequest = BookingRequest(
    foodListingId: ListingId,
    quantityRequested: int,
    pickupTime: string,
    buyerNotes: string)

  /** The read-only part of the handler (lines 27-74), as its chain of early
      errors: authentication, the buyer role, a listing that exists and is
      available, and a request that does not exceed its quantity. On success
      it yields the caller and the listing row read. */
  function Admit(
    sessions: map<string, UserId>,
    profiles: map<UserId, Profile>,
    listings: map<ListingId, Listing>,
    header: Option<string>,
    req: BookingRequest): (r: Result<(UserId, Listing)>)
    ensures Authenticate(sessions, header).Err? ==> r == Err(Authenticate(sessions, header).error)
    ensures Authenticate(sessions, header).Ok? && RoleOf(profiles, Authenticate(sessions, header).value) != Some(BUYER)
      ==> r == Err(ONLY_BUYERS)
    ensures r.Ok? <==>
      && Authenticate(sessions, header).Ok?
      && RoleOf(profiles, Authenticate(sessions, header).value) == Some(BUYER)
      && req.foodListingId in listings
      && listings[req.foodListingId].isAvailable
      && req.quantityRequested <= listings[req.foodListingId].quantity
    ensures r.Ok? ==> r.value == (Authenticate(sessions, header).value, listings[req.foodListingId])
    ensures r.Err? && Authenticate(sessions, header).Ok? && RoleOf(profiles, Authenticate(sessions, header).value) == Some(BUYER)
      ==> r.error == (if req.foodListingId in listings && listings[req.foodListingId].isAvailable
                      then QUANTITY_EXCEEDS else LISTING_UNAVAILABLE)
  {
    match Authenticate(sessions, header)
    case Err(e) => Err(e)
    case Ok(caller) =>
      if RoleOf(profiles, caller) != Some(BUYER) then Err(ONLY_BUYERS)
      else if req.foodListingId !in listings || !listings[req.foodListingId].isAvailable then
        Err(LISTING_UNAVAILABLE)
      else
        var listing := listings[req.foodListingId];
        if req.quantityRequested > listing.quantity then Err(QUANTITY_EXCEEDS)
        else Ok((caller, listing))
  }

  /** The handler. `insertError` and `updateError` are the backend's answers to
      the booking insert and the listing update (None for success). A failed
      insert is the handler's error; a failed listing update is only logged,
      and the booking is still returned. */
  method CreateBooking(
    db: Database,
    header: Option<string>,
    req: BookingRequest,
    insertError: Option<string>,
    updateError: Option<string>) returns (resp: Result<Booking>)
    requires db.Valid()
    modifies db
    ensures db.Valid()
    ensures var admitted := Admit(old(db.sessions), old(db.profiles), old(db.listings), header, req);
      admitted.Err? ==> resp == Err(admitted.error) && unchanged(db)
    ensures Admit(old(db.sessions), old(db.profiles), old(db.listings), header, req).Ok? && insertError.Some?
      ==> resp == Err(insertError.value) && unchanged(db)
    ensures resp.Ok? <==>
      Admit(old(db.sessions), old(db.profiles), old(db.listings), header, req).Ok? && insertError.None?
    ensures resp.Ok? ==>
      var (caller, listing) := Admit(old(db.sessions), old(db.profiles), old(db.listings), header, req).value;
      var b := resp.value;
      && b.id == old(db.nextBookingId) && b.id !in old(db.bookings)
      && b.foodListingId == req.foodListingId
      && b.buyerId == caller
      && b.listerId == listing.listerId
      && b.quantityRequested == req.quantityRequested
      && b.pickupTime == req.pickupTime
      && b.buyerNotes == req.buyerNotes
      && b.totalAmount == listing.price * req.quantityRequested
      && b.status == PENDING
      && b.listerNotes == None
      && db.bookings == old(db.bookings)[b.id := b]
      && db.listings == (if updateError.None?
                         then old(db.listings)[listing.id := Reserve(listing, req.quantityRequested)]
                         else old(db.listings))
      && db.nextBookingId == old(db.nextBookingId) + 1
      && db.sessions == old(db.sessions)
      && db.profiles == old(db.profiles)
      && db.notifications == old(db.notifications)
      && db.nextListingId == old(db.nextListingId)
  {
    var admitted := Admit(db.sessions, db.profiles, db.listings, header, req);
    if admitted.Err? {
      return Err(admitted.error);
    }
    var (caller, listing) := admitted.value;

    var totalAmount := listing.price * req.quantityRequested;
    if insertError.Some? {
      return Err(insertError.value);
    }
    var booking := Booking(db.nextBookingId, req.foodListingId, caller, listing.listerId,
      req.quantityRequested, req.pickupTime, req.buyerNotes, totalAmount, PENDING, None);
    db.bookings := db.bookings[booking.id := booking];
    db.nextBookingId := db.nextBookingId + 1;

    if updateError.None? {
      db.listings := db.listings[listing.id := Reserve(listing, req.quantityRequested)];
    }
    return Ok(booking);
  }

  /** A successful booking never drives the listing's quantity below zero, and
      the listing stays available exactly when units are left. */
  lemma AdmittedBookingKeepsStock(
    sessions: map<string, UserId>,
    profiles: map<UserId, Profile>,
    listings: map<ListingId, Listing>,
    header: Option<string>,
    req: BookingRequest)
    requires Admit(sessions, profiles, listings, header, req).Ok?
    ensures var l := listings[req.foodListingId];
      && Reserve(l, req.quantityRequested).quantity >= 0
      && (Reserve(l, req.quantityRequested).isAvailable <==> req.quantityRequested < l.quantity)
  {
    ReserveWithinStock(listings[req.foodListingId], req.quantityRequested);
  }

  /** Booking 25 units of a 20-unit listing is refused; booking 10 of them
      leaves 10 and the listing available. */
  lemma TwentyUnitScenario(
    sessions: map<string, UserId>,
    profiles: map<UserId, Profile>,
    l: Listing,
    token: string)
    requires token != "" && token in sessions && RoleOf(profiles, sessions[token]) == Some(BUYER)
    requires l.quantity == 20 && l.isAvailable
    ensures Admit(sessions, profiles, map[l.id := l], Some(BEARER + token),
                  BookingRequest(l.id, 25, "", "")) == Err(QUANTITY_EXCEEDS)
    ensures Admit(sessions, profiles, map[l.id := l], Some(BEARER + token),
                  BookingRequest(l.id, 10, "", "")).Ok?
    ensures Reserve(l, 10).quantity == 10 && Reserve(l, 10).isAvailable
  {
    AuthenticateBearer(sessions, token);
  }
}
