/** The `update-booking-status` request handler: a party to a booking changes
    its status; a cancellation asks for the units back, and the other party is
    notified. */
module UpdateBookingStatus {
  import opened Wrappers
  import opened Store
  import opened JsString

  const NOT_FOUND := "Booking not found or access denied"
  const BUYERS_ONLY_CANCEL := "Buyers can only cancel their bookings"
  const ACCESS_DENIED := "Access denied"
  const CANCELLED := "cancelled"
  const CONFIRMED := "confirmed"
  const CONFIRMED_MESSAGE := "Your booking has been confirmed!"
  const CANCELLED_MESSAGE := "A booking has been cancelled."
  const NOTIFICATION_TITLE := "Booking Update"
  const WARNING := "warning"
  const INFO := "info"

  /** The request body; any status string may be asked for. */
  datatype StatusRequest = StatusRequest(bookingId: BookingId, status: string, listerNotes: Option<string>)

  /** `updateData` (lines 66-83): the status, and lister notes when given. */
  datatype BookingPatch = BookingPatch(status: string, listerNotes: Option<string>)

  /** `.eq('id', booking_id).or(buyer_id.eq.<user>, lister_id.eq.<user>)`:
      the booking, if it exists and the caller is one of its two parties. */
  function FindOwnBooking(bookings: map<BookingId, Booking>, id: BookingId, caller: UserId): (r: Option<Booking>)
    ensures r.Some? <==> id in bookings && (bookings[id].buyerId == caller || bookings[id].listerId == caller)
    ensures r.Some? ==> r.value == bookings[id]
  {
    if id in bookings && (bookings[id].buyerId == caller || bookings[id].listerId == caller)
    then Some(bookings[id]) else None
  }

  /** Lines 66-83: what a caller may write. The lister of the booking may set
      any status (and notes, when given); its buyer may only cancel; anyone
      else, or a party whose role is not that side's, is refused. */
  function Authorize(role: Option<string>, b: Booking, caller: UserId, req: StatusRequest): (r: Result<BookingPatch>)
    ensures r.Ok? ==> r.value.status == req.status
    ensures role == Some(LISTER) && b.listerId == caller ==>
      r == Ok(BookingPatch(req.status, if Truthy(req.listerNotes) then req.listerNotes else None))
    ensures r.Ok? && !(role == Some(LISTER) && b.listerId == caller) ==>
      req.status == CANCELLED && r.value.listerNotes == None
    ensures r.Ok? <==>
      (role == Some(LISTER) && b.listerId == caller)
      || (role == Some(BUYER) && b.buyerId == caller && req.status == CANCELLED)
    ensures role == Some(BUYER) && b.buyerId == caller && req.status != CANCELLED ==> r == Err(BUYERS_ONLY_CANCEL)
    ensures !(role == Some(LISTER) && b.listerId == caller) && !(role == Some(BUYER) && b.buyerId == caller)
      ==> r == Err(ACCESS_DENIED)
  {
    if role == Some(LISTER) && b.listerId == caller then
      Ok(BookingPatch(req.status, if Truthy(req.listerNotes) then req.listerNotes else None))
    else if role == Some(BUYER) && b.buyerId == caller then
      if req.status == CANCELLED then Ok(BookingPatch(req.status, None))
      else Err(BUYERS_ONLY_CANCEL)
    else
      Err(ACCESS_DENIED)
  }

  /** The booking row after the update: only the written columns change. */
  function ApplyPatch(b: Booking, p: BookingPatch): (r: Booking)
    ensures r.status == p.status
    ensures r.listerNotes == if p.listerNotes.Some? then p.listerNotes else b.listerNotes
    ensures r.(status := b.status, listerNotes := b.listerNotes) == b
  {
    b.(status := p.status, listerNotes := if p.listerNotes.Some? then p.listerNotes else b.listerNotes)
  }

  /** Lines 27-83, the checks before anything is written. On success it yields
      the caller, the booking read and the update to make. */
  function Admit(
    sessions: map<string, UserId>,
    profiles: map<UserId, Profile>,
    bookings: map<BookingId, Booking>,
    header: Option<string>,
    req: StatusRequest): (r: Result<(UserId, Booking, BookingPatch)>)
    ensures Authenticate(sessions, header).Err? ==> r == Err(Authenticate(sessions, header).error)
    ensures Authenticate(sessions, header).Ok?
      && FindOwnBooking(bookings, req.bookingId, Authenticate(sessions, header).value).None?
      ==> r == Err(NOT_FOUND)
    ensures r.Ok? <==>
      && Authenticate(sessions, header).Ok?
      && FindOwnBooking(bookings, req.bookingId, Authenticate(sessions, header).value).Some?
      && Authorize(RoleOf(profiles, Authenticate(sessions, header).value),
                   bookings[req.bookingId], Authenticate(sessions, header).value, req).Ok?
    ensures (Authenticate(sessions, header).Ok?
      && FindOwnBooking(bookings, req.bookingId, Authenticate(sessions, header).value).Some?
      && Authorize(RoleOf(profiles, Authenticate(sessions, header).value),
                   bookings[req.bookingId], Authenticate(sessions, header).value, req).Err?) ==>
      r == Err(Authorize(RoleOf(profiles, Authenticate(sessions, header).value),
                         bookings[req.bookingId], Authenticate(sessions, header).value, req).error)
    ensures r.Ok? ==>
      var caller := Authenticate(sessions, header).value;
      r.value == (caller, bookings[req.bookingId],
                  Authorize(RoleOf(profiles, caller), bookings[req.bookingId], caller, req).value)
  {
    match Authenticate(sessions, header)
    case Err(e) => Err(e)
    case Ok(caller) =>
      match FindOwnBooking(bookings, req.bookingId, caller)
      case None => Err(NOT_FOUND)
      case Some(booking) =>
        match Authorize(RoleOf(profiles, caller), booking, caller, req)
        case Err(e) => Err(e)
        case Ok(patch) => Ok((caller, booking, patch))
  }

  /** Line 114: the user to notify is the party that did not make the change. */
  function Recipient(b: Booking, caller: UserId): (r: UserId)
    ensures r == b.buyerId || r == b.listerId
    ensures caller == b.buyerId ==> r == b.listerId
  {
    if b.buyerId == caller then b.listerId else b.buyerId
  }

  /** Lines 115-119. */
  function MessageFor(status: string): (m: string)
    ensures status == CONFIRMED ==> m == CONFIRMED_MESSAGE
    ensures status == CANCELLED ==> m == CANCELLED_MESSAGE
    ensures status != CONFIRMED && status != CANCELLED ==>
      m == "Booking status updated to " + status + "."
  {
    if status == CONFIRMED then CONFIRMED_MESSAGE
    else if status == CANCELLED then CANCELLED_MESSAGE
    else "Booking status updated to " + status + "."
  }

  /** Lines 113-129: the notification row inserted after the update. */
  function NotificationFor(b: Booking, caller: UserId, req: StatusRequest): (n: Notification)
    ensures n.userId == Recipient(b, caller)
    ensures n.message == MessageFor(req.status)
    ensures n.kind == WARNING <==> req.status == CANCELLED
    ensures n.kind == INFO <==> req.status != CANCELLED
    ensures n.title == NOTIFICATION_TITLE && n.relatedBookingId == req.bookingId
  {
    Notification(Recipient(b, caller), NOTIFICATION_TITLE, MessageFor(req.status),
                 if req.status == CANCELLED then WARNING else INFO, req.bookingId)
  }

  /** The three messages are distinct, so the message tells which case applied. */
  lemma MessagesDistinguishStatus(status: string)
    ensures MessageFor(status) == CONFIRMED_MESSAGE <==> status == CONFIRMED
    ensures MessageFor(status) == CANCELLED_MESSAGE <==> status == CANCELLED
  {
    var generic := "Booking status updated to " + status + ".";
    if status != CONFIRMED && status != CANCELLED {
      assert generic[0] == 'B';
      assert CONFIRMED_MESSAGE[0] == 'Y' && CANCELLED_MESSAGE[0] == 'A';
    }
  }

  /** How the listing update of a cancel (lines 100-110) ends: it applies
      the relative increment, it returns an error (logged, line 109), or the
      call itself throws — building its body with `supabase.raw` (line 103)
      depends on the client library — which the `catch` at line 139 turns
      into the handler's error after the booking row was already written. */
  datatype ListingUpdate = Applied | Failed(error: string) | Threw(error: string)

  /** The handler. `updateError`, `listingUpdate` and `notifyError` are the
      backend's answers to the booking update, the listing update and the
      notification insert. A failed booking update is the handler's error and
      changes nothing; a thrown listing update is its error too, but the
      booking stays patched and nobody is notified; a failed listing update
      is only logged, and the insert's answer is ignored. */
  method UpdateBookingStatus(
    db: Database,
    header: Option<string>,
    req: StatusRequest,
    updateError: Option<string>,
    listingUpdate: ListingUpdate,
    notifyError: bool) returns (resp: Result<Booking>)
    requires db.Valid()
    modifies db
    ensures db.Valid()
    ensures var admitted := Admit(old(db.sessions), old(db.profiles), old(db.bookings), header, req);
      admitted.Err? ==> resp == Err(admitted.error) && unchanged(db)
    ensures Admit(old(db.sessions), old(db.profiles), old(db.bookings), header, req).Ok? && updateError.Some?
      ==> resp == Err(updateError.value) && unchanged(db)
    ensures resp.Ok? <==>
      && Admit(old(db.sessions), old(db.profiles), old(db.bookings), header, req).Ok? && updateError.None?
      && !(req.status == CANCELLED && listingUpdate.Threw?)
    ensures (Admit(old(db.sessions), old(db.profiles), old(db.bookings), header, req).Ok? && updateError.None?
      && req.status == CANCELLED && listingUpdate.Threw?) ==>
      var (caller, booking, patch) := Admit(old(db.sessions), old(db.profiles), old(db.bookings), header, req).value;
      && resp == Err(listingUpdate.error)
      && db.bookings == old(db.bookings)[booking.id := ApplyPatch(booking, patch)]
      && db.listings == old(db.listings)
      && db.notifications == old(db.notifications)
      && db.sessions == old(db.sessions)
      && db.profiles == old(db.profiles)
      && db.nextBookingId == old(db.nextBookingId)
      && db.nextListingId == old(db.nextListingId)
    ensures resp.Ok? ==>
      var (caller, booking, patch) := Admit(old(db.sessions), old(db.profiles), old(db.bookings), header, req).value;
      var lid := booking.foodListingId;
      && resp.value == ApplyPatch(booking, patch)
      && db.bookings == old(db.bookings)[booking.id := ApplyPatch(booking, patch)]
      && db.listings == (if req.status == CANCELLED && listingUpdate.Applied? && lid in old(db.listings)
                         then old(db.listings)[lid := Restore(old(db.listings)[lid], booking.quantityRequested)]
                         else old(db.listings))
      && db.notifications == old(db.notifications)
                             + (if notifyError then [] else [NotificationFor(booking, caller, req)])
      && db.sessions == old(db.sessions)
      && db.profiles == old(db.profiles)
      && db.nextBookingId == old(db.nextBookingId)
      && db.nextListingId == old(db.nextListingId)
  {
    var admitted := Admit(db.sessions, db.profiles, db.bookings, header, req);
    if admitted.Err? {
      return Err(admitted.error);
    }
    var (caller, booking, patch) := admitted.value;

    if updateError.Some? {
      return Err(updateError.value);
    }
    var updated := ApplyPatch(booking, patch);
    db.bookings := db.bookings[booking.id := updated];

    if req.status == CANCELLED {
      if listingUpdate.Threw? {
        return Err(listingUpdate.error);
      }
      var lid := booking.foodListingId;
      if listingUpdate.Applied? && lid in db.listings {
        db.listings := db.listings[lid := Restore(db.listings[lid], booking.quantityRequested)];
      }
    }

    if !notifyError {
      db.notifications := db.notifications + [NotificationFor(booking, caller, req)];
    }
    return Ok(updated);
  }

  /** A buyer who owns a booking can never set anything but `cancelled`,
      whatever else the request holds. */
  lemma BuyerCanOnlyCancel(b: Booking, caller: UserId, req: StatusRequest)
    requires b.buyerId == caller && b.listerId != caller
    ensures Authorize(Some(BUYER), b, caller, req).Ok? <==> req.status == CANCELLED
    ensures Authorize(Some(BUYER), b, caller, req).Ok? ==>
      ApplyPatch(b, Authorize(Some(BUYER), b, caller, req).value) == b.(status := CANCELLED)
  {
  }

  /** A buyer who asks their own booking for any status but `cancelled` gets
      "Buyers can only cancel their bookings" back from the handler's checks. */
  lemma BuyerOtherStatusIsRefused(
    sessions: map<string, UserId>,
    profiles: map<UserId, Profile>,
    b: Booking,
    token: string,
    status: string,
    notes: Option<string>)
    requires token != "" && token in sessions && sessions[token] == b.buyerId && b.buyerId != b.listerId
    requires RoleOf(profiles, b.buyerId) == Some(BUYER) && status != CANCELLED
    ensures Admit(sessions, profiles, map[b.id := b], Some(BEARER + token), StatusRequest(b.id, status, notes))
      == Err(BUYERS_ONLY_CANCEL)
  {
    AuthenticateBearer(sessions, token);
  }

  /** When buyer and lister differ, the notification goes to the party that
      did not make the change. */
  lemma NotifiesOtherParty(b: Booking, caller: UserId, req: StatusRequest)
    requires b.buyerId != b.listerId
    requires caller == b.buyerId || caller == b.listerId
    ensures NotificationFor(b, caller, req).userId != caller
    ensures caller == b.listerId ==> NotificationFor(b, caller, req).userId == b.buyerId
  {
  }

  /** A buyer cancels their 10-unit booking: the booking becomes cancelled,
      the listing gets 10 units back and is available, and the lister is sent
      a warning. */
  lemma BuyerCancelScenario(
    sessions: map<string, UserId>,
    profiles: map<UserId, Profile>,
    b: Booking,
    l: Listing,
    token: string)
    requires token != "" && token in sessions && sessions[token] == b.buyerId && b.buyerId != b.listerId
    requires RoleOf(profiles, b.buyerId) == Some(BUYER)
    requires b.quantityRequested == 10 && b.foodListingId == l.id
    ensures var req := StatusRequest(b.id, CANCELLED, None);
      var r := Admit(sessions, profiles, map[b.id := b], Some(BEARER + token), req);
      && r.Ok?
      && ApplyPatch(b, r.value.2) == b.(status := CANCELLED)
      && Restore(l, b.quantityRequested).quantity == l.quantity + 10
      && Restore(l, b.quantityRequested).isAvailable
      && NotificationFor(b, r.value.0, req) == Notification(b.listerId, NOTIFICATION_TITLE, CANCELLED_MESSAGE, WARNING, b.id)
  {
    AuthenticateBearer(sessions, token);
  }
}
