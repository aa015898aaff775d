/** The rows the three request handlers read and write, the database that
    holds them, and the steps every handler shares: the bearer-token check,
    the role lookup and the two inventory updates. */
module Store {
  import opened Wrappers
  import opened JsString

  type UserId = string
  type ListingId = nat
  type BookingId = nat

  const BUYER := "buyer"
  const LISTER := "lister"

  const NO_AUTH_HEADER := "No authorization header"
  const UNAUTHORIZED := "Unauthorized"

  /** A `profiles` row; the handlers read only its role. */
  datatype Profile = Profile(role: string)

  /** A `food_listings` row. Prices are whole cents. */
  datatype Listing = Listing(
    id: ListingId,
    listerId: UserId,
    title: string,
    description: string,
    foodType: string,
    quantity: int,
    unit: string,
    pickupLocation: string,
    pickupTimeStart: string,
    pickupTimeEnd: string,
    expiryDate: string,
    price: int,
    specialInstructions: string,
    contactPhone: string,
    imageUrl: string,
    isAvailable: bool)

  /** A `bookings` row. */
  datatype Booking = Booking(
    id: BookingId,
    foodListingId: ListingId,
    buyerId: UserId,
    listerId: UserId,
    quantityRequested: int,
    pickupTime: string,
    buyerNotes: string,
    totalAmount: int,
    status: string,
    listerNotes: Option<string>)

  /** A `notifications` row. */
  datatype Notification = Notification(
    userId: UserId,
    title: string,
    message: string,
    kind: string,
    relatedBookingId: BookingId)

  /** The managed backend as the handlers see it: the access tokens the auth
      service accepts, the four tables, and the ids the next inserts receive. */
  class Database {
    var sessions: map<string, UserId>
    var profiles: map<UserId, Profile>
    var listings: map<ListingId, Listing>
    var bookings: map<BookingId, Booking>
    var notifications: seq<Notification>
    var nextListingId: ListingId
    var nextBookingId: BookingId

    /** Every row is stored under its own id, and ids still to be handed out
        are unused. */
    ghost predicate Valid()
      reads this
    {
      && (forall id :: id in listings ==> listings[id].id == id && id < nextListingId)
      && (forall id :: id in bookings ==> bookings[id].id == id && id < nextBookingId)
    }

    constructor (sessions: map<string, UserId>, profiles: map<UserId, Profile>)
      ensures Valid()
      ensures this.sessions == sessions && this.profiles == profiles
      ensures listings == map[] && bookings == map[] && notifications == []
    {
      this.sessions := sessions;
      this.profiles := profiles;
      listings := map[];
      bookings := map[];
      notifications := [];
      nextListingId := 1;
      nextBookingId := 1;
    }
  }

  /** The HTTP status a handler answers with: 200 for success, 400 for every
      thrown error. */
  function StatusCode<T>(r: Result<T>): (code: int)
    ensures code == 200 <==> r.Ok?
    ensures code == 400 <==> r.Err?
  {
    if r.Ok? then 200 else 400
  }

  const BEARER := "Bearer "

  /** The first position at which `t` occurs in `s`. */
  function FirstOccurrence(s: string, t: string): (r: Option<nat>)
    ensures r.Some? ==> OccursAt(s, t, r.value)
    ensures r.Some? ==> forall j :: 0 <= j < r.value ==> !OccursAt(s, t, j)
    ensures r.None? ==> forall j :: !OccursAt(s, t, j)
    decreases |s|
  {
    if StartsWith(s, t) then
      assert OccursAt(s, t, 0);
      Some(0)
    else if |s| <= |t| then
      None
    else
      var r := FirstOccurrence(s[1..], t);
      assert forall j {:trigger OccursAt(s[1..], t, j)} ::
        OccursAt(s[1..], t, j) <==> OccursAt(s, t, j + 1) by {
        forall j ensures OccursAt(s[1..], t, j) <==> OccursAt(s, t, j + 1) {
          if 0 <= j <= |s| - 1 - |t| {
            assert s[1..][j..j + |t|] == s[j + 1..j + 1 + |t|];
          }
        }
      }
      assert forall j :: OccursAt(s, t, j) ==> j == 0 || OccursAt(s[1..], t, j - 1);
      if r.Some? then Some(r.value + 1) else None
  }

  /** `authHeader.replace('Bearer ', '')`: the first occurrence of the prefix
      is removed, wherever it stands. */
  function StripBearer(h: string): (r: string)
    ensures r == h <==> !Includes(h, BEARER)
    ensures Includes(h, BEARER) ==> |r| == |h| - |BEARER|
    ensures Includes(h, BEARER) ==> exists i :: (OccursAt(h, BEARER, i)
      && (forall j :: 0 <= j < i ==> !OccursAt(h, BEARER, j))
      && r == h[..i] + h[i + |BEARER|..])
  {
    match FirstOccurrence(h, BEARER)
    case None => h
    case Some(i) => h[..i] + h[i + |BEARER|..]
  }

  /** A well-formed `Bearer <token>` header yields exactly the token. */
  lemma StripBearerPrefix(token: string)
    ensures StripBearer(BEARER + token) == token
  {
    var h := BEARER + token;
    assert OccursAt(h, BEARER, 0);
    assert h[|BEARER|..] == token;
  }

  /** A header without the prefix is used as the token unchanged. */
  lemma StripBearerAbsent(h: string)
    requires !Includes(h, BEARER)
    ensures StripBearer(h) == h
  {
  }

  /** Lines 27-39 of each handler: a missing or empty Authorization header is
      rejected first; otherwise the token must belong to a signed-in user.
      `getUser` with an empty token (the header `Bearer `) checks the
      client's own session instead, and a handler's client has none, so that
      token is unauthorized. */
  function Authenticate(sessions: map<string, UserId>, header: Option<string>): (r: Result<UserId>)
    ensures header.None? || header == Some("") ==> r == Err(NO_AUTH_HEADER)
    ensures header.Some? && header.value != "" ==>
      (r.Ok? <==> StripBearer(header.value) != "" && StripBearer(header.value) in sessions)
    ensures r.Ok? ==> r.value == sessions[StripBearer(header.value)]
    ensures r.Err? ==> r.error == NO_AUTH_HEADER || r.error == UNAUTHORIZED
  {
    if header.None? || header.value == "" then Err(NO_AUTH_HEADER)
    else
      var token := StripBearer(header.value);
      if token != "" && token in sessions then Ok(sessions[token]) else Err(UNAUTHORIZED)
  }

  /** With a well-formed header, authentication is a lookup of the token. */
  lemma AuthenticateBearer(sessions: map<string, UserId>, token: string)
    ensures Authenticate(sessions, Some(BEARER + token))
      == if token != "" && token in sessions then Ok(sessions[token]) else Err(UNAUTHORIZED)
  {
    StripBearerPrefix(token);
  }

  /** `profile?.role`: absent when the user has no profile row. */
  function RoleOf(profiles: map<UserId, Profile>, user: UserId): (r: Option<string>)
    ensures r.Some? <==> user in profiles
    ensures r.Some? ==> r.value == profiles[user].role
  {
    if user in profiles then Some(profiles[user].role) else None
  }

  /** The listing row after `n` of its units are booked (create-booking,
      lines 101-107): the quantity drops by `n` and the listing stays
      available only while some quantity is left. */
  function Reserve(l: Listing, n: int): (r: Listing)
    ensures r.quantity == l.quantity - n
    ensures r.isAvailable <==> r.quantity > 0
    ensures r.(quantity := l.quantity, isAvailable := l.isAvailable) == l
  {
    l.(quantity := l.quantity - n, isAvailable := l.quantity - n > 0)
  }

  /** The listing row after a booking of `n` units is cancelled
      (update-booking-status, lines 99-106): the quantity rises by `n` and the
      listing is available again. */
  function Restore(l: Listing, n: int): (r: Listing)
    ensures r.quantity == l.quantity + n && r.isAvailable
    ensures r.(quantity := l.quantity, isAvailable := l.isAvailable) == l
  {
    l.(quantity := l.quantity + n, isAvailable := true)
  }

  /** Booking no more than is there leaves a non-negative quantity. */
  lemma ReserveWithinStock(l: Listing, n: int)
    requires n <= l.quantity
    ensures Reserve(l, n).quantity >= 0
    ensures Reserve(l, n).isAvailable <==> n < l.quantity
  {
  }

  /** Cancelling a booking gives back exactly what booking it took: the
      listing returns to its old row, except that it is marked available. */
  lemma RestoreUndoesReserve(l: Listing, n: int)
    ensures Restore(Reserve(l, n), n) == l.(isAvailable := true)
  {
  }
}
