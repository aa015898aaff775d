/** What the booking handlers do to a listing's quantity over several
    requests. Each request is one sequential step; nothing here concerns
    requests that interleave. */
module Inventory {
  import opened Wrappers
  import opened Store
  import CreateBooking
  import UpdateBookingStatus

  /** Status updates do not look at the booking's current status, so a
      booking that is already cancelled can be cancelled again by its buyer,
      and its units are given back a second time. */
  lemma RepeatedCancelRestoresTwice(
    sessions: map<string, UserId>,
    profiles: map<UserId, Profile>,
    b: Booking,
    l: Listing,
    token: string)
    requires token != "" && token in sessions && sessions[token] == b.buyerId
    requires RoleOf(profiles, b.buyerId) == Some(BUYER)
    requires b.status == UpdateBookingStatus.CANCELLED
    ensures var req := UpdateBookingStatus.StatusRequest(b.id, UpdateBookingStatus.CANCELLED, None);
      UpdateBookingStatus.Admit(sessions, profiles, map[b.id := b], Some(BEARER + token), req).Ok?
    ensures Restore(Restore(l, b.quantityRequested), b.quantityRequested).quantity
      == l.quantity + 2 * b.quantityRequested
  {
    AuthenticateBearer(sessions, token);
  }

  /** The create-booking check compares the request with the stock but does
      not require it to be positive. Starting from 5 units: a booking of -10
      is accepted and raises the stock to 15, a booking of 15 takes it to 0,
      and cancelling the first booking then leaves -10 units, listed as
      available. */
  lemma NegativeRequestCanDriveStockNegative(
    sessions: map<string, UserId>,
    profiles: map<UserId, Profile>,
    l: Listing,
    token: string)
    requires token != "" && token in sessions && RoleOf(profiles, sessions[token]) == Some(BUYER)
    requires l.quantity == 5 && l.isAvailable
    ensures var header := Some(BEARER + token);
      var first := CreateBooking.BookingRequest(l.id, -10, "", "");
      var l1 := Reserve(l, -10);
      var second := CreateBooking.BookingRequest(l.id, 15, "", "");
      var l2 := Reserve(l1, 15);
      var l3 := Restore(l2, -10);
      && CreateBooking.Admit(sessions, profiles, map[l.id := l], header, first).Ok?
      && l1.quantity == 15 && l1.isAvailable
      && CreateBooking.Admit(sessions, profiles, map[l.id := l1], header, second).Ok?
      && l2.quantity == 0 && !l2.isAvailable
      && l3.quantity == -10 && l3.isAvailable
  {
    AuthenticateBearer(sessions, token);
  }
}
