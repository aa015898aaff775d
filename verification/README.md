# FoodFlow core, modelled in Dafny

FoodFlow connects food **listers** (cafés, hotels, shops with surplus food) with **buyers** (charities, NGOs, individuals).
This project models the parts of the system that decide something:

- **The three request handlers.**
  - `create-booking`: a buyer books units of an available listing. The listing's quantity drops and its availability is recomputed.
  - `update-booking-status`: the lister sets a status, or the buyer cancels. A cancel then asks the database to give the units back, and the other party is notified. If that listing update throws, the handler fails with the booking already changed (see `UpdateBookingStatus.ListingUpdate`).
  - `create-food-listing`: a lister publishes a listing, with a missing price stored as 0.
- **The dual-channel passcode signup.**
  - The `useOtpAuth` hook normalises the phone number and sends, verifies and resends passcodes. A phone passcode is sent only from a signed-in session.
  - The passcode card handles the six-digit field, the verify guard and the 60-second resend countdown.
  - The two-card screen completes once both channels are verified.
  - The signup passcode page verifies the email first, then sets the password and requests the phone passcode.
- **The page state machines and validators.**
  - Signup: the validation chain, the user data sent and the hand-over to the passcode page.
  - Forgot password: a three-step reset.
  - Booking page: a four-step form, the per-field update and the listing lookup by route id.
  - Buyer dashboard: the case-insensitive search filter and the details panel.

The backend is modelled as follows:

- The database is a `Database` object holding maps of rows. Each handler is one sequential step on it.
- The auth provider is an `AuthClient` object that logs the requests it receives.
- Every answer of the backend or the provider is a parameter of the method that receives it: an error or none, or whether a session exists.
- JavaScript's string built-ins used by the code are modelled in `JsString`: `trim`, ASCII `toLowerCase`, `includes`, the digit filter, `parseInt`'s integer prefix and `maxLength`.

Three behaviours of the code are easy to miss when reading it. The model keeps them as written and proves each one as a lemma:

- **A booking request may be negative.** `create-booking` only checks that the request does not exceed the stock, so a negative request is accepted and raises the stock. Later bookings and a cancel can then leave the listing at a negative quantity that is still marked available (`Inventory.NegativeRequestCanDriveStockNegative`).
- **A booking can be cancelled twice.** Status updates do not look at the booking's current status. So a buyer can cancel an already cancelled booking, and its units are restored a second time (`Inventory.RepeatedCancelRestoresTwice`).
- **The signup password is never set.** The signup page stores the password only in session storage, and its navigation state carries none. The passcode page reads the password from that state, so after email verification it never sends a password update (`Signup.SignupPasswordIsNeverSet`).

## Model

| member | source | states |
|---|---|---|
| JsString.Trim | src/hooks/useOtpAuth.tsx:8 | `trim()` removes leading and trailing white space only: the result is no longer than the input and neither starts nor ends with white space |
| JsString.TrimIdempotent | src/hooks/useOtpAuth.tsx:8 | trimming twice is trimming once |
| JsString.TrimIsInfix | src/hooks/useOtpAuth.tsx:8 | the trimmed string occurs in the input, and only white space lies around it |
| JsString.ToLower | src/pages/BuyerDashboard.tsx:98-99 | `toLowerCase()` keeps the length and folds each character separately |
| JsString.ToLowerIdempotent | src/pages/BuyerDashboard.tsx:98-99 | lowercasing twice is lowercasing once |
| JsString.Includes | src/pages/BuyerDashboard.tsx:98-99 | `s.includes(t)` holds iff `t` occurs in `s` at some position |
| JsString.IncludesEmpty | src/pages/BuyerDashboard.tsx:98-99 | every string includes the empty string |
| JsString.DigitsOnly | src/pages/ForgotPassword.tsx:104 | `replace(/\D/g, "")` keeps only digits, drawn from the input; an all-digit input is kept as it is |
| JsString.DigitsOnlyChar | src/pages/ForgotPassword.tsx:104 | a single character is kept iff it is a digit |
| JsString.DigitsOnlyConcat | src/pages/ForgotPassword.tsx:104 | the digits of `a + b` are those of `a` followed by those of `b`; with `DigitsOnlyChar` this fixes the result: every digit is kept, once, in order |
| JsString.DigitsOnlyIdempotent | src/pages/ForgotPassword.tsx:104 | filtering twice is filtering once |
| JsString.Truncate | src/components/ui/otp-verification.tsx:98 | `maxLength` keeps the whole input when it is short enough, and exactly its first `n` characters otherwise |
| JsString.ParseInt | src/pages/BookingPage.tsx:54 | `parseInt` gives no number exactly when no digit follows the leading white space and sign; otherwise the value of the first run of digits, negated after a `-` |
| JsString.ParseIntNegative | src/pages/BookingPage.tsx:54 | leading white space and a minus sign are read: `" -3"` gives -3 |
| JsString.ParseIntIgnoresTrailing | src/pages/BookingPage.tsx:54 | what follows the digits is ignored: `"2abc"` gives 2 |
| JsString.ParseShowNat | src/pages/BookingPage.tsx:54 | parsing a number's decimal spelling gives the number back |
| Store.StatusCode | supabase/functions/create-booking/index.ts:114-130 | a handler answers 200 iff it succeeded and 400 iff it failed |
| Store.FirstOccurrence | supabase/functions/create-booking/index.ts:34 | the position found holds the pattern and no earlier position does; none is found iff none holds it |
| Store.StripBearer | supabase/functions/create-booking/index.ts:34-35 | the header is unchanged iff it does not contain `Bearer `; otherwise the first occurrence of `Bearer ` is cut out and nothing else changes |
| Store.StripBearerPrefix | supabase/functions/create-booking/index.ts:33-35 | `Bearer <token>` yields exactly the token |
| Store.StripBearerAbsent | supabase/functions/create-booking/index.ts:33-35 | a header without `Bearer ` is used as the token unchanged |
| Store.Authenticate | supabase/functions/create-booking/index.ts:27-39 | a missing or empty header gives "No authorization header". Otherwise success iff the stripped token is non-empty and belongs to a user, who is the result. Every failure is one of those two messages |
| Store.AuthenticateBearer | supabase/functions/create-booking/index.ts:27-39 | with a well-formed header, authentication is the lookup of a non-empty token |
| Store.RoleOf | supabase/functions/create-booking/index.ts:42-48 | the role is present iff the user has a profile, and is that profile's role |
| Store.Reserve | supabase/functions/create-booking/index.ts:101-107 | booking `n` units lowers the quantity by `n`; the listing stays available iff units are left; no other column changes |
| Store.Restore | supabase/functions/update-booking-status/index.ts:99-106 | cancelling gives back `n` units and makes the listing available; no other column changes |
| Store.ReserveWithinStock | supabase/functions/create-booking/index.ts:72-107 | booking no more than the stock leaves a non-negative quantity, and the listing stays available iff fewer units than the stock were booked |
| Store.RestoreUndoesReserve | supabase/functions/update-booking-status/index.ts:99-106 | a cancel after a booking of the same amount restores the listing row, except that it is marked available |
| CreateBooking.Admit | supabase/functions/create-booking/index.ts:27-74 | the checks in order: authentication error, then "Only buyers", then a missing or unavailable listing, then a request above the stock. Success iff the caller is an authenticated buyer and the listing exists, is available and holds at least the request |
| CreateBooking.CreateBooking | supabase/functions/create-booking/index.ts:27-120 | a refused request or a failed insert changes nothing and returns its error. Otherwise a pending booking is inserted under a fresh id, for the caller and the listing's lister, with total = price × quantity. The listing is reserved unless its update failed, and nothing else changes |
| CreateBooking.AdmittedBookingKeepsStock | supabase/functions/create-booking/index.ts:71-107 | an admitted booking never leaves the listing below zero, and the listing stays available iff units remain |
| CreateBooking.TwentyUnitScenario | supabase/functions/create-booking/index.ts:71-107 | on a 20-unit listing, 25 units are refused as exceeding and 10 units are accepted, leaving 10 and the listing available |
| UpdateBookingStatus.FindOwnBooking | supabase/functions/update-booking-status/index.ts:48-57 | a booking is found iff it exists and the caller is its buyer or its lister |
| UpdateBookingStatus.Authorize | supabase/functions/update-booking-status/index.ts:66-83 | the booking's lister, with the lister role, may set any status, plus notes when they are non-empty. Its buyer, with the buyer role, may only cancel; any other status is "Buyers can only cancel". Anyone else gets "Access denied" |
| UpdateBookingStatus.ApplyPatch | supabase/functions/update-booking-status/index.ts:85-91 | the update writes the status and the given notes and leaves every other column as it was |
| UpdateBookingStatus.Admit | supabase/functions/update-booking-status/index.ts:27-83 | an authentication error first, then "not found or access denied" for a booking the caller is not party to, then the authorisation's own message ("Buyers can only cancel their bookings" or "Access denied"); success iff authorised, with the patch that authorisation gives |
| UpdateBookingStatus.BuyerOtherStatusIsRefused | supabase/functions/update-booking-status/index.ts:74-80 | a signed-in buyer asking their booking for any status but `cancelled` is answered "Buyers can only cancel their bookings" |
| UpdateBookingStatus.Recipient | supabase/functions/update-booking-status/index.ts:114 | the notified user is one of the two parties, and the lister when the buyer made the change |
| UpdateBookingStatus.MessageFor | supabase/functions/update-booking-status/index.ts:115-119 | the confirmed and cancelled messages for those statuses, and the generic message naming the status otherwise |
| UpdateBookingStatus.NotificationFor | supabase/functions/update-booking-status/index.ts:113-129 | the notification is for the other party, titled "Booking Update", with the status's message; its type is warning iff the status is cancelled and info otherwise |
| UpdateBookingStatus.MessagesDistinguishStatus | supabase/functions/update-booking-status/index.ts:115-119 | the confirmed message appears iff the status is confirmed, and likewise for cancelled |
| UpdateBookingStatus.UpdateBookingStatus | supabase/functions/update-booking-status/index.ts:27-137 | a refused request or a failed update changes nothing and returns its error. Otherwise the booking is patched. A cancel whose listing update throws returns that error with the booking patched, nothing restored and nobody notified. Otherwise a cancel restores the listing's units if the listing exists and its update was applied. A notification is appended unless its insert failed, and nothing else changes |
| UpdateBookingStatus.BuyerCanOnlyCancel | supabase/functions/update-booking-status/index.ts:74-80 | a buyer's update is accepted iff it asks for `cancelled`, and then changes only the status |
| UpdateBookingStatus.NotifiesOtherParty | supabase/functions/update-booking-status/index.ts:114 | when buyer and lister differ, the notification never goes to the caller, and a lister's change goes to the buyer |
| UpdateBookingStatus.BuyerCancelScenario | supabase/functions/update-booking-status/index.ts:74-129 | a buyer cancelling a 10-unit booking is accepted: the booking becomes cancelled, the listing gains 10 units and is available, and the lister is warned |
| CreateFoodListing.PriceOrZero | supabase/functions/create-food-listing/index.ts:82 | `price \|\| 0` is 0 iff the price is absent or 0, and the price otherwise |
| CreateFoodListing.NewListing | supabase/functions/create-food-listing/index.ts:69-86 | the new row has the given id and owner, the request's quantity, `price \|\| 0` as price and the default availability |
| CreateFoodListing.NewListingKeepsRequest | supabase/functions/create-food-listing/index.ts:69-86 | the new row belongs to the caller and carries every request field unchanged, with a missing price read back as 0 |
| CreateFoodListing.Admit | supabase/functions/create-food-listing/index.ts:27-50 | an authentication error first; success iff the caller is a lister; otherwise "Only listers can create food listings" |
| CreateFoodListing.CreateFoodListing | supabase/functions/create-food-listing/index.ts:27-101 | a refused request or a failed insert changes nothing and returns its error; otherwise exactly one new row is inserted under a fresh id and returned |
| Inventory.RepeatedCancelRestoresTwice | supabase/functions/update-booking-status/index.ts:68-111 | an already cancelled booking can be cancelled again by its buyer, and its units are then given back twice |
| Inventory.NegativeRequestCanDriveStockNegative | supabase/functions/create-booking/index.ts:72-107 | a negative request passes the stock check. From 5 units, bookings of -10 and 15 followed by cancelling the first leave -10 units, marked available |
| OtpAuth.NormalizePhone | src/hooks/useOtpAuth.tsx:8 | a normalised number always starts with `+` |
| OtpAuth.NormalizePhoneShape | src/hooks/useOtpAuth.tsx:8 | the trimmed number, with `+` put in front exactly when it does not start with one |
| OtpAuth.NormalizePhoneIdempotent | src/hooks/useOtpAuth.tsx:8 | normalising a normalised number changes nothing |
| OtpAuth.VerifyOptionsFor | src/hooks/useOtpAuth.tsx:50-52 | an email check uses the address as given; a phone check is an `sms` check of the normalised number |
| OtpAuth.VerifyPhoneIgnoresFormatting | src/hooks/useOtpAuth.tsx:49-54 | verifying a phone checks the same number whether or not it was normalised before |
| OtpAuth.OtpAuthHook.SendSignupOtp | src/hooks/useOtpAuth.tsx:10-47 | exactly one request, an email passcode that may create the account and carries the user data with the normalised phone; no phone passcode is sent; the error is the provider's; loading ends false |
| OtpAuth.OtpAuthHook.VerifySignupOtp | src/hooks/useOtpAuth.tsx:49-65 | one verification request with the channel's options; the error is the provider's |
| OtpAuth.OtpAuthHook.ResendSignupOtp | src/hooks/useOtpAuth.tsx:67-120 | a phone resend without a session sends nothing and fails; with a session it updates the normalised phone. An email resend re-sends a passcode to the address as given |
| OtpAuth.OtpAuthHook.SendPhoneOtp | src/hooks/useOtpAuth.tsx:122-150 | without a session nothing is sent and the call fails; with one the normalised phone is updated |
| OtpVerification.EnteredCode | src/components/ui/otp-verification.tsx:98-101 | the field holds at most six characters, all digits and all typed; a short all-digit entry is kept as it is |
| OtpVerification.EnteredCodeKeepsLeadingDigits | src/components/ui/otp-verification.tsx:98-101 | up to six characters, the field holds every digit typed, in order; nothing typed after the sixth character reaches it |
| OtpVerification.EnteredCodeDropsLetters | src/components/ui/otp-verification.tsx:101 | typing `1a2` leaves `12` |
| OtpVerification.EnteredCodeCutsSeventhDigit | src/components/ui/otp-verification.tsx:98 | typing `1234567` leaves `123456` |
| OtpVerification.NextCount | src/components/ui/otp-verification.tsx:57-65 | one interval firing lowers a positive countdown by one and leaves 0 at 0 |
| OtpVerification.CountdownLastsItsLength | src/components/ui/otp-verification.tsx:55-65 | after `k` firings a countdown from `c` shows `c - k`, and 0 once `k` reaches `c` |
| OtpVerification.OtpEntry.constructor | src/components/ui/otp-verification.tsx:18-21 | an empty code and no countdown |
| OtpVerification.OtpEntry.Type | src/components/ui/otp-verification.tsx:101 | the field keeps the filtered entry |
| OtpVerification.OtpEntry.CanVerify | src/components/ui/otp-verification.tsx:111 | the verify button is enabled while nothing is verifying or loading and the code has six characters |
| OtpVerification.OtpEntry.VerifyEnabledIffSixDigits | src/components/ui/otp-verification.tsx:108-112 | between events the button is enabled iff the page is not loading and the field holds six digits |
| OtpVerification.OtpEntry.HandleVerify | src/components/ui/otp-verification.tsx:24-46 | `onVerify` is called iff the code has six characters, and with that code; otherwise "Please enter a 6-digit OTP" is shown. A click on the enabled button always reaches `onVerify` |
| OtpVerification.OtpEntry.HandleResend | src/components/ui/otp-verification.tsx:48-72 | `onResend` is called iff the countdown is 0; only a successful resend starts a 60-second countdown |
| OtpVerification.OtpEntry.Tick | src/components/ui/otp-verification.tsx:57-65 | each second the countdown follows `NextCount`, and the interval is cleared at 0 |
| DualOtpVerification.Step | src/components/ui/dual-otp-verification.tsx:29-49 | a channel's flag is set after an answer iff it was set or this is that channel's success; completion fires iff the answer succeeded and both flags are then set |
| DualOtpVerification.StepProperties | src/components/ui/dual-otp-verification.tsx:29-49 | a set flag stays set, a failed answer changes nothing, and completion fires only when both flags are set |
| DualOtpVerification.CompletesIffBoth | src/components/ui/dual-otp-verification.tsx:29-49 | over any sequence of answers, completion has fired iff both channels are verified, whatever their order |
| DualOtpVerification.VerifiedIffSomeSuccess | src/components/ui/dual-otp-verification.tsx:29-49 | a channel is verified iff one of its answers succeeded |
| DualOtpVerification.StatusLine | src/components/ui/dual-otp-verification.tsx:95-101 | a status line shows iff some channel is verified; it names the verified channel, or says both are complete |
| DualOtpVerification.DualOtpVerification.constructor | src/components/ui/dual-otp-verification.tsx:26-27 | neither channel is verified |
| DualOtpVerification.DualOtpVerification.HandleEmailVerify | src/components/ui/dual-otp-verification.tsx:29-38 | the answer is passed back unchanged, and the flags and completion follow `Step` for an email answer |
| DualOtpVerification.DualOtpVerification.HandlePhoneVerify | src/components/ui/dual-otp-verification.tsx:40-49 | the same for a phone answer |
| OtpSignup.MountRedirect | src/pages/OtpSignup.tsx:29-41 | the page redirects to `/signup` iff it was opened without signup data |
| OtpSignup.DashboardFor | src/pages/OtpSignup.tsx:80 | completion goes to the lister dashboard iff the role is `lister`, and to the buyer dashboard otherwise |
| OtpSignup.AfterEmailVerified | src/pages/OtpSignup.tsx:46-58 | one request for a non-empty password and one for a session, at most two; the password update comes first, the phone update last |
| OtpSignup.AfterEmailVerifiedRequests | src/pages/OtpSignup.tsx:46-58 | after email verification, a password update is sent iff the signup data holds a non-empty password, and it is sent first. A phone passcode is requested iff there is a session, for the formatted phone. Nothing else is sent |
| OtpSignup.OtpSignupPage.HandleEmailVerify | src/pages/OtpSignup.tsx:43-61 | the verification result is returned unchanged; a failed verification sends nothing more, a successful one sends exactly `AfterEmailVerified` |
| OtpSignup.OtpSignupPage.SetPasswordAndSendPhoneOtp | src/pages/OtpSignup.tsx:46-58 | the requests sent are exactly `AfterEmailVerified` |
| OtpSignup.OtpSignupPage.HandlePhoneVerify | src/pages/OtpSignup.tsx:63-65 | one `sms` check of the formatted phone |
| OtpSignup.OtpSignupPage.HandleEmailResend | src/pages/OtpSignup.tsx:66-68 | one passcode re-sent to the raw email |
| OtpSignup.OtpSignupPage.HandlePhoneResend | src/pages/OtpSignup.tsx:70-72 | without a session nothing is sent; with one the formatted phone is updated once |
| OtpSignup.OtpSignupPage.HandleComplete | src/pages/OtpSignup.tsx:73-82 | the page leaves for the role's dashboard |
| OtpSignup.OtpSignupPage.SubmitEmailCode | src/components/ui/dual-otp-verification.tsx:29-38 | an email code runs the page's handler, updates the flags by `Step`, and leaves for the dashboard iff that completed both channels |
| OtpSignup.OtpSignupPage.SubmitPhoneCode | src/components/ui/dual-otp-verification.tsx:40-49 | the same for a phone code |
| Signup.RoleName | src/pages/Signup.tsx:16 | the role sent is `lister` iff the lister tab is chosen, and `buyer` otherwise |
| Signup.Validate | src/pages/Signup.tsx:38-65 | "Missing Information" iff the email, password or phone is empty; otherwise "Password Mismatch" iff the confirmation differs; otherwise "Weak Password" iff the password is shorter than 6 |
| Signup.AcceptedForms | src/pages/Signup.tsx:38-65 | a form passes iff email and phone are filled and the password is confirmed and at least 6 characters long |
| Signup.UserDataFor | src/pages/Signup.tsx:72-78 | the user data carries the name, the role, the phone and the address. The organisation is the typed one for a buyer and the full name for a lister |
| Signup.SignupDataFor | src/pages/Signup.tsx:85-96 | the navigation state carries the form's fields and no password |
| Signup.SignupPasswordIsNeverSet | src/pages/Signup.tsx:85-96 | for data from the signup form, email verification sends no password update, only the phone passcode when there is a session |
| Signup.RoleDecidesOrganisation | src/pages/Signup.tsx:72-78 | the same form sent as a buyer and as a lister differs only in the role and the organisation |
| Signup.SignupPage.constructor | src/pages/Signup.tsx:16-29 | an empty buyer form, not loading, nothing stored and no navigation |
| Signup.SignupPage.HandleSubmit | src/pages/Signup.tsx:36-98 | a rejected form sends nothing and changes nothing. An accepted form stores the password and sends exactly one email passcode with `UserDataFor` and the normalised phone. Loading ends false, and the page opens `/otp-signup` with `SignupDataFor` iff the send succeeded |
| ForgotPassword.Next | src/pages/ForgotPassword.tsx:28-46 | the step changes by at most one, and advances iff a send succeeds at step 1 or a six-character code is verified at step 2 |
| ForgotPassword.RunOnlyAdvancesOnSuccess | src/pages/ForgotPassword.tsx:14-46 | from step 1 the step stays within 1..3; step 2 is reached only through a successful send and step 3 only through a successful check |
| ForgotPassword.RunMonotone | src/pages/ForgotPassword.tsx:28-46 | the step never decreases |
| ForgotPassword.ResetRefused | src/pages/ForgotPassword.tsx:50 | a reset is refused iff the password is shorter than 6 or differs from its confirmation |
| ForgotPassword.SamePasswordPolicy | src/pages/ForgotPassword.tsx:50 | the reset accepts exactly the passwords the signup form accepts |
| ForgotPassword.ForgotPasswordPage.constructor | src/pages/ForgotPassword.tsx:14-19 | step 1 with empty fields |
| ForgotPassword.ForgotPasswordPage.TypeOtp | src/pages/ForgotPassword.tsx:104 | the code field keeps at most six digits of what was typed |
| ForgotPassword.ForgotPasswordPage.HandleSendOtp | src/pages/ForgotPassword.tsx:28-34 | one login passcode for the email that must not create an account; the step follows `Next` |
| ForgotPassword.ForgotPasswordPage.HandleVerifyOtp | src/pages/ForgotPassword.tsx:36-46 | a code that is not six characters long makes no call; otherwise one email check of the code; the step follows `Next` |
| ForgotPassword.ForgotPasswordPage.HandleResetPassword | src/pages/ForgotPassword.tsx:48-63 | a short or unconfirmed password is refused without a call; otherwise one password update, and the page leaves for `/login` iff it succeeded |
| BuyerDashboard.Matches | src/pages/BuyerDashboard.tsx:98-99 | a card matches iff its lowercased name or lowercased provider contains the lowercased term |
| BuyerDashboard.Filter | src/pages/BuyerDashboard.tsx:97-100 | the shown cards are no more than the cards, each is a card that matches, and every matching card is shown |
| BuyerDashboard.FilterConcat | src/pages/BuyerDashboard.tsx:97-100 | filtering two lists put together shows the cards of each, one after the other, so a repeated card is shown as often as it is listed |
| BuyerDashboard.FilterKeepsExactlyMatches | src/pages/BuyerDashboard.tsx:97-100 | a card is shown iff its lowercased name or provider contains the lowercased term |
| BuyerDashboard.FilterIsSubsequence | src/pages/BuyerDashboard.tsx:97 | the shown cards keep the list's order |
| BuyerDashboard.EmptyTermShowsAll | src/pages/BuyerDashboard.tsx:97-100 | an empty search shows every card |
| BuyerDashboard.FilterIgnoresCase | src/pages/BuyerDashboard.tsx:98-99 | terms that differ only in letter case show the same cards |
| BuyerDashboard.LowercasedTermShowsSameCards | src/pages/BuyerDashboard.tsx:98-99 | searching the lowercased term is searching the term |
| BuyerDashboard.CountIsAllIffAllMatch | src/pages/BuyerDashboard.tsx:151 | the count shown equals the number of cards iff every card matches |
| BuyerDashboard.FindCard | src/pages/BuyerDashboard.tsx:202 | the first card with the id, and none iff no card has it |
| BuyerDashboard.DetailsFor | src/pages/BuyerDashboard.tsx:195-203 | no panel iff nothing (or id 0) is selected; an empty card iff no card has the id; otherwise the details of a listed card with that id |
| BuyerDashboard.ClickedCardIsShown | src/pages/BuyerDashboard.tsx:158-203 | with distinct non-zero ids, clicking a card shows that card's details |
| BuyerDashboard.MockCardsOpenTheirDetails | src/pages/BuyerDashboard.tsx:24-70 | each of the page's three cards opens its own details |
| BuyerDashboard.SearchByProviderInCapitals | src/pages/BuyerDashboard.tsx:97-100 | searching "CAFE" shows the soup through its provider's name |
| BookingPage.SetField | src/pages/BookingPage.tsx:70-72 | the named field takes the value and every other field keeps its own |
| BookingPage.SetFieldUndo | src/pages/BookingPage.tsx:70-72 | typing a field's former value back restores the record |
| BookingPage.SetFieldsCommute | src/pages/BookingPage.tsx:70-72 | changes to two different fields commute |
| BookingPage.FieldShownAt | src/pages/BookingPage.tsx:164-260 | step 1 shows the quantity, pickup time and requests; step 2 the contact name, organisation, phone and email |
| BookingPage.ContactComplete | src/pages/BookingPage.tsx:273 | the contact has a name, a phone and an email |
| BookingPage.ContinueEnabled | src/pages/BookingPage.tsx:199-273 | Continue is enabled at step 1 with a quantity and at step 2 with a complete contact |
| BookingPage.Transition | src/pages/BookingPage.tsx:74-81 | inputs of the current step write their field. Continue adds exactly one when enabled (step 1 with a quantity, step 2 with a name, phone and email). Back goes 2→1 and 3→2, Submit goes 3→4, and anything else changes nothing |
| BookingPage.TransitionKeepsConsistent | src/pages/BookingPage.tsx:164-340 | every action keeps the step in 1..4, a quantity past step 1 and a complete contact past step 2 |
| BookingPage.ConfirmationIsFinal | src/pages/BookingPage.tsx:344-370 | nothing changes the page once the booking is confirmed |
| BookingPage.RunKeepsConsistent | src/pages/BookingPage.tsx:43-81 | from the initial page, any sequence of actions keeps it consistent, so a confirmed booking has a quantity and a complete contact |
| BookingPage.FillingTheFormConfirms | src/pages/BookingPage.tsx:164-340 | filling the quantity and the contact and pressing Continue, Continue, Submit confirms the booking |
| BookingPage.IdOrDefault | src/pages/BookingPage.tsx:54 | a missing or empty route id stands for "1" |
| BookingPage.FoodItemFor | src/pages/BookingPage.tsx:54-68 | a listing is shown iff the id parses to a key of the catalogue, and it is that key's listing; otherwise the not-found view |
| BookingPage.FoodItemForNumber | src/pages/BookingPage.tsx:54 | a numeric id finds the listing under that number, or none |
| BookingPage.DefaultIdShowsFirstListing | src/pages/BookingPage.tsx:24-68 | without an id the soup is shown; id 2 gives the not-found view |
| BookingPage.BookingPage.constructor | src/pages/BookingPage.tsx:43-52 | step 1 with an empty record |
| BookingPage.BookingPage.HandleInputChange | src/pages/BookingPage.tsx:70-72 | the page follows `Transition` for the input, and stays consistent |
| BookingPage.BookingPage.HandleNextStep | src/pages/BookingPage.tsx:74-76 | the page follows `Transition` for Continue, and stays consistent |
| BookingPage.BookingPage.HandleBack | src/pages/BookingPage.tsx:266 | the page follows `Transition` for Back, and stays consistent |
| BookingPage.BookingPage.HandleBookingSubmit | src/pages/BookingPage.tsx:78-81 | the page follows `Transition` for Submit, and stays consistent |

## Left out

- The auth provider's and the database's internals: sessions, passcode delivery and expiry, and row storage. Their answers are inputs, and `getUser` is a lookup of the token among the signed-in sessions.
- Concurrency: each handler runs as one sequential step. The non-atomic read-check-write of `create-booking` and the relative increment of `update-booking-status` are not analysed under interleaving.
- HTTP plumbing: CORS pre-flight, `serve`, JSON parsing and response headers. Only the 200/400 split and the result are modelled.
- Request fields that are absent in JavaScript are modelled as empty strings, except the listing `price`, whose absence matters.
- `price` and `total_amount` are integers (for example cents), not JavaScript floating-point numbers. The buyer dashboard's star rating, a float with no logic attached, is dropped.
- Toasts, `document.title`, the two-second delay before the dashboard redirect, and rendering. The resend countdown's interval is an explicit `Tick`.
- React's stale closures: each handler reads the state as of the latest event, and events are handled one at a time.
- The form fields' plain `onChange` setters (email, names, passwords) are direct assignments to the page's fields.
- The signup password's session-storage item is modelled as a field that is written but never read, which is how the code uses it.
- `BookingPage.SetField`: `handleInputChange` takes the field name as a string. Its callers only pass the record's seven keys, so the model takes one of those seven and does not model an arbitrary key being added.
- `JsString.Trim`: removes the ASCII white-space characters (space, tab, line feed, carriage return, vertical tab, form feed). JavaScript also trims Unicode spaces such as no-break space and the line separators.
- `JsString.ToLower`: folds ASCII letters only. JavaScript's Unicode case mapping is not modelled.
- `Signup.Validate`, `ForgotPassword.ResetRefused`, `JsString.Truncate`: count characters (Unicode scalar values). JavaScript's `length` and `maxLength` count UTF-16 code units. So a password made of characters outside the Basic Multilingual Plane, such as three emoji, passes the code's length check but is refused here as weak.
- `CreateFoodListing.NewListing`: the handler does not set `is_available`, so the stored value is the table's column default. That default is not part of this model's sources; the model takes it to be true (`DEFAULT_AVAILABLE`).
- `Store.Authenticate`: with the header `Bearer ` the token is empty. `getUser("")` then checks the client's own session, and the handlers' clients keep none, so the model refuses an empty token as unauthorized. Token lookup is otherwise a map from access tokens to users.
- `UpdateBookingStatus.UpdateBookingStatus`: the relative increment at line 103 is built with `supabase.raw`. Whether the client library provides that call is not part of this model, so its outcome is an input: applied, failed with a logged error, or thrown.
- `JsString.ParseInt`: reads a decimal integer prefix. The `0x` hexadecimal form and the precision limits of JavaScript numbers are not modelled.
- `ForgotPassword.ForgotPasswordPage.HandleSendOtp`, `HandleVerifyOtp`, `HandleResetPassword`: each handler requires the step whose form renders it (lines 88, 100 and 112), since the form is not shown at other steps.
- The login pages, the lister dashboard's mock data, the static pages and the `useAuth` hook are not part of this model. Only the two `useAuth` calls that the password-reset page makes are reproduced, as the requests they send.
