/** The booking page (src/pages/BookingPage.tsx): the listing it is opened
    for, and the four-step booking form — details, contact, review,
    confirmation. Each control exists only in the step whose form renders it
    and the Continue buttons are disabled until their fields are filled, so a
    click on a control that is not shown or not enabled changes nothing. */
module BookingPage {
  import opened Wrappers
  import opened JsString
  import opened BuyerDashboard

  /** The keys of `bookingDetails` that the inputs write (lines 44-52). */
  datatype Field =
    | RequestedQuantity | ContactName | ContactPhone | ContactEmail
    | Organization | PickupTime | SpecialRequests

  datatype BookingDetails = BookingDetails(
    requestedQuantity: string,
    contactName: string,
    contactPhone: string,
    contactEmail: string,
    organization: string,
    pickupTime: string,
    specialRequests: string)

  const EMPTY_DETAILS := BookingDetails("", "", "", "", "", "", "")

  function Get(d: BookingDetails, f: Field): string {
    match f
    case RequestedQuantity => d.requestedQuantity
    case ContactName => d.contactName
    case ContactPhone => d.contactPhone
    case ContactEmail => d.contactEmail
    case Organization => d.organization
    case PickupTime => d.pickupTime
    case SpecialRequests => d.specialRequests
  }

  /** `handleInputChange` (lines 70-72): `{ ...prev, [field]: value }`. The
      named field takes the value and every other field keeps its own. */
  function SetField(d: BookingDetails, f: Field, value: string): (r: BookingDetails)
    ensures Get(r, f) == value
    ensures forall g :: g != f ==> Get(r, g) == Get(d, g)
  {
    match f
    case RequestedQuantity => d.(requestedQuantity := value)
    case ContactName => d.(contactName := value)
    case ContactPhone => d.(contactPhone := value)
    case ContactEmail => d.(contactEmail := value)
    case Organization => d.(organization := value)
    case PickupTime => d.(pickupTime := value)
    case SpecialRequests => d.(specialRequests := value)
  }

  /** Two records that agree on every field are the same record. */
  lemma {:induction false} DetailsAreTheirFields(d: BookingDetails, e: BookingDetails)
    requires forall f :: Get(d, f) == Get(e, f)
    ensures d == e
  {
    assert Get(d, RequestedQuantity) == Get(e, RequestedQuantity);
    assert Get(d, ContactName) == Get(e, ContactName);
    assert Get(d, ContactPhone) == Get(e, ContactPhone);
    assert Get(d, ContactEmail) == Get(e, ContactEmail);
    assert Get(d, Organization) == Get(e, Organization);
    assert Get(d, PickupTime) == Get(e, PickupTime);
    assert Get(d, SpecialRequests) == Get(e, SpecialRequests);
  }

  /** Typing back a field's former value restores the record. */
  lemma SetFieldUndo(d: BookingDetails, f: Field, value: string)
    ensures SetField(SetField(d, f, value), f, Get(d, f)) == d
  {
    DetailsAreTheirFields(SetField(SetField(d, f, value), f, Get(d, f)), d);
  }

  /** Changes to two different fields commute. */
  lemma SetFieldsCommute(d: BookingDetails, f: Field, v: string, g: Field, w: string)
    requires f != g
    ensures SetField(SetField(d, f, v), g, w) == SetField(SetField(d, g, w), f, v)
  {
    DetailsAreTheirFields(SetField(SetField(d, f, v), g, w), SetField(SetField(d, g, w), f, v));
  }

  /** Lines 164-193 and 206-260: the inputs of step 1 and of step 2. */
  predicate FieldShownAt(f: Field, step: nat) {
    || (step == 1 && f in {RequestedQuantity, PickupTime, SpecialRequests})
    || (step == 2 && f in {ContactName, Organization, ContactPhone, ContactEmail})
  }

  /** Line 273: step 2's Continue needs a name, a phone and an email. */
  predicate ContactComplete(d: BookingDetails) {
    d.contactName != "" && d.contactPhone != "" && d.contactEmail != ""
  }

  /** Lines 199 and 273: whether a Continue button is shown and enabled. */
  predicate ContinueEnabled(step: nat, d: BookingDetails) {
    (step == 1 && d.requestedQuantity != "") || (step == 2 && ContactComplete(d))
  }

  datatype PageState = PageState(step: nat, details: BookingDetails)

  /** Lines 43-52. */
  const INITIAL := PageState(1, EMPTY_DETAILS)

  datatype Action = Input(field: Field, value: string) | Continue | Back | Submit

  /** One user action: an input of the current step writes its field,
      Continue (`handleNextStep`, lines 74-76) adds one to the step, Back goes
      from 2 to 1 (line 266) and from 3 to 2 (line 330), and Submit
      (`handleBookingSubmit`, lines 78-81) on the review step confirms. */
  function Transition(s: PageState, a: Action): (r: PageState)
    ensures a.Input? ==> r.step == s.step
    ensures a.Input? && FieldShownAt(a.field, s.step) ==> r.details == SetField(s.details, a.field, a.value)
    ensures !a.Input? || !FieldShownAt(a.field, s.step) ==> r.details == s.details
    ensures a.Continue? ==> r.step == if ContinueEnabled(s.step, s.details) then s.step + 1 else s.step
    ensures a.Back? ==> r.step == if s.step == 2 || s.step == 3 then s.step - 1 else s.step
    ensures a.Submit? ==> r.step == if s.step == 3 then 4 else s.step
  {
    match a
    case Input(f, v) => if FieldShownAt(f, s.step) then s.(details := SetField(s.details, f, v)) else s
    case Continue => if ContinueEnabled(s.step, s.details) then s.(step := s.step + 1) else s
    case Back => if s.step == 2 || s.step == 3 then s.(step := s.step - 1) else s
    case Submit => if s.step == 3 then s.(step := 4) else s
  }

  /** The booking form's invariant: the step is one of 1..4, a step past the
      first has a quantity, and a step past the contact form has a complete
      contact. */
  predicate Consistent(s: PageState) {
    && 1 <= s.step <= 4
    && (s.step >= 2 ==> s.details.requestedQuantity != "")
    && (s.step >= 3 ==> ContactComplete(s.details))
  }

  lemma TransitionKeepsConsistent(s: PageState, a: Action)
    requires Consistent(s)
    ensures Consistent(Transition(s, a))
  {
  }

  /** The confirmation step is final: nothing on it changes the page. */
  lemma ConfirmationIsFinal(s: PageState, a: Action)
    requires s.step == 4
    ensures Transition(s, a) == s
  {
  }

  function Run(actions: seq<Action>): PageState {
    if actions == [] then INITIAL else Transition(Run(actions[..|actions| - 1]), actions[|actions| - 1])
  }

  /** Whatever the user does, the page stays consistent: in particular a
      confirmed booking always has a quantity and a complete contact. */
  lemma {:induction false} RunKeepsConsistent(actions: seq<Action>)
    ensures Consistent(Run(actions))
    ensures Run(actions).step == 4 ==> Run(actions).details.requestedQuantity != "" && ContactComplete(Run(actions).details)
  {
    if actions != [] {
      RunKeepsConsistent(actions[..|actions| - 1]);
      TransitionKeepsConsistent(Run(actions[..|actions| - 1]), actions[|actions| - 1]);
    }
  }

  /** Running one more action is one more transition. */
  lemma RunSnoc(actions: seq<Action>, a: Action)
    ensures Run(actions + [a]) == Transition(Run(actions), a)
  {
    assert (actions + [a])[..|actions|] == actions;
  }

  /** The shortest way to a confirmation: fill the quantity, continue, fill
      the contact, continue, submit. */
  lemma FillingTheFormConfirms(quantity: string, name: string, phone: string, email: string)
    requires quantity != "" && name != "" && phone != "" && email != ""
    ensures Run([Input(RequestedQuantity, quantity), Continue, Input(ContactName, name), Input(ContactPhone, phone),
                 Input(ContactEmail, email), Continue, Submit]).step == 4
  {
    var a0, a1, a2, a3 := Input(RequestedQuantity, quantity), Continue, Input(ContactName, name), Input(ContactPhone, phone);
    var a4, a5, a6 := Input(ContactEmail, email), Continue, Submit;
    RunSnoc([], a0);
    RunSnoc([a0], a1);
    RunSnoc([a0, a1], a2);
    RunSnoc([a0, a1, a2], a3);
    RunSnoc([a0, a1, a2, a3], a4);
    RunSnoc([a0, a1, a2, a3, a4], a5);
    RunSnoc([a0, a1, a2, a3, a4, a5], a6);
    assert [a0] == [] + [a0];
    assert [a0, a1] == [a0] + [a1];
    assert [a0, a1, a2] == [a0, a1] + [a2];
    assert [a0, a1, a2, a3] == [a0, a1, a2] + [a3];
    assert [a0, a1, a2, a3, a4] == [a0, a1, a2, a3] + [a4];
    assert [a0, a1, a2, a3, a4, a5] == [a0, a1, a2, a3, a4] + [a5];
    assert [a0, a1, a2, a3, a4, a5, a6] == [a0, a1, a2, a3, a4, a5] + [a6];
  }

  /** `id || "1"` (line 54): a missing or empty route id stands for 1. */
  function IdOrDefault(id: Option<string>): (r: string)
    ensures Truthy(id) ==> r == id.value
    ensures !Truthy(id) ==> r == "1"
  {
    if Truthy(id) then id.value else "1"
  }

  /** Line 54: the listing whose key is the integer prefix of the id; none
      (the not-found view of lines 56-68) when the id does not start with a
      number or no listing has it. */
  function FoodItemFor(id: Option<string>, catalogue: map<int, FoodCard>): (r: Option<FoodCard>)
    ensures r.Some? <==> ParseInt(IdOrDefault(id)).Some? && ParseInt(IdOrDefault(id)).value in catalogue
    ensures r.Some? ==> r.value == catalogue[ParseInt(IdOrDefault(id)).value]
  {
    match ParseInt(IdOrDefault(id))
    case None => None
    case Some(key) => if key in catalogue then Some(catalogue[key]) else None
  }

  /** A route id written as a number finds the listing under that number. */
  lemma FoodItemForNumber(n: nat, catalogue: map<int, FoodCard>)
    ensures FoodItemFor(Some(ShowNat(n)), catalogue) == if n in catalogue then Some(catalogue[n]) else None
  {
    ParseShowNat(n);
  }

  /** `mockFoodDetails` (lines 24-39). */
  const MOCK_DETAILS: map<int, FoodCard> := map[
    1 := FoodCard(1, "Fresh Vegetable Soup", "20 servings", "Green Cafe", "Downtown, 0.5 miles", "2 hours", "Free",
      "+1 (555) 123-4567", "contact@greencafe.com", "123 Main St, Downtown",
      "Healthy vegetable soup made with fresh organic vegetables. Perfect for community meals.", true)]

  /** Without an id the page shows the soup; with id 2 it shows the
      not-found view. */
  lemma DefaultIdShowsFirstListing()
    ensures FoodItemFor(None, MOCK_DETAILS) == Some(MOCK_DETAILS[1])
    ensures FoodItemFor(Some("2"), MOCK_DETAILS).None?
  {
    FoodItemForNumber(1, MOCK_DETAILS);
    FoodItemForNumber(2, MOCK_DETAILS);
  }

  /** The page for a found listing: the step counter and the booking record,
      changed by the handlers one action at a time. */
  class BookingPage {
    var step: nat
    var details: BookingDetails
    const foodItem: FoodCard

    function State(): PageState
      reads this
    {
      PageState(step, details)
    }

    ghost predicate Valid()
      reads this
    {
      Consistent(State())
    }

    constructor (foodItem: FoodCard)
      ensures Valid() && State() == INITIAL && this.foodItem == foodItem
    {
      this.foodItem := foodItem;
      step := 1;
      details := EMPTY_DETAILS;
    }

    method HandleInputChange(f: Field, value: string)
      requires Valid()
      modifies this
      ensures Valid() && State() == Transition(old(State()), Input(f, value))
    {
      TransitionKeepsConsistent(State(), Input(f, value));
      if FieldShownAt(f, step) {
        details := SetField(details, f, value);
      }
    }

    method HandleNextStep()
      requires Valid()
      modifies this
      ensures Valid() && State() == Transition(old(State()), Continue)
    {
      TransitionKeepsConsistent(State(), Continue);
      if ContinueEnabled(step, details) {
        step := step + 1;
      }
    }

    method HandleBack()
      requires Valid()
      modifies this
      ensures Valid() && State() == Transition(old(State()), Back)
    {
      TransitionKeepsConsistent(State(), Back);
      if step == 2 || step == 3 {
        step := step - 1;
      }
    }

    method HandleBookingSubmit()
      requires Valid()
      modifies this
      ensures Valid() && State() == Transition(old(State()), Submit)
    {
      TransitionKeepsConsistent(State(), Submit);
      if step == 3 {
        step := 4;
      }
    }
  }
}
