/** The buyer dashboard (src/pages/BuyerDashboard.tsx): the search filter over
    the listing cards and the details panel of the selected card. */
module BuyerDashboard {
  import opened Wrappers
  import opened JsString

  /** One listing card. The star rating, a floating-point number that plays
      no part in the search, is left out. */
  datatype FoodCard = FoodCard(
    id: int,
    foodName: string,
    quantity: string,
    provider: string,
    location: string,
    expiryTime: string,
    price: string,
    contact: string,
    email: string,
    address: string,
    description: string,
    available: bool)

  /** Lines 98-99: the card's lowercased food name or lowercased provider
      contains the lowercased search term. */
  predicate Matches(card: FoodCard, term: string) {
    Includes(ToLower(card.foodName), ToLower(term)) || Includes(ToLower(card.provider), ToLower(term))
  }

  /** `filteredListings` (lines 97-100): `Array.prototype.filter` with
      `Matches`. */
  function Filter(cards: seq<FoodCard>, term: string): (r: seq<FoodCard>)
    ensures |r| <= |cards|
    ensures forall c :: c in r ==> c in cards && Matches(c, term)
    ensures forall i :: 0 <= i < |cards| && Matches(cards[i], term) ==> cards[i] in r
  {
    if cards == [] then []
    else if Matches(cards[0], term) then [cards[0]] + Filter(cards[1..], term)
    else Filter(cards[1..], term)
  }

  /** `r` is `s` with some elements removed, the rest kept in order: each
      element of `s` is either the next element of `r` or skipped. */
  predicate IsSubsequence<T(==)>(r: seq<T>, s: seq<T>)
    decreases |s|
  {
    if s == [] then r == []
    else (r != [] && r[0] == s[0] && IsSubsequence(r[1..], s[1..])) || IsSubsequence(r, s[1..])
  }

  /** A card is shown iff it is in the list and matches the term. */
  lemma {:induction false} FilterKeepsExactlyMatches(cards: seq<FoodCard>, term: string)
    ensures forall c :: c in Filter(cards, term) <==> c in cards && Matches(c, term)
  {
    if cards != [] {
      FilterKeepsExactlyMatches(cards[1..], term);
      assert forall c :: c in cards <==> c == cards[0] || c in cards[1..];
    }
  }

  /** Filtering works piece by piece: the cards shown for two lists put
      together are those shown for each, one after the other. So a card that
      is listed twice is shown twice, and order is kept. */
  lemma {:induction false} FilterConcat(a: seq<FoodCard>, b: seq<FoodCard>, term: string)
    ensures Filter(a + b, term) == Filter(a, term) + Filter(b, term)
  {
    if a == [] {
      assert a + b == b;
    } else {
      assert (a + b)[0] == a[0];
      assert (a + b)[1..] == a[1..] + b;
      FilterConcat(a[1..], b, term);
    }
  }

  /** The shown cards keep the order of the list. */
  lemma {:induction false} FilterIsSubsequence(cards: seq<FoodCard>, term: string)
    ensures IsSubsequence(Filter(cards, term), cards)
  {
    if cards != [] {
      FilterIsSubsequence(cards[1..], term);
      var rest := Filter(cards[1..], term);
      if Matches(cards[0], term) {
        assert ([cards[0]] + rest)[1..] == rest;
      }
    }
  }

  /** An empty search shows every card. */
  lemma {:induction false} EmptyTermShowsAll(cards: seq<FoodCard>)
    ensures Filter(cards, "") == cards
  {
    if cards != [] {
      IncludesEmpty(ToLower(cards[0].foodName));
      assert ToLower("") == "";
      EmptyTermShowsAll(cards[1..]);
    }
  }

  /** Two terms that differ only in letter case show the same cards; in
      particular typing in capitals changes nothing. */
  lemma {:induction false} FilterIgnoresCase(cards: seq<FoodCard>, t1: string, t2: string)
    requires ToLower(t1) == ToLower(t2)
    ensures Filter(cards, t1) == Filter(cards, t2)
  {
    if cards != [] {
      FilterIgnoresCase(cards[1..], t1, t2);
    }
  }

  /** Searching for the lowercased term is searching for the term. */
  lemma LowercasedTermShowsSameCards(cards: seq<FoodCard>, term: string)
    ensures Filter(cards, ToLower(term)) == Filter(cards, term)
  {
    ToLowerIdempotent(term);
    FilterIgnoresCase(cards, ToLower(term), term);
  }

  /** The count in the heading (line 151) is the number of shown cards; it
      equals the number of cards iff every card matches. */
  lemma {:induction false} CountIsAllIffAllMatch(cards: seq<FoodCard>, term: string)
    ensures |Filter(cards, term)| == |cards| <==> forall i :: 0 <= i < |cards| ==> Matches(cards[i], term)
  {
    if cards != [] {
      CountIsAllIffAllMatch(cards[1..], term);
      assert forall i :: 1 <= i < |cards| ==> cards[i] == cards[1..][i - 1];
      if forall i :: 0 <= i < |cards| ==> Matches(cards[i], term) {
        assert forall i :: 0 <= i < |cards[1..]| ==> Matches(cards[1..][i], term) by {
          forall i | 0 <= i < |cards[1..]| ensures Matches(cards[1..][i], term) {
            assert cards[1..][i] == cards[i + 1];
          }
        }
      }
    }
  }

  /** `mockFoodListings.find(l => l.id === selectedListing)` (line 202): the
      first card with the id, if any. */
  function FindCard(cards: seq<FoodCard>, id: int): (r: Option<FoodCard>)
    ensures r.None? <==> forall i :: 0 <= i < |cards| ==> cards[i].id != id
    ensures r.Some? ==> exists i :: (0 <= i < |cards| && cards[i] == r.value
      && r.value.id == id && forall j :: 0 <= j < i ==> cards[j].id != id)
  {
    if cards == [] then None
    else if cards[0].id == id then
      Some(cards[0])
    else
      var r := FindCard(cards[1..], id);
      assert forall i :: 1 <= i < |cards| ==> cards[i] == cards[1..][i - 1];
      if r.Some? then
        var i :| 0 <= i < |cards[1..]| && cards[1..][i] == r.value
          && r.value.id == id && forall j :: 0 <= j < i ==> cards[1..][j].id != id;
        assert cards[i + 1] == r.value;
        assert forall j :: 0 <= j < i + 1 ==> cards[j].id != id by {
          forall j | 0 <= j < i + 1 ensures cards[j].id != id {
            if j > 0 {
              assert cards[j] == cards[1..][j - 1];
            }
          }
        }
        r
      else
        r
  }

  /** The right-hand column (lines 195-203): nothing without a selection (a
      null or 0 id is falsy), an empty card for an id no listing has, the
      details otherwise. */
  datatype DetailsPanel = NoSelection | EmptyCard | Details(card: FoodCard)

  function DetailsFor(cards: seq<FoodCard>, selected: Option<int>): (r: DetailsPanel)
    ensures r.NoSelection? <==> selected.None? || selected.value == 0
    ensures r.Details? ==> r.card in cards && Some(r.card.id) == selected
    ensures r.EmptyCard? <==> (selected.Some? && selected.value != 0
      && forall i :: 0 <= i < |cards| ==> cards[i].id != selected.value)
  {
    if selected.None? || selected.value == 0 then NoSelection
    else match FindCard(cards, selected.value)
      case None => EmptyCard
      case Some(card) => Details(card)
  }

  /** A clicked card (line 158) is the one shown in the panel whenever the
      ids of the list are distinct and non-zero. */
  lemma ClickedCardIsShown(cards: seq<FoodCard>, i: nat)
    requires i < |cards| && cards[i].id != 0
    requires forall j, k :: 0 <= j < k < |cards| ==> cards[j].id != cards[k].id
    ensures DetailsFor(cards, Some(cards[i].id)) == Details(cards[i])
  {
    var r := FindCard(cards, cards[i].id);
    var k :| 0 <= k < |cards| && cards[k] == r.value
      && r.value.id == cards[i].id && forall j :: 0 <= j < k ==> cards[j].id != cards[i].id;
    assert k == i;
  }

  /** `mockFoodListings` (lines 24-70), the list the page searches. */
  const MOCK_LISTINGS: seq<FoodCard> := [
    FoodCard(1, "Fresh Vegetable Soup", "20 servings", "Green Cafe", "Downtown, 0.5 miles", "2 hours", "Free",
      "+1 (555) 123-4567", "contact@greencafe.com", "123 Main St, Downtown",
      "Healthy vegetable soup made with fresh organic vegetables.", true),
    FoodCard(2, "Sandwiches & Salads", "15 items", "Metro Deli", "Midtown, 1.2 miles", "4 hours", "$5 per item",
      "+1 (555) 987-6543", "orders@metrodeli.com", "456 Oak Ave, Midtown",
      "Assorted sandwiches and fresh salads, perfect for groups.", true),
    FoodCard(3, "Wedding Surplus Food", "50 servings", "Grand Palace Hotel", "Uptown, 2.1 miles", "1 hour", "Free",
      "+1 (555) 456-7890", "events@grandpalace.com", "789 Palace Drive, Uptown",
      "High-quality surplus food from wedding event including appetizers and main courses.", true)
  ]

  /** Every card of the page's list opens its own details. */
  lemma MockCardsOpenTheirDetails(i: nat)
    requires i < |MOCK_LISTINGS|
    ensures DetailsFor(MOCK_LISTINGS, Some(MOCK_LISTINGS[i].id)) == Details(MOCK_LISTINGS[i])
  {
    ClickedCardIsShown(MOCK_LISTINGS, i);
  }

  /** Searching "CAFE" shows the soup, through its provider's name. */
  lemma SearchByProviderInCapitals()
    ensures MOCK_LISTINGS[0] in Filter(MOCK_LISTINGS, "CAFE")
  {
    var name := ToLower(MOCK_LISTINGS[0].provider);
    assert name == "green cafe";
    assert ToLower("CAFE") == "cafe";
    assert OccursAt(name, "cafe", 6);
    FilterKeepsExactlyMatches(MOCK_LISTINGS, "CAFE");
  }
}
