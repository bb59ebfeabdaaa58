/** The two endpoints of app/routers/suggestions.py: ranking the catalog
    against a request's preferences, and the existence checks of a
    reservation. The database is replaced by the pre-joined catalog and by
    the two tables keyed by listing identifier. */
module Suggestions {
  import opened Results
  import opened Schemas
  import opened Catalog
  import opened Scoring
  import opened Ranking

  /** An HTTPException: its status code and detail text. */
  datatype HttpError = HttpError(statusCode: int, detail: string)

  const CheckOutBeforeCheckInError := HttpError(400, "Check-out date cannot be before check-in date.")
  const ListingNotFound := HttpError(404, "Listing not found.")
  const RoomNotFound := HttpError(404, "Room not found.")

  /** The suggestion made for a catalog entry that has a room. */
  function Suggest(p: PreferenceInput, e: CatalogEntry): (s: RoomSuggestion)
    requires e.room.Some?
    ensures s.listingId == e.listing.airbnbId && s.price == e.listing.price
    ensures s.airbnbName == e.listing.airbnbName && s.hostId == e.listing.hostId
    ensures s.neighName == e.neighborhood.neighName && s.roomType == e.room.value.roomType
    ensures s.attributeScores.Keys == {"budget", "check_in", "check_out"}
    ensures s.score == s.attributeScores["budget"] + s.attributeScores["check_in"] + s.attributeScores["check_out"]
    ensures s.attributeScores["budget"] == BudgetScore(p.budget.0, p.budget.1, e.listing.price)
    ensures s.attributeScores["check_in"] == (10 * p.checkIn.1) as real
    ensures s.attributeScores["check_out"] == (10 * p.checkOut.1) as real
  {
    RoomSuggestion(
      e.listing.airbnbId, e.listing.airbnbName, e.listing.price, e.listing.hostId,
      e.neighborhood.neighName, e.room.value.roomType,
      TotalScore(p, e.listing.price), AttributeScores(p, e.listing.price))
  }

  /** The number of catalog entries that have a room. */
  function RoomCount(c: seq<CatalogEntry>): nat {
    if c == [] then 0
    else RoomCount(c[..|c| - 1]) + (if c[|c| - 1].room.Some? then 1 else 0)
  }

  /** The suggestions for a catalog, in catalog order: one per entry that has
      a room, none for an entry without one. */
  function ScoreCatalog(p: PreferenceInput, c: seq<CatalogEntry>): (r: seq<RoomSuggestion>)
    ensures |r| == RoomCount(c) <= |c|
    ensures ScoresMatchPrices(p, r)
  {
    if c == [] then []
    else
      var last := c[|c| - 1];
      ScoreCatalog(p, c[..|c| - 1]) + (if last.room.Some? then [Suggest(p, last)] else [])
  }

  /** The handler of POST /suggestions/: a request whose check-out precedes
      its check-in is refused with a 400 before anything is scored;
      otherwise every listing with a room is scored and the suggestions are
      returned in descending order of score. */
  method GetRoomSuggestions(preferences: PreferenceInput, catalog: seq<CatalogEntry>)
    returns (r: Result<seq<RoomSuggestion>, HttpError>)
    ensures r.Err? <==> Before(preferences.checkOut.0, preferences.checkIn.0)
    ensures r.Err? ==> r.error == CheckOutBeforeCheckInError
    ensures r.Ok? ==> r.value == SortByScoreDesc(ScoreCatalog(preferences, catalog))
    ensures r.Ok? ==> SortedByScoreDesc(r.value)
    ensures r.Ok? ==> multiset(r.value) == multiset(ScoreCatalog(preferences, catalog))
  {
    var (userBudget, budgetImportance) := preferences.budget;
    var (userCheckIn, checkInImportance) := preferences.checkIn;
    var (userCheckOut, checkOutImportance) := preferences.checkOut;

    if Before(userCheckOut, userCheckIn) {
      return Err(CheckOutBeforeCheckInError);
    }

    var suggestions: seq<RoomSuggestion> := [];
    var i := 0;
    while i < |catalog|
      invariant 0 <= i <= |catalog|
      invariant suggestions == ScoreCatalog(preferences, catalog[..i])
    {
      var entry := catalog[i];
      assert catalog[..i + 1][..i] == catalog[..i];
      if entry.room.Some? {
        var listing := entry.listing;
        var score: real := 0.0;
        var attributeScores: map<string, real> := map[];

        var budgetScore := BudgetScore(userBudget, budgetImportance, listing.price);
        score := score + budgetScore;
        attributeScores := attributeScores["budget" := budgetScore];

        var checkInScore := CheckInScore(checkInImportance);
        score := score + checkInScore;
        attributeScores := attributeScores["check_in" := checkInScore];

        var checkOutScore := CheckOutScore(checkOutImportance);
        score := score + checkOutScore;
        attributeScores := attributeScores["check_out" := checkOutScore];

        suggestions := suggestions + [RoomSuggestion(
          listing.airbnbId, listing.airbnbName, listing.price, listing.hostId,
          entry.neighborhood.neighName, entry.room.value.roomType,
          score, attributeScores)];
      }
      i := i + 1;
    }
    assert catalog[..|catalog|] == catalog;
    r := Ok(SortByScoreDesc(suggestions));
  }

  /** Every suggestion comes from an entry of the catalog that has a room. */
  lemma {:induction false} ScoredEntriesHaveRooms(p: PreferenceInput, c: seq<CatalogEntry>)
    ensures forall s :: s in ScoreCatalog(p, c) ==>
              exists j :: 0 <= j < |c| && c[j].room.Some? && s == Suggest(p, c[j])
  {
    if c != [] {
      var init := c[..|c| - 1];
      ScoredEntriesHaveRooms(p, init);
      forall s | s in ScoreCatalog(p, c)
        ensures exists j :: 0 <= j < |c| && c[j].room.Some? && s == Suggest(p, c[j])
      {
        if s in ScoreCatalog(p, init) {
          var j :| 0 <= j < |init| && init[j].room.Some? && s == Suggest(p, init[j]);
          assert c[j] == init[j];
        } else {
          assert c[|c| - 1].room.Some? && s == Suggest(p, c[|c| - 1]);
        }
      }
    }
  }

  /** Every entry of the catalog that has a room is suggested. */
  lemma {:induction false} EntriesWithRoomsAreScored(p: PreferenceInput, c: seq<CatalogEntry>)
    ensures forall j :: 0 <= j < |c| && c[j].room.Some? ==> Suggest(p, c[j]) in ScoreCatalog(p, c)
  {
    if c != [] {
      var init := c[..|c| - 1];
      EntriesWithRoomsAreScored(p, init);
      forall j | 0 <= j < |c| && c[j].room.Some?
        ensures Suggest(p, c[j]) in ScoreCatalog(p, c)
      {
        if j < |c| - 1 {
          assert init[j] == c[j];
        }
      }
    }
  }

  /** A catalog whose entries all have rooms yields one suggestion per
      entry, in catalog order. */
  lemma {:induction false} AllRoomsAllScored(p: PreferenceInput, c: seq<CatalogEntry>)
    requires forall j :: 0 <= j < |c| ==> c[j].room.Some?
    ensures |ScoreCatalog(p, c)| == |c|
    ensures forall j :: 0 <= j < |c| ==> ScoreCatalog(p, c)[j] == Suggest(p, c[j])
  {
    if c != [] {
      var init := c[..|c| - 1];
      AllRoomsAllScored(p, init);
      assert ScoreCatalog(p, c) == ScoreCatalog(p, init) + [Suggest(p, c[|c| - 1])];
    }
  }

  /** A catalog in which no listing has a room yields no suggestion. */
  lemma {:induction false} NoRoomsNoSuggestions(p: PreferenceInput, c: seq<CatalogEntry>)
    requires forall j :: 0 <= j < |c| ==> c[j].room.None?
    ensures ScoreCatalog(p, c) == []
  {
    if c != [] {
      NoRoomsNoSuggestions(p, c[..|c| - 1]);
    }
  }

  /** The requested neighbourhood plays no part in the scores: changing it
      leaves every suggestion as it was. */
  lemma {:induction false} NeighbourhoodIgnored(p: PreferenceInput, name: (string, int), c: seq<CatalogEntry>)
    ensures ScoreCatalog(p.(neighName := name), c) == ScoreCatalog(p, c)
  {
    if c != [] {
      NeighbourhoodIgnored(p, name, c[..|c| - 1]);
    }
  }

  /** Of two suggestions scored against the same preferences, the higher
      scored one is priced at least as close to the budget. */
  lemma HigherScoreCloserPrice(p: PreferenceInput, x: RoomSuggestion, y: RoomSuggestion)
    requires p.budget.1 >= 1
    requires x.score == TotalScore(p, x.price) && y.score == TotalScore(p, y.price)
    requires x.score >= y.score
    ensures Abs(p.budget.0 - x.price) <= Abs(p.budget.0 - y.price)
  {
    TotalScoreOrder(p, x.price, y.price);
  }

  /** Every suggestion carries the aggregate score of its own price. */
  predicate ScoresMatchPrices(p: PreferenceInput, s: seq<RoomSuggestion>) {
    forall k :: 0 <= k < |s| ==> s[k].score == TotalScore(p, s[k].price)
  }

  /** Reordering suggestions keeps each one's score tied to its price. */
  lemma PermutationKeepsScores(p: PreferenceInput, s: seq<RoomSuggestion>, t: seq<RoomSuggestion>)
    requires ScoresMatchPrices(p, s)
    requires multiset(t) == multiset(s)
    ensures ScoresMatchPrices(p, t)
  {
    forall k | 0 <= k < |t|
      ensures t[k].score == TotalScore(p, t[k].price)
    {
      assert t[k] in multiset(s);
      var m :| 0 <= m < |s| && s[m] == t[k];
    }
  }

  /** A list sorted by score whose scores are those of their prices is
      ordered by closeness of price to the budget. */
  lemma SortedScoresClosestPriceFirst(p: PreferenceInput, r: seq<RoomSuggestion>)
    requires p.budget.1 >= 1
    requires SortedByScoreDesc(r) && ScoresMatchPrices(p, r)
    ensures forall i, j :: 0 <= i < j < |r| ==> Abs(p.budget.0 - r[i].price) <= Abs(p.budget.0 - r[j].price)
  {
    forall i, j | 0 <= i < j < |r|
      ensures Abs(p.budget.0 - r[i].price) <= Abs(p.budget.0 - r[j].price)
    {
      HigherScoreCloserPrice(p, r[i], r[j]);
    }
  }

  /** The ranking puts the listings whose price is closest to the budget
      first. */
  lemma RankedClosestPriceFirst(p: PreferenceInput, c: seq<CatalogEntry>)
    requires p.budget.1 >= 1
    ensures var r := SortByScoreDesc(ScoreCatalog(p, c));
            forall i, j :: 0 <= i < j < |r| ==> Abs(p.budget.0 - r[i].price) <= Abs(p.budget.0 - r[j].price)
  {
    var scored := ScoreCatalog(p, c);
    var r := SortByScoreDesc(scored);
    PermutationKeepsScores(p, scored, r);
    SortedScoresClosestPriceFirst(p, r);
  }

  /** The request of the endpoint's documentation (budget 250 with
      importance 8): a listing priced at 250 outranks one priced at 500. */
  lemma ExampleCloserPriceRanksFirst(a: CatalogEntry, b: CatalogEntry)
    requires a.room.Some? && b.room.Some?
    requires a.listing.price == 250 && b.listing.price == 500
    ensures var p := PreferenceInput((250, 8), (Date(2024, 5, 1), 7), (Date(2024, 5, 10), 7), ("Downtown", 10));
            Suggest(p, a).score > Suggest(p, b).score
            && SortByScoreDesc(ScoreCatalog(p, [b, a])) == [Suggest(p, a), Suggest(p, b)]
  {
    var p := PreferenceInput((250, 8), (Date(2024, 5, 1), 7), (Date(2024, 5, 10), 7), ("Downtown", 10));
    BudgetScoreAntitone(250, 8, 250, 500);
    assert ScoreCatalog(p, [b, a]) == [Suggest(p, b), Suggest(p, a)] by {
      assert [b, a][..1] == [b];
      assert [b][..0] == [];
    }
  }

  /** The handler of POST /suggestions/reserve/{listing_id}: the listing is
      looked up first, then the room; nothing is changed on success. */
  function ReserveRoom(listingId: int, listings: map<int, Listing>, rooms: map<int, Room>): (r: Result<int, HttpError>)
    ensures r.Ok? <==> listingId in listings && listingId in rooms
    ensures r.Ok? ==> r.value == listingId
    ensures listingId !in listings ==> r == Err(ListingNotFound)
    ensures listingId in listings && listingId !in rooms ==> r == Err(RoomNotFound)
  {
    if listingId !in listings then Err(ListingNotFound)
    else if listingId !in rooms then Err(RoomNotFound)
    else Ok(listingId)
  }
}
