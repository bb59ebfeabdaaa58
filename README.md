# Room suggestions: scoring, ranking and preference validation

A Dafny model of the core of a small room-suggestion service. A request
carries four preferences, each a pair (target value, importance 1..10):
a budget, a check-in date, a check-out date and a neighbourhood name.
The validation layer (`PreferenceInput` in `app/schemas.py`) refuses
malformed requests. The suggestions endpoint (`get_room_suggestions` in
`app/routers/suggestions.py`) scores every listing that has a room and
ranks the results by score, highest first. The reservation endpoint
(`reserve_room`) checks that the listing and its room exist.

Modules, one per part of the program:

- `Results` — `Option` and `Result`, for missing rows, raised validation
  errors and HTTP errors.
- `Schemas` (`app/schemas.py`) — dates, `PreferenceInput`, the four field
  validators, the way pydantic runs them together, and `RoomSuggestion`.
- `Catalog` (`models/*.py`) — listing, room and neighbourhood rows as plain
  values, and the pre-joined `CatalogEntry` that stands for the database
  queries.
- `Scoring` — the three attribute terms and the aggregate score, in exact
  `real` arithmetic.
- `Ranking` — the descending order by score (a stable insertion sort).
- `Suggestions` (`app/routers/suggestions.py`) — the scoring loop as a
  method proved against the specification function `ScoreCatalog`, the
  lemmas about the ranking, and `ReserveRoom`.

Scores: the budget term is `importance / (1 + |budget − price|)`. The
check-in and check-out terms are each `10 · importance`, whatever the
listing. The neighbourhood has no term. A listing's score is the sum of
the three terms, and its attribute map has exactly the keys `budget`,
`check_in` and `check_out`. Because only the budget term depends on the
listing, the ranking orders listings by how close their price is to the
budget (`RankedClosestPriceFirst`).

Points where the model follows the code rather than the endpoints'
docstrings, which promise a difference for every attribute and an
availability check (app/routers/suggestions.py:56-58 and 142-143):

- There is no neighbourhood term: the neighbourhood block of the scoring
  loop (app/routers/suggestions.py:99-100) is empty.
- The check-in and check-out terms are the fixed placeholders of lines
  105 and 110, not a measure of how well the dates fit.
- Listings without a room are skipped (lines 86-87), so not every listing
  of the catalog is suggested.
- Reservation only checks that the listing and its room exist (lines
  146-159) and changes nothing; there is no reserved state and no error
  for a second reservation.

The code never builds the `RoomSuggestion` objects and never sorts them.
Lines 114-122 hold only the comments saying that it should, and line 123
returns a placeholder. The model completes that evident intent. It appends
one suggestion per scored listing, then sorts by score in descending order,
as Python's `sorted(..., key=score, reverse=True)` would. The code has no
tie-break; ties keep catalog order.

The current date (`date.today()`) is a parameter of the check-in
validator. The database is replaced by explicit inputs: a sequence of
pre-joined catalog entries for the ranking, and two maps keyed by listing
identifier for the reservation.

## Model

| member | source | states |
|---|---|---|
| Schemas.BudgetNonNegative | app/schemas.py:17-24 | accepted iff budget ≥ 0 and importance in 1..10; a negative budget is reported even when the importance is also bad; on success the pair is returned unchanged |
| Schemas.CheckInNotPast | app/schemas.py:26-34 | accepted iff the check-in is not before today and the importance is in 1..10; a past date is reported before a bad importance; the pair is returned unchanged |
| Schemas.CheckOutAfterCheckIn | app/schemas.py:36-44 | a check-out before the check-in is refused only when a validated check-in is present; equal dates pass; otherwise an importance outside 1..10 gives the importance error; the pair is returned unchanged |
| Schemas.NeighNameNotEmpty | app/schemas.py:46-53 | accepted iff the name is non-empty and the importance is in 1..10; an empty name is reported first; the pair is returned unchanged |
| Schemas.ValidatePreferences | app/schemas.py:8-53 | a request is accepted, unchanged, iff it is well formed field by field; otherwise 1 to 4 errors, in field order, and each of the eight error kinds appears iff its rule fails (the check-out order error only when check-in itself passed) |
| Schemas.BeforeIsStrictTotalOrder | app/schemas.py:30 | the date comparison is irreflexive, asymmetric, transitive and total on distinct dates |
| Schemas.ValidatedCheckIn | app/schemas.py:39 | the check-out validator sees the check-in date iff the check-in validator accepted it |
| Schemas.FieldErrors | app/schemas.py:8-53 | every validator runs; at most four errors, in field order, and none iff the request is well formed |
| Schemas.FieldErrorsKinds | app/schemas.py:17-53 | each of the eight error kinds is reported iff its rule fails, the value rule taking precedence over the importance rule |
| Schemas.CheckInTodayAccepted | app/schemas.py:29-34 | a check-in equal to today is accepted |
| Schemas.ValidatedDatesOrdered | app/schemas.py:36-44 | a validated request never has its check-out before its check-in |
| Scoring.BudgetScore | app/routers/suggestions.py:94-95 | the budget term times one plus the distance between budget and price is the importance |
| Scoring.CheckInScore | app/routers/suggestions.py:105 | for an importance in 1..10 the check-in term lies between 10 and 100 |
| Scoring.CheckOutScore | app/routers/suggestions.py:110 | for an importance in 1..10 the check-out term lies between 10 and 100 |
| Scoring.AttributeScores | app/routers/suggestions.py:91-112 | the attribute map has exactly the keys budget, check_in and check_out, and none for the neighbourhood |
| Scoring.TotalScore | app/routers/suggestions.py:90-112 | the aggregate score is the sum of the three attribute scores |
| Scoring.BudgetScoreAtBudget | app/routers/suggestions.py:94-95 | a price equal to the budget scores exactly the budget importance |
| Scoring.BudgetScoreBounds | app/routers/suggestions.py:94-95 | with importance in 1..10 the budget score is in (0, importance], and equals the importance iff price = budget |
| Scoring.BudgetScoreAntitone | app/routers/suggestions.py:94-95 | the budget score does not increase as the price moves further from the budget, and strictly decreases for a positive importance |
| Scoring.ScoresScaleWithImportance | app/routers/suggestions.py:94-112 | multiplying an importance by k multiplies that attribute's score by k |
| Scoring.TotalScoreOrder | app/routers/suggestions.py:90-112 | one listing scores at least as high as another iff its price is at least as close to the budget |
| Ranking.SortByScoreDesc | app/routers/suggestions.py:119-122 | the output is sorted by score in descending order and is a permutation of the input |
| Suggestions.Suggest | app/routers/suggestions.py:89-115 | a suggestion carries the listing's id, name, price, host, neighbourhood and room type; its budget score is the budget formula at the listing's price, its check-in and check-out scores are 10 · importance, and its score is the sum of the three |
| Suggestions.ScoreCatalog | app/routers/suggestions.py:82-112 | exactly one suggestion per entry that has a room, each with the aggregate score of its own price |
| Suggestions.GetRoomSuggestions | app/routers/suggestions.py:66-122 | a check-out before the check-in gives the 400 error, before anything is scored; otherwise the result is the scored catalog sorted by score, descending, and a permutation of it |
| Suggestions.ScoredEntriesHaveRooms | app/routers/suggestions.py:84-87 | every suggestion comes from a catalog entry that has a room |
| Suggestions.EntriesWithRoomsAreScored | app/routers/suggestions.py:84-112 | every catalog entry that has a room is suggested |
| Suggestions.AllRoomsAllScored | app/routers/suggestions.py:84-112 | when every entry has a room, there is one suggestion per entry, in catalog order |
| Suggestions.NoRoomsNoSuggestions | app/routers/suggestions.py:84-87 | when no entry has a room, or the catalog is empty, there is no suggestion |
| Suggestions.NeighbourhoodIgnored | app/routers/suggestions.py:99-100 | changing the requested neighbourhood leaves every suggestion unchanged |
| Suggestions.PermutationKeepsScores | app/routers/suggestions.py:119-122 | reordering the suggestions keeps each one's score tied to its price |
| Suggestions.HigherScoreCloserPrice | app/routers/suggestions.py:90-112 | of two suggestions, the higher-scored one is priced at least as close to the budget |
| Suggestions.SortedScoresClosestPriceFirst | app/routers/suggestions.py:90-122 | a list sorted by score whose scores are those of their prices is ordered by closeness of price to the budget |
| Suggestions.RankedClosestPriceFirst | app/routers/suggestions.py:52-58 | in the ranked list, each listing's price is at least as close to the budget as that of every listing after it |
| Suggestions.ExampleCloserPriceRanksFirst | app/routers/suggestions.py:34-41 | with the documented example request, a listing priced 250 outranks one priced 500 |
| Suggestions.ReserveRoom | app/routers/suggestions.py:145-165 | "Listing not found." (404) when the listing is absent; otherwise "Room not found." (404) when the room is absent; otherwise success for that listing id |

## Left out

- `round(..., 2)` on the attribute scores and floating-point arithmetic: scores are exact reals.
- The database queries, sessions and joins: replaced by the pre-joined catalog and the two lookup maps. The query on line 80 is assumed to yield each listing once.
- The placeholder return on line 123: the model returns the ranked suggestions the comments describe.
- The room's availability flag and dates: the code reads neither.
- The text of the reservation success message. It embeds the listing id as a decimal string. The model returns the id itself.
- HTTP mechanics: status codes and details are kept as `HttpError` values. Pydantic's type coercion and error locations are not modelled.
- Concurrency around reservation: the code has none, and reservation changes no state.
- `RoomSuggestion.price` is kept as the listing's integer price rather than a float.
- Ranking.SortByScoreDesc: the contract does not state stability (ties keep catalog order in the definition, but this is not proved).
- Ingestion scripts, migrations, engine set-up, the app wiring and the file dumper are not part of this model.
