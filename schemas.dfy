/** The request and response records of the suggestions API (app/schemas.py):
    the four validators of PreferenceInput, the way the validation layer runs
    them together, and the shape of a RoomSuggestion. */
module Schemas {
  import opened Results

  /** A calendar date, as Python's datetime.date. */
  datatype Date = Date(year: int, month: int, day: int)

  /** Python's `a < b` on dates: chronological, i.e. lexicographic on
      (year, month, day). */
  predicate Before(a: Date, b: Date) {
    a.year < b.year
    || (a.year == b.year && a.month < b.month)
    || (a.year == b.year && a.month == b.month && a.day < b.day)
  }

  /** Before is a strict total order: irreflexive, asymmetric, transitive,
      and any two distinct dates are ordered one way or the other. */
  lemma BeforeIsStrictTotalOrder(a: Date, b: Date, c: Date)
    ensures !Before(a, a)
    ensures Before(a, b) ==> !Before(b, a)
    ensures Before(a, b) && Before(b, c) ==> Before(a, c)
    ensures a != b ==> Before(a, b) || Before(b, a)
  {
  }

  /** Each preference is a pair (target value, importance coefficient). */
  datatype PreferenceInput = PreferenceInput(
    budget: (int, int),
    checkIn: (Date, int),
    checkOut: (Date, int),
    neighName: (string, int))

  /** The ValueError each validator can raise; Message gives its text. */
  datatype PreferenceError =
    | NegativeBudget
    | BudgetImportanceOutOfRange
    | CheckInInPast
    | CheckInImportanceOutOfRange
    | CheckOutBeforeCheckIn
    | CheckOutImportanceOutOfRange
    | EmptyNeighName
    | NeighImportanceOutOfRange

  function Message(e: PreferenceError): string {
    match e
    case NegativeBudget => "Budget cannot be negative"
    case BudgetImportanceOutOfRange => "Budget importance coefficient must be between 1 and 10"
    case CheckInInPast => "Check-in date cannot be in the past"
    case CheckInImportanceOutOfRange => "Check-in importance coefficient must be between 1 and 10"
    case CheckOutBeforeCheckIn => "Check-out date cannot be before check-in date"
    case CheckOutImportanceOutOfRange => "Check-out importance coefficient must be between 1 and 10"
    case EmptyNeighName => "Neighborhood name cannot be empty"
    case NeighImportanceOutOfRange => "Neighborhood importance coefficient must be between 1 and 10"
  }

  predicate ImportanceInRange(importance: int) {
    1 <= importance <= 10
  }

  /** Validator of `budget`: the value is checked before the importance. */
  function BudgetNonNegative(v: (int, int)): (r: Result<(int, int), PreferenceError>)
    ensures r.Ok? <==> v.0 >= 0 && ImportanceInRange(v.1)
    ensures r.Ok? ==> r.value == v
    ensures v.0 < 0 ==> r == Err(NegativeBudget)
    ensures v.0 >= 0 && !ImportanceInRange(v.1) ==> r == Err(BudgetImportanceOutOfRange)
  {
    var (value, importance) := v;
    if value < 0 then Err(NegativeBudget)
    else if !(1 <= importance <= 10) then Err(BudgetImportanceOutOfRange)
    else Ok(v)
  }

  /** Validator of `check_in`; `today` stands for date.today(). */
  function CheckInNotPast(v: (Date, int), today: Date): (r: Result<(Date, int), PreferenceError>)
    ensures r.Ok? <==> !Before(v.0, today) && ImportanceInRange(v.1)
    ensures r.Ok? ==> r.value == v
    ensures Before(v.0, today) ==> r == Err(CheckInInPast)
    ensures !Before(v.0, today) && !ImportanceInRange(v.1) ==> r == Err(CheckInImportanceOutOfRange)
  {
    var (checkInDate, importance) := v;
    if Before(checkInDate, today) then Err(CheckInInPast)
    else if !(1 <= importance <= 10) then Err(CheckInImportanceOutOfRange)
    else Ok(v)
  }

  /** Validator of `check_out`. `checkIn` is the check-in date among the
      fields validated so far: None when `check_in` itself failed validation,
      in which case the order of the dates is not checked. */
  function CheckOutAfterCheckIn(v: (Date, int), checkIn: Option<Date>): (r: Result<(Date, int), PreferenceError>)
    ensures r.Ok? <==> (checkIn.Some? ==> !Before(v.0, checkIn.value)) && ImportanceInRange(v.1)
    ensures r.Ok? ==> r.value == v
    ensures checkIn.Some? && Before(v.0, checkIn.value) ==> r == Err(CheckOutBeforeCheckIn)
    ensures (checkIn.None? || !Before(v.0, checkIn.value)) && !ImportanceInRange(v.1) ==> r == Err(CheckOutImportanceOutOfRange)
  {
    var (checkOutDate, importance) := v;
    if checkIn.Some? && Before(checkOutDate, checkIn.value) then Err(CheckOutBeforeCheckIn)
    else if !(1 <= importance <= 10) then Err(CheckOutImportanceOutOfRange)
    else Ok(v)
  }

  /** Validator of `neigh_name`: an empty string is falsy in Python. */
  function NeighNameNotEmpty(v: (string, int)): (r: Result<(string, int), PreferenceError>)
    ensures r.Ok? <==> v.0 != [] && ImportanceInRange(v.1)
    ensures r.Ok? ==> r.value == v
    ensures v.0 == [] ==> r == Err(EmptyNeighName)
    ensures v.0 != [] && !ImportanceInRange(v.1) ==> r == Err(NeighImportanceOutOfRange)
  {
    var (neighName, importance) := v;
    if |neighName| == 0 then Err(EmptyNeighName)
    else if !(1 <= importance <= 10) then Err(NeighImportanceOutOfRange)
    else Ok(v)
  }

  function ErrorOf<T>(r: Result<T, PreferenceError>): seq<PreferenceError> {
    if r.Err? then [r.error] else []
  }

  /** The check-in date the `check_out` validator sees among the values
      validated before it. */
  function ValidatedCheckIn(raw: PreferenceInput, today: Date): (r: Option<Date>)
    ensures r.Some? <==> !Before(raw.checkIn.0, today) && ImportanceInRange(raw.checkIn.1)
    ensures r.Some? ==> r.value == raw.checkIn.0
  {
    match CheckInNotPast(raw.checkIn, today)
    case Ok(v) => Some(v.0)
    case Err(_) => None
  }

  /** The position of the field an error belongs to: budget, check_in,
      check_out, neigh_name. */
  function FieldOf(e: PreferenceError): nat {
    match e
    case NegativeBudget | BudgetImportanceOutOfRange => 0
    case CheckInInPast | CheckInImportanceOutOfRange => 1
    case CheckOutBeforeCheckIn | CheckOutImportanceOutOfRange => 2
    case EmptyNeighName | NeighImportanceOutOfRange => 3
  }

  /** The validation errors of a request, in field order: every validator
      runs, and each failing one contributes its error. */
  function FieldErrors(raw: PreferenceInput, today: Date): (r: seq<PreferenceError>)
    ensures |r| <= 4
    ensures forall i, j :: 0 <= i < j < |r| ==> FieldOf(r[i]) < FieldOf(r[j])
    ensures r == [] <==> WellFormed(raw, today)
  {
    var budget := ErrorOf(BudgetNonNegative(raw.budget));
    var checkIn := ErrorOf(CheckInNotPast(raw.checkIn, today));
    var checkOut := ErrorOf(CheckOutAfterCheckIn(raw.checkOut, ValidatedCheckIn(raw, today)));
    var neigh := ErrorOf(NeighNameNotEmpty(raw.neighName));
    assert forall e :: e in budget ==> FieldOf(e) == 0;
    assert forall e :: e in checkIn ==> FieldOf(e) == 1;
    assert forall e :: e in checkOut ==> FieldOf(e) == 2;
    assert forall e :: e in neigh ==> FieldOf(e) == 3;
    assert |budget| <= 1 && |checkIn| <= 1 && |checkOut| <= 1 && |neigh| <= 1;
    budget + checkIn + checkOut + neigh
  }

  /** What a well-formed preference vector is, stated field by field
      without reference to the validators. */
  predicate WellFormed(p: PreferenceInput, today: Date) {
    && p.budget.0 >= 0
    && !Before(p.checkIn.0, today)
    && !Before(p.checkOut.0, p.checkIn.0)
    && p.neighName.0 != []
    && ImportanceInRange(p.budget.1)
    && ImportanceInRange(p.checkIn.1)
    && ImportanceInRange(p.checkOut.1)
    && ImportanceInRange(p.neighName.1)
  }

  /** Which error kinds a request's validation reports, each as an
      if-and-only-if over the request's fields. */
  lemma FieldErrorsKinds(raw: PreferenceInput, today: Date, errs: seq<PreferenceError>)
    requires errs == FieldErrors(raw, today)
    ensures (NegativeBudget in errs <==> raw.budget.0 < 0)
    ensures (CheckInInPast in errs <==> Before(raw.checkIn.0, today))
    ensures (EmptyNeighName in errs <==> raw.neighName.0 == [])
    ensures (CheckOutBeforeCheckIn in errs <==>
                          !Before(raw.checkIn.0, today) && ImportanceInRange(raw.checkIn.1)
                          && Before(raw.checkOut.0, raw.checkIn.0))
    ensures (BudgetImportanceOutOfRange in errs <==>
                          raw.budget.0 >= 0 && !ImportanceInRange(raw.budget.1))
    ensures (CheckInImportanceOutOfRange in errs <==>
                          !Before(raw.checkIn.0, today) && !ImportanceInRange(raw.checkIn.1))
    ensures (CheckOutImportanceOutOfRange in errs <==>
                          !ImportanceInRange(raw.checkOut.1)
                          && !(!Before(raw.checkIn.0, today) && ImportanceInRange(raw.checkIn.1)
                               && Before(raw.checkOut.0, raw.checkIn.0)))
    ensures (NeighImportanceOutOfRange in errs <==>
                          raw.neighName.0 != [] && !ImportanceInRange(raw.neighName.1))
  {
    var budget := BudgetNonNegative(raw.budget);
    var checkIn := CheckInNotPast(raw.checkIn, today);
    var checkOut := CheckOutAfterCheckIn(raw.checkOut, ValidatedCheckIn(raw, today));
    var neigh := NeighNameNotEmpty(raw.neighName);
    assert errs == ErrorOf(budget) + ErrorOf(checkIn) + ErrorOf(checkOut) + ErrorOf(neigh);
    forall x: PreferenceError
      ensures x in errs <==> budget == Err(x) || checkIn == Err(x) || checkOut == Err(x) || neigh == Err(x)
    {
    }
  }

  /** Building a PreferenceInput from a request: it succeeds, with the
      fields unchanged, when no validator fails, and otherwise reports the
      errors of all failing validators. */
  function ValidatePreferences(raw: PreferenceInput, today: Date): (r: Result<PreferenceInput, seq<PreferenceError>>)
    ensures r.Ok? <==> WellFormed(raw, today)
    ensures r.Ok? ==> r.value == raw
    ensures r.Err? ==> 1 <= |r.error| <= 4
    ensures r.Err? ==> (NegativeBudget in r.error <==> raw.budget.0 < 0)
    ensures r.Err? ==> (CheckInInPast in r.error <==> Before(raw.checkIn.0, today))
    ensures r.Err? ==> (EmptyNeighName in r.error <==> raw.neighName.0 == [])
    ensures r.Err? ==> (CheckOutBeforeCheckIn in r.error <==>
                          !Before(raw.checkIn.0, today) && ImportanceInRange(raw.checkIn.1)
                          && Before(raw.checkOut.0, raw.checkIn.0))
    ensures r.Err? ==> (BudgetImportanceOutOfRange in r.error <==>
                          raw.budget.0 >= 0 && !ImportanceInRange(raw.budget.1))
    ensures r.Err? ==> (CheckInImportanceOutOfRange in r.error <==>
                          !Before(raw.checkIn.0, today) && !ImportanceInRange(raw.checkIn.1))
    ensures r.Err? ==> (CheckOutImportanceOutOfRange in r.error <==>
                          !ImportanceInRange(raw.checkOut.1)
                          && !(!Before(raw.checkIn.0, today) && ImportanceInRange(raw.checkIn.1)
                               && Before(raw.checkOut.0, raw.checkIn.0)))
    ensures r.Err? ==> (NeighImportanceOutOfRange in r.error <==>
                          raw.neighName.0 != [] && !ImportanceInRange(raw.neighName.1))
    ensures r.Err? ==> forall i, j :: 0 <= i < j < |r.error| ==> FieldOf(r.error[i]) < FieldOf(r.error[j])
  {
    var errors := FieldErrors(raw, today);
    FieldErrorsKinds(raw, today, errors);
    if errors == [] then Ok(raw) else Err(errors)
  }

  /** A check-in on the current day is not in the past. */
  lemma CheckInTodayAccepted(today: Date, importance: int)
    requires ImportanceInRange(importance)
    ensures CheckInNotPast((today, importance), today) == Ok((today, importance))
  {
  }

  /** A request that passed validation never has its check-out before its
      check-in, so the suggestions handler's own date check cannot refuse it. */
  lemma ValidatedDatesOrdered(raw: PreferenceInput, today: Date)
    requires ValidatePreferences(raw, today).Ok?
    ensures !Before(raw.checkOut.0, raw.checkIn.0)
  {
  }

  /** A suggested room with its aggregate score and the score of each
      attribute. The price is kept as the listing's integer price. */
  datatype RoomSuggestion = RoomSuggestion(
    listingId: int,
    airbnbName: string,
    price: int,
    hostId: int,
    neighName: string,
    roomType: string,
    score: real,
    attributeScores: map<string, real>)
}
