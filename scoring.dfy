/** The per-attribute scores of a listing against a request's preferences
    (app/routers/suggestions.py, the body of the scoring loop), in exact
    real arithmetic. */
module Scoring {
  import opened Schemas

  function Abs(x: int): (r: nat)
    ensures r == x || r == -x
  {
    if x < 0 then -x else x
  }

  /** The budget term: the importance divided by one plus the distance
      between the user's budget and the price. */
  function BudgetScore(userBudget: int, importance: int, price: int): (r: real)
    ensures r * (1 + Abs(userBudget - price)) as real == importance as real
  {
    (1.0 / (1 + Abs(userBudget - price)) as real) * importance as real
  }

  /** The check-in term: a fixed placeholder of ten times the importance,
      whatever the listing. */
  function CheckInScore(importance: int): (r: real)
    ensures ImportanceInRange(importance) ==> 10.0 <= r <= 100.0
  {
    (importance * 10) as real
  }

  /** The check-out term, the same placeholder as the check-in term. */
  function CheckOutScore(importance: int): (r: real)
    ensures ImportanceInRange(importance) ==> 10.0 <= r <= 100.0
  {
    (importance * 10) as real
  }

  /** The attribute map a listing of the given price receives. The
      neighbourhood has no entry. */
  function AttributeScores(p: PreferenceInput, price: int): (m: map<string, real>)
    ensures m.Keys == {"budget", "check_in", "check_out"}
    ensures "neigh_name" !in m
  {
    map["budget" := BudgetScore(p.budget.0, p.budget.1, price),
        "check_in" := CheckInScore(p.checkIn.1),
        "check_out" := CheckOutScore(p.checkOut.1)]
  }

  /** The aggregate score: the sum of the three attribute terms. */
  function TotalScore(p: PreferenceInput, price: int): (r: real)
    ensures r == AttributeScores(p, price)["budget"]
               + AttributeScores(p, price)["check_in"]
               + AttributeScores(p, price)["check_out"]
  {
    BudgetScore(p.budget.0, p.budget.1, price) + CheckInScore(p.checkIn.1) + CheckOutScore(p.checkOut.1)
  }

  /** A listing priced exactly at the budget receives the full importance. */
  lemma BudgetScoreAtBudget(userBudget: int, importance: int)
    ensures BudgetScore(userBudget, importance, userBudget) == importance as real
  {
  }

  /** With a validated importance the budget term is positive, never above
      the importance, and reaches it exactly when the price is the budget. */
  lemma BudgetScoreBounds(userBudget: int, importance: int, price: int)
    requires ImportanceInRange(importance)
    ensures 0.0 < BudgetScore(userBudget, importance, price) <= importance as real
    ensures BudgetScore(userBudget, importance, price) == importance as real <==> price == userBudget
  {
    var d := (1 + Abs(userBudget - price)) as real;
    var imp := importance as real;
    assert 1.0 / d <= 1.0;
    if price != userBudget {
      assert d >= 2.0;
      assert 1.0 / d < 1.0;
    }
  }

  /** Dividing one by a larger positive number gives a smaller result. */
  lemma ReciprocalAntitone(a: real, b: real)
    requires 0.0 < a <= b
    ensures 1.0 / b <= 1.0 / a
    ensures a < b ==> 1.0 / b < 1.0 / a
  {
    var x, y := 1.0 / a, 1.0 / b;
    assert x * a == 1.0 && y * b == 1.0;
    if y >= x {
      assert y * b >= x * b >= x * a;
    }
  }

  /** The budget term does not grow as the price moves away from the budget,
      and strictly shrinks when the importance is positive. */
  lemma BudgetScoreAntitone(userBudget: int, importance: int, price1: int, price2: int)
    requires importance >= 0
    requires Abs(userBudget - price1) <= Abs(userBudget - price2)
    ensures BudgetScore(userBudget, importance, price1) >= BudgetScore(userBudget, importance, price2)
    ensures importance > 0 && Abs(userBudget - price1) < Abs(userBudget - price2) ==>
              BudgetScore(userBudget, importance, price1) > BudgetScore(userBudget, importance, price2)
  {
    var d1 := (1 + Abs(userBudget - price1)) as real;
    var d2 := (1 + Abs(userBudget - price2)) as real;
    ReciprocalAntitone(d1, d2);
  }

  /** Multiplying an importance by k multiplies that attribute's term by k. */
  lemma ScoresScaleWithImportance(userBudget: int, importance: int, price: int, k: nat)
    ensures BudgetScore(userBudget, k * importance, price) == k as real * BudgetScore(userBudget, importance, price)
    ensures CheckInScore(k * importance) == k as real * CheckInScore(importance)
    ensures CheckOutScore(k * importance) == k as real * CheckOutScore(importance)
  {
  }

  /** Only the price separates two listings: a listing scores at least as
      high as another exactly when its price is at least as close to the
      budget. */
  lemma TotalScoreOrder(p: PreferenceInput, price1: int, price2: int)
    requires p.budget.1 >= 1
    ensures TotalScore(p, price1) >= TotalScore(p, price2)
            <==> Abs(p.budget.0 - price1) <= Abs(p.budget.0 - price2)
  {
    var b := p.budget.0;
    if Abs(b - price1) <= Abs(b - price2) {
      BudgetScoreAntitone(b, p.budget.1, price1, price2);
    } else {
      BudgetScoreAntitone(b, p.budget.1, price2, price1);
    }
  }
}
