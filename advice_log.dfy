/**
 * The score normalisation of log_gpt_advice (autotrade.py): the
 * confidence score and the investment percentage of an advice are
 * rounded to integers with Python's round (ties to even) and clamped to
 * [0, 100] before they are stored.  The database write is not modelled.
 */
module AdviceLog {

  /**
   * An entry of the advice as json.loads produced it: absent, a finite
   * number, a JSON boolean (a Python int subclass), NaN or an infinity
   * (which json.loads accepts and round rejects), or any other value.
   */
  datatype Field = Missing | Number(x: real) | Flag(b: bool) | NonFinite | Other

  /** Python's round on a float: to the nearest integer, ties to the even one. */
  function RoundHalfEven(x: real): (r: int)
    ensures -0.5 <= (r as real) - x <= 0.5
    ensures (r as real) - x == 0.5 || (r as real) - x == -0.5 ==> r % 2 == 0
  {
    var f := x.Floor;
    var fraction := x - f as real;
    if fraction < 0.5 then f
    else if fraction > 0.5 then f + 1
    else if f % 2 == 0 then f else f + 1
  }

  /** The rounding is the nearest integer: any integer closer than one half is it. */
  lemma RoundIsNearest(x: real, n: int)
    requires -0.5 < (n as real) - x < 0.5
    ensures RoundHalfEven(x) == n
  {
    var r := RoundHalfEven(x);
    assert -1.0 < (r as real) - (n as real) < 1.0;
  }

  /** Rounding never decreases as its argument grows. */
  lemma RoundMonotone(x: real, y: real)
    requires x <= y
    ensures RoundHalfEven(x) <= RoundHalfEven(y)
  {
    var fx, fy := x.Floor, y.Floor;
    assert fx <= fy;
    if fx == fy {
      assert x - fx as real <= y - fy as real;
    }
  }

  /** max(0, min(100, n)). */
  function Clamp(n: int): (r: int)
    ensures 0 <= r <= 100
    ensures 0 <= n <= 100 ==> r == n
    ensures n < 0 ==> r == 0
    ensures n > 100 ==> r == 100
  {
    if n < 0 then 0 else if n > 100 then 100 else n
  }

  /** One entry after rounding: its integer value, an error raised by round, or a value of the wrong type. */
  datatype Rounded = Rounded(value: int) | Raises | Rejected

  /**
   * get(key, 0); a number is rounded (a boolean counts as 0 or 1); NaN and
   * the infinities make round raise; any other value is rejected, which
   * the code prints and replaces by 0.
   */
  function RoundField(f: Field): (r: Rounded)
    ensures f.Number? ==> r == Rounded(RoundHalfEven(f.x))
    ensures f.NonFinite? <==> r.Raises?
  {
    match f
    case Missing => Rounded(0)
    case Number(x) => Rounded(RoundHalfEven(x))
    case Flag(b) => Rounded(if b then 1 else 0)
    case NonFinite => Raises
    case Other => Rejected
  }

  /** The stored pair (confidence score, investment percentage). */
  datatype Scores = Scores(confidence: int, percentage: int)

  function Finish(r: Rounded): int
    requires !r.Raises?
  {
    if r.Rounded? then Clamp(r.value) else 0
  }

  /**
   * The conversion block of log_gpt_advice.  Both values are converted
   * inside one try block, so an error on either one stores 0 for both.
   */
  function NormalizeScores(confidence: Field, percentage: Field): (r: Scores)
    ensures 0 <= r.confidence <= 100 && 0 <= r.percentage <= 100
    ensures confidence.NonFinite? || percentage.NonFinite? ==> r == Scores(0, 0)
  {
    var c := RoundField(confidence);
    if c.Raises? then Scores(0, 0)
    else
      var p := RoundField(percentage);
      if p.Raises? then Scores(0, 0)
      else Scores(Finish(c), Finish(p))
  }

  /**
   * A confidence and a percentage already in [0, 100] are stored within
   * one half of their value; integers are stored unchanged.
   */
  lemma InRangeScoresKept(c: real, p: real)
    requires 0.0 <= c <= 100.0 && 0.0 <= p <= 100.0
    ensures var r := NormalizeScores(Number(c), Number(p));
      -0.5 <= (r.confidence as real) - c <= 0.5 && -0.5 <= (r.percentage as real) - p <= 0.5
    ensures c == c.Floor as real && p == p.Floor as real ==>
      NormalizeScores(Number(c), Number(p)) == Scores(c.Floor, p.Floor)
  {
    var rc, rp := RoundHalfEven(c), RoundHalfEven(p);
    assert 0 <= rc <= 100 && 0 <= rp <= 100;
    if c == c.Floor as real {
      RoundIsNearest(c, c.Floor);
    }
    if p == p.Floor as real {
      RoundIsNearest(p, p.Floor);
    }
  }

  /** Normalising a stored pair again changes nothing. */
  lemma NormalizeIdempotent(confidence: Field, percentage: Field)
    ensures var r := NormalizeScores(confidence, percentage);
      NormalizeScores(Number(r.confidence as real), Number(r.percentage as real)) == r
  {
    var r := NormalizeScores(confidence, percentage);
    RoundIsNearest(r.confidence as real, r.confidence);
    RoundIsNearest(r.percentage as real, r.percentage);
  }

  /** Out-of-range numbers are pinned to the nearer bound. */
  lemma OutOfRangeClamped(c: real)
    ensures c >= 100.5 ==> NormalizeScores(Number(c), Missing).confidence == 100
    ensures c < -0.5 ==> NormalizeScores(Number(c), Missing).confidence == 0
  {
  }
}
