/**
 * Dwell planning: the total stay is a whole number of minutes in [3, 8];
 * each of the two page stays is half of it, stretched by a multiplier in
 * [1.2, 1.5] and truncated to whole seconds.
 *
 * The multiplier is an exact rational num/den rather than a float.
 */
module DurationPlanner {

  const MIN_MINUTES: int := 3
  const MAX_MINUTES: int := 8

  /** A stretch multiplier num/den. */
  datatype Stretch = Stretch(num: nat, den: nat)

  /** 6/5 <= num/den <= 3/2, the range random.uniform(1.2, 1.5) draws from. */
  predicate InStretchRange(m: Stretch)
  {
    m.den > 0 && 5 * m.num >= 6 * m.den && 2 * m.num <= 3 * m.den
  }

  /** The plan for one run, in seconds. */
  datatype SessionPlan = SessionPlan(total: nat, first: nat, second: nat)

  /** floor(h * num / den) lies between floor(6h/5) and floor(3h/2). */
  lemma StretchBounds(h: nat, m: Stretch)
    requires InStretchRange(m)
    ensures (6 * h) / 5 <= (h * m.num) / m.den <= (3 * h) / 2
  {
    StretchLower(h, m.num, m.den);
    StretchUpper(h, m.num, m.den);
  }

  /** With num/den >= 6/5: floor(6h/5) <= floor(h * num / den). */
  lemma StretchLower(h: nat, n: nat, d: nat)
    requires d > 0 && 5 * n >= 6 * d
    ensures (6 * h) / 5 <= (h * n) / d
  {
    var q := (6 * h) / 5;
    assert 5 * q <= 6 * h;
    MulLeftMono(d, 5 * q, 6 * h);
    MulLeftMono(h, 6 * d, 5 * n);
    assert d * (5 * q) == 5 * (q * d);
    assert d * (6 * h) == h * (6 * d);
    assert h * (5 * n) == 5 * (h * n);
    DivAtLeast(q, h * n, d);
  }

  /** With num/den <= 3/2: floor(h * num / den) <= floor(3h/2). */
  lemma StretchUpper(h: nat, n: nat, d: nat)
    requires d > 0 && 2 * n <= 3 * d
    ensures (h * n) / d <= (3 * h) / 2
  {
    var p := h * n;
    var w := p / d;
    assert w * d <= p;
    MulLeftMono(h, 2 * n, 3 * d);
    assert h * (2 * n) == 2 * p;
    assert h * (3 * d) == (3 * h) * d;
    assert (2 * w) * d == 2 * (w * d);
    MulRightCancel(2 * w, 3 * h, d);
  }

  lemma MulLeftMono(k: nat, a: int, b: int)
    requires a <= b
    ensures k * a <= k * b
  {
  }

  /** A multiple of d no larger than n gives a quotient no larger than floor(n/d). */
  lemma DivAtLeast(q: int, n: int, d: int)
    requires d > 0 && q * d <= n
    ensures q <= n / d
  {
    if q > n / d {
      MulLeftMono(d, n / d + 1, q);
      assert false;
    }
  }

  lemma MulRightCancel(a: int, b: int, d: int)
    requires d > 0 && a * d <= b * d
    ensures a <= b
  {
    if a > b {
      MulLeftMono(d, b + 1, a);
      assert false;
    }
  }

  /** One page stay: half the total, stretched by `m`, truncated toward zero. */
  function StretchedHalf(total: nat, m: Stretch): (w: nat)
    requires InStretchRange(m)
    ensures (6 * (total / 2)) / 5 <= w <= (3 * (total / 2)) / 2
  {
    StretchBounds(total / 2, m);
    ((total / 2) * m.num) / m.den
  }

  /**
   * The plan drawn from `minutes` and the two multipliers: the stays add up
   * to at least the nominal total and at most one and a half times it.
   */
  function Plan(minutes: int, m1: Stretch, m2: Stretch): (p: SessionPlan)
    requires MIN_MINUTES <= minutes <= MAX_MINUTES
    requires InStretchRange(m1) && InStretchRange(m2)
    ensures p.total == minutes * 60
    ensures p.total / 2 <= p.first <= (3 * p.total) / 4
    ensures p.total / 2 <= p.second <= (3 * p.total) / 4
    ensures MIN_MINUTES * 60 <= p.total <= p.first + p.second <= (3 * p.total) / 2
  {
    var total := minutes * 60;
    SessionPlan(total, StretchedHalf(total, m1), StretchedHalf(total, m2))
  }
}
