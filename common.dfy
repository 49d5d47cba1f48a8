/** Small shared vocabulary: optional values, agent identities, squared
    distances, the "infinity-or-number" distances of the source's loops, and
    JavaScript's remainder operator. */
module Common {

  datatype Option<T> = None | Some(value: T)

  /** Identity of an agent within a round: 0 is the human player, `i >= 1` is
      the bot named "Bot i". It stands for the sprite reference the source
      compares with `===` and stores as a chair's occupant. */
  type AgentId = nat

  const PLAYER_ID: AgentId := 0

  /** Squared Euclidean distance between two integer points. The source
      compares `Phaser.Math.Distance.Between`, a square root of this value;
      the square root is strictly monotone, so every comparison of distances
      in the source is the same comparison of squared distances. */
  function Dist2(x1: int, y1: int, x2: int, y2: int): (d: nat)
    ensures d == 0 <==> x1 == x2 && y1 == y2
  {
    var dx, dy := x1 - x2, y1 - y2;
    SquareNonNegative(dx);
    SquareNonNegative(dy);
    SquareZero(dx);
    SquareZero(dy);
    dx * dx + dy * dy
  }

  lemma SquareNonNegative(a: int)
    ensures a * a >= 0
  {
    if a < 0 {
      assert a * a == (-a) * (-a);
    }
  }

  lemma SquareZero(a: int)
    ensures a * a == 0 <==> a == 0
  {
    if a > 0 {
      assert a * a >= a;
    } else if a < 0 {
      assert a * a == (-a) * (-a);
      assert (-a) * (-a) >= -a;
    }
  }

  /** A distance as the source's loops see it: a number, or the `Infinity`
      they start from. `Fin(d2)` carries a squared distance; `Fin(-1)` is the
      sentinel `-1` that the elimination loop starts from (below every
      distance). */
  datatype Dist = Fin(d2: int) | Inf

  /** `a > b` on distances, with `Infinity > Infinity` false as in JavaScript. */
  predicate Greater(a: Dist, b: Dist)
  {
    match (a, b)
    case (Inf, Inf) => false
    case (Inf, Fin(_)) => true
    case (Fin(_), Inf) => false
    case (Fin(x), Fin(y)) => x > y
  }

  /** JavaScript's `%` on numbers: the result takes the sign of the dividend
      (truncated division), unlike Dafny's Euclidean `%`; the two agree on a
      non-negative dividend, while a small negative dividend is its own
      remainder (`-4 % 100` is `-4`, where Dafny gives `96`). */
  function JsRem(a: int, b: int): (r: int)
    requires b > 0
    ensures a >= 0 ==> r == a % b
    ensures a < 0 ==> -b < r <= 0
    ensures -b < a < 0 ==> r == a
    ensures (a - r) % b == 0
  {
    if a >= 0 then
      assert a - a % b == b * (a / b);
      MultipleRem(a / b, b);
      a % b
    else
      assert a + (-a) % b == b * -((-a) / b);
      MultipleRem(-((-a) / b), b);
      if -b < a then
        UniqueRem(-a, b, 0, -a);
        a
      else
        -((-a) % b)
  }

  /** A multiple of `b` leaves no remainder. */
  lemma MultipleRem(k: int, b: int)
    requires b > 0
    ensures (b * k) % b == 0
  {
    UniqueRem(b * k, b, k, 0);
  }

  /** Euclidean division is unique: a quotient and a remainder in `[0, b)`
      that rebuild `x` are Dafny's `/` and `%`. */
  lemma UniqueRem(x: int, b: int, q: int, m: int)
    requires b > 0 && 0 <= m < b && x == b * q + m
    ensures x % b == m
  {
    var q', m' := x / b, x % b;
    assert x == b * q' + m';
    if q - q' >= 1 {
      AtLeastOnce(b, q - q');
    } else if q' - q >= 1 {
      AtLeastOnce(b, q' - q);
    }
  }

  lemma {:induction false} AtLeastOnce(b: int, d: int)
    requires b > 0 && d >= 1
    ensures b * d >= b
  {
    if d > 1 {
      AtLeastOnce(b, d - 1);
      assert b * d == b * (d - 1) + b;
    }
  }
}
