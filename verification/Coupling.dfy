/** How much tcp-relay credit goes back for one relayed chunk, given embed-stream's send window. */
module Coupling {

  const EMBED_STREAM_INITIAL_CREDIT: int := 8
  const TCP_RELAY_INITIAL_CREDIT: int := 4
  const DEFAULT_CAPACITY: int := EMBED_STREAM_INITIAL_CREDIT

  /** CouplingPolicy.Grant. Go's division truncates, which on these non-negative operands is
      Dafny's. */
  function Grant(capacity: int, remaining: int, requested: int): int {
    if requested <= 0 then 0
    else
      var c := if capacity <= 0 then 1 else capacity;
      if remaining <= 0 then 0
      else
        var half := if c / 2 <= 0 then 1 else c / 2;
        if remaining >= half then requested else requested * remaining / c
  }

  function CouplingGrant(remaining: int, hasCredit: bool, capacity: int): int {
    if hasCredit && Grant(capacity, remaining, 1) > 1 then Grant(capacity, remaining, 1) else 1
  }

  lemma TimesMonotone(k: nat, a: int, b: int)
    requires a <= b
    ensures k * a <= k * b
  {
    assert k * b - k * a == k * (b - a);
  }

  lemma QuotientMonotone(a: nat, b: nat, c: nat)
    requires a <= b && c > 0
    ensures a / c <= b / c
  {
    var x, y := a / c, b / c;
    assert a == c * x + a % c && b == c * y + b % c;
    if x > y {
      TimesMonotone(c, y + 1, x);
    }
  }

  lemma QuotientOfMultiple(q: nat, c: nat)
    requires c > 0
    ensures q * c / c == q
  {
    var x, r := q * c / c, q * c % c;
    assert q * c == c * x + r && 0 <= r < c;
    assert c * (q - x) == r;
    if x < q {
      TimesMonotone(c, 1, q - x);
    } else if x > q {
      TimesMonotone(c, q - x, -1);
    }
  }

  lemma ScaledBound(requested: nat, remaining: nat, c: nat)
    requires remaining <= c && c > 0
    ensures 0 <= requested * remaining / c <= requested
  {
    TimesMonotone(requested, remaining, c);
    QuotientMonotone(requested * remaining, requested * c, c);
    QuotientOfMultiple(requested, c);
  }

  lemma FloorDivision(p: nat, c: nat)
    requires c > 0
    ensures c * (p / c) <= p < c * (p / c) + c
  {
    assert p == c * (p / c) + p % c;
  }

  /** The three bands of the policy: nothing for an exhausted window, the full request from half the
      capacity up, and in between the request scaled by remaining / capacity, rounded down. */
  lemma GrantBands(capacity: int, remaining: int, requested: int)
    requires requested > 0 && capacity > 0
    ensures var g := Grant(capacity, remaining, requested);
            && (remaining <= 0 ==> g == 0)
            && (remaining > 0 && 2 * remaining >= capacity - 1 && capacity % 2 == 1 ==> g == requested)
            && (remaining > 0 && 2 * remaining >= capacity && capacity % 2 == 0 ==> g == requested)
            && (0 < 2 * remaining < capacity - 1 ==> capacity * g <= requested * remaining < capacity * g + capacity)
  {
    if 0 < 2 * remaining < capacity - 1 {
      TimesMonotone(requested, 0, remaining);
      FloorDivision(requested * remaining, capacity);
    }
  }

  /** A capacity of 0 or less counts as 1: the full request for any window that is not exhausted. */
  lemma NoCapacity(capacity: int, remaining: int, requested: int)
    requires requested > 0 && capacity <= 0
    ensures Grant(capacity, remaining, requested) == if remaining > 0 then requested else 0
  {
  }

  /** A grant never exceeds the request and is never negative, for every capacity. */
  lemma GrantBounds(capacity: int, remaining: int, requested: int)
    ensures requested > 0 ==> 0 <= Grant(capacity, remaining, requested) <= requested
    ensures requested <= 0 || remaining <= 0 ==> Grant(capacity, remaining, requested) == 0
  {
    var c := if capacity <= 0 then 1 else capacity;
    if requested > 0 && 0 < remaining < c {
      ScaledBound(requested, remaining, c);
    }
  }

  /** More outbound credit never means a smaller grant. */
  lemma GrantMonotone(capacity: int, less: int, more: int, requested: int)
    requires less <= more
    ensures Grant(capacity, less, requested) <= Grant(capacity, more, requested)
  {
    GrantBounds(capacity, less, requested);
    GrantBounds(capacity, more, requested);
    var c := if capacity <= 0 then 1 else capacity;
    if requested > 0 && 0 < less {
      TimesMonotone(requested, less, more);
      QuotientMonotone(requested * less, requested * more, c);
    }
  }

  /** The coupled grant is always exactly the one credit the relayed frame consumed. */
  lemma CouplingGrantIsOne(remaining: int, hasCredit: bool, capacity: int)
    ensures CouplingGrant(remaining, hasCredit, capacity) == 1
  {
    GrantBounds(capacity, remaining, 1);
  }
}
