/** TimeWaster: a walk around a table of random values that ends because the table's size is prime. */
module TimeWaster {
  import opened NumberTheory
  import opened Primality

  const ARRAY_SIZE: nat := 65521

  /** Where a walk from `pos` is after `n` steps. */
  function At(pos: nat, step: nat, n: nat): (k: nat)
    ensures k < ARRAY_SIZE
  {
    (pos + n * step) % ARRAY_SIZE
  }

  /** Every index of the table is visited within one round, whatever the start and the step. */
  lemma VisitsAll(pos: nat, step: nat, k: nat) returns (n: nat)
    requires pos < ARRAY_SIZE && 1 <= step < ARRAY_SIZE && k < ARRAY_SIZE
    ensures n < ARRAY_SIZE && At(pos, step, n) == k
  {
    hide Prime, Divides;
    Prime65521();
    var u, v := NatInverse(ARRAY_SIZE, step);
    var d := k + ARRAY_SIZE - pos;
    n := (d * u) % ARRAY_SIZE;
    DividesRest(ARRAY_SIZE, d * u);
    DividesTimes(ARRAY_SIZE, d * u - n, step);
    DividesBy(ARRAY_SIZE, v * d + 1);
    DividesSum(ARRAY_SIZE, ARRAY_SIZE * (v * d + 1), (d * u - n) * step);
    VisitAlgebra(d, u, v, step, n, pos, k);
    SameMod(ARRAY_SIZE, pos + n * step, k);
  }

  lemma VisitAlgebra(d: int, u: int, v: int, step: int, n: int, pos: int, k: int)
    requires u * step == v * ARRAY_SIZE + 1 && d == k + ARRAY_SIZE - pos
    ensures ARRAY_SIZE * (v * d + 1) - (d * u - n) * step == pos + n * step - k
  {
    Spread(d * u, n, step);
    assert (d * u) * step == d * (u * step);
    assert d * (v * ARRAY_SIZE + 1) == ARRAY_SIZE * (v * d) + d;
  }

  /** The walk comes to an entry whose low three bits are zero exactly if the table has one. */
  lemma StopsIff(values: seq<nat>, pos: nat, step: nat)
    requires |values| == ARRAY_SIZE && pos < ARRAY_SIZE && 1 <= step < ARRAY_SIZE
    ensures (exists n: nat :: values[At(pos, step, n)] % 8 == 0) <==> (exists k: nat :: k < ARRAY_SIZE && values[k] % 8 == 0)
  {
    if k: nat :| k < ARRAY_SIZE && values[k] % 8 == 0 {
      var n := VisitsAll(pos, step, k);
      assert values[At(pos, step, n)] % 8 == 0;
    }
  }

  lemma NextAt(pos: nat, step: nat, n: nat)
    requires step < ARRAY_SIZE
    ensures var p := At(pos, step, n) + step; At(pos, step, n + 1) == if p >= ARRAY_SIZE then p - ARRAY_SIZE else p
  {
    var x := pos + n * step;
    assert (n + 1) * step == n * step + step;
    Wraps(x, step);
  }

  lemma Wraps(x: nat, step: nat)
    requires step < ARRAY_SIZE
    ensures var p := x % ARRAY_SIZE + step; (x + step) % ARRAY_SIZE == if p >= ARRAY_SIZE then p - ARRAY_SIZE else p
  {
  }

  class TimeWaster {
    var pos: nat
    var step: nat

    ghost predicate Valid()
      reads this
    {
      pos < ARRAY_SIZE && 1 <= step < ARRAY_SIZE
    }

    /** The two parameters are the random numbers that the constructor draws. */
    constructor (r0: nat, r1: nat)
      ensures Valid() && (r0 - pos) % ARRAY_SIZE == 0 && (r1 + 1 - step) % (ARRAY_SIZE - 1) == 0
    {
      pos := r0 % ARRAY_SIZE;
      step := r1 % (ARRAY_SIZE - 1) + 1;
    }

    /** wasteRandomCycles, for a table that has an entry with its low three bits zero; `rounds` counts
        how often the loop goes round. It ends at the first such entry on the walk, after no more rounds
        than the table is long. */
    method WasteRandomCycles(values: array<nat>) returns (ghost rounds: nat)
      requires Valid() && values.Length == ARRAY_SIZE && exists k: nat :: k < ARRAY_SIZE && values[k] % 8 == 0
      modifies this`pos
      ensures Valid() && 1 <= rounds <= ARRAY_SIZE && pos == At(old(pos), step, rounds)
      ensures values[At(old(pos), step, rounds - 1)] % 8 == 0
      ensures forall j: nat | j < rounds - 1 :: values[At(old(pos), step, j)] % 8 != 0
    {
      hide At;
      ghost var k: nat :| k < ARRAY_SIZE && values[k] % 8 == 0;
      ghost var last := VisitsAll(pos, step, k);
      ghost var start := pos;
      rounds := 0;
      assert At(start, step, 0) == start by { NoSteps(start, step); }
      while true
        invariant Valid() && pos == At(start, step, rounds) && rounds <= last
        invariant forall j: nat | j < rounds :: values[At(start, step, j)] % 8 != 0
        decreases last - rounds
      {
        var i := values[pos];
        NextAt(start, step, rounds);
        pos := pos + step;
        if pos >= ARRAY_SIZE {
          pos := pos - ARRAY_SIZE;
        }
        rounds := rounds + 1;
        if i % 8 == 0 {
          break;
        }
      }
    }
  }

  lemma NoSteps(pos: nat, step: nat)
    requires pos < ARRAY_SIZE
    ensures At(pos, step, 0) == pos
  {
  }
}
