/** Round-robin placement of dispatchers on cores by an 8-bit wrapping counter (Dispatcher.cpp:13 and 74). */
module CoreAssignment {

  /** Values of `std::atomic<uint8_t>` */
  const WRAP := 256

  /** The core of the i-th dispatcher that is placed automatically, with P processors. */
  function Core(i: nat, P: nat): nat
    requires P > 0
  {
    (i % WRAP) % P
  }

  /** Dispatchers on core c among the first n that are placed automatically. */
  function Load(n: nat, P: nat, c: nat): nat
    requires P > 0
  {
    if n == 0 then 0 else Load(n - 1, P, c) + (if Core(n - 1, P) == c then 1 else 0)
  }

  /** Numbers below m that leave remainder c. */
  function Residues(m: nat, P: nat, c: nat): nat
    requires P > 0
  {
    if m == 0 then 0 else Residues(m - 1, P, c) + (if (m - 1) % P == c then 1 else 0)
  }

  lemma DivisionUnique(m: nat, P: nat, q: nat, r: nat)
    requires P > 0 && m == P * q + r && r < P
    ensures m / P == q && m % P == r
  {
    var d := m / P - q;
    assert P * (m / P) + m % P == P * q + r;
    assert P * d == r - m % P;
    assert d >= 1 ==> P * d >= P;
    assert d <= -1 ==> P * d <= 0 - P;
  }

  lemma DivisionStep(m: nat, P: nat)
    requires P > 0
    ensures if m % P + 1 == P then (m + 1) / P == m / P + 1 && (m + 1) % P == 0
            else (m + 1) / P == m / P && (m + 1) % P == m % P + 1
  {
    var q, r := m / P, m % P;
    assert m == P * q + r;
    if r + 1 == P {
      assert P * (q + 1) == P * q + P;
      DivisionUnique(m + 1, P, q + 1, 0);
    } else {
      DivisionUnique(m + 1, P, q, r + 1);
    }
  }

  lemma {:induction false} ResiduesClosed(m: nat, P: nat, c: nat)
    requires P > 0 && c < P
    ensures Residues(m, P, c) == m / P + (if c < m % P then 1 else 0)
  {
    if m == 0 {
      DivisionUnique(0, P, 0, 0);
    } else {
      ResiduesClosed(m - 1, P, c);
      DivisionStep(m - 1, P);
    }
  }

  /** The exact load: whole turns of the counter, and the part of the last turn. */
  lemma {:induction false} LoadByTurns(n: nat, P: nat, c: nat)
    requires P > 0
    ensures Load(n, P, c) == (n / WRAP) * Residues(WRAP, P, c) + Residues(n % WRAP, P, c)
  {
    if n > 0 {
      LoadByTurns(n - 1, P, c);
      DivisionStep(n - 1, WRAP);
      var q := (n - 1) / WRAP;
      if (n - 1) % WRAP + 1 == WRAP {
        assert (q + 1) * Residues(WRAP, P, c) == q * Residues(WRAP, P, c) + Residues(WRAP, P, c);
      }
    }
  }

  /** How much more a whole turn of the counter puts on core a than on core b. */
  function TurnImbalance(P: nat, a: nat, b: nat): int
    requires P > 0
  {
    Residues(WRAP, P, a) - Residues(WRAP, P, b)
  }

  lemma TurnImbalanceClosed(P: nat, a: nat, b: nat)
    requires P > 0 && a < P && b < P
    ensures TurnImbalance(P, a, b) == (if a < WRAP % P then 1 else 0) - (if b < WRAP % P then 1 else 0)
  {
    ResiduesClosed(WRAP, P, a);
    ResiduesClosed(WRAP, P, b);
  }

  lemma Distribute(q: int, x: int, y: int)
    ensures q * x - q * y == q * (x - y)
  {
  }

  lemma UnitProduct(q: nat, d: int)
    requires -1 <= d <= 1
    ensures 0 - q <= q * d <= q
    ensures d == 0 ==> q * d == 0
  {
    if d == 1 { assert q * d == q; } else if d == -1 { assert q * d == 0 - q; }
  }

  /** The exact difference of two loads. */
  lemma LoadDifference(n: nat, P: nat, a: nat, b: nat)
    requires P > 0 && a < P && b < P
    ensures Load(n, P, a) - Load(n, P, b)
         == (n / WRAP) * TurnImbalance(P, a, b) + Residues(n % WRAP, P, a) - Residues(n % WRAP, P, b)
    ensures -1 <= Residues(n % WRAP, P, a) - Residues(n % WRAP, P, b) <= 1
  {
    LoadByTurns(n, P, a);
    LoadByTurns(n, P, b);
    Distribute(n / WRAP, Residues(WRAP, P, a), Residues(WRAP, P, b));
    ResiduesClosed(n % WRAP, P, a);
    ResiduesClosed(n % WRAP, P, b);
  }

  /**
    Balance: after n automatic placements on P processors, the loads of two cores differ by at most one for every whole
    turn of the counter, plus one; and by at most one when P divides 256.
   */
  lemma CoreBalance(n: nat, P: nat, a: nat, b: nat)
    requires P > 0 && a < P && b < P
    ensures -1 - n / 256 <= Load(n, P, a) - Load(n, P, b) <= 1 + n / 256
    ensures 256 % P == 0 ==> -1 <= Load(n, P, a) - Load(n, P, b) <= 1
  {
    LoadDifference(n, P, a, b);
    TurnImbalanceClosed(P, a, b);
    UnitProduct(n / WRAP, TurnImbalance(P, a, b));
  }

  /**
    The bound is met: after whole turns two cores differ by one a turn exactly when a turn does not load them alike.
   */
  lemma CoreDrift(turns: nat, P: nat, a: nat, b: nat)
    requires P > 0 && a < P && b < P
    ensures Load(turns * 256, P, a) - Load(turns * 256, P, b) == turns * TurnImbalance(P, a, b)
    ensures TurnImbalance(P, a, b) == (if a < 256 % P then 1 else 0) - (if b < 256 % P then 1 else 0)
  {
    DivisionUnique(turns * WRAP, WRAP, turns, 0);
    LoadDifference(turns * WRAP, P, a, b);
    TurnImbalanceClosed(P, a, b);
  }

  /** `thread_counter` */
  class ThreadCounter {
    var value: nat
    ghost var placed: nat  // automatic placements so far

    ghost predicate Valid()
      reads this
    {
      value == placed % WRAP
    }

    constructor ()
      ensures Valid() && placed == 0
    {
      value := 0;
      placed := 0;
    }

    /** The core of a new dispatcher: the requested one, or the next in turn; only the latter moves the counter. */
    method Place(requested: bool, core: nat, processors: nat) returns (cpu: nat)
      requires Valid() && processors > 0
      modifies this
      ensures Valid()
      ensures requested ==> cpu == core && placed == old(placed)
      ensures !requested ==> cpu == Core(old(placed), processors) && placed == old(placed) + 1
      ensures !requested ==>
        forall c :: Load(placed, processors, c) == Load(old(placed), processors, c) + (if c == cpu then 1 else 0)
    {
      if requested { return core; }
      cpu := value % processors;
      value := (value + 1) % WRAP;
      placed := placed + 1;
    }
  }
}
