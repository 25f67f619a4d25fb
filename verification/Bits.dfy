/** Bitwise operations on naturals, and what they amount to with the masks used here. */
module Bits {

  function And(x: nat, y: nat): nat {
    if x == 0 || y == 0 then 0 else (if x % 2 == 1 && y % 2 == 1 then 1 else 0) + 2 * And(x / 2, y / 2)
  }

  function Or(x: nat, y: nat): nat
    decreases x + y
  {
    if x == 0 then y else if y == 0 then x
    else (if x % 2 == 1 || y % 2 == 1 then 1 else 0) + 2 * Or(x / 2, y / 2)
  }

  function ShiftLeft(x: nat, k: nat): nat {
    if k == 0 then x else 2 * ShiftLeft(x, k - 1)
  }

  function ShiftRight(x: nat, k: nat): nat {
    if k == 0 then x else ShiftRight(x / 2, k - 1)
  }

  /** The low k bits. */
  function Low(x: nat, k: nat): nat {
    if k == 0 then 0 else x % 2 + 2 * Low(x / 2, k - 1)
  }

  /** k ones. */
  function Ones(k: nat): nat {
    if k == 0 then 0 else 1 + 2 * Ones(k - 1)
  }

  lemma {:induction false} AndOnes(x: nat, k: nat)
    ensures And(x, Ones(k)) == Low(x, k)
  {
    if k > 0 { AndOnes(x / 2, k - 1); }
  }

  /** Masking the bits from the k-th on. */
  lemma {:induction false} AndShifted(x: nat, m: nat, k: nat)
    ensures And(x, ShiftLeft(m, k)) == ShiftLeft(And(ShiftRight(x, k), m), k)
  {
    if k > 0 { AndShifted(x / 2, m, k - 1); }
  }

  /** Setting the bits from the k-th on beside k low ones. */
  lemma {:induction false} OrShifted(h: nat, x: nat, k: nat)
    ensures Or(ShiftLeft(h, k), Low(x, k)) == ShiftLeft(h, k) + Low(x, k)
  {
    if k > 0 { OrShifted(h, x / 2, k - 1); }
  }

  /** The low bits and the rest make up the number. */
  lemma {:induction false} Splits(x: nat, k: nat)
    ensures x == ShiftLeft(ShiftRight(x, k), k) + Low(x, k) && Low(x, k) <= Ones(k)
  {
    if k > 0 { Splits(x / 2, k - 1); }
  }

  lemma Quarters(x: nat)
    ensures Low(x, 2) == x % 4
  {
    Splits(x, 2);
    var q := ShiftRight(x, 2);
    assert ShiftLeft(q, 2) == 2 * ShiftLeft(q, 1) && ShiftLeft(q, 1) == 2 * ShiftLeft(q, 0);
    assert Ones(2) == 1 + 2 * Ones(1) && Ones(1) == 1;
  }

  lemma Sixteenths(x: nat)
    ensures Low(x, 4) == x % 16 && ShiftRight(x, 4) == x / 16 && ShiftLeft(x, 4) == 16 * x && Ones(4) == 15
  {
    Splits(x, 4);
    TimesSixteen(x);
    TimesSixteen(ShiftRight(x, 4));
    assert Ones(4) == 15;
    RemainderBySixteen(x, ShiftRight(x, 4), Low(x, 4));
  }

  lemma RemainderBySixteen(x: nat, q: nat, r: nat)
    requires x == 16 * q + r && r < 16
    ensures x / 16 == q && x % 16 == r
  {
  }

  lemma TimesSixteen(x: nat)
    ensures ShiftLeft(x, 4) == 16 * x
  {
    assert ShiftLeft(x, 4) == 2 * ShiftLeft(x, 3) && ShiftLeft(x, 3) == 2 * ShiftLeft(x, 2);
    assert ShiftLeft(x, 2) == 2 * ShiftLeft(x, 1) && ShiftLeft(x, 1) == 2 * ShiftLeft(x, 0);
  }

  lemma SixtyFourths(x: nat)
    ensures Low(x, 6) == x % 64 && ShiftRight(x, 6) == x / 64 && ShiftLeft(x, 6) == 64 * x && Ones(6) == 63
  {
    Splits(x, 6);
    TimesSixtyFour(x);
    TimesSixtyFour(ShiftRight(x, 6));
    SixOnes();
    RemainderBySixtyFour(x, ShiftRight(x, 6), Low(x, 6));
  }

  lemma SixOnes()
    ensures Ones(6) == 63
  {
    assert Ones(4) == 15 && Ones(6) == 1 + 2 * Ones(5) && Ones(5) == 1 + 2 * Ones(4);
  }

  lemma RemainderBySixtyFour(x: nat, q: nat, r: nat)
    requires x == 64 * q + r && r < 64
    ensures x / 64 == q && x % 64 == r
  {
  }

  lemma TimesSixtyFour(x: nat)
    ensures ShiftLeft(x, 6) == 64 * x
  {
    TimesSixteen(x);
    assert ShiftLeft(x, 6) == 2 * ShiftLeft(x, 5) && ShiftLeft(x, 5) == 2 * ShiftLeft(x, 4);
  }
}
