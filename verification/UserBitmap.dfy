/**
 The per-user bitmap: two flags for each of 64 reserve ids, packed into one 128-bit word, collateral on
 the even bits and borrowing on the odd ones. The word encodes a map from reserve ids to flags, and
 every loop and mask over it agrees with that map. Proofs above the bit level hide the shifts.
 */
module UserBitmap {

  const MAX_RESERVES: nat := 64

  /** The two bits of a pair, by shift and mask. */
  function EvenBit(data: bv128, pair: bv8): bool
    requires pair < 64
  {
    (data >> (2 * pair)) & 1 == 1
  }

  function OddBit(data: bv128, pair: bv8): bool
    requires pair < 64
  {
    (data >> (2 * pair + 1)) & 1 == 1
  }

  lemma PairRoundTrip(id: nat)
    requires id <= MAX_RESERVES
    ensures (id as bv8) as nat == id
  {
  }

  lemma PairBelow(pair: bv8)
    ensures (pair as nat < 64) == (pair < 64)
  {
  }

  /** Ids are counted as numbers; the pair they select is an 8-bit shift amount. */
  function Pair(id: nat): (pair: bv8)
    requires id < MAX_RESERVES
    ensures pair < 64
  {
    PairRoundTrip(id);
    PairBelow(id as bv8);
    id as bv8
  }

  predicate Collateral(data: bv128, id: nat) {
    id < MAX_RESERVES && EvenBit(data, Pair(id))
  }

  predicate Borrowing(data: bv128, id: nat) {
    id < MAX_RESERVES && OddBit(data, Pair(id))
  }

  predicate Active(data: bv128, id: nat) {
    Collateral(data, id) || Borrowing(data, id)
  }

  function ActiveBelow(data: bv128, bound: nat): set<nat> {
    set id | 0 <= id < bound && Active(data, id)
  }

  /** The reserves a user has any position in. */
  function ActiveIds(data: bv128): set<nat> {
    ActiveBelow(data, MAX_RESERVES)
  }

  // ------------------------------------------------------------------ pairs as shift amounts

  lemma PairBack(pair: bv8)
    ensures (pair as nat) as bv8 == pair
  {
  }

  lemma PairIncrement(pair: bv8)
    requires pair < 128
    ensures (pair + 1) as nat == pair as nat + 1
  {
  }

  lemma PairStep(id: nat)
    requires id < 63
    ensures Pair(id + 1) == Pair(id) + 1 && Pair(id) < 63
  {
    PairRoundTrip(id);
    PairRoundTrip(id + 1);
    PairIncrement(Pair(id));
    PairBack(Pair(id) + 1);
  }

  lemma PairsDiffer(id: nat, other: nat)
    requires id < MAX_RESERVES && other < MAX_RESERVES
    ensures (Pair(id) == Pair(other)) == (id == other)
  {
    PairRoundTrip(id);
    PairRoundTrip(other);
  }

  lemma PairZero()
    ensures Pair(0) == 0
  {
  }

  // ------------------------------------------------------------------ bit facts

  lemma SetEvenBit(data: bv128, pair: bv8, other: bv8)
    requires pair < 64 && other < 64
    ensures EvenBit(data | (1 << (2 * pair)), other) == (pair == other || EvenBit(data, other))
    ensures OddBit(data | (1 << (2 * pair)), other) == OddBit(data, other)
  {
  }

  lemma ClearEvenBit(data: bv128, pair: bv8, other: bv8)
    requires pair < 64 && other < 64
    ensures EvenBit(data & !(1 << (2 * pair)), other) == (pair != other && EvenBit(data, other))
    ensures OddBit(data & !(1 << (2 * pair)), other) == OddBit(data, other)
  {
  }

  lemma SetOddBit(data: bv128, pair: bv8, other: bv8)
    requires pair < 64 && other < 64
    ensures OddBit(data | (1 << (2 * pair + 1)), other) == (pair == other || OddBit(data, other))
    ensures EvenBit(data | (1 << (2 * pair + 1)), other) == EvenBit(data, other)
  {
  }

  lemma ClearOddBit(data: bv128, pair: bv8, other: bv8)
    requires pair < 64 && other < 64
    ensures OddBit(data & !(1 << (2 * pair + 1)), other) == (pair != other && OddBit(data, other))
    ensures EvenBit(data & !(1 << (2 * pair + 1)), other) == EvenBit(data, other)
  {
  }

  lemma ShiftBits(data: bv128, pair: bv8)
    requires pair < 63
    ensures EvenBit(data >> 2, pair) == EvenBit(data, pair + 1)
    ensures OddBit(data >> 2, pair) == OddBit(data, pair + 1)
  {
  }

  lemma LowBits(data: bv128)
    ensures (data & 3 != 0) == (EvenBit(data, 0) || OddBit(data, 0))
  {
  }

  lemma ZeroBits(pair: bv8)
    requires pair < 64
    ensures !EvenBit(0, pair) && !OddBit(0, pair)
  {
  }

  // ------------------------------------------------------------------ flag facts

  /** The setters' mask-and-combine. */
  function WriteEven(data: bv128, pair: bv8, on: bool): bv128
    requires pair < 64
  {
    if on then data | (1 << (2 * pair)) else data & !(1 << (2 * pair))
  }

  function WriteOdd(data: bv128, pair: bv8, on: bool): bv128
    requires pair < 64
  {
    if on then data | (1 << (2 * pair + 1)) else data & !(1 << (2 * pair + 1))
  }

  lemma WriteEvenBits(data: bv128, pair: bv8, on: bool, other: bv8)
    requires pair < 64 && other < 64
    ensures EvenBit(WriteEven(data, pair, on), other) == if pair == other then on else EvenBit(data, other)
    ensures OddBit(WriteEven(data, pair, on), other) == OddBit(data, other)
  {
    hide EvenBit, OddBit;
    if on {
      SetEvenBit(data, pair, other);
    } else {
      ClearEvenBit(data, pair, other);
    }
  }

  lemma WriteOddBits(data: bv128, pair: bv8, on: bool, other: bv8)
    requires pair < 64 && other < 64
    ensures OddBit(WriteOdd(data, pair, on), other) == if pair == other then on else OddBit(data, other)
    ensures EvenBit(WriteOdd(data, pair, on), other) == EvenBit(data, other)
  {
    hide EvenBit, OddBit;
    if on {
      SetOddBit(data, pair, other);
    } else {
      ClearOddBit(data, pair, other);
    }
  }

  /** Writing an even bit writes one collateral flag and no borrowing flag. */
  lemma WriteEvenFlags(data: bv128, id: nat, on: bool, other: nat)
    requires id < MAX_RESERVES
    ensures Collateral(WriteEven(data, Pair(id), on), other) == if id == other then on else Collateral(data, other)
    ensures Borrowing(WriteEven(data, Pair(id), on), other) == Borrowing(data, other)
  {
    hide EvenBit, OddBit, Pair, WriteEven;
    if other < MAX_RESERVES {
      PairsDiffer(id, other);
      WriteEvenBits(data, Pair(id), on, Pair(other));
    }
  }

  /** Writing an odd bit writes one borrowing flag and no collateral flag. */
  lemma WriteOddFlags(data: bv128, id: nat, on: bool, other: nat)
    requires id < MAX_RESERVES
    ensures Borrowing(WriteOdd(data, Pair(id), on), other) == if id == other then on else Borrowing(data, other)
    ensures Collateral(WriteOdd(data, Pair(id), on), other) == Collateral(data, other)
  {
    hide EvenBit, OddBit, Pair, WriteOdd;
    if other < MAX_RESERVES {
      PairsDiffer(id, other);
      WriteOddBits(data, Pair(id), on, Pair(other));
    }
  }

  /** Shifting a pair out renumbers the reserves by one. */
  lemma ShiftPair(data: bv128, id: nat)
    requires id < 63
    ensures Collateral(data >> 2, id) == Collateral(data, id + 1)
    ensures Borrowing(data >> 2, id) == Borrowing(data, id + 1)
  {
    hide EvenBit, OddBit, Pair;
    PairStep(id);
    ShiftBits(data, Pair(id));
  }

  lemma LowPair(data: bv128)
    ensures (data & 3 != 0) == Active(data, 0)
  {
    hide EvenBit, OddBit;
    PairZero();
    LowBits(data);
  }

  lemma ZeroWord(id: nat)
    ensures !Active(0, id)
  {
    hide EvenBit, OddBit, Pair;
    if id < MAX_RESERVES {
      ZeroBits(Pair(id));
    }
  }

  const BORROW_MASK: bv128 := 0xAAAA_AAAA_AAAA_AAAA_AAAA_AAAA_AAAA_AAAA

  lemma MaskBits(data: bv128, pair: bv8)
    requires pair < 64
    ensures !EvenBit(data & BORROW_MASK, pair)
    ensures OddBit(data & BORROW_MASK, pair) == OddBit(data, pair)
  {
  }

  /** The mask keeps the borrowing flags and drops the collateral ones. */
  lemma MaskFlags(data: bv128, id: nat)
    ensures !Collateral(data & BORROW_MASK, id)
    ensures Borrowing(data & BORROW_MASK, id) == Borrowing(data, id)
  {
    hide EvenBit, OddBit, Pair;
    if id < MAX_RESERVES {
      MaskBits(data, Pair(id));
    }
  }

  /** A word with no bit at or above a pair. */
  predicate Fits(data: bv128, pair: bv8)
    requires pair <= 64
  {
    data >> (2 * pair) == 0
  }

  lemma EveryWordFits(data: bv128)
    ensures Fits(data, 64)
  {
  }

  lemma DropEmptyPair(data: bv128, bound: bv8)
    requires 0 < bound <= 64 && data != 0 && data & 3 == 0 && Fits(data, bound)
    ensures bound > 1 && data >> 2 != 0 && Fits(data >> 2, bound - 1)
  {
  }

  /** The same bound, counted as a number. */
  predicate FitsIds(data: bv128, bound: nat)
    requires 0 < bound <= MAX_RESERVES
  {
    Fits(data, Pair(bound - 1) + 1)
  }

  lemma DropEmptyId(data: bv128, bound: nat)
    requires 0 < bound <= MAX_RESERVES && data != 0 && data & 3 == 0 && FitsIds(data, bound)
    ensures bound > 1 && data >> 2 != 0 && FitsIds(data >> 2, bound - 1)
  {
    hide Fits, Pair;
    DropEmptyPair(data, Pair(bound - 1) + 1);
    if bound == 1 {
      PairZero();
    } else {
      PairStep(bound - 2);
    }
  }

  /** A non-zero word that fits `bound` reserves has one of them active. */
  lemma {:induction false} SomeFlagBelow(data: bv128, bound: nat) returns (id: nat)
    requires 0 < bound <= MAX_RESERVES && data != 0 && FitsIds(data, bound)
    ensures id < bound && Active(data, id)
    decreases bound
  {
    hide Collateral, Borrowing, FitsIds;
    LowPair(data);
    if data & 3 != 0 {
      id := 0;
    } else {
      DropEmptyId(data, bound);
      var rest := SomeFlagBelow(data >> 2, bound - 1);
      ShiftPair(data, rest);
      id := rest + 1;
    }
  }

  lemma LastPair()
    ensures Pair(63) == 63
  {
  }

  lemma SomeFlag(data: bv128) returns (id: nat)
    requires data != 0
    ensures Active(data, id)
  {
    hide Collateral, Borrowing, Fits, Pair;
    EveryWordFits(data);
    LastPair();
    id := SomeFlagBelow(data, MAX_RESERVES);
  }

  /** The mask test is exact: it fires if and only if some reserve has the borrowing flag. */
  lemma MaskIsAnyBorrowing(data: bv128)
    ensures (data & BORROW_MASK != 0) <==> exists id: nat :: Borrowing(data, id)
  {
    hide Collateral, Borrowing;
    if data & BORROW_MASK != 0 {
      var id := SomeFlag(data & BORROW_MASK);
      MaskFlags(data, id);
      assert Borrowing(data, id);
    }
    if id: nat :| Borrowing(data, id) {
      MaskFlags(data, id);
      ZeroWord(id);
    }
  }

  // ------------------------------------------------------------------ one step of the loops

  /** A word half shifted out: reserve k of `rest` is reserve `from + k` of `data`. */
  ghost predicate IsRest(data: bv128, rest: bv128, from: nat) {
    forall k: nat {:trigger Active(rest, k)} :: from + k < MAX_RESERVES ==> Active(rest, k) == Active(data, from + k)
  }

  lemma RestStep(data: bv128, rest: bv128, from: nat)
    requires IsRest(data, rest, from)
    ensures IsRest(data, rest >> 2, from + 1)
  {
    hide Collateral, Borrowing;
    var next := rest >> 2;
    forall k: nat {:trigger Active(next, k)} | from + 1 + k < MAX_RESERVES
      ensures Active(next, k) == Active(data, from + 1 + k)
    {
      ShiftPair(rest, k);
      assert Active(rest, k + 1) == Active(data, from + (k + 1));
    }
  }

  /** Once nothing is left, no higher id is active. */
  lemma NoneLeft(data: bv128, id: nat)
    requires id <= MAX_RESERVES && IsRest(data, 0, id)
    ensures ActiveBelow(data, id) == ActiveIds(data)
  {
    hide Active;
    forall other: nat | id <= other < MAX_RESERVES
      ensures !Active(data, other)
    {
      ZeroWord(other - id);
      assert Active(0, other - id) == Active(data, id + (other - id));
    }
  }

  /** Everything one iteration of the counting loops relies on. */
  lemma LoopStep(data: bv128, rest: bv128, id: nat)
    requires id < MAX_RESERVES && IsRest(data, rest, id)
    ensures IsRest(data, rest >> 2, id + 1)
    ensures (rest & 3 != 0) == Active(data, id)
    ensures ActiveBelow(data, id + 1) == ActiveBelow(data, id) + if Active(data, id) then {id} else {}
    ensures |ActiveBelow(data, id + 1)| == |ActiveBelow(data, id)| + if Active(data, id) then 1 else 0
    ensures rest >> 2 == 0 ==> ActiveBelow(data, id + 1) == ActiveIds(data)
  {
    hide Active;
    LowPair(rest);
    assert Active(rest, 0) == Active(data, id + 0);
    RestStep(data, rest, id);
    assert ActiveBelow(data, id + 1) == ActiveBelow(data, id) + if Active(data, id) then {id} else {};
    if rest >> 2 == 0 {
      NoneLeft(data, id + 1);
    }
  }

  ghost predicate Ascending(ids: seq<nat>) {
    forall i, j :: 0 <= i < j < |ids| ==> ids[i] < ids[j]
  }

  lemma AscendingAppend(ids: seq<nat>, bound: nat)
    requires Ascending(ids) && forall id: nat :: id in ids ==> id < bound
    ensures Ascending(ids + [bound])
  {
    forall i | 0 <= i < |ids|
      ensures ids[i] < bound
    {
      assert ids[i] in ids;
    }
  }

  lemma ActiveInRange(data: bv128, id: nat)
    ensures id in ActiveIds(data) <==> Active(data, id)
  {
    hide EvenBit, OddBit;
  }

  // ------------------------------------------------------------------ the configuration object

  lemma WholeIsRest(data: bv128)
    ensures IsRest(data, data, 0)
  {
    hide Active;
  }

  class UserConfiguration {
    var data: bv128

    constructor ()
      ensures data == 0
    {
      data := 0;
    }

    /** An id of 64 or more reads as unset. */
    method IsUsingAsCollateral(id: nat) returns (r: bool)
      ensures r == Collateral(data, id)
    {
      if id >= 64 {
        return false;
      }
      var pair := Pair(id);
      r := (data >> (2 * pair)) & 1 == 1;
    }

    method IsBorrowing(id: nat) returns (r: bool)
      ensures r == Borrowing(data, id)
    {
      if id >= 64 {
        return false;
      }
      var pair := Pair(id);
      r := (data >> (2 * pair + 1)) & 1 == 1;
    }

    /** Sets one flag of one id; an id of 64 or more writes nothing. */
    method SetUsingAsCollateral(id: nat, using: bool)
      modifies this
      ensures id >= 64 ==> data == old(data)
      ensures id < 64 ==> forall other: nat ::
                && Borrowing(data, other) == old(Borrowing(data, other))
                && Collateral(data, other) == if id == other then using else old(Collateral(data, other))
    {
      hide EvenBit, OddBit, Collateral, Borrowing, WriteEven, WriteOdd;
      if id >= 64 {
        return;
      }
      ghost var before := data;
      var pair := Pair(id);
      data := WriteEven(data, pair, using);
      forall other: nat
        ensures Borrowing(data, other) == Borrowing(before, other)
        ensures Collateral(data, other) == if id == other then using else Collateral(before, other)
      {
        WriteEvenFlags(before, id, using, other);
      }
    }

    method SetBorrowing(id: nat, borrowing: bool)
      modifies this
      ensures id >= 64 ==> data == old(data)
      ensures id < 64 ==> forall other: nat ::
                && Collateral(data, other) == old(Collateral(data, other))
                && Borrowing(data, other) == if id == other then borrowing else old(Borrowing(data, other))
    {
      hide EvenBit, OddBit, Collateral, Borrowing, WriteEven, WriteOdd;
      if id >= 64 {
        return;
      }
      ghost var before := data;
      var pair := Pair(id);
      data := WriteOdd(data, pair, borrowing);
      forall other: nat
        ensures Collateral(data, other) == Collateral(before, other)
        ensures Borrowing(data, other) == if id == other then borrowing else Borrowing(before, other)
      {
        WriteOddFlags(before, id, borrowing, other);
      }
    }

    method HasAnyBorrowing() returns (r: bool)
      ensures r <==> exists id: nat :: Borrowing(data, id)
    {
      hide Borrowing;
      MaskIsAnyBorrowing(data);
      r := data & BORROW_MASK != 0;
    }

    /** The loop stops early once no bit is left; the count is still of every active reserve. */
    method CountActiveReserves() returns (count: nat)
      ensures count == |ActiveIds(data)|
    {
      hide Active, IsRest;
      count := 0;
      var rest := data;
      WholeIsRest(data);
      for id := 0 to 64
        invariant IsRest(data, rest, id)
        invariant count == |ActiveBelow(data, id)|
      {
        LoopStep(data, rest, id);
        if rest & 3 != 0 {
          count := count + 1;
        }
        rest := rest >> 2;
        if rest == 0 {
          break;
        }
      }
    }

    /** The ids come out in strictly increasing order, each active one exactly once. */
    method GetActiveReserveIds() returns (ids: seq<nat>)
      ensures Ascending(ids)
      ensures forall id: nat :: id in ids <==> Active(data, id)
      ensures |ids| == |ActiveIds(data)|
    {
      hide Active, IsRest;
      ids := [];
      var rest := data;
      WholeIsRest(data);
      for id := 0 to 64
        invariant IsRest(data, rest, id)
        invariant Ascending(ids)
        invariant forall other: nat :: other in ids <==> other in ActiveBelow(data, id)
        invariant |ids| == |ActiveBelow(data, id)|
      {
        LoopStep(data, rest, id);
        if rest & 3 != 0 {
          AscendingAppend(ids, id);
          ids := ids + [id];
        }
        rest := rest >> 2;
        if rest == 0 {
          break;
        }
      }
      assert forall other: nat :: other in ids <==> other in ActiveIds(data);
      forall other: nat
        ensures other in ActiveIds(data) <==> Active(data, other)
      {
        ActiveInRange(data, other);
      }
    }
  }
}
