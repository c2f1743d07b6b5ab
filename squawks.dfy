/** Beacon (squawk) codes and the pools they are allocated from
    (pkg/sim/nas.go:95-124, 368-374).

    A squawk is a 12-bit code the source writes in octal; the constants
    below are written in decimal with the octal value beside them. */
module Squawks {
  import opened Common

  type Squawk = int

  const NasFirst: Squawk := 513   // 0o1001
  const NasLast: Squawk := 4095   // 0o7777
  const VfrCode: Squawk := 640    // 0o1200, the VFR code
  const BankWidth: int := 64      // 0o100, codes per beacon bank
  const BankLast: int := 63       // 0o77, last offset inside a bank

  /** The NAS pool: every code from 0o1001 to 0o7777 that is neither a
      special-purpose code nor the VFR code. `isSPC` stands for
      av.SquawkIsSPC. */
  function NasCodes(isSPC: Squawk -> bool): set<Squawk>
  {
    set c | NasFirst <= c <= NasLast && !isSPC(c) && c != VfrCode
  }

  /** A beacon-bank pool: bank*0o100+1 through bank*0o100+0o77. */
  function BankCodes(bank: int): set<Squawk>
  {
    Range(bank * BankWidth + 1, bank * BankWidth + BankLast + 1)
  }

  /** getValidSquawkCodes: builds the NAS pool code by code. */
  method ValidSquawkCodes(isSPC: Squawk -> bool) returns (sq: set<Squawk>)
    ensures forall c :: c in sq <==> NasFirst <= c <= NasLast && !isSPC(c) && c != VfrCode
    ensures sq == NasCodes(isSPC)
  {
    sq := {};
    var i := NasFirst;
    while i <= NasLast
      invariant NasFirst <= i <= NasLast + 1
      invariant forall c :: c in sq <==> NasFirst <= c < i && !isSPC(c) && c != VfrCode
    {
      if !isSPC(i) && i != VfrCode {
        sq := sq + {i};
      }
      i := i + 1;
    }
  }

  /** getBeaconBankSquawks: builds the pool of one beacon bank. */
  method BeaconBankSquawks(bank: int) returns (sq: set<Squawk>)
    ensures forall c :: c in sq <==> bank * BankWidth + 1 <= c <= bank * BankWidth + BankLast
    ensures sq == BankCodes(bank)
  {
    sq := {};
    var i := bank * BankWidth + 1;
    while i <= bank * BankWidth + BankLast
      invariant bank * BankWidth + 1 <= i <= bank * BankWidth + BankLast + 1
      invariant forall c :: c in sq <==> bank * BankWidth + 1 <= c < i
    {
      sq := sq + {i};
      i := i + 1;
    }
  }

  predicate InRange(lo: int, hi: int, c: int)
  {
    lo <= c < hi
  }

  /** The integers lo .. hi-1. */
  function Range(lo: int, hi: int): set<int>
  {
    set c | lo <= c < hi && InRange(lo, hi, c)
  }

  lemma {:induction false} RangeSize(lo: int, hi: int)
    requires lo <= hi
    ensures |Range(lo, hi)| == hi - lo
    decreases hi - lo
  {
    if lo < hi {
      RangeSize(lo + 1, hi);
      assert Range(lo, hi) == Range(lo + 1, hi) + {lo};
    } else {
      assert Range(lo, hi) == {};
    }
  }

  /** Every beacon bank offers exactly 0o77 = 63 codes, none of them the
      bank's own base code bank*0o100. */
  lemma BankCodesSize(bank: int)
    ensures |BankCodes(bank)| == BankLast
    ensures bank * BankWidth !in BankCodes(bank)
  {
    assert BankCodes(bank) == Range(bank * BankWidth + 1, bank * BankWidth + BankLast + 1);
    RangeSize(bank * BankWidth + 1, bank * BankWidth + BankLast + 1);
  }

  /** The NAS pool never offers the VFR code and stays inside 0o1001-0o7777,
      so it holds at most 0o7777 - 0o1001 codes (one fewer than the range). */
  lemma NasCodesBounds(isSPC: Squawk -> bool)
    ensures VfrCode !in NasCodes(isSPC)
    ensures forall c :: c in NasCodes(isSPC) ==> NasFirst <= c <= NasLast
    ensures |NasCodes(isSPC)| <= NasLast - NasFirst
  {
    var whole := Range(NasFirst, NasLast + 1);
    assert NasCodes(isSPC) <= whole - {VfrCode};
    RangeSize(NasFirst, NasLast + 1);
    assert VfrCode in whole;
    assert |whole - {VfrCode}| == |whole| - 1;
    SubsetSize(NasCodes(isSPC), whole - {VfrCode});
  }

  lemma SubsetSize<T>(a: set<T>, b: set<T>)
    requires a <= b
    ensures |a| <= |b|
  {
    assert b == a + (b - a);
  }

  /** A pool of unused codes. The source keeps it as a Go map whose keys
      are the codes; the STARS computers under one centre share one pool object. */
  class SquawkPool {
    var available: set<Squawk>

    constructor (codes: set<Squawk>)
      ensures available == codes
    {
      available := codes;
    }

    /** CreateSquawk: removes one available code (which one is not
        specified, as Go map iteration order is not) and returns it; on an
        empty pool returns 0 and ErrNoMoreAvailableSquawkCodes and changes nothing. */
    method CreateSquawk() returns (sq: Squawk, err: Option<Error>)
      modifies this
      ensures old(available) == {} ==>
                sq == 0 && err == Some(ErrNoMoreAvailableSquawkCodes) && available == old(available)
      ensures old(available) != {} ==>
                err == None && sq in old(available) && available == old(available) - {sq}
    {
      if available == {} {
        sq, err := 0, Some(ErrNoMoreAvailableSquawkCodes);
      } else {
        ghost var some := Member(available);
        var pick :| pick in available;
        sq, err := pick, None;
        available := available - {sq};
      }
    }

    /** `AvailableSquawks[sq] = nil`: puts the code (back) into the pool. */
    method Insert(sq: Squawk)
      modifies this
      ensures available == old(available) + {sq}
    {
      available := available + {sq};
    }
  }
}
