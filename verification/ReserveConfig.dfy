/**
 The reserve configuration: thirteen fields packed into two 128-bit words. The words refine a record:
 packing reads back as the parameters, any sequence of setter calls changes the record field by field,
 and the limits that both ways of writing a configuration enforce hold in every run.

 Each bit-level fact is proved for one write on plain expressions (Write…), lifted to the record
 (Record…) and then named (Put…Reads); above that only the record is seen.
 */
module ReserveConfig {
  import opened Common

  const U64_MAX: nat := 0xFFFF_FFFF_FFFF_FFFF

  datatype Words = Words(low: bv128, high: bv128)

  // ------------------------------------------------------------------ parameters

  /** The value of an unsigned parameter; named so that conversions stay out of larger proofs. */
  function Val(v: bv32): nat {
    v as nat
  }

  function WideVal(v: bv128): nat {
    v as nat
  }

  function Wide(v: bv32): bv128 {
    v as bv128
  }

  predicate AtMostAll(bps: bv32) {
    bps <= 10_000
  }

  function Bit(on: bool): bv128 {
    if on then 1 else 0
  }

  predicate Odd(v: bv128) {
    v & 1 == 1
  }

  function Low8(v: bv128): nat {
    (v & 0xFF) as nat
  }

  function Low14(v: bv128): nat {
    (v & 0x3FFF) as nat
  }

  function Low32(v: bv128): nat {
    (v & 0xFFFF_FFFF) as nat
  }

  function Low64(v: bv128): nat {
    (v & 0xFFFF_FFFF_FFFF_FFFF) as nat
  }

  lemma BitReads(on: bool)
    ensures Odd(Bit(on)) <==> on
  {
  }

  lemma FitsField(v: bv32)
    requires v as nat <= 10_000
    ensures ((v as bv128) & 0x3FFF) as nat == v as nat
  {
  }

  lemma FitsByte(v: bv32)
    requires v as nat <= 38
    ensures ((v as bv128) & 0xFF) as nat == v as nat
  {
  }

  lemma FitsWord(v: bv32)
    ensures ((v as bv128) & 0xFFFF_FFFF) as nat == v as nat
  {
  }

  lemma FitsHalf(v: bv128)
    requires v as nat <= U64_MAX
    ensures (v & 0xFFFF_FFFF_FFFF_FFFF) as nat == v as nat
  {
  }

  lemma BoundIsNumeric(v: bv32)
    ensures v <= 10_000 <==> v as nat <= 10_000
    ensures v <= 10_000 <==> AtMostAll(v)
    ensures v <= 10_000 <==> Val(v) <= 10_000
  {
  }

  lemma ParameterReads(v: bv32)
    ensures AtMostAll(v) <==> Val(v) <= 10_000
    ensures AtMostAll(v) ==> Low14(Wide(v)) == Val(v)
    ensures Val(v) <= 38 ==> Low8(Wide(v)) == Val(v)
    ensures Low32(Wide(v)) == Val(v)
  {
    BoundIsNumeric(v);
    FitsWord(v);
    if v as nat <= 10_000 { FitsField(v); }
    if v as nat <= 38 { FitsByte(v); }
  }

  lemma CapReads(cap: bv128)
    requires WideVal(cap) <= U64_MAX
    ensures Low64(cap) == WideVal(cap)
  {
    FitsHalf(cap);
  }

  // ------------------------------------------------------------------ getters

  function Ltv(low: bv128): nat {
    (low & 0x3FFF) as nat
  }

  function Threshold(low: bv128): nat {
    ((low >> 14) & 0x3FFF) as nat
  }

  function Bonus(low: bv128): nat {
    ((low >> 28) & 0x3FFF) as nat
  }

  function Decimals(low: bv128): nat {
    ((low >> 42) & 0xFF) as nat
  }

  predicate Active(low: bv128) {
    (low >> 50) & 1 == 1
  }

  predicate Frozen(low: bv128) {
    (low >> 51) & 1 == 1
  }

  predicate Borrowing(low: bv128) {
    (low >> 52) & 1 == 1
  }

  predicate Paused(low: bv128) {
    (low >> 53) & 1 == 1
  }

  predicate Flashloan(low: bv128) {
    (low >> 56) & 1 == 1
  }

  function ReserveFactor(low: bv128): nat {
    ((low >> 57) & 0x3FFF) as nat
  }

  function MinDebt(low: bv128): nat {
    ((low >> 71) & 0xFFFF_FFFF) as nat
  }

  function BorrowCap(high: bv128): nat {
    (high & 0xFFFF_FFFF_FFFF_FFFF) as nat
  }

  function SupplyCap(high: bv128): nat {
    ((high >> 64) & 0xFFFF_FFFF_FFFF_FFFF) as nat
  }

  datatype LowFields = LowFields(
    ltv: nat, liquidationThreshold: nat, liquidationBonus: nat, decimals: nat,
    active: bool, frozen: bool, borrowingEnabled: bool, paused: bool, flashloanEnabled: bool,
    reserveFactor: nat, minRemainingDebt: nat)

  datatype HighFields = HighFields(borrowCap: nat, supplyCap: nat)

  datatype Record = Record(low: LowFields, high: HighFields)

  function ReadLow(low: bv128): LowFields {
    LowFields(
      Ltv(low), Threshold(low), Bonus(low), Decimals(low),
      Active(low), Frozen(low), Borrowing(low), Paused(low), Flashloan(low), ReserveFactor(low), MinDebt(low))
  }

  function ReadHigh(high: bv128): HighFields {
    HighFields(BorrowCap(high), SupplyCap(high))
  }

  /** All getters at once. */
  function Read(w: Words): Record {
    Record(ReadLow(w.low), ReadHigh(w.high))
  }

  // ------------------------------------------------------------------ writers

  function PutLtv(low: bv128, v: bv128): bv128 {
    (low & !0x3FFF) | (v & 0x3FFF)
  }

  function PutThreshold(low: bv128, v: bv128): bv128 {
    (low & !(0x3FFF << 14)) | ((v & 0x3FFF) << 14)
  }

  function PutBonus(low: bv128, v: bv128): bv128 {
    (low & !(0x3FFF << 28)) | ((v & 0x3FFF) << 28)
  }

  function PutActive(low: bv128, v: bv128): bv128 {
    (low & !(1 << 50)) | ((v & 1) << 50)
  }

  function PutFrozen(low: bv128, v: bv128): bv128 {
    (low & !(1 << 51)) | ((v & 1) << 51)
  }

  function PutBorrowing(low: bv128, v: bv128): bv128 {
    (low & !(1 << 52)) | ((v & 1) << 52)
  }

  function PutPaused(low: bv128, v: bv128): bv128 {
    (low & !(1 << 53)) | ((v & 1) << 53)
  }

  function PutFlashloan(low: bv128, v: bv128): bv128 {
    (low & !(1 << 56)) | ((v & 1) << 56)
  }

  function PutReserveFactor(low: bv128, v: bv128): bv128 {
    (low & !(0x3FFF << 57)) | ((v & 0x3FFF) << 57)
  }

  function PutMinDebt(low: bv128, v: bv128): bv128 {
    (low & !(0xFFFF_FFFF << 71)) | ((v & 0xFFFF_FFFF) << 71)
  }

  function PutBorrowCap(high: bv128, v: bv128): bv128 {
    (high & !0xFFFF_FFFF_FFFF_FFFF) | (v & 0xFFFF_FFFF_FFFF_FFFF)
  }

  function PutSupplyCap(high: bv128, v: bv128): bv128 {
    (high & !(0xFFFF_FFFF_FFFF_FFFF << 64)) | ((v & 0xFFFF_FFFF_FFFF_FFFF) << 64)
  }

  lemma LtvIsPut(low: bv128, v: bv128, word: bv128)
    requires word == (low & !0x3FFF) | (v & 0x3FFF)
    ensures word == PutLtv(low, v)
  {
  }

  lemma WriteLtv(low: bv128, v: bv128, word: bv128)
    requires word == (low & !0x3FFF) | (v & 0x3FFF)
    ensures Ltv(word) == (v & 0x3FFF) as nat
    ensures Threshold(word) == Threshold(low) && Bonus(word) == Bonus(low) && Decimals(word) == Decimals(low)
    ensures ReserveFactor(word) == ReserveFactor(low) && MinDebt(word) == MinDebt(low)
    ensures Active(word) == Active(low) && Frozen(word) == Frozen(low) && Borrowing(word) == Borrowing(low)
    ensures Paused(word) == Paused(low) && Flashloan(word) == Flashloan(low)
  {
  }

  lemma RecordLtv(low: bv128, v: bv128, word: bv128)
    requires word == (low & !0x3FFF) | (v & 0x3FFF)
    ensures ReadLow(word) == ReadLow(low).(ltv := (v & 0x3FFF) as nat)
  {
    hide Ltv, Threshold, Bonus, Decimals, Active, Frozen, Borrowing, Paused, Flashloan, ReserveFactor, MinDebt;
    WriteLtv(low, v, word);
  }

  lemma PutLtvReads(low: bv128, v: bv128)
    ensures ReadLow(PutLtv(low, v)) == ReadLow(low).(ltv := Low14(v))
  {
    hide ReadLow;
    RecordLtv(low, v, PutLtv(low, v));
  }

  lemma WriteThreshold(low: bv128, v: bv128, word: bv128)
    requires word == (low & !(0x3FFF << 14)) | ((v & 0x3FFF) << 14)
    ensures Threshold(word) == (v & 0x3FFF) as nat
    ensures Ltv(word) == Ltv(low) && Bonus(word) == Bonus(low) && Decimals(word) == Decimals(low)
    ensures ReserveFactor(word) == ReserveFactor(low) && MinDebt(word) == MinDebt(low)
    ensures Active(word) == Active(low) && Frozen(word) == Frozen(low) && Borrowing(word) == Borrowing(low)
    ensures Paused(word) == Paused(low) && Flashloan(word) == Flashloan(low)
  {
  }

  lemma RecordThreshold(low: bv128, v: bv128, word: bv128)
    requires word == (low & !(0x3FFF << 14)) | ((v & 0x3FFF) << 14)
    ensures ReadLow(word) == ReadLow(low).(liquidationThreshold := (v & 0x3FFF) as nat)
  {
    hide Ltv, Threshold, Bonus, Decimals, Active, Frozen, Borrowing, Paused, Flashloan, ReserveFactor, MinDebt;
    WriteThreshold(low, v, word);
  }

  lemma PutThresholdReads(low: bv128, v: bv128)
    ensures ReadLow(PutThreshold(low, v)) == ReadLow(low).(liquidationThreshold := Low14(v))
  {
    hide ReadLow;
    RecordThreshold(low, v, PutThreshold(low, v));
  }

  lemma WriteBonus(low: bv128, v: bv128, word: bv128)
    requires word == (low & !(0x3FFF << 28)) | ((v & 0x3FFF) << 28)
    ensures Bonus(word) == (v & 0x3FFF) as nat
    ensures Ltv(word) == Ltv(low) && Threshold(word) == Threshold(low) && Decimals(word) == Decimals(low)
    ensures ReserveFactor(word) == ReserveFactor(low) && MinDebt(word) == MinDebt(low)
    ensures Active(word) == Active(low) && Frozen(word) == Frozen(low) && Borrowing(word) == Borrowing(low)
    ensures Paused(word) == Paused(low) && Flashloan(word) == Flashloan(low)
  {
  }

  lemma RecordBonus(low: bv128, v: bv128, word: bv128)
    requires word == (low & !(0x3FFF << 28)) | ((v & 0x3FFF) << 28)
    ensures ReadLow(word) == ReadLow(low).(liquidationBonus := (v & 0x3FFF) as nat)
  {
    hide Ltv, Threshold, Bonus, Decimals, Active, Frozen, Borrowing, Paused, Flashloan, ReserveFactor, MinDebt;
    WriteBonus(low, v, word);
  }

  lemma PutBonusReads(low: bv128, v: bv128)
    ensures ReadLow(PutBonus(low, v)) == ReadLow(low).(liquidationBonus := Low14(v))
  {
    hide ReadLow;
    RecordBonus(low, v, PutBonus(low, v));
  }

  lemma WriteActive(low: bv128, v: bv128, word: bv128)
    requires word == (low & !(1 << 50)) | ((v & 1) << 50)
    ensures Active(word) == (v & 1 == 1)
    ensures Ltv(word) == Ltv(low) && Threshold(word) == Threshold(low) && Bonus(word) == Bonus(low)
    ensures Decimals(word) == Decimals(low) && ReserveFactor(word) == ReserveFactor(low) && MinDebt(word)
        == MinDebt(low)
    ensures Frozen(word) == Frozen(low) && Borrowing(word) == Borrowing(low) && Paused(word) == Paused(low)
    ensures Flashloan(word) == Flashloan(low)
  {
  }

  lemma RecordActive(low: bv128, v: bv128, word: bv128)
    requires word == (low & !(1 << 50)) | ((v & 1) << 50)
    ensures ReadLow(word) == ReadLow(low).(active := (v & 1 == 1))
  {
    hide Ltv, Threshold, Bonus, Decimals, Active, Frozen, Borrowing, Paused, Flashloan, ReserveFactor, MinDebt;
    WriteActive(low, v, word);
  }

  lemma PutActiveReads(low: bv128, v: bv128)
    ensures ReadLow(PutActive(low, v)) == ReadLow(low).(active := Odd(v))
  {
    hide ReadLow;
    RecordActive(low, v, PutActive(low, v));
  }

  lemma WriteFrozen(low: bv128, v: bv128, word: bv128)
    requires word == (low & !(1 << 51)) | ((v & 1) << 51)
    ensures Frozen(word) == (v & 1 == 1)
    ensures Ltv(word) == Ltv(low) && Threshold(word) == Threshold(low) && Bonus(word) == Bonus(low)
    ensures Decimals(word) == Decimals(low) && ReserveFactor(word) == ReserveFactor(low) && MinDebt(word)
        == MinDebt(low)
    ensures Active(word) == Active(low) && Borrowing(word) == Borrowing(low) && Paused(word) == Paused(low)
    ensures Flashloan(word) == Flashloan(low)
  {
  }

  lemma RecordFrozen(low: bv128, v: bv128, word: bv128)
    requires word == (low & !(1 << 51)) | ((v & 1) << 51)
    ensures ReadLow(word) == ReadLow(low).(frozen := (v & 1 == 1))
  {
    hide Ltv, Threshold, Bonus, Decimals, Active, Frozen, Borrowing, Paused, Flashloan, ReserveFactor, MinDebt;
    WriteFrozen(low, v, word);
  }

  lemma PutFrozenReads(low: bv128, v: bv128)
    ensures ReadLow(PutFrozen(low, v)) == ReadLow(low).(frozen := Odd(v))
  {
    hide ReadLow;
    RecordFrozen(low, v, PutFrozen(low, v));
  }

  lemma WriteBorrowing(low: bv128, v: bv128, word: bv128)
    requires word == (low & !(1 << 52)) | ((v & 1) << 52)
    ensures Borrowing(word) == (v & 1 == 1)
    ensures Ltv(word) == Ltv(low) && Threshold(word) == Threshold(low) && Bonus(word) == Bonus(low)
    ensures Decimals(word) == Decimals(low) && ReserveFactor(word) == ReserveFactor(low) && MinDebt(word)
        == MinDebt(low)
    ensures Active(word) == Active(low) && Frozen(word) == Frozen(low) && Paused(word) == Paused(low)
    ensures Flashloan(word) == Flashloan(low)
  {
  }

  lemma RecordBorrowing(low: bv128, v: bv128, word: bv128)
    requires word == (low & !(1 << 52)) | ((v & 1) << 52)
    ensures ReadLow(word) == ReadLow(low).(borrowingEnabled := (v & 1 == 1))
  {
    hide Ltv, Threshold, Bonus, Decimals, Active, Frozen, Borrowing, Paused, Flashloan, ReserveFactor, MinDebt;
    WriteBorrowing(low, v, word);
  }

  lemma PutBorrowingReads(low: bv128, v: bv128)
    ensures ReadLow(PutBorrowing(low, v)) == ReadLow(low).(borrowingEnabled := Odd(v))
  {
    hide ReadLow;
    RecordBorrowing(low, v, PutBorrowing(low, v));
  }

  lemma WritePaused(low: bv128, v: bv128, word: bv128)
    requires word == (low & !(1 << 53)) | ((v & 1) << 53)
    ensures Paused(word) == (v & 1 == 1)
    ensures Ltv(word) == Ltv(low) && Threshold(word) == Threshold(low) && Bonus(word) == Bonus(low)
    ensures Decimals(word) == Decimals(low) && ReserveFactor(word) == ReserveFactor(low) && MinDebt(word)
        == MinDebt(low)
    ensures Active(word) == Active(low) && Frozen(word) == Frozen(low) && Borrowing(word) == Borrowing(low)
    ensures Flashloan(word) == Flashloan(low)
  {
  }

  lemma RecordPaused(low: bv128, v: bv128, word: bv128)
    requires word == (low & !(1 << 53)) | ((v & 1) << 53)
    ensures ReadLow(word) == ReadLow(low).(paused := (v & 1 == 1))
  {
    hide Ltv, Threshold, Bonus, Decimals, Active, Frozen, Borrowing, Paused, Flashloan, ReserveFactor, MinDebt;
    WritePaused(low, v, word);
  }

  lemma PutPausedReads(low: bv128, v: bv128)
    ensures ReadLow(PutPaused(low, v)) == ReadLow(low).(paused := Odd(v))
  {
    hide ReadLow;
    RecordPaused(low, v, PutPaused(low, v));
  }

  lemma WriteFlashloan(low: bv128, v: bv128, word: bv128)
    requires word == (low & !(1 << 56)) | ((v & 1) << 56)
    ensures Flashloan(word) == (v & 1 == 1)
    ensures Ltv(word) == Ltv(low) && Threshold(word) == Threshold(low) && Bonus(word) == Bonus(low)
    ensures Decimals(word) == Decimals(low) && ReserveFactor(word) == ReserveFactor(low) && MinDebt(word)
        == MinDebt(low)
    ensures Active(word) == Active(low) && Frozen(word) == Frozen(low) && Borrowing(word) == Borrowing(low)
    ensures Paused(word) == Paused(low)
  {
  }

  lemma RecordFlashloan(low: bv128, v: bv128, word: bv128)
    requires word == (low & !(1 << 56)) | ((v & 1) << 56)
    ensures ReadLow(word) == ReadLow(low).(flashloanEnabled := (v & 1 == 1))
  {
    hide Ltv, Threshold, Bonus, Decimals, Active, Frozen, Borrowing, Paused, Flashloan, ReserveFactor, MinDebt;
    WriteFlashloan(low, v, word);
  }

  lemma PutFlashloanReads(low: bv128, v: bv128)
    ensures ReadLow(PutFlashloan(low, v)) == ReadLow(low).(flashloanEnabled := Odd(v))
  {
    hide ReadLow;
    RecordFlashloan(low, v, PutFlashloan(low, v));
  }

  lemma WriteReserveFactor(low: bv128, v: bv128, word: bv128)
    requires word == (low & !(0x3FFF << 57)) | ((v & 0x3FFF) << 57)
    ensures ReserveFactor(word) == (v & 0x3FFF) as nat
    ensures Ltv(word) == Ltv(low) && Threshold(word) == Threshold(low) && Bonus(word) == Bonus(low)
    ensures Decimals(word) == Decimals(low) && MinDebt(word) == MinDebt(low)
    ensures Active(word) == Active(low) && Frozen(word) == Frozen(low) && Borrowing(word) == Borrowing(low)
    ensures Paused(word) == Paused(low) && Flashloan(word) == Flashloan(low)
  {
  }

  lemma RecordReserveFactor(low: bv128, v: bv128, word: bv128)
    requires word == (low & !(0x3FFF << 57)) | ((v & 0x3FFF) << 57)
    ensures ReadLow(word) == ReadLow(low).(reserveFactor := (v & 0x3FFF) as nat)
  {
    hide Ltv, Threshold, Bonus, Decimals, Active, Frozen, Borrowing, Paused, Flashloan, ReserveFactor, MinDebt;
    WriteReserveFactor(low, v, word);
  }

  lemma PutReserveFactorReads(low: bv128, v: bv128)
    ensures ReadLow(PutReserveFactor(low, v)) == ReadLow(low).(reserveFactor := Low14(v))
  {
    hide ReadLow;
    RecordReserveFactor(low, v, PutReserveFactor(low, v));
  }

  lemma WriteMinDebt(low: bv128, v: bv128, word: bv128)
    requires word == (low & !(0xFFFF_FFFF << 71)) | ((v & 0xFFFF_FFFF) << 71)
    ensures MinDebt(word) == (v & 0xFFFF_FFFF) as nat
    ensures Ltv(word) == Ltv(low) && Threshold(word) == Threshold(low) && Bonus(word) == Bonus(low)
    ensures Decimals(word) == Decimals(low) && ReserveFactor(word) == ReserveFactor(low)
    ensures Active(word) == Active(low) && Frozen(word) == Frozen(low) && Borrowing(word) == Borrowing(low)
    ensures Paused(word) == Paused(low) && Flashloan(word) == Flashloan(low)
  {
  }

  lemma RecordMinDebt(low: bv128, v: bv128, word: bv128)
    requires word == (low & !(0xFFFF_FFFF << 71)) | ((v & 0xFFFF_FFFF) << 71)
    ensures ReadLow(word) == ReadLow(low).(minRemainingDebt := (v & 0xFFFF_FFFF) as nat)
  {
    hide Ltv, Threshold, Bonus, Decimals, Active, Frozen, Borrowing, Paused, Flashloan, ReserveFactor, MinDebt;
    WriteMinDebt(low, v, word);
  }

  lemma PutMinDebtReads(low: bv128, v: bv128)
    ensures ReadLow(PutMinDebt(low, v)) == ReadLow(low).(minRemainingDebt := Low32(v))
  {
    hide ReadLow;
    RecordMinDebt(low, v, PutMinDebt(low, v));
  }

  lemma WriteBorrowCap(high: bv128, v: bv128, word: bv128)
    requires word == (high & !0xFFFF_FFFF_FFFF_FFFF) | (v & 0xFFFF_FFFF_FFFF_FFFF)
    ensures BorrowCap(word) == (v & 0xFFFF_FFFF_FFFF_FFFF) as nat && SupplyCap(word) == SupplyCap(high)
  {
  }

  lemma RecordBorrowCap(high: bv128, v: bv128, word: bv128)
    requires word == (high & !0xFFFF_FFFF_FFFF_FFFF) | (v & 0xFFFF_FFFF_FFFF_FFFF)
    ensures ReadHigh(word) == ReadHigh(high).(borrowCap := (v & 0xFFFF_FFFF_FFFF_FFFF) as nat)
  {
    hide BorrowCap, SupplyCap;
    WriteBorrowCap(high, v, word);
  }

  lemma PutBorrowCapReads(high: bv128, v: bv128)
    ensures ReadHigh(PutBorrowCap(high, v)) == ReadHigh(high).(borrowCap := Low64(v))
  {
    hide ReadHigh;
    RecordBorrowCap(high, v, PutBorrowCap(high, v));
  }

  lemma WriteSupplyCap(high: bv128, v: bv128, word: bv128)
    requires word == (high & !(0xFFFF_FFFF_FFFF_FFFF << 64)) | ((v & 0xFFFF_FFFF_FFFF_FFFF) << 64)
    ensures SupplyCap(word) == (v & 0xFFFF_FFFF_FFFF_FFFF) as nat && BorrowCap(word) == BorrowCap(high)
  {
  }

  lemma RecordSupplyCap(high: bv128, v: bv128, word: bv128)
    requires word == (high & !(0xFFFF_FFFF_FFFF_FFFF << 64)) | ((v & 0xFFFF_FFFF_FFFF_FFFF) << 64)
    ensures ReadHigh(word) == ReadHigh(high).(supplyCap := (v & 0xFFFF_FFFF_FFFF_FFFF) as nat)
  {
    hide BorrowCap, SupplyCap;
    WriteSupplyCap(high, v, word);
  }

  lemma PutSupplyCapReads(high: bv128, v: bv128)
    ensures ReadHigh(PutSupplyCap(high, v)) == ReadHigh(high).(supplyCap := Low64(v))
  {
    hide ReadHigh;
    RecordSupplyCap(high, v, PutSupplyCap(high, v));
  }

  // ------------------------------------------------------------------ the words refine the record

  datatype Setting =
    | LtvTo(v: bv32) | ThresholdTo(v: bv32) | BonusTo(v: bv32) | FactorTo(v: bv32) | MinDebtTo(v: bv32)
    | ActiveTo(on: bool) | FrozenTo(on: bool) | BorrowingTo(on: bool) | PausedTo(on: bool) | FlashloanTo(on: bool)
    | BorrowCapTo(cap: bv128) | SupplyCapTo(cap: bv128)

  /** One setter call on the words; the three checked setters write nothing above 10000. */
  function Assign(w: Words, s: Setting): Words {
    match s
    case LtvTo(v) => if AtMostAll(v) then w.(low := PutLtv(w.low, Wide(v))) else w
    case ThresholdTo(v) => if AtMostAll(v) then w.(low := PutThreshold(w.low, Wide(v))) else w
    case BonusTo(v) => if AtMostAll(v) then w.(low := PutBonus(w.low, Wide(v))) else w
    case FactorTo(v) => w.(low := PutReserveFactor(w.low, Wide(v)))
    case MinDebtTo(v) => w.(low := PutMinDebt(w.low, Wide(v)))
    case ActiveTo(on) => w.(low := PutActive(w.low, Bit(on)))
    case FrozenTo(on) => w.(low := PutFrozen(w.low, Bit(on)))
    case BorrowingTo(on) => w.(low := PutBorrowing(w.low, Bit(on)))
    case PausedTo(on) => w.(low := PutPaused(w.low, Bit(on)))
    case FlashloanTo(on) => w.(low := PutFlashloan(w.low, Bit(on)))
    case BorrowCapTo(cap) => w.(high := PutBorrowCap(w.high, cap))
    case SupplyCapTo(cap) => w.(high := PutSupplyCap(w.high, cap))
  }

  /** The same call on the record; the reserve factor and the two caps are cut to their fields unchecked. */
  function Update(r: Record, s: Setting): Record {
    match s
    case LtvTo(v) => if Val(v) <= 10_000 then r.(low := r.low.(ltv := Val(v))) else r
    case ThresholdTo(v) => if Val(v) <= 10_000 then r.(low := r.low.(liquidationThreshold := Val(v))) else r
    case BonusTo(v) => if Val(v) <= 10_000 then r.(low := r.low.(liquidationBonus := Val(v))) else r
    case FactorTo(v) => r.(low := r.low.(reserveFactor := Low14(Wide(v))))
    case MinDebtTo(v) => r.(low := r.low.(minRemainingDebt := Val(v)))
    case ActiveTo(on) => r.(low := r.low.(active := on))
    case FrozenTo(on) => r.(low := r.low.(frozen := on))
    case BorrowingTo(on) => r.(low := r.low.(borrowingEnabled := on))
    case PausedTo(on) => r.(low := r.low.(paused := on))
    case FlashloanTo(on) => r.(low := r.low.(flashloanEnabled := on))
    case BorrowCapTo(cap) => r.(high := r.high.(borrowCap := Low64(cap)))
    case SupplyCapTo(cap) => r.(high := r.high.(supplyCap := Low64(cap)))
  }

  lemma AssignNumberRefines(w: Words, s: Setting)
    requires s.LtvTo? || s.ThresholdTo? || s.BonusTo? || s.FactorTo? || s.MinDebtTo?
    ensures Read(Assign(w, s)) == Update(Read(w), s)
  {
    hide ReadLow, ReadHigh, Val, WideVal, Wide, AtMostAll, Bit, Odd, Low14, Low32, Low64;
    hide PutLtv, PutThreshold, PutBonus, PutReserveFactor, PutMinDebt;
    hide PutActive, PutFrozen, PutBorrowing, PutPaused, PutFlashloan, PutBorrowCap, PutSupplyCap;
    ParameterReads(s.v);
    match s
    case LtvTo(v) => PutLtvReads(w.low, Wide(v));
    case ThresholdTo(v) => PutThresholdReads(w.low, Wide(v));
    case BonusTo(v) => PutBonusReads(w.low, Wide(v));
    case FactorTo(v) => PutReserveFactorReads(w.low, Wide(v));
    case MinDebtTo(v) => PutMinDebtReads(w.low, Wide(v));
  }

  lemma AssignFlagRefines(w: Words, s: Setting)
    requires s.ActiveTo? || s.FrozenTo? || s.BorrowingTo? || s.PausedTo? || s.FlashloanTo?
    ensures Read(Assign(w, s)) == Update(Read(w), s)
  {
    hide ReadLow, ReadHigh, Val, WideVal, Wide, AtMostAll, Bit, Odd, Low14, Low32, Low64;
    hide PutLtv, PutThreshold, PutBonus, PutReserveFactor, PutMinDebt;
    hide PutActive, PutFrozen, PutBorrowing, PutPaused, PutFlashloan, PutBorrowCap, PutSupplyCap;
    BitReads(s.on);
    match s
    case ActiveTo(on) => PutActiveReads(w.low, Bit(on));
    case FrozenTo(on) => PutFrozenReads(w.low, Bit(on));
    case BorrowingTo(on) => PutBorrowingReads(w.low, Bit(on));
    case PausedTo(on) => PutPausedReads(w.low, Bit(on));
    case FlashloanTo(on) => PutFlashloanReads(w.low, Bit(on));
  }

  lemma AssignCapRefines(w: Words, s: Setting)
    requires s.BorrowCapTo? || s.SupplyCapTo?
    ensures Read(Assign(w, s)) == Update(Read(w), s)
  {
    hide ReadLow, ReadHigh, Val, WideVal, Wide, AtMostAll, Bit, Odd, Low14, Low32, Low64;
    hide PutLtv, PutThreshold, PutBonus, PutReserveFactor, PutMinDebt;
    hide PutActive, PutFrozen, PutBorrowing, PutPaused, PutFlashloan, PutBorrowCap, PutSupplyCap;
    match s
    case BorrowCapTo(cap) => PutBorrowCapReads(w.high, cap);
    case SupplyCapTo(cap) => PutSupplyCapReads(w.high, cap);
  }

  lemma AssignRefines(w: Words, s: Setting)
    ensures Read(Assign(w, s)) == Update(Read(w), s)
  {
    hide Read, Assign, Update;
    if s.BorrowCapTo? || s.SupplyCapTo? {
      AssignCapRefines(w, s);
    } else if s.ActiveTo? || s.FrozenTo? || s.BorrowingTo? || s.PausedTo? || s.FlashloanTo? {
      AssignFlagRefines(w, s);
    } else {
      AssignNumberRefines(w, s);
    }
  }

  function AssignAll(w: Words, settings: seq<Setting>): Words
    decreases |settings|
  {
    if settings == [] then w else AssignAll(Assign(w, settings[0]), settings[1..])
  }

  function UpdateAll(r: Record, settings: seq<Setting>): Record
    decreases |settings|
  {
    if settings == [] then r else UpdateAll(Update(r, settings[0]), settings[1..])
  }

  /** Over every sequence of setter calls, the words are the record. */
  lemma {:induction false} SettersRefine(w: Words, settings: seq<Setting>)
    ensures Read(AssignAll(w, settings)) == UpdateAll(Read(w), settings)
    decreases |settings|
  {
    hide Read, Assign, Update;
    if settings != [] {
      AssignRefines(w, settings[0]);
      SettersRefine(Assign(w, settings[0]), settings[1..]);
    }
  }

  // ------------------------------------------------------------------ the setters on storage
  //
  // Each setter writes one word; these lemmas say what the written bits mean for the record.

  lemma LtvMeans(low: bv128, high: bv128, v: bv32, word: bv128)
    requires AtMostAll(v) && word == PutLtv(low, Wide(v))
    ensures Read(Words(word, high)) == Update(Read(Words(low, high)), LtvTo(v))
  {
    hide Read, Update, PutLtv, Wide;
    AssignRefines(Words(low, high), LtvTo(v));
  }

  lemma ThresholdMeans(low: bv128, high: bv128, v: bv32, word: bv128)
    requires AtMostAll(v) && word == PutThreshold(low, Wide(v))
    ensures Read(Words(word, high)) == Update(Read(Words(low, high)), ThresholdTo(v))
  {
    hide Read, Update, PutThreshold, Wide;
    AssignRefines(Words(low, high), ThresholdTo(v));
  }

  lemma BonusMeans(low: bv128, high: bv128, v: bv32, word: bv128)
    requires AtMostAll(v) && word == PutBonus(low, Wide(v))
    ensures Read(Words(word, high)) == Update(Read(Words(low, high)), BonusTo(v))
  {
    hide Read, Update, PutBonus, Wide;
    AssignRefines(Words(low, high), BonusTo(v));
  }

  lemma ReserveFactorMeans(low: bv128, high: bv128, v: bv32, word: bv128)
    requires word == PutReserveFactor(low, Wide(v))
    ensures Read(Words(word, high)) == Update(Read(Words(low, high)), FactorTo(v))
  {
    hide Read, Update, PutReserveFactor, Wide;
    AssignRefines(Words(low, high), FactorTo(v));
  }

  lemma MinDebtMeans(low: bv128, high: bv128, v: bv32, word: bv128)
    requires word == PutMinDebt(low, Wide(v))
    ensures Read(Words(word, high)) == Update(Read(Words(low, high)), MinDebtTo(v))
  {
    hide Read, Update, PutMinDebt, Wide;
    AssignRefines(Words(low, high), MinDebtTo(v));
  }

  lemma BorrowCapIsPut(high: bv128, v: bv128, word: bv128)
    requires word == (high & !0xFFFF_FFFF_FFFF_FFFF) | (v & 0xFFFF_FFFF_FFFF_FFFF)
    ensures word == PutBorrowCap(high, v)
  {
  }

  lemma BorrowCapMeans(low: bv128, high: bv128, cap: bv128, word: bv128)
    requires word == PutBorrowCap(high, cap)
    ensures Read(Words(low, word)) == Update(Read(Words(low, high)), BorrowCapTo(cap))
  {
    hide Read, Update, PutBorrowCap, Low64;
    AssignRefines(Words(low, high), BorrowCapTo(cap));
  }

  lemma SupplyCapIsPut(high: bv128, v: bv128, word: bv128)
    requires word == (high & !(0xFFFF_FFFF_FFFF_FFFF << 64)) | ((v & 0xFFFF_FFFF_FFFF_FFFF) << 64)
    ensures word == PutSupplyCap(high, v)
  {
  }

  lemma SupplyCapMeans(low: bv128, high: bv128, cap: bv128, word: bv128)
    requires word == PutSupplyCap(high, cap)
    ensures Read(Words(low, word)) == Update(Read(Words(low, high)), SupplyCapTo(cap))
  {
    hide Read, Update, PutSupplyCap, Low64;
    AssignRefines(Words(low, high), SupplyCapTo(cap));
  }

  lemma ActiveBitIsPut(low: bv128, on: bool, word: bv128)
    requires word == if on then low | (1 << 50) else low & !(1 << 50)
    ensures word == PutActive(low, Bit(on))
  {
  }

  lemma ActiveMeans(low: bv128, high: bv128, on: bool, word: bv128)
    requires word == PutActive(low, Bit(on))
    ensures Read(Words(word, high)) == Update(Read(Words(low, high)), ActiveTo(on))
  {
    hide Read, Update, PutActive, Bit;
    AssignRefines(Words(low, high), ActiveTo(on));
  }

  lemma FrozenBitIsPut(low: bv128, on: bool, word: bv128)
    requires word == if on then low | (1 << 51) else low & !(1 << 51)
    ensures word == PutFrozen(low, Bit(on))
  {
  }

  lemma FrozenMeans(low: bv128, high: bv128, on: bool, word: bv128)
    requires word == PutFrozen(low, Bit(on))
    ensures Read(Words(word, high)) == Update(Read(Words(low, high)), FrozenTo(on))
  {
    hide Read, Update, PutFrozen, Bit;
    AssignRefines(Words(low, high), FrozenTo(on));
  }

  lemma BorrowingBitIsPut(low: bv128, on: bool, word: bv128)
    requires word == if on then low | (1 << 52) else low & !(1 << 52)
    ensures word == PutBorrowing(low, Bit(on))
  {
  }

  lemma BorrowingMeans(low: bv128, high: bv128, on: bool, word: bv128)
    requires word == PutBorrowing(low, Bit(on))
    ensures Read(Words(word, high)) == Update(Read(Words(low, high)), BorrowingTo(on))
  {
    hide Read, Update, PutBorrowing, Bit;
    AssignRefines(Words(low, high), BorrowingTo(on));
  }

  lemma PausedBitIsPut(low: bv128, on: bool, word: bv128)
    requires word == if on then low | (1 << 53) else low & !(1 << 53)
    ensures word == PutPaused(low, Bit(on))
  {
  }

  lemma PausedMeans(low: bv128, high: bv128, on: bool, word: bv128)
    requires word == PutPaused(low, Bit(on))
    ensures Read(Words(word, high)) == Update(Read(Words(low, high)), PausedTo(on))
  {
    hide Read, Update, PutPaused, Bit;
    AssignRefines(Words(low, high), PausedTo(on));
  }

  lemma FlashloanBitIsPut(low: bv128, on: bool, word: bv128)
    requires word == if on then low | (1 << 56) else low & !(1 << 56)
    ensures word == PutFlashloan(low, Bit(on))
  {
  }

  lemma FlashloanMeans(low: bv128, high: bv128, on: bool, word: bv128)
    requires word == PutFlashloan(low, Bit(on))
    ensures Read(Words(word, high)) == Update(Read(Words(low, high)), FlashloanTo(on))
  {
    hide Read, Update, PutFlashloan, Bit;
    AssignRefines(Words(low, high), FlashloanTo(on));
  }

  class ReserveConfiguration {
    var dataLow: bv128
    var dataHigh: bv128

    constructor (w: Words)
      ensures dataLow == w.low && dataHigh == w.high
    {
      dataLow, dataHigh := w.low, w.high;
    }

    function View(): Words
      reads this
    {
      Words(dataLow, dataHigh)
    }

    method SetLtv(ltv: bv32) returns (r: Result<()>)
      modifies this`dataLow
      ensures r.Ok? <==> Val(ltv) <= 10_000
      ensures dataLow == if r.Ok? then PutLtv(old(dataLow), Wide(ltv)) else old(dataLow)
      ensures Read(View()) == Update(Read(old(View())), LtvTo(ltv))
    {
      hide Read, Update, PutLtv, Val, Wide;
      BoundIsNumeric(ltv);
      if ltv > 10_000 {
        AssignRefines(View(), LtvTo(ltv));
        return Err(InvalidConfiguration);
      }
      var was := dataLow;
      var cleared := was & !0x3FFF;
      dataLow := cleared | (Wide(ltv) & 0x3FFF);
      LtvIsPut(was, Wide(ltv), dataLow);
      LtvMeans(was, dataHigh, ltv, dataLow);
      return Ok(());
    }

    method SetLiquidationThreshold(threshold: bv32) returns (r: Result<()>)
      modifies this`dataLow
      ensures r.Ok? <==> Val(threshold) <= 10_000
      ensures dataLow == if r.Ok? then PutThreshold(old(dataLow), Wide(threshold)) else old(dataLow)
      ensures Read(View()) == Update(Read(old(View())), ThresholdTo(threshold))
    {
      hide Read, Update, Val, Wide;
      BoundIsNumeric(threshold);
      if threshold > 10_000 {
        AssignRefines(View(), ThresholdTo(threshold));
        return Err(InvalidConfiguration);
      }
      var was := dataLow;
      var cleared := was & !(0x3FFF << 14);
      dataLow := cleared | ((Wide(threshold) & 0x3FFF) << 14);
      ThresholdMeans(was, dataHigh, threshold, dataLow);
      return Ok(());
    }

    method SetLiquidationBonus(bonus: bv32) returns (r: Result<()>)
      modifies this`dataLow
      ensures r.Ok? <==> Val(bonus) <= 10_000
      ensures dataLow == if r.Ok? then PutBonus(old(dataLow), Wide(bonus)) else old(dataLow)
      ensures Read(View()) == Update(Read(old(View())), BonusTo(bonus))
    {
      hide Read, Update, Val, Wide;
      BoundIsNumeric(bonus);
      if bonus > 10_000 {
        AssignRefines(View(), BonusTo(bonus));
        return Err(InvalidConfiguration);
      }
      var was := dataLow;
      var cleared := was & !(0x3FFF << 28);
      dataLow := cleared | ((Wide(bonus) & 0x3FFF) << 28);
      BonusMeans(was, dataHigh, bonus, dataLow);
      return Ok(());
    }

    /** Unchecked: a factor is cut to fourteen bits. */
    method SetReserveFactor(factor: bv32)
      modifies this`dataLow
      ensures dataLow == PutReserveFactor(old(dataLow), Wide(factor))
      ensures Read(View()) == Update(Read(old(View())), FactorTo(factor))
    {
      hide Read, Update, Val, Wide;
      var was := dataLow;
      var cleared := was & !(0x3FFF << 57);
      dataLow := cleared | ((Wide(factor) & 0x3FFF) << 57);
      ReserveFactorMeans(was, dataHigh, factor, dataLow);
    }

    method SetMinRemainingDebt(least: bv32)
      modifies this`dataLow
      ensures dataLow == PutMinDebt(old(dataLow), Wide(least))
      ensures Read(View()) == Update(Read(old(View())), MinDebtTo(least))
    {
      hide Read, Update, Val, Wide;
      var was := dataLow;
      var cleared := was & !(0xFFFF_FFFF << 71);
      dataLow := cleared | ((Wide(least) & 0xFFFF_FFFF) << 71);
      MinDebtMeans(was, dataHigh, least, dataLow);
    }

    method SetBorrowCap(cap: bv128)
      modifies this`dataHigh
      ensures dataHigh == PutBorrowCap(old(dataHigh), cap)
      ensures Read(View()) == Update(Read(old(View())), BorrowCapTo(cap))
    {
      hide Read, Update, PutBorrowCap;
      var was := dataHigh;
      var cleared := was & !0xFFFF_FFFF_FFFF_FFFF;
      dataHigh := cleared | (cap & 0xFFFF_FFFF_FFFF_FFFF);
      BorrowCapIsPut(was, cap, dataHigh);
      BorrowCapMeans(dataLow, was, cap, dataHigh);
    }

    method SetSupplyCap(cap: bv128)
      modifies this`dataHigh
      ensures dataHigh == PutSupplyCap(old(dataHigh), cap)
      ensures Read(View()) == Update(Read(old(View())), SupplyCapTo(cap))
    {
      hide Read, Update, PutSupplyCap;
      var was := dataHigh;
      var cleared := was & !(0xFFFF_FFFF_FFFF_FFFF << 64);
      dataHigh := cleared | ((cap & 0xFFFF_FFFF_FFFF_FFFF) << 64);
      SupplyCapIsPut(was, cap, dataHigh);
      SupplyCapMeans(dataLow, was, cap, dataHigh);
    }

    method SetActive(on: bool)
      modifies this`dataLow
      ensures dataLow == PutActive(old(dataLow), Bit(on))
      ensures Read(View()) == Update(Read(old(View())), ActiveTo(on))
    {
      hide Read, Update, PutActive, Bit;
      var was := dataLow;
      if on {
        dataLow := was | (1 << 50);
      } else {
        dataLow := was & !(1 << 50);
      }
      ActiveBitIsPut(was, on, dataLow);
      ActiveMeans(was, dataHigh, on, dataLow);
    }

    method SetFrozen(on: bool)
      modifies this`dataLow
      ensures dataLow == PutFrozen(old(dataLow), Bit(on))
      ensures Read(View()) == Update(Read(old(View())), FrozenTo(on))
    {
      hide Read, Update, PutFrozen, Bit;
      var was := dataLow;
      if on {
        dataLow := was | (1 << 51);
      } else {
        dataLow := was & !(1 << 51);
      }
      FrozenBitIsPut(was, on, dataLow);
      FrozenMeans(was, dataHigh, on, dataLow);
    }

    method SetBorrowingEnabled(on: bool)
      modifies this`dataLow
      ensures dataLow == PutBorrowing(old(dataLow), Bit(on))
      ensures Read(View()) == Update(Read(old(View())), BorrowingTo(on))
    {
      hide Read, Update, PutBorrowing, Bit;
      var was := dataLow;
      if on {
        dataLow := was | (1 << 52);
      } else {
        dataLow := was & !(1 << 52);
      }
      BorrowingBitIsPut(was, on, dataLow);
      BorrowingMeans(was, dataHigh, on, dataLow);
    }

    method SetPaused(on: bool)
      modifies this`dataLow
      ensures dataLow == PutPaused(old(dataLow), Bit(on))
      ensures Read(View()) == Update(Read(old(View())), PausedTo(on))
    {
      hide Read, Update, PutPaused, Bit;
      var was := dataLow;
      if on {
        dataLow := was | (1 << 53);
      } else {
        dataLow := was & !(1 << 53);
      }
      PausedBitIsPut(was, on, dataLow);
      PausedMeans(was, dataHigh, on, dataLow);
    }

    method SetFlashloanEnabled(on: bool)
      modifies this`dataLow
      ensures dataLow == PutFlashloan(old(dataLow), Bit(on))
      ensures Read(View()) == Update(Read(old(View())), FlashloanTo(on))
    {
      hide Read, Update, PutFlashloan, Bit;
      var was := dataLow;
      if on {
        dataLow := was | (1 << 56);
      } else {
        dataLow := was & !(1 << 56);
      }
      FlashloanBitIsPut(was, on, dataLow);
      FlashloanMeans(was, dataHigh, on, dataLow);
    }
  }

  // ------------------------------------------------------------------ initialization

  datatype InitParams = InitParams(
    ltv: bv32, liquidationThreshold: bv32, liquidationBonus: bv32, decimals: bv32, reserveFactor: bv32,
    borrowingEnabled: bool, flashloanEnabled: bool, supplyCap: bv128, borrowCap: bv128)

  /** The checks of init_reserve on its parameters; a buffer of 50 separates the two thresholds. */
  predicate ValidParams(p: InitParams) {
    && Val(p.ltv) <= 10_000 && Val(p.liquidationThreshold) <= 10_000
    && Val(p.liquidationThreshold) > Val(p.ltv) && Val(p.liquidationThreshold) >= Val(p.ltv) + 50
    && Val(p.reserveFactor) <= 10_000 && Val(p.liquidationBonus) <= 10_000 && Val(p.decimals) <= 38
    && WideVal(p.supplyCap) <= U64_MAX && WideVal(p.borrowCap) <= U64_MAX
  }

  /** The fields below the flags, and the active flag. */
  function Head(ltv: bv128, threshold: bv128, bonus: bv128, decimals: bv128): bv128 {
    (ltv & 0x3FFF) | ((threshold & 0x3FFF) << 14) | ((bonus & 0x3FFF) << 28) | ((decimals & 0xFF) << 42) | (1 << 50)
  }

  function OrBorrowing(low: bv128, on: bool): bv128 {
    if on then low | (1 << 52) else low
  }

  function OrFlashloan(low: bv128, on: bool): bv128 {
    if on then low | (1 << 56) else low
  }

  function OrFactor(low: bv128, factor: bv128): bv128 {
    low | ((factor & 0x3FFF) << 57)
  }

  function OrCaps(borrowCap: bv128, supplyCap: bv128): bv128 {
    (borrowCap & 0xFFFF_FFFF_FFFF_FFFF) | ((supplyCap & 0xFFFF_FFFF_FFFF_FFFF) << 64)
  }

  function Packed(p: InitParams): Words {
    var head := Head(Wide(p.ltv), Wide(p.liquidationThreshold), Wide(p.liquidationBonus), Wide(p.decimals));
    Words(OrFactor(OrFlashloan(OrBorrowing(head, p.borrowingEnabled), p.flashloanEnabled), Wide(p.reserveFactor)),
          OrCaps(p.borrowCap, p.supplyCap))
  }

  method PackHead(ltv: bv128, threshold: bv128, bonus: bv128, decimals: bv128) returns (low: bv128)
    ensures low == Head(ltv, threshold, bonus, decimals)
  {
    low := 0;
    low := low | (ltv & 0x3FFF);
    low := low | ((threshold & 0x3FFF) << 14);
    low := low | ((bonus & 0x3FFF) << 28);
    low := low | ((decimals & 0xFF) << 42);
    low := low | (1 << 50);
  }

  method RaiseBorrowing(head: bv128, on: bool) returns (low: bv128)
    ensures low == OrBorrowing(head, on)
  {
    low := head;
    if on {
      low := low | (1 << 52);
    }
  }

  method RaiseFlashloan(head: bv128, on: bool) returns (low: bv128)
    ensures low == OrFlashloan(head, on)
  {
    low := head;
    if on {
      low := low | (1 << 56);
    }
  }

  method PackFactor(head: bv128, factor: bv128) returns (low: bv128)
    ensures low == OrFactor(head, factor)
  {
    low := head;
    low := low | ((factor & 0x3FFF) << 57);
  }

  method PackCaps(borrowCap: bv128, supplyCap: bv128) returns (high: bv128)
    ensures high == OrCaps(borrowCap, supplyCap)
  {
    high := 0;
    high := high | (borrowCap & 0xFFFF_FFFF_FFFF_FFFF);
    high := high | ((supplyCap & 0xFFFF_FFFF_FFFF_FFFF) << 64);
  }

  /** The packing of init_reserve, field by field into empty words. */
  method Pack(p: InitParams) returns (low: bv128, high: bv128)
    ensures Words(low, high) == Packed(p)
  {
    hide Head, OrBorrowing, OrFlashloan, OrFactor, OrCaps, Wide;
    low := PackHead(Wide(p.ltv), Wide(p.liquidationThreshold), Wide(p.liquidationBonus), Wide(p.decimals));
    low := RaiseBorrowing(low, p.borrowingEnabled);
    low := RaiseFlashloan(low, p.flashloanEnabled);
    low := PackFactor(low, Wide(p.reserveFactor));
    high := PackCaps(p.borrowCap, p.supplyCap);
  }

  lemma HeadBits(ltv: bv128, threshold: bv128, bonus: bv128, decimals: bv128, low: bv128)
    requires low == (ltv & 0x3FFF) | ((threshold & 0x3FFF) << 14) | ((bonus & 0x3FFF) << 28)
        | ((decimals & 0xFF) << 42) | (1 << 50)
    ensures Ltv(low) == (ltv & 0x3FFF) as nat && Threshold(low) == (threshold & 0x3FFF) as nat
    ensures Bonus(low) == (bonus & 0x3FFF) as nat && Decimals(low) == (decimals & 0xFF) as nat
    ensures Active(low) && !Frozen(low) && !Borrowing(low) && !Paused(low) && !Flashloan(low)
    ensures ReserveFactor(low) == 0 && MinDebt(low) == 0
  {
  }

  lemma HeadRecord(ltv: bv128, threshold: bv128, bonus: bv128, decimals: bv128, low: bv128)
    requires low == (ltv & 0x3FFF) | ((threshold & 0x3FFF) << 14) | ((bonus & 0x3FFF) << 28)
        | ((decimals & 0xFF) << 42) | (1 << 50)
    ensures ReadLow(low) == LowFields(
      (ltv & 0x3FFF) as nat, (threshold & 0x3FFF) as nat, (bonus & 0x3FFF) as nat, (decimals & 0xFF) as nat,
      true, false, false, false, false, 0, 0)
  {
    hide Ltv, Threshold, Bonus, Decimals, Active, Frozen, Borrowing, Paused, Flashloan, ReserveFactor, MinDebt;
    HeadBits(ltv, threshold, bonus, decimals, low);
  }

  lemma HeadReads(ltv: bv128, threshold: bv128, bonus: bv128, decimals: bv128)
    ensures ReadLow(Head(ltv, threshold, bonus, decimals)) == LowFields(
      Low14(ltv), Low14(threshold), Low14(bonus), Low8(decimals), true, false, false, false, false, 0, 0)
  {
    hide ReadLow;
    HeadRecord(ltv, threshold, bonus, decimals, Head(ltv, threshold, bonus, decimals));
  }

  /** Raising a flag is the flag's setter with a one. */
  lemma BorrowingIsPut(low: bv128)
    ensures OrBorrowing(low, true) == PutBorrowing(low, 1)
  {
  }

  lemma OrBorrowingReads(low: bv128, on: bool)
    requires !Borrowing(low)
    ensures ReadLow(OrBorrowing(low, on)) == ReadLow(low).(borrowingEnabled := on)
  {
    hide Ltv, Threshold, Bonus, Decimals, Active, Frozen, Borrowing, Paused, Flashloan, ReserveFactor, MinDebt;
    hide PutBorrowing;
    BorrowingIsPut(low);
    PutBorrowingReads(low, 1);
  }

  /** Raising a flag is the flag's setter with a one. */
  lemma FlashloanIsPut(low: bv128)
    ensures OrFlashloan(low, true) == PutFlashloan(low, 1)
  {
  }

  lemma OrFlashloanReads(low: bv128, on: bool)
    requires !Flashloan(low)
    ensures ReadLow(OrFlashloan(low, on)) == ReadLow(low).(flashloanEnabled := on)
  {
    hide Ltv, Threshold, Bonus, Decimals, Active, Frozen, Borrowing, Paused, Flashloan, ReserveFactor, MinDebt;
    hide PutFlashloan;
    FlashloanIsPut(low);
    PutFlashloanReads(low, 1);
  }

  lemma FactorIntoZero(low: bv128, factor: bv128)
    requires ReserveFactor(low) == 0
    ensures OrFactor(low, factor) == PutReserveFactor(low, factor)
  {
  }

  lemma CapsBits(borrowCap: bv128, supplyCap: bv128, high: bv128)
    requires high == (borrowCap & 0xFFFF_FFFF_FFFF_FFFF) | ((supplyCap & 0xFFFF_FFFF_FFFF_FFFF) << 64)
    ensures BorrowCap(high) == (borrowCap & 0xFFFF_FFFF_FFFF_FFFF) as nat
    ensures SupplyCap(high) == (supplyCap & 0xFFFF_FFFF_FFFF_FFFF) as nat
  {
  }

  lemma CapsRead(borrowCap: bv128, supplyCap: bv128)
    ensures ReadHigh(OrCaps(borrowCap, supplyCap)) == HighFields(Low64(borrowCap), Low64(supplyCap))
  {
    hide BorrowCap, SupplyCap;
    CapsBits(borrowCap, supplyCap, OrCaps(borrowCap, supplyCap));
  }

  /** Round trip: what init_reserve packs is what the getters read back, every field of it. */
  lemma PackReadsBack(p: InitParams)
    requires ValidParams(p)
    ensures Read(Packed(p)) == Record(
      LowFields(Val(p.ltv), Val(p.liquidationThreshold), Val(p.liquidationBonus), Val(p.decimals),
                true, false, p.borrowingEnabled, false, p.flashloanEnabled, Val(p.reserveFactor), 0),
      HighFields(WideVal(p.borrowCap), WideVal(p.supplyCap)))
  {
    hide Ltv, Threshold, Bonus, Decimals, Active, Frozen, Borrowing, Paused, Flashloan, ReserveFactor, MinDebt;
    hide ReadHigh, Val, WideVal, Wide, AtMostAll;
    hide Low8, Low14, Low32, Low64, Head, OrBorrowing, OrFlashloan, OrFactor, OrCaps, PutReserveFactor;
    var head := Head(Wide(p.ltv), Wide(p.liquidationThreshold), Wide(p.liquidationBonus), Wide(p.decimals));
    var open := OrBorrowing(head, p.borrowingEnabled);
    var flagged := OrFlashloan(open, p.flashloanEnabled);
    HeadReads(Wide(p.ltv), Wide(p.liquidationThreshold), Wide(p.liquidationBonus), Wide(p.decimals));
    OrBorrowingReads(head, p.borrowingEnabled);
    OrFlashloanReads(open, p.flashloanEnabled);
    FactorIntoZero(flagged, Wide(p.reserveFactor));
    PutReserveFactorReads(flagged, Wide(p.reserveFactor));
    CapsRead(p.borrowCap, p.supplyCap);
    ParameterReads(p.ltv);
    ParameterReads(p.liquidationThreshold);
    ParameterReads(p.liquidationBonus);
    ParameterReads(p.decimals);
    ParameterReads(p.reserveFactor);
    CapReads(p.borrowCap);
    CapReads(p.supplyCap);
  }

  // ------------------------------------------------------------------ what every configuration keeps

  /** The limits on a stored configuration. */
  predicate Limits(r: Record) {
    && r.low.ltv + 50 <= r.low.liquidationThreshold <= 10_000
    && r.low.liquidationBonus <= 10_000 && r.low.reserveFactor <= 10_000 && r.low.decimals <= 38
  }

  /** The checks of update_reserve_configuration, on words read through the getters. */
  predicate ValidConfiguration(w: Words) {
    var r := Read(w);
    && r.low.ltv <= 10_000 && r.low.liquidationThreshold <= 10_000
    && r.low.liquidationThreshold > r.low.ltv && r.low.liquidationThreshold >= r.low.ltv + 50
    && r.low.reserveFactor <= 10_000 && r.low.liquidationBonus <= 10_000 && r.low.decimals <= 38
    && r.high.supplyCap <= U64_MAX && r.high.borrowCap <= U64_MAX
  }

  /** The router calls that write a configuration; dropping needs both tokens empty. */
  datatype Change =
    | Init(asset: Address, params: InitParams)
    | Replace(asset: Address, words: Words)
    | SetSupply(asset: Address, cap: bv128)
    | SetBorrow(asset: Address, cap: bv128)
    | SetMinDebt(asset: Address, least: bv32)
    | Drop(asset: Address, empty: bool)

  type Store = map<Address, Words>

  function Apply(s: Store, c: Change): Result<Store> {
    match c
    case Init(asset, params) =>
      var _ :- Need(asset !in s && ValidParams(params), InvalidAmount);
      Ok(s[asset := Packed(params)])
    case Replace(asset, words) =>
      var _ :- Need(ValidConfiguration(words), InvalidAmount);
      var _ :- Need(asset in s, ReserveNotFound);
      Ok(s[asset := words])
    case SetSupply(asset, cap) =>
      var _ :- Need(WideVal(cap) <= U64_MAX, InvalidAmount);
      var _ :- Need(asset in s, ReserveNotFound);
      Ok(s[asset := Assign(s[asset], SupplyCapTo(cap))])
    case SetBorrow(asset, cap) =>
      var _ :- Need(WideVal(cap) <= U64_MAX, InvalidAmount);
      var _ :- Need(asset in s, ReserveNotFound);
      Ok(s[asset := Assign(s[asset], BorrowCapTo(cap))])
    case SetMinDebt(asset, least) =>
      var _ :- Need(asset in s, ReserveNotFound);
      Ok(s[asset := Assign(s[asset], MinDebtTo(least))])
    case Drop(asset, empty) =>
      var _ :- Need(asset in s && empty, ReserveNotFound);
      Ok(s - {asset})
  }

  function Run(s: Store, changes: seq<Change>): Store
    decreases |changes|
  {
    if changes == [] then s
    else
      var r := Apply(s, changes[0]);
      Run(if r.Ok? then r.value else s, changes[1..])
  }

  ghost predicate AllWithinLimits(s: Store) {
    forall asset :: asset in s ==> Limits(Read(s[asset]))
  }

  lemma InitWithinLimits(p: InitParams)
    requires ValidParams(p)
    ensures Limits(Read(Packed(p)))
  {
    hide Packed, Read, Val, WideVal;
    PackReadsBack(p);
  }

  lemma ReplaceWithinLimits(w: Words)
    requires ValidConfiguration(w)
    ensures Limits(Read(w))
  {
    hide Read;
  }

  /** The caps and the minimum are not part of the limits. */
  lemma SetterKeepsLimits(w: Words, s: Setting)
    requires s.SupplyCapTo? || s.BorrowCapTo? || s.MinDebtTo?
    requires Limits(Read(w))
    ensures Limits(Read(Assign(w, s)))
  {
    hide Read, Assign, Val, WideVal, Wide, Low14;
    AssignRefines(w, s);
  }

  lemma ApplyKeepsLimits(s: Store, c: Change)
    requires AllWithinLimits(s) && Apply(s, c).Ok?
    ensures AllWithinLimits(Apply(s, c).value)
  {
    hide Read, Packed, ValidParams, ValidConfiguration, Limits, Assign, WideVal;
    match c
    case Init(asset, params) => InitWithinLimits(params);
    case Replace(asset, words) => ReplaceWithinLimits(words);
    case SetSupply(asset, cap) => SetterKeepsLimits(s[asset], SupplyCapTo(cap));
    case SetBorrow(asset, cap) => SetterKeepsLimits(s[asset], BorrowCapTo(cap));
    case SetMinDebt(asset, least) => SetterKeepsLimits(s[asset], MinDebtTo(least));
    case Drop(_, _) =>
  }

  /** Over every run of initializations, replacements, cap and minimum setters, every reserve keeps the limits. */
  lemma {:induction false} RunKeepsLimits(s: Store, changes: seq<Change>)
    requires AllWithinLimits(s)
    ensures AllWithinLimits(Run(s, changes))
    decreases |changes|
  {
    hide Read, Limits, Apply;
    if changes != [] {
      var r := Apply(s, changes[0]);
      if r.Ok? {
        ApplyKeepsLimits(s, changes[0]);
      }
      RunKeepsLimits(if r.Ok? then r.value else s, changes[1..]);
    }
  }
}
