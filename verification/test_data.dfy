/**
  The labelled test-data generator: one legitimate record, one fraudulent
  record following one of five named patterns, and a data set of `n` records
  of which `int(n * ratio)` are fraudulent, numbered and then shuffled.

  Every random choice is a parameter: `choice` draws are the chosen value,
  `randint` draws the drawn integer, and `uniform` draws the unit value `u`
  with `uniform(lo, hi) == lo + (hi - lo) * u`.
 */
module TestData {
  import opened Numeric
  import opened Accounts
  import opened Transactions
  import opened Shuffling

  // ---------------------------------------------------------------------------
  // Legitimate records
  // ---------------------------------------------------------------------------

  /** The draws behind one legitimate record. */
  datatype NormalDraw = NormalDraw(
    kind: TxType,
    amountU: real,
    origNumber: nat,
    destNumber: nat,
    oldOrigU: real,
    oldDestU: real)

  predicate ValidNormalDraw(d: NormalDraw)
  {
    && IsUnit(d.amountU) && IsUnit(d.oldOrigU) && IsUnit(d.oldDestU)
    && TenDigitLow <= d.origNumber <= TenDigitHigh
    && TenDigitLow <= d.destNumber <= TenDigitHigh
  }

  /** The uniform range the amount of a legitimate record is drawn from, per type. */
  function AmountLow(t: TxType): real
  {
    match t
    case Payment => 10.0
    case Transfer => 50.0
    case CashOut => 50.0
    case CashIn => 50.0
    case Debit => 10.0
  }

  function AmountHigh(t: TxType): real
  {
    match t
    case Payment => 5000.0
    case Transfer => 20000.0
    case CashOut => 10000.0
    case CashIn => 8000.0
    case Debit => 2000.0
  }

  /** Rounding the moved balance equals moving the rounded balance by the (whole-cents) amount. */
  lemma MoveRounded(raw: real, amount: real, credit: bool)
    requires IsCents(amount)
    ensures RoundCents(if credit then raw + amount else raw - amount)
         == (if credit then RoundCents(raw) + amount else RoundCents(raw) - amount)
  {
    if credit {
      RoundCentsShift(raw, amount);
    } else {
      RoundCentsShiftDown(raw, amount);
    }
  }

  /** The rounded amount of a legitimate record: whole cents within the type's range. */
  function NormalAmount(t: TxType, u: real): (a: real)
    requires IsUnit(u)
    ensures IsCents(a) && AmountLow(t) <= a <= AmountHigh(t)
  {
    var raw := Uniform(AmountLow(t), AmountHigh(t), u);
    RoundCentsWithin(raw, AmountLow(t), AmountHigh(t));
    RoundCents(raw)
  }

  /** A pair of balances before and after the transaction. */
  datatype Balances = Balances(before: real, after: real)

  /**
    The sender of a legitimate record starts with 1.5 to 10 times the amount
    and is debited by it (credited for `CASH_IN`); both balances are rounded to
    cents, and the rounding keeps the change exactly equal to the amount.
   */
  function NormalSender(amount: real, cashIn: bool, u: real): (b: Balances)
    requires IsCents(amount) && amount >= 0.0 && IsUnit(u)
    ensures cashIn ==> b.after == b.before + amount
    ensures !cashIn ==> b.after == b.before - amount
    ensures amount <= b.before <= 10.0 * amount
    ensures 1.5 * amount - 0.005 < b.before
    ensures b.after >= 0.0
  {
    var raw := Uniform(amount * 1.5, amount * 10.0, u);
    CentsClosure(amount, 10);
    RoundCentsWithin(raw, amount, amount * 10.0);
    MoveRounded(raw, amount, cashIn);
    Balances(RoundCents(raw), RoundCents(if !cashIn then raw - amount else raw + amount))
  }

  /**
    The recipient of a legitimate record starts with 1000 to 100000 and is
    credited by exactly the amount when `credit` holds, otherwise unchanged.
   */
  function NormalRecipient(amount: real, credit: bool, u: real): (b: Balances)
    requires IsCents(amount) && IsUnit(u)
    ensures credit ==> b.after == b.before + amount
    ensures !credit ==> b.after == b.before
    ensures 1000.0 <= b.before <= 100000.0
  {
    var raw := Uniform(1000.0, 100000.0, u);
    RoundCentsWithin(raw, 1000.0, 100000.0);
    MoveRounded(raw, amount, true);
    Balances(RoundCents(raw), RoundCents(if credit then raw + amount else raw))
  }

  /**
    `generate_normal_transaction(step)`: an unlabelled record whose sender is
    debited by the amount (credited for `CASH_IN`) and whose recipient, a
    merchant exactly for `TRANSFER` and `PAYMENT`, is credited only for those.
   */
  function NormalTransaction(step: int, d: NormalDraw): (t: Transaction)
    requires ValidNormalDraw(d)
    ensures t.step == step && t.kind == d.kind
    ensures !t.isFraud && !t.isFlaggedFraud
    ensures IsCents(t.amount) && AmountLow(t.kind) <= t.amount <= AmountHigh(t.kind)
    ensures IsCustomer(t.nameOrig) && |t.nameOrig| == 11 && |t.nameDest| == 11
    ensures IsMerchant(t.nameDest) <==> CreditsRecipient(t.kind)
    ensures t.kind == CashIn ==> t.newbalanceOrig == t.oldbalanceOrg + t.amount
    ensures t.kind != CashIn ==> t.newbalanceOrig == t.oldbalanceOrg - t.amount
    ensures CreditsRecipient(t.kind) ==> t.newbalanceDest == t.oldbalanceDest + t.amount
    ensures !CreditsRecipient(t.kind) ==> t.newbalanceDest == t.oldbalanceDest
    ensures t.amount <= t.oldbalanceOrg <= 10.0 * t.amount
    ensures 1.5 * t.amount - 0.005 < t.oldbalanceOrg
    ensures t.newbalanceOrig >= 0.0
    ensures 1000.0 <= t.oldbalanceDest <= 100000.0
  {
    var amount := NormalAmount(d.kind, d.amountU);
    var credit := CreditsRecipient(d.kind);
    var sender := NormalSender(amount, d.kind == CashIn, d.oldOrigU);
    var recipient := NormalRecipient(amount, credit, d.oldDestU);
    Transaction(
      step, d.kind, amount,
      GenerateAccountNumber(false, d.origNumber), sender.before, sender.after,
      GenerateAccountNumber(credit, d.destNumber), recipient.before, recipient.after,
      false, false)
  }

  // ---------------------------------------------------------------------------
  // Fraudulent records
  // ---------------------------------------------------------------------------

  datatype FraudPattern =
    | BalanceMismatch      // the sender keeps its balance, the recipient gains twice the amount
    | AccountEmptying      // the amount is the whole sender balance
    | LargeTransfer        // 50000 to 200000, the sender holds only 5% more than that
    | MultipleRecipients   // a small transfer to one of 21 related merchant accounts
    | UnusualMerchant      // a payment to the fixed merchant M9999999999

  /** The draws behind one fraudulent record; each pattern uses the ones it needs. */
  datatype FraudDraw = FraudDraw(
    pattern: FraudPattern,
    amountU: real,
    origNumber: nat,
    destNumber: nat,
    muleNumber: nat,
    oldOrigU: real,
    oldDestU: real)

  /** The 21 mule accounts of the multiple-recipients pattern are `M1000000000` to `M1000000020`. */
  const MuleLow: nat := 1000000000
  const MuleHigh: nat := 1000000020

  /** The recipient of the unusual-merchant pattern. */
  const SuspiciousMerchant: string := "M9999999999"

  /** Amounts above this are flagged (`isFlaggedFraud`). */
  const FlagThreshold: real := 50000.0

  predicate ValidFraudDraw(d: FraudDraw)
  {
    && IsUnit(d.amountU) && IsUnit(d.oldOrigU) && IsUnit(d.oldDestU)
    && TenDigitLow <= d.origNumber <= TenDigitHigh
    && TenDigitLow <= d.destNumber <= TenDigitHigh
    && MuleLow <= d.muleNumber <= MuleHigh
  }

  /** The money movement of a fraudulent record, before labelling. */
  datatype Movement = Movement(
    kind: TxType,
    amount: real,
    nameOrig: string,
    sender: Balances,
    nameDest: string,
    recipient: Balances)

  /** The sender keeps its balance despite the transfer; the recipient gains twice the amount. */
  function BalanceMismatchMove(d: FraudDraw): (m: Movement)
    requires ValidFraudDraw(d)
    ensures m.kind == Transfer && IsMerchant(m.nameDest)
    ensures IsCents(m.amount) && 1000.0 <= m.amount <= 10000.0
    ensures m.sender.after == m.sender.before
    ensures m.recipient.after == m.recipient.before + 2.0 * m.amount
    ensures 1.5 * m.amount - 0.005 < m.sender.before <= 3.0 * m.amount
  {
    var aRaw := Uniform(1000.0, 10000.0, d.amountU);
    RoundCentsWithin(aRaw, 1000.0, 10000.0);
    var amount := RoundCents(aRaw);
    var senderRaw := Uniform(amount * 1.5, amount * 3.0, d.oldOrigU);
    CentsClosure(amount, 3);
    CentsClosure(amount, 2);
    RoundCentsMonotone(senderRaw, amount * 3.0);
    RoundCentsExact(amount * 3.0);
    var recipientRaw := Uniform(1000.0, 5000.0, d.oldDestU);
    RoundCentsShift(recipientRaw, amount * 2.0);
    Movement(
      Transfer, amount,
      GenerateAccountNumber(false, d.origNumber), Balances(RoundCents(senderRaw), RoundCents(senderRaw)),
      GenerateAccountNumber(true, d.destNumber), Balances(RoundCents(recipientRaw), RoundCents(recipientRaw + amount * 2.0)))
  }

  /** A cash-out of the sender's whole balance. */
  function AccountEmptyingMove(d: FraudDraw): (m: Movement)
    requires ValidFraudDraw(d)
    ensures m.kind == CashOut && IsCustomer(m.nameDest)
    ensures IsCents(m.amount) && 5000.0 <= m.amount <= 50000.0
    ensures m.amount == m.sender.before && m.sender.after == 0.0
    ensures m.recipient.after == m.recipient.before
  {
    var balanceRaw := Uniform(5000.0, 50000.0, d.oldOrigU);
    RoundCentsWithin(balanceRaw, 5000.0, 50000.0);
    RoundCentsExact(0.0);
    var recipientRaw := Uniform(1000.0, 5000.0, d.oldDestU);
    Movement(
      CashOut, RoundCents(balanceRaw),
      GenerateAccountNumber(false, d.origNumber), Balances(RoundCents(balanceRaw), RoundCents(0.0)),
      GenerateAccountNumber(false, d.destNumber), Balances(RoundCents(recipientRaw), RoundCents(recipientRaw)))
  }

  /**
    A movement of `aRaw` whose three values are rounded separately: each side
    changes by the rounded amount up to three half-cents.
   */
  predicate NearlyMoves(b: Balances, amount: real, debit: bool)
  {
    var change := if debit then b.before - b.after else b.after - b.before;
    amount - 0.015 <= change <= amount + 0.015
  }

  /** A very large transfer from a sender holding only 5% more than the amount. */
  function LargeTransferMove(d: FraudDraw): (m: Movement)
    requires ValidFraudDraw(d)
    ensures m.kind == Transfer && IsMerchant(m.nameDest)
    ensures IsCents(m.amount) && 50000.0 <= m.amount <= 200000.0
    ensures NearlyMoves(m.sender, m.amount, true) && NearlyMoves(m.recipient, m.amount, false)
    ensures m.amount <= m.sender.before && m.sender.after >= 0.0
  {
    var aRaw := Uniform(50000.0, 200000.0, d.amountU);
    RoundCentsWithin(aRaw, 50000.0, 200000.0);
    var senderRaw := aRaw * 1.05;
    var recipientRaw := Uniform(10000.0, 50000.0, d.oldDestU);
    Movement(
      Transfer, RoundCents(aRaw),
      GenerateAccountNumber(false, d.origNumber), Balances(RoundCents(senderRaw), RoundCents(senderRaw - aRaw)),
      GenerateAccountNumber(true, d.destNumber), Balances(RoundCents(recipientRaw), RoundCents(recipientRaw + aRaw)))
  }

  /** A small transfer to one of the mule accounts `M1000000000` .. `M1000000020`. */
  function MultipleRecipientsMove(d: FraudDraw): (m: Movement)
    requires ValidFraudDraw(d)
    ensures m.kind == Transfer && m.nameDest == AccountName('M', d.muleNumber)
    ensures IsCents(m.amount) && 500.0 <= m.amount <= 2000.0
    ensures NearlyMoves(m.sender, m.amount, true) && NearlyMoves(m.recipient, m.amount, false)
    ensures 50000.0 <= m.sender.before <= 100000.0
  {
    var aRaw := Uniform(500.0, 2000.0, d.amountU);
    RoundCentsWithin(aRaw, 500.0, 2000.0);
    var senderRaw := Uniform(50000.0, 100000.0, d.oldOrigU);
    RoundCentsWithin(senderRaw, 50000.0, 100000.0);
    var recipientRaw := Uniform(10000.0, 50000.0, d.oldDestU);
    Movement(
      Transfer, RoundCents(aRaw),
      GenerateAccountNumber(false, d.origNumber), Balances(RoundCents(senderRaw), RoundCents(senderRaw - aRaw)),
      AccountName('M', d.muleNumber), Balances(RoundCents(recipientRaw), RoundCents(recipientRaw + aRaw)))
  }

  /** A payment to the fixed merchant `M9999999999`, whose balance is implausibly high. */
  function UnusualMerchantMove(d: FraudDraw): (m: Movement)
    requires ValidFraudDraw(d)
    ensures m.kind == Payment && m.nameDest == SuspiciousMerchant
    ensures IsCents(m.amount) && 5000.0 <= m.amount <= 15000.0
    ensures NearlyMoves(m.sender, m.amount, true) && NearlyMoves(m.recipient, m.amount, false)
    ensures 100000.0 <= m.recipient.before <= 500000.0
  {
    var aRaw := Uniform(5000.0, 15000.0, d.amountU);
    RoundCentsWithin(aRaw, 5000.0, 15000.0);
    var senderRaw := Uniform(aRaw * 2.0, aRaw * 5.0, d.oldOrigU);
    var recipientRaw := Uniform(100000.0, 500000.0, d.oldDestU);
    RoundCentsWithin(recipientRaw, 100000.0, 500000.0);
    Movement(
      Payment, RoundCents(aRaw),
      GenerateAccountNumber(false, d.origNumber), Balances(RoundCents(senderRaw), RoundCents(senderRaw - aRaw)),
      SuspiciousMerchant, Balances(RoundCents(recipientRaw), RoundCents(recipientRaw + aRaw)))
  }

  function PatternMove(d: FraudDraw): (m: Movement)
    requires ValidFraudDraw(d)
  {
    match d.pattern
    case BalanceMismatch => BalanceMismatchMove(d)
    case AccountEmptying => AccountEmptyingMove(d)
    case LargeTransfer => LargeTransferMove(d)
    case MultipleRecipients => MultipleRecipientsMove(d)
    case UnusualMerchant => UnusualMerchantMove(d)
  }

  /**
    `generate_fraudulent_transaction(step)`: a record labelled fraudulent,
    flagged exactly when its amount exceeds 50000, which only the
    large-transfer pattern can reach.
   */
  function FraudulentTransaction(step: int, d: FraudDraw): (t: Transaction)
    requires ValidFraudDraw(d)
    ensures t.step == step && t.isFraud
    ensures t.isFlaggedFraud <==> t.amount > FlagThreshold
    ensures t.isFlaggedFraud ==> d.pattern == LargeTransfer
    ensures IsCents(t.amount) && t.amount > 0.0
    ensures IsCustomer(t.nameOrig)
    ensures d.pattern == BalanceMismatch ==>
              && t.kind == Transfer && 1000.0 <= t.amount <= 10000.0
              && t.newbalanceOrig == t.oldbalanceOrg
              && t.newbalanceDest == t.oldbalanceDest + 2.0 * t.amount
    ensures d.pattern == AccountEmptying ==>
              && t.kind == CashOut
              && t.amount == t.oldbalanceOrg && t.newbalanceOrig == 0.0
              && t.newbalanceDest == t.oldbalanceDest
    ensures d.pattern == LargeTransfer ==> t.kind == Transfer && 50000.0 <= t.amount <= 200000.0
    ensures d.pattern in {LargeTransfer, MultipleRecipients, UnusualMerchant} ==>
              && NearlyMoves(Balances(t.oldbalanceOrg, t.newbalanceOrig), t.amount, true)
              && NearlyMoves(Balances(t.oldbalanceDest, t.newbalanceDest), t.amount, false)
    ensures d.pattern == MultipleRecipients ==>
              t.kind == Transfer && t.nameDest == AccountName('M', d.muleNumber) && t.amount <= 2000.0
    ensures d.pattern == UnusualMerchant ==>
              t.kind == Payment && t.nameDest == SuspiciousMerchant && t.oldbalanceDest >= 100000.0
  {
    var m := PatternMove(d);
    Transaction(
      step, m.kind, m.amount,
      m.nameOrig, m.sender.before, m.sender.after,
      m.nameDest, m.recipient.before, m.recipient.after,
      true, m.amount > FlagThreshold)
  }

  // ---------------------------------------------------------------------------
  // The data set
  // ---------------------------------------------------------------------------

  /** `num_fraud = int(num_transactions * fraud_ratio)`: truncation toward zero, no validation of either argument. */
  function NumFraud(n: int, ratio: real): int
  {
    Trunc(n as real * ratio)
  }

  function NumNormal(n: int, ratio: real): int
  {
    n - NumFraud(n, ratio)
  }

  /** How many elements `range(lo, hi)` yields. */
  function RangeLength(lo: int, hi: int): nat
  {
    MaxInt(0, hi - lo) as nat
  }

  function IsFraudRecord(t: Transaction): bool
  {
    t.isFraud
  }

  function StepOf(t: Transaction): int
  {
    t.step
  }

  /** Legitimate records numbered `first`, `first + 1`, ... one per draw. */
  function NormalRecords(first: int, draws: seq<NormalDraw>): (r: seq<Transaction>)
    requires forall i :: 0 <= i < |draws| ==> ValidNormalDraw(draws[i])
    ensures |r| == |draws|
    ensures forall i :: 0 <= i < |r| ==> r[i].step == first + i && !r[i].isFraud
    decreases |draws|
  {
    if draws == [] then []
    else [NormalTransaction(first, draws[0])] + NormalRecords(first + 1, draws[1..])
  }

  /** Fraudulent records numbered `first`, `first + 1`, ... one per draw. */
  function FraudRecords(first: int, draws: seq<FraudDraw>): (r: seq<Transaction>)
    requires forall i :: 0 <= i < |draws| ==> ValidFraudDraw(draws[i])
    ensures |r| == |draws|
    ensures forall i :: 0 <= i < |r| ==> r[i].step == first + i && r[i].isFraud
    decreases |draws|
  {
    if draws == [] then []
    else [FraudulentTransaction(first, draws[0])] + FraudRecords(first + 1, draws[1..])
  }

  /** The draws behind a whole data set: one per record and one swap per position for the shuffle. */
  predicate ValidDatasetDraws(n: int, ratio: real, normals: seq<NormalDraw>, frauds: seq<FraudDraw>, swaps: seq<nat>)
  {
    && |normals| == RangeLength(1, NumNormal(n, ratio) + 1)
    && |frauds| == RangeLength(NumNormal(n, ratio) + 1, n + 1)
    && (forall i :: 0 <= i < |normals| ==> ValidNormalDraw(normals[i]))
    && (forall i :: 0 <= i < |frauds| ==> ValidFraudDraw(frauds[i]))
    && ValidSwaps(swaps, |normals| + |frauds|)
  }

  /** The records before shuffling: legitimate ones numbered from 1, then fraudulent ones up to `n`. */
  function OrderedDataset(n: int, ratio: real, normals: seq<NormalDraw>, frauds: seq<FraudDraw>, swaps: seq<nat>): (r: seq<Transaction>)
    requires ValidDatasetDraws(n, ratio, normals, frauds, swaps)
    ensures |r| == |normals| + |frauds|
    ensures forall i :: 0 <= i < |r| ==> r[i].step == (if i < |normals| then 1 + i else NumNormal(n, ratio) + 1 + (i - |normals|))
    ensures forall i :: 0 <= i < |r| ==> (r[i].isFraud <==> i >= |normals|)
  {
    NormalRecords(1, normals) + FraudRecords(NumNormal(n, ratio) + 1, frauds)
  }

  /** Legitimate records carry steps `1 .. numNormal`, fraudulent ones `numNormal + 1 .. n`. */
  predicate WellNumbered(t: Transaction, numNormal: int, n: int)
  {
    if t.isFraud then numNormal < t.step <= n else 1 <= t.step <= numNormal
  }

  /**
    `generate_test_dataset(n, ratio)` without the CSV write: the shuffled
    records. Whatever the arguments, exactly `num_fraud` of them (or none, if
    that is negative) are fraudulent, steps are distinct, and a record is
    fraudulent exactly when its step is above `num_normal`.
   */
  function GenerateTestDataset(n: int, ratio: real, normals: seq<NormalDraw>, frauds: seq<FraudDraw>, swaps: seq<nat>): (r: seq<Transaction>)
    requires ValidDatasetDraws(n, ratio, normals, frauds, swaps)
    ensures |r| == RangeLength(1, NumNormal(n, ratio) + 1) + RangeLength(NumNormal(n, ratio) + 1, n + 1)
    ensures Count(r, IsFraudRecord) == RangeLength(NumNormal(n, ratio) + 1, n + 1)
    ensures DistinctBy(r, StepOf)
    ensures forall i :: 0 <= i < |r| ==> WellNumbered(r[i], NumNormal(n, ratio), n)
  {
    var ordered := OrderedDataset(n, ratio, normals, frauds, swaps);
    OrderedCount(n, ratio, normals, frauds, swaps);
    ShuffleCount(ordered, swaps, IsFraudRecord);
    OrderedDistinct(n, ratio, normals, frauds, swaps);
    ShuffleDistinct(ordered, swaps, StepOf);
    OrderedNumbered(n, ratio, normals, frauds, swaps);
    var numNormal := NumNormal(n, ratio);
    PermutationAll(Shuffle(ordered, swaps), ordered, (t: Transaction) => WellNumbered(t, numNormal, n));
    Shuffle(ordered, swaps)
  }

  lemma OrderedNumbered(n: int, ratio: real, normals: seq<NormalDraw>, frauds: seq<FraudDraw>, swaps: seq<nat>)
    requires ValidDatasetDraws(n, ratio, normals, frauds, swaps)
    ensures forall i :: 0 <= i < |normals| + |frauds| ==>
              WellNumbered(OrderedDataset(n, ratio, normals, frauds, swaps)[i], NumNormal(n, ratio), n)
  {
    var r := OrderedDataset(n, ratio, normals, frauds, swaps);
    var numNormal := NumNormal(n, ratio);
    forall i | 0 <= i < |r|
      ensures WellNumbered(r[i], numNormal, n)
    {
      if i < |normals| {
        assert r[i].step == 1 + i && !r[i].isFraud;
      } else {
        assert r[i].step == numNormal + 1 + (i - |normals|) && r[i].isFraud;
      }
    }
  }

  lemma OrderedCount(n: int, ratio: real, normals: seq<NormalDraw>, frauds: seq<FraudDraw>, swaps: seq<nat>)
    requires ValidDatasetDraws(n, ratio, normals, frauds, swaps)
    ensures Count(OrderedDataset(n, ratio, normals, frauds, swaps), IsFraudRecord) == |frauds|
  {
    var a := NormalRecords(1, normals);
    var b := FraudRecords(NumNormal(n, ratio) + 1, frauds);
    CountAppend(a, b, IsFraudRecord);
    CountUniform(a, IsFraudRecord, false);
    CountUniform(b, IsFraudRecord, true);
  }

  lemma OrderedDistinct(n: int, ratio: real, normals: seq<NormalDraw>, frauds: seq<FraudDraw>, swaps: seq<nat>)
    requires ValidDatasetDraws(n, ratio, normals, frauds, swaps)
    ensures DistinctBy(OrderedDataset(n, ratio, normals, frauds, swaps), StepOf)
  {
  }

  /** For `0 <= ratio <= 1`, `num_fraud` lies in `[0, n]`. */
  lemma NumFraudBounds(n: int, ratio: real)
    requires 0 <= n && 0.0 <= ratio <= 1.0
    ensures 0 <= NumFraud(n, ratio) <= n
  {
    assert 0.0 <= n as real * ratio <= n as real * 1.0;
  }

  /** Some record carries step `s`. */
  ghost predicate HasStep(r: seq<Transaction>, s: int)
  {
    exists i :: 0 <= i < |r| && r[i].step == s
  }

  /** For `0 <= ratio <= 1` there are `n` records, `num_fraud` of them fraudulent, and the steps are exactly `1 .. n`, each once. */
  lemma DatasetSteps(n: int, ratio: real, normals: seq<NormalDraw>, frauds: seq<FraudDraw>, swaps: seq<nat>)
    requires 0 <= n && 0.0 <= ratio <= 1.0
    requires ValidDatasetDraws(n, ratio, normals, frauds, swaps)
    ensures |GenerateTestDataset(n, ratio, normals, frauds, swaps)| == n
    ensures Count(GenerateTestDataset(n, ratio, normals, frauds, swaps), IsFraudRecord) == NumFraud(n, ratio)
    ensures forall s :: 1 <= s <= n ==> HasStep(GenerateTestDataset(n, ratio, normals, frauds, swaps), s)
  {
    NumFraudBounds(n, ratio);
    var r := GenerateTestDataset(n, ratio, normals, frauds, swaps);
    var ordered := OrderedDataset(n, ratio, normals, frauds, swaps);
    assert r == Shuffle(ordered, swaps);
    forall s | 1 <= s <= n
      ensures HasStep(r, s)
    {
      assert ordered[s - 1].step == s;
      PermutationMembers(ordered, r, s - 1);
    }
  }

  /** The default call: 1000 records at ratio 0.05 give 950 legitimate and 50 fraudulent ones. */
  lemma DefaultDatasetSplit()
    ensures NumFraud(1000, 0.05) == 50 && NumNormal(1000, 0.05) == 950
  {
  }

  /** The ratio is not validated: 100 records at ratio 1.5 give 150 fraudulent records and no legitimate one. */
  lemma OverfullRatio(normals: seq<NormalDraw>, frauds: seq<FraudDraw>, swaps: seq<nat>)
    requires ValidDatasetDraws(100, 1.5, normals, frauds, swaps)
    ensures |normals| == 0 && |frauds| == 150
    ensures |GenerateTestDataset(100, 1.5, normals, frauds, swaps)| == 150
  {
    assert NumFraud(100, 1.5) == 150;
  }
}
