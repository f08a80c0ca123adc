/**
  The record builder shared by the bulk generator (`generate_transaction_chunk`)
  and the sample generator (`generate_sample_transactions`): sixteen columns of
  random values, then a second pass that overwrites every fraud score so that
  it agrees with the record's fraud label.
 */
module BulkRecords {
  import opened Numeric
  import opened Outcomes
  import opened Accounts
  import opened Transactions
  import opened Scoring
  import SeedData

  /** The frame's columns, in order; the bulk and the sample CSV files have this header. */
  const Columns: seq<string> := [
    "Timestamp", "Transaction ID", "Bank", "type", "Amount",
    "nameOrig", "oldbalanceOrg", "newbalanceOrig", "nameDest", "oldbalanceDest", "newbalanceDest",
    "isFraud", "isFlaggedFraud", "Fraud Score", "Verification", "ZK Proof"]

  /** `verification_statuses`. */
  const Statuses: seq<string> := ["Verified", "Pending", "Failed"]

  /** Weights of `random.choices([0, 1], weights=[...])` for the two label columns. */
  const FraudWeight: real := 0.003
  const FlagWeight: real := 0.001

  /** Alignment ranges of the second pass. */
  const FraudScoreLow: real := 0.7
  const FraudScoreHigh: real := 0.99
  const LegitScoreLow: real := 0.01
  const LegitScoreHigh: real := 0.3

  /** Amount range of `random.uniform(10.0, 100000.0)`. */
  const AmountLow: real := 10.0
  const AmountHigh: real := 100000.0

  /** Upper end of the balance draws `random.uniform(0, 1000000.0)`. */
  const BalanceHigh: real := 1000000.0

  /** Largest look-back, in minutes, of `now - timedelta(days=90, hours=23, minutes=59)`. */
  const MaxOffsetMinutes: nat := 90 * 1440 + 23 * 60 + 59

  predicate IsHexDigit(c: char)
  {
    '0' <= c <= '9' || 'a' <= c <= 'f'
  }

  /**
    `random.choices([0, 1], weights=[w0, w1])[0]`: CPython scales the unit
    draw by the total weight and bisects the cumulative weights, so the result
    is 1 exactly when the scaled draw reaches `w0`.
   */
  function WeightedBit(u: real, w0: real, w1: real): (b: int)
    requires IsHalfOpenUnit(u) && 0.0 < w0 && 0.0 < w1
    ensures b == 0 || b == 1
  {
    if u * (w0 + w1) < w0 then 0 else 1
  }

  /**
    The random values drawn for one record. The clock and `uuid.uuid4()` are
    parameters: `txId` is the identifier string and `zkHex` the first sixteen
    hex digits of another identifier.
   */
  datatype RecordDraw = RecordDraw(
    days: int, hours: int, minutes: int,
    txId: string,
    bank: string,
    kind: TxType,
    amountU: real,
    origNumber: nat, oldOrigU: real, newOrigU: real,
    destNumber: nat, oldDestU: real, newDestU: real,
    fraudU: real, flagU: real,
    scoreU: real,
    verification: string,
    zkHex: string)

  predicate ValidRecordDraw(d: RecordDraw)
  {
    && 0 <= d.days <= 90 && 0 <= d.hours <= 23 && 0 <= d.minutes <= 59
    && d.bank in SeedData.Banks
    && IsUnit(d.amountU)
    && SevenDigitLow <= d.origNumber <= SevenDigitHigh
    && SevenDigitLow <= d.destNumber <= SevenDigitHigh
    && IsUnit(d.oldOrigU) && IsUnit(d.newOrigU) && IsUnit(d.oldDestU) && IsUnit(d.newDestU)
    && IsHalfOpenUnit(d.fraudU) && IsHalfOpenUnit(d.flagU)
    && IsUnit(d.scoreU)
    && d.verification in Statuses
    && |d.zkHex| == 16 && (forall i :: 0 <= i < 16 ==> IsHexDigit(d.zkHex[i]))
  }

  /** One row of the generated frame; the timestamp is kept as minutes before the clock reading. */
  datatype Record = Record(
    offsetMinutes: int,
    txId: string,
    bank: string,
    kind: TxType,
    amount: real,
    nameOrig: string, oldbalanceOrg: real, newbalanceOrig: real,
    nameDest: string, oldbalanceDest: real, newbalanceDest: real,
    isFraud: int, isFlaggedFraud: int,
    fraudScore: real,
    verification: string,
    zkProof: string)

  /** A balance column value: `round(random.uniform(0, 1000000.0), 2)`. */
  function Balance(u: real): (b: real)
    requires IsUnit(u)
    ensures 0.0 <= b <= BalanceHigh && IsCents(b)
  {
    RoundCentsWithin(Uniform(0.0, BalanceHigh, u), 0.0, BalanceHigh);
    RoundCents(Uniform(0.0, BalanceHigh, u))
  }

  /**
    The record as the first pass builds it: independent columns, with a fraud
    score drawn from `[0, 1]` regardless of the label. The balance columns are
    drawn independently of the amount, so no conservation holds between them.
   */
  function FirstPassRecord(d: RecordDraw): (r: Record)
    requires ValidRecordDraw(d)
    ensures 0 <= r.offsetMinutes <= MaxOffsetMinutes
    ensures AmountLow <= r.amount <= AmountHigh && IsCents(r.amount)
    ensures ParseAccount(r.nameOrig) == Some(('C', d.origNumber)) && |r.nameOrig| == 8
    ensures ParseAccount(r.nameDest) == Some(('C', d.destNumber)) && |r.nameDest| == 8
    ensures r.isFraud == 1 <==> d.fraudU >= 1.0 - FraudWeight
    ensures r.isFraud == 0 || r.isFraud == 1
    ensures r.isFlaggedFraud == 1 <==> d.flagU >= 1.0 - FlagWeight
    ensures r.isFlaggedFraud == 0 || r.isFlaggedFraud == 1
    ensures 0.0 <= r.fraudScore <= 1.0
    ensures |r.zkProof| == 19 && r.zkProof[0] == 'z' && r.zkProof[1] == 'k' && r.zkProof[2] == '_'
    ensures r.zkProof[3..] == d.zkHex
  {
    RoundCentsWithin(Uniform(AmountLow, AmountHigh, d.amountU), AmountLow, AmountHigh);
    RoundScoreWithin(Uniform(0.0, 1.0, d.scoreU), 0.0, 1.0);
    Record(
      d.days * 1440 + d.hours * 60 + d.minutes,
      d.txId,
      d.bank,
      d.kind,
      RoundCents(Uniform(AmountLow, AmountHigh, d.amountU)),
      SevenDigitCustomer(d.origNumber), Balance(d.oldOrigU), Balance(d.newOrigU),
      SevenDigitCustomer(d.destNumber), Balance(d.oldDestU), Balance(d.newDestU),
      WeightedBit(d.fraudU, 1.0 - FraudWeight, FraudWeight),
      WeightedBit(d.flagU, 1.0 - FlagWeight, FlagWeight),
      RoundScore(Uniform(0.0, 1.0, d.scoreU)),
      d.verification,
      "zk_" + d.zkHex)
  }

  /**
    The second pass's score for one record: `round(uniform(0.7, 0.99), 4)` when
    `isFraud == 1`, otherwise `round(uniform(0.01, 0.3), 4)`.
   */
  function AlignedScore(isFraud: int, u: real): (s: real)
    requires IsUnit(u)
    ensures isFraud == 1 ==> FraudScoreLow <= s <= FraudScoreHigh
    ensures isFraud != 1 ==> LegitScoreLow <= s <= LegitScoreHigh
    ensures IsFourDecimals(s)
  {
    if isFraud == 1 then
      RoundScoreWithin(Uniform(FraudScoreLow, FraudScoreHigh, u), FraudScoreLow, FraudScoreHigh);
      RoundScore(Uniform(FraudScoreLow, FraudScoreHigh, u))
    else
      RoundScoreWithin(Uniform(LegitScoreLow, LegitScoreHigh, u), LegitScoreLow, LegitScoreHigh);
      RoundScore(Uniform(LegitScoreLow, LegitScoreHigh, u))
  }

  /** Every score agrees with its label: within the fraud range for `isFraud == 1`, within the legitimate range otherwise. */
  ghost predicate Aligned(rows: seq<Record>)
  {
    forall i :: 0 <= i < |rows| ==>
      if rows[i].isFraud == 1 then FraudScoreLow <= rows[i].fraudScore <= FraudScoreHigh
      else LegitScoreLow <= rows[i].fraudScore <= LegitScoreHigh
  }

  /**
    The loop `for i in range(n)` that overwrites `Fraud Score[i]` from the
    label, with the unit draws `us`: only the score column changes, and
    afterwards every score agrees with its label.
   */
  method AlignScores(rows: seq<Record>, us: seq<real>) returns (out: seq<Record>)
    requires |us| == |rows|
    requires forall i :: 0 <= i < |us| ==> IsUnit(us[i])
    ensures |out| == |rows|
    ensures forall i :: 0 <= i < |rows| ==> out[i] == rows[i].(fraudScore := AlignedScore(rows[i].isFraud, us[i]))
    ensures Aligned(out)
  {
    out := rows;
    var i := 0;
    while i < |rows|
      invariant 0 <= i <= |rows|
      invariant |out| == |rows|
      invariant forall k :: 0 <= k < i ==> out[k] == rows[k].(fraudScore := AlignedScore(rows[k].isFraud, us[k]))
      invariant forall k :: i <= k < |rows| ==> out[k] == rows[k]
      invariant Aligned(out[..i])
    {
      var score := AlignedScore(out[i].isFraud, us[i]);
      out := out[i := out[i].(fraudScore := score)];
      i := i + 1;
    }
    assert out[..i] == out;
  }

  /**
    `generate_transaction_chunk(chunk_size, start_idx)` and the frame of
    `generate_sample_transactions(num_records)`: one first-pass record per draw,
    `max(0, size)` of them, then the alignment pass with the draws `us`.
   */
  method GenerateRecords(size: int, draws: seq<RecordDraw>, us: seq<real>) returns (rows: seq<Record>)
    requires |draws| == MaxInt(0, size) && |us| == |draws|
    requires forall i :: 0 <= i < |draws| ==> ValidRecordDraw(draws[i])
    requires forall i :: 0 <= i < |us| ==> IsUnit(us[i])
    ensures |rows| == MaxInt(0, size)
    ensures forall i :: 0 <= i < |rows| ==> rows[i] == FirstPassRecord(draws[i]).(fraudScore := rows[i].fraudScore)
    ensures forall i :: 0 <= i < |rows| ==> rows[i].fraudScore == AlignedScore(rows[i].isFraud, us[i])
    ensures Aligned(rows)
  {
    var first: seq<Record> := [];
    var i := 0;
    while i < |draws|
      invariant 0 <= i <= |draws|
      invariant |first| == i
      invariant forall k :: 0 <= k < i ==> first[k] == FirstPassRecord(draws[k])
    {
      first := first + [FirstPassRecord(draws[i])];
      i := i + 1;
    }
    rows := AlignScores(first, us);
  }

  /**
    After alignment the label can be read back from the score alone: a record
    is fraudulent exactly when its score is at least 0.7.
   */
  lemma LabelFromScore(rows: seq<Record>, i: nat)
    requires Aligned(rows) && i < |rows|
    ensures rows[i].isFraud == 1 <==> rows[i].fraudScore >= FraudScoreLow
  {
  }

  /**
    The audit mapping applied to an aligned score: every legitimate record is
    auto-approved, and a fraudulent one is declined unless its score is
    exactly 0.7, which the strict threshold sends to OTP verification.
   */
  lemma AlignedVerification(isFraud: int, u: real)
    requires IsUnit(u)
    ensures isFraud != 1 ==> AuditVerification(AlignedScore(isFraud, u)) == AutoApproved
    ensures isFraud == 1 ==> AuditVerification(AlignedScore(isFraud, u)) != AutoApproved
    ensures isFraud == 1 ==> (AuditVerification(AlignedScore(isFraud, u)) == Declined <==> AlignedScore(isFraud, u) != FraudScoreLow)
  {
  }

  /** The lowest fraud draw is scored exactly 0.7 and so is not declined. */
  lemma BoundaryFraudNotDeclined()
    ensures AlignedScore(1, 0.0) == FraudScoreLow
    ensures AuditVerification(AlignedScore(1, 0.0)) == OtpVerified
  {
    RoundScoreExact(FraudScoreLow);
  }

  /** The two label columns are each 1 for exactly the top share of the unit draw given by their weight. */
  lemma LabelShares(u: real)
    requires IsHalfOpenUnit(u)
    ensures WeightedBit(u, 1.0 - FraudWeight, FraudWeight) == 1 <==> u >= 0.997
    ensures WeightedBit(u, 1.0 - FlagWeight, FlagWeight) == 1 <==> u >= 0.999
  {
  }
}
