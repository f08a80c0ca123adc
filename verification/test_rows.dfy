/**
  The dashboard test's sample data set: 100 rows built like legitimate
  PaySim records, about 5% of them labelled fraud and given anomalous
  balances: the sender's balance left unchanged, the recipient credited
  twice the amount, or both.
 */
module TestRows {
  import opened Numeric
  import opened Accounts
  import opened Transactions
  import opened Scoring

  /** The number of rows the test builds. */
  const TestRowCount: nat := 100

  /** The ten columns of the test frame (no `isFlaggedFraud`). */
  datatype TestRow = TestRow(
    step: int,
    kind: TxType,
    amount: real,
    nameOrig: string,
    oldbalanceOrg: real,
    newbalanceOrig: real,
    nameDest: string,
    oldbalanceDest: real,
    newbalanceDest: real,
    isFraud: bool)

  datatype RowDraw = RowDraw(
    step: int,
    kind: TxType,
    amountU: real,
    origNumber: nat,
    destNumber: nat,
    oldOrigU: real,
    oldDestU: real,
    fraudU: real,
    keepSenderU: real,
    doubleCreditU: real)

  predicate ValidRowDraw(d: RowDraw)
  {
    && 1 <= d.step <= 10
    && IsUnit(d.amountU) && IsUnit(d.oldOrigU) && IsUnit(d.oldDestU)
    && IsHalfOpenUnit(d.fraudU) && IsHalfOpenUnit(d.keepSenderU) && IsHalfOpenUnit(d.doubleCreditU)
    && TenDigitLow <= d.origNumber <= TenDigitHigh
    && TenDigitLow <= d.destNumber <= TenDigitHigh
  }

  /**
    The row before any anomaly: the sender is debited the amount (credited
    for a cash-in) and the recipient credited it for a transfer or payment.
    Every recipient carries a merchant name, whatever the type.
   */
  function PlainRow(d: RowDraw): (row: TestRow)
    requires ValidRowDraw(d)
    ensures row.step == d.step && row.kind == d.kind
    ensures 10.0 <= row.amount <= 10000.0
    ensures 1000.0 <= row.oldbalanceOrg <= 100000.0 && 1000.0 <= row.oldbalanceDest <= 100000.0
    ensures row.newbalanceOrig == (if d.kind == CashIn then row.oldbalanceOrg + row.amount else row.oldbalanceOrg - row.amount)
    ensures row.newbalanceDest == (if CreditsRecipient(d.kind) then row.oldbalanceDest + row.amount else row.oldbalanceDest)
    ensures IsCustomer(row.nameOrig) && IsMerchant(row.nameDest)
    ensures !row.isFraud
  {
    var amount := Uniform(10.0, 10000.0, d.amountU);
    var oldOrig := Uniform(1000.0, 100000.0, d.oldOrigU);
    var oldDest := Uniform(1000.0, 100000.0, d.oldDestU);
    TestRow(
      d.step, d.kind, amount,
      AccountName('C', d.origNumber), oldOrig, if d.kind != CashIn then oldOrig - amount else oldOrig + amount,
      AccountName('M', d.destNumber), oldDest, if CreditsRecipient(d.kind) then oldDest + amount else oldDest,
      false)
  }

  /**
    The anomalies of a fraud row: with probability 0.7 the sender's balance
    is reset to its old value, and with probability 0.5 the recipient is
    credited twice the amount. Nothing else changes.
   */
  function InjectAnomalies(row: TestRow, keepSenderU: real, doubleCreditU: real): (r: TestRow)
    ensures r == row.(newbalanceOrig := r.newbalanceOrig, newbalanceDest := r.newbalanceDest)
    ensures r.newbalanceOrig == (if keepSenderU < 0.7 then row.oldbalanceOrg else row.newbalanceOrig)
    ensures r.newbalanceDest == (if doubleCreditU < 0.5 then row.oldbalanceDest + 2.0 * row.amount else row.newbalanceDest)
  {
    var sender := if keepSenderU < 0.7 then row.oldbalanceOrg else row.newbalanceOrig;
    var recipient := if doubleCreditU < 0.5 then row.oldbalanceDest + row.amount * 2.0 else row.newbalanceDest;
    row.(newbalanceOrig := sender, newbalanceDest := recipient)
  }

  /** One test row: fraud with probability 0.05, and then anomalous. */
  function TestRowOf(d: RowDraw): (row: TestRow)
    requires ValidRowDraw(d)
    ensures row.isFraud <==> d.fraudU < 0.05
    ensures !row.isFraud ==> row == PlainRow(d)
    ensures row.isFraud ==> row == InjectAnomalies(PlainRow(d), d.keepSenderU, d.doubleCreditU).(isFraud := true)
  {
    var plain := PlainRow(d);
    if d.fraudU < 0.05 then InjectAnomalies(plain.(isFraud := true), d.keepSenderU, d.doubleCreditU)
    else plain
  }

  /** The test frame: one row per draw. */
  function TestRows(draws: seq<RowDraw>): (rows: seq<TestRow>)
    requires forall i :: 0 <= i < |draws| ==> ValidRowDraw(draws[i])
    ensures |rows| == |draws|
    ensures forall i :: 0 <= i < |rows| ==> rows[i] == TestRowOf(draws[i])
  {
    if draws == [] then [] else [TestRowOf(draws[0])] + TestRows(draws[1..])
  }

  /** With the test's 100 draws: 100 rows, steps between 1 and 10, every sender a customer and every recipient a merchant. */
  lemma TestFrameShape(draws: seq<RowDraw>)
    requires |draws| == TestRowCount
    requires forall i :: 0 <= i < |draws| ==> ValidRowDraw(draws[i])
    ensures |TestRows(draws)| == 100
    ensures forall i :: 0 <= i < 100 ==>
              && 1 <= TestRows(draws)[i].step <= 10
              && IsCustomer(TestRows(draws)[i].nameOrig) && IsMerchant(TestRows(draws)[i].nameDest)
  {
    var rows := TestRows(draws);
    forall i | 0 <= i < 100
      ensures 1 <= rows[i].step <= 10 && IsCustomer(rows[i].nameOrig) && IsMerchant(rows[i].nameDest)
    {
      assert rows[i] == TestRowOf(draws[i]);
    }
  }

  /** The form the dashboard would score for a test row. */
  function RowForm(row: TestRow): (f: FormInput)
    ensures f.amount == row.amount && f.kind == TypeName(row.kind)
  {
    FormInput(TypeName(row.kind), row.amount, row.oldbalanceOrg, row.newbalanceOrig, row.oldbalanceDest, row.newbalanceDest)
  }

  /**
    What the sender check sees in a test row: an anomaly exactly when the row
    is a debit or cash-in (which the builder moves but the check expects
    unmoved) or when the fraud injection reset the sender's balance, but not
    both, since a reset debit or cash-in looks unmoved and so passes.
   */
  lemma SenderAnomalyOfRow(d: RowDraw)
    requires ValidRowDraw(d)
    ensures SenderAnomaly(RowForm(TestRowOf(d))) <==>
              ((d.kind == Debit || d.kind == CashIn) != (d.fraudU < 0.05 && d.keepSenderU < 0.7))
  {
    var row := TestRowOf(d);
    var f := RowForm(row);
    var reset := d.fraudU < 0.05 && d.keepSenderU < 0.7;
    if reset {
      assert row.newbalanceOrig == row.oldbalanceOrg;
    } else {
      assert Abs(f.oldOrig - f.newOrig) == row.amount;
    }
    if d.kind == Debit || d.kind == CashIn {
      assert ExpectedSenderChange(f) == 0.0;
    } else {
      assert ExpectedSenderChange(f) == row.amount;
    }
  }

  /** The recipient check flags a test row exactly when the fraud injection doubled the credit. */
  lemma RecipientAnomalyOfRow(d: RowDraw)
    requires ValidRowDraw(d)
    ensures RecipientAnomaly(RowForm(TestRowOf(d))) <==> d.fraudU < 0.05 && d.doubleCreditU < 0.5
  {
    var row := TestRowOf(d);
    var f := RowForm(row);
    if CreditsRecipient(d.kind) {
      assert ExpectedRecipientChange(f) == row.amount;
    } else {
      assert ExpectedRecipientChange(f) == 0.0;
    }
  }
}
