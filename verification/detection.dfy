/**
  What the dashboard's rules make of the labelled test data: which generated
  records its balance-anomaly checks catch, and how its fallback heuristic
  scores them.
 */
module Detection {
  import opened Numeric
  import opened Transactions
  import opened TestData
  import opened Scoring

  /** Either side of the form shows a balance anomaly. */
  predicate AnyAnomaly(f: FormInput)
  {
    SenderAnomaly(f) || RecipientAnomaly(f)
  }

  /**
    A legitimate generated record trips the anomaly check exactly when it is
    a debit or a cash-in: the generator moves the sender's balance for those
    types, while the check expects no change.
   */
  lemma NormalRecordAnomaly(step: int, d: NormalDraw)
    requires ValidNormalDraw(d)
    ensures AnyAnomaly(FormOf(NormalTransaction(step, d))) <==> d.kind == Debit || d.kind == CashIn
    ensures !RecipientAnomaly(FormOf(NormalTransaction(step, d)))
  {
    var t := NormalTransaction(step, d);
    var f := FormOf(t);
    if d.kind == Debit || d.kind == CashIn {
      assert ExpectedSenderChange(f) == 0.0;
      assert Abs(f.oldOrig - f.newOrig) == t.amount;
    } else {
      assert ExpectedSenderChange(f) == t.amount;
    }
  }

  /** A fraudulent generated record trips the anomaly check exactly when it follows the balance-mismatch pattern. */
  lemma FraudRecordAnomaly(step: int, d: FraudDraw)
    requires ValidFraudDraw(d)
    ensures AnyAnomaly(FormOf(FraudulentTransaction(step, d))) <==> d.pattern == BalanceMismatch
  {
    var t := FraudulentTransaction(step, d);
    var f := FormOf(t);
    match d.pattern
    case BalanceMismatch =>
      assert SenderAnomaly(f);
    case AccountEmptying =>
      assert ExpectedSenderChange(f) == t.amount && ExpectedRecipientChange(f) == 0.0;
    case _ =>
      assert ExpectedSenderChange(f) == t.amount && ExpectedRecipientChange(f) == t.amount;
  }

  /** The fallback heuristic never declines a legitimate generated record. */
  lemma FallbackPassesNormal(step: int, d: NormalDraw)
    requires ValidNormalDraw(d)
    ensures !Prediction(FallbackScore(FormOf(NormalTransaction(step, d))))
  {
    NormalRecordAnomaly(step, d);
  }

  /**
    Nor does it decline any fraudulent one: only balance-mismatch records show
    an anomaly, and their amounts (at most 10000) and type keep the score at
    or below 0.5.
   */
  lemma FallbackMissesFraud(step: int, d: FraudDraw)
    requires ValidFraudDraw(d)
    ensures !Prediction(FallbackScore(FormOf(FraudulentTransaction(step, d))))
  {
    FraudRecordAnomaly(step, d);
  }
}
