/**
  The scoring and classification rules of the fraud-detection dashboard: the
  score-to-verification mapping of the audit log, the balance-anomaly checks
  and the two weighted-sum heuristics of the transaction forms, the
  three-way result status with its risk colour, and the simulated confusion
  matrix.

  All thresholds are shared: a score above 0.7 is fraud ("Declined"), one
  above 0.3 needs a second factor ("OTP Verified"), anything else passes.
 */
module Scoring {
  import opened Numeric
  import opened Transactions
  import opened Outcomes

  const FraudThreshold: real := 0.7
  const SuspicionThreshold: real := 0.3

  // ---------------------------------------------------------------------------
  // Verification status of the audit log
  // ---------------------------------------------------------------------------

  datatype Verification = Declined | OtpVerified | AutoApproved

  function VerificationLabel(v: Verification): string
  {
    match v
    case Declined => "Declined"
    case OtpVerified => "OTP Verified"
    case AutoApproved => "Auto-Approved"
  }

  /** How strict a verification outcome is; higher is stricter. */
  function Severity(v: Verification): nat
  {
    match v
    case AutoApproved => 0
    case OtpVerified => 1
    case Declined => 2
  }

  /** The mapping used for generated audit-log entries: total and exclusive over all scores. */
  function AuditVerification(score: real): (v: Verification)
    ensures v == Declined <==> score > FraudThreshold
    ensures v == OtpVerified <==> SuspicionThreshold < score <= FraudThreshold
    ensures v == AutoApproved <==> score <= SuspicionThreshold
  {
    if score > FraudThreshold then Declined
    else if score > SuspicionThreshold then OtpVerified
    else AutoApproved
  }

  /** A higher score never gets a more lenient verification. */
  lemma AuditVerificationMonotone(s: real, t: real)
    requires s <= t
    ensures Severity(AuditVerification(s)) <= Severity(AuditVerification(t))
  {
  }

  /** The labels are distinct, so the written column determines the outcome. */
  lemma VerificationLabelInjective(v: Verification, w: Verification)
    requires VerificationLabel(v) == VerificationLabel(w)
    ensures v == w
  {
    assert VerificationLabel(v)[0] == VerificationLabel(w)[0];
    if v == Declined || w == Declined {
      assert VerificationLabel(v)[1] == VerificationLabel(w)[1];
    }
  }

  /** `fraud_prediction = 1 if fraud_probability > 0.7 else 0`, used by both transaction forms. */
  predicate Prediction(p: real)
  {
    p > FraudThreshold
  }

  /**
    The verification written to the audit log for an interactively scored
    transaction: declined when the prediction is fraud, otherwise decided by
    the score alone.
   */
  function LoggedVerification(prediction: bool, p: real): (v: Verification)
    ensures prediction ==> v == Declined
    ensures !prediction ==> v == (if p > SuspicionThreshold then OtpVerified else AutoApproved)
  {
    if prediction then Declined else if p > SuspicionThreshold then OtpVerified else AutoApproved
  }

  /** Logging a scored transaction agrees with the audit-log mapping for every score. */
  lemma LoggedMatchesAudit(p: real)
    ensures LoggedVerification(Prediction(p), p) == AuditVerification(p)
    ensures LoggedVerification(Prediction(p), p) == Declined <==> Prediction(p)
  {
  }

  /** The dashboard's own sample log marks a proof verified when its draw exceeds 0.05, as does the log of a scored transaction. */
  predicate DashboardZkVerified(r: real)
  {
    r > 0.05
  }

  // ---------------------------------------------------------------------------
  // Displayed status and risk colour
  // ---------------------------------------------------------------------------

  datatype Status = FraudDetected | Suspicious | Approved

  /** The badge of a scored transaction: fraud when predicted, suspicious above 0.3, approved otherwise. */
  function DisplayStatus(prediction: bool, p: real): (s: Status)
    ensures s == FraudDetected <==> prediction
    ensures s == Suspicious <==> !prediction && p > SuspicionThreshold
  {
    if prediction then FraudDetected else if p > SuspicionThreshold then Suspicious else Approved
  }

  datatype Colour = Red | Amber | Green

  function ColourCode(c: Colour): string
  {
    match c
    case Red => "#EF4444"
    case Amber => "#F59E0B"
    case Green => "#10B981"
  }

  /** The risk meter's colour, chosen from the score by the same two thresholds. */
  function RiskColour(p: real): (c: Colour)
    ensures c == Red <==> p > FraudThreshold
    ensures c == Green <==> p <= SuspicionThreshold
  {
    if p > FraudThreshold then Red else if p > SuspicionThreshold then Amber else Green
  }

  function StatusColour(s: Status): Colour
  {
    match s
    case FraudDetected => Red
    case Suspicious => Amber
    case Approved => Green
  }

  function StatusVerification(s: Status): Verification
  {
    match s
    case FraudDetected => Declined
    case Suspicious => OtpVerified
    case Approved => AutoApproved
  }

  /**
    For a predicted score, the badge, the colour and the logged verification
    all tell the same story, and the status is exactly one of three.
   */
  lemma StatusConsistent(p: real)
    ensures StatusColour(DisplayStatus(Prediction(p), p)) == RiskColour(p)
    ensures StatusVerification(DisplayStatus(Prediction(p), p)) == AuditVerification(p)
    ensures StatusVerification(DisplayStatus(Prediction(p), p)) == LoggedVerification(Prediction(p), p)
  {
  }

  // ---------------------------------------------------------------------------
  // Balance anomalies and the first heuristic
  // ---------------------------------------------------------------------------

  /** The values entered in a transaction form; `kind` is the raw type string. */
  datatype FormInput = FormInput(
    kind: string,
    amount: real,
    oldOrig: real,
    newOrig: real,
    oldDest: real,
    newDest: real)

  /** The form filled in from a transaction record. */
  function FormOf(t: Transaction): (f: FormInput)
    ensures ParseType(f.kind) == Some(t.kind)
  {
    ParseTypeName(t.kind, TypeName(t.kind));
    FormInput(TypeName(t.kind), t.amount, t.oldbalanceOrg, t.newbalanceOrig, t.oldbalanceDest, t.newbalanceDest)
  }

  /** The change the sender's balance is expected to show. */
  function ExpectedSenderChange(f: FormInput): (e: real)
    ensures e == (if f.kind == "TRANSFER" || f.kind == "PAYMENT" || f.kind == "CASH_OUT" then f.amount else 0.0)
  {
    if f.kind in ["TRANSFER", "PAYMENT", "CASH_OUT"] then f.amount else 0.0
  }

  function ExpectedRecipientChange(f: FormInput): (e: real)
    ensures e == (if f.kind == "TRANSFER" || f.kind == "PAYMENT" then f.amount else 0.0)
  {
    if f.kind in ["TRANSFER", "PAYMENT"] then f.amount else 0.0
  }

  /**
    The sender side is anomalous when the size of its change is off from the
    expected change by more than one unit. The size is taken with `abs`, so a
    credit and a debit of the same amount look alike.
   */
  predicate SenderAnomaly(f: FormInput)
  {
    Abs(Abs(f.oldOrig - f.newOrig) - ExpectedSenderChange(f)) > 1.0
  }

  /** The recipient side uses the signed change `new - old`: a debited recipient is off by the amount. */
  predicate RecipientAnomaly(f: FormInput)
  {
    Abs((f.newDest - f.oldDest) - ExpectedRecipientChange(f)) > 1.0
  }

  function BalanceFactor(f: FormInput): (b: real)
    ensures b == 0.0 || b == 1.0
    ensures b == 1.0 <==> SenderAnomaly(f) || RecipientAnomaly(f)
  {
    if SenderAnomaly(f) || RecipientAnomaly(f) then 1.0 else 0.0
  }

  /** `type_risk.get(transaction_type, 0.5)`. */
  function TypeFactor(kind: string): (r: real)
    ensures 0.1 <= r <= 0.7
    ensures ParseType(kind) == None ==> r == 0.5
  {
    if kind == "TRANSFER" then 0.4
    else if kind == "CASH_OUT" then 0.7
    else if kind == "DEBIT" then 0.3
    else if kind == "CASH_IN" then 0.2
    else if kind == "PAYMENT" then 0.1
    else 0.5
  }

  /** Only a cash-out carries a type risk above the 0.5 default. */
  lemma TypeFactorAboveDefault(kind: string)
    ensures TypeFactor(kind) > 0.5 <==> kind == "CASH_OUT"
  {
  }

  /**
    The first form's fallback score
    `0.4 * min(1, amount / 50000) + 0.3 * balance_factor + 0.3 * type_factor`.
    For a non-negative amount it lies in `[0.03, 0.91]`, and it can reach the
    fraud threshold only when a balance anomaly was seen.
   */
  function FallbackScore(f: FormInput): (p: real)
    ensures f.amount >= 0.0 ==> 0.03 <= p <= 0.91
    ensures Prediction(p) ==> f.amount > 0.0 && BalanceFactor(f) == 1.0
  {
    0.4 * Min(1.0, f.amount / 50000.0) + 0.3 * BalanceFactor(f) + 0.3 * TypeFactor(f.kind)
  }

  /** Where the first form's probability came from; the classifier itself is opaque. */
  datatype ScoreSource =
    | Classifier(p: real)          // `predict_proba`, the sigmoid of `decision_function`, or the neutral 0.5
    | LabelOnly(positive: bool, u: real)  // only `predict`: 0.8 or 0.2, plus `uniform(-0.1, 0.1)`
    | ModelFailed                  // any exception: the fallback heuristic

  predicate ValidSource(s: ScoreSource)
  {
    match s
    case Classifier(p) => 0.0 <= p <= 1.0
    case LabelOnly(_, u) => IsUnit(u)
    case ModelFailed => true
  }

  /** The first form's fraud probability. */
  function FormProbability(f: FormInput, source: ScoreSource): (p: real)
    requires ValidSource(source)
    ensures f.amount >= 0.0 ==> 0.0 <= p <= 1.0
    ensures source.LabelOnly? ==> (if source.positive then 0.7 <= p <= 0.9 else 0.1 <= p <= 0.3)
  {
    match source
    case Classifier(p) => p
    case LabelOnly(positive, u) => (if positive then 0.8 else 0.2) + Uniform(-0.1, 0.1, u)
    case ModelFailed => FallbackScore(f)
  }

  /**
    A model that only returns labels: a negative label is always
    auto-approved, and a positive one is declined unless the noise draw is
    exactly its lowest value, when the score lands on 0.7 and passes as
    merely suspicious.
   */
  lemma LabelOnlyOutcome(f: FormInput, positive: bool, u: real)
    requires IsUnit(u)
    ensures !positive ==> AuditVerification(FormProbability(f, LabelOnly(positive, u))) == AutoApproved
    ensures positive ==> (Prediction(FormProbability(f, LabelOnly(positive, u))) <==> u > 0.0)
  {
  }

  // ---------------------------------------------------------------------------
  // The second heuristic
  // ---------------------------------------------------------------------------

  /** `min(1, amount / 10000)`. */
  function AmountFactor(amount: real): (a: real)
    ensures a <= 1.0
    ensures amount >= 0.0 ==> 0.0 <= a
    ensures a == 1.0 <==> amount >= 10000.0
  {
    Min(1.0, amount / 10000.0)
  }

  /** `min(1, (|new_orig - old_orig| + |new_dest - old_dest|) / 50000)`. */
  function ChangeFactor(f: FormInput): (b: real)
    ensures 0.0 <= b <= 1.0
    ensures b == 1.0 <==> Abs(f.newOrig - f.oldOrig) + Abs(f.newDest - f.oldDest) >= 50000.0
  {
    Min(1.0, (Abs(f.newOrig - f.oldOrig) + Abs(f.newDest - f.oldDest)) / 50000.0)
  }

  /** The second form's heuristic score; for a non-negative amount it lies in `[0, 1]`. */
  function SecondScore(f: FormInput): (p: real)
    ensures f.amount >= 0.0 ==> 0.03 <= p <= 0.91
    ensures Prediction(p) ==> f.amount > 0.0
  {
    0.4 * AmountFactor(f.amount) + 0.3 * ChangeFactor(f) + 0.3 * TypeFactor(f.kind)
  }

  /**
    The second form's probability: with a model loaded it is a placeholder
    draw from `uniform(0.6, 0.9)` for types riskier than the default and from
    `uniform(0, 0.4)` otherwise; without one it is the heuristic.
   */
  function SecondProbability(f: FormInput, modelLoaded: bool, u: real): (p: real)
    requires IsUnit(u)
    ensures f.amount >= 0.0 ==> 0.0 <= p <= 1.0
    ensures modelLoaded && TypeFactor(f.kind) > 0.5 ==> 0.6 <= p <= 0.9
    ensures modelLoaded && TypeFactor(f.kind) <= 0.5 ==> 0.0 <= p <= 0.4
  {
    if modelLoaded then
      if TypeFactor(f.kind) > 0.5 then Uniform(0.6, 0.9, u) else Uniform(0.0, 0.4, u)
    else SecondScore(f)
  }

  /** With the placeholder model only a cash-out can be reported as fraud, and every other type is at most suspicious. */
  lemma PlaceholderOnlyFlagsCashOut(f: FormInput, u: real)
    requires IsUnit(u)
    ensures Prediction(SecondProbability(f, true, u)) ==> f.kind == "CASH_OUT"
    ensures f.kind != "CASH_OUT" ==> DisplayStatus(Prediction(SecondProbability(f, true, u)), SecondProbability(f, true, u)) != FraudDetected
  {
    TypeFactorAboveDefault(f.kind);
  }

  // ---------------------------------------------------------------------------
  // Simulated confusion matrix
  // ---------------------------------------------------------------------------

  datatype ConfusionMatrix = ConfusionMatrix(trueNeg: int, falsePos: int, falseNeg: int, truePos: int)

  /** The matrix for 950 legitimate and 50 fraudulent cases, scaled by the model's accuracy with `int()`. */
  function SimulatedConfusion(accuracy: real): (m: ConfusionMatrix)
    ensures m.trueNeg + m.falsePos == 950 && m.truePos + m.falseNeg == 50
    ensures 0.0 <= accuracy <= 1.0 ==>
              && 0 <= m.trueNeg <= 950 && 0 <= m.falsePos
              && 0 <= m.truePos <= 50 && 0 <= m.falseNeg
  {
    var tn := Trunc(950.0 * accuracy);
    var tp := Trunc(50.0 * accuracy);
    ConfusionMatrix(tn, 950 - tn, 50 - tp, tp)
  }

  /** A more accurate model never shows fewer correct cells, and a perfect one shows no errors. */
  lemma {:induction false} ConfusionMonotone(a: real, b: real)
    requires 0.0 <= a <= b
    ensures SimulatedConfusion(a).trueNeg <= SimulatedConfusion(b).trueNeg
    ensures SimulatedConfusion(a).truePos <= SimulatedConfusion(b).truePos
    ensures SimulatedConfusion(1.0).falsePos == 0 && SimulatedConfusion(1.0).falseNeg == 0
  {
    assert 950.0 * a <= 950.0 * b;
    assert 50.0 * a <= 50.0 * b;
  }
}
