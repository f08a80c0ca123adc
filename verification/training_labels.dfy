/**
  The synthetic training data of the sample fraud model: balances derived
  from drawn amounts, a rule-based fraud label, a flag set on a random subset
  of the fraud cases, and the feature columns handed to the classifier. The
  fitting itself is not modelled.
 */
module TrainingLabels {
  import opened Numeric
  import opened Transactions
  import opened Shuffling

  /** The number of training rows. */
  const TrainingSamples: nat := 1000

  /** The draws behind one training row; lognormal draws are given as their (positive) values. */
  datatype TrainDraw = TrainDraw(
    step: int,
    amount: real,
    oldOrig: real,
    debitU: real,
    oldDest: real,
    creditU: real,
    kind: TxType,
    periodicU: real,
    backgroundU: real,
    flagU: real)

  predicate ValidTrainDraw(d: TrainDraw)
  {
    && 1 <= d.step <= 99
    && d.amount > 0.0 && d.oldOrig > 0.0 && d.oldDest > 0.0
    && IsUnit(d.debitU) && IsUnit(d.creditU)
    && IsHalfOpenUnit(d.periodicU) && IsHalfOpenUnit(d.backgroundU) && IsHalfOpenUnit(d.flagU)
  }

  /** `max(0, old - amount * uniform(0, 1.2))`: never negative and never above the old balance. */
  function TrainSenderAfter(oldOrig: real, amount: real, u: real): (b: real)
    requires IsUnit(u) && amount >= 0.0
    ensures 0.0 <= b
    ensures oldOrig >= 0.0 ==> b <= oldOrig
    ensures b == 0.0 || oldOrig - 1.2 * amount <= b
  {
    var f := Uniform(0.0, 1.2, u);
    assert amount * f <= amount * 1.2;
    Max(0.0, oldOrig - amount * f)
  }

  /** `old + amount * uniform(0.8, 1.0)`: the recipient gains between 80% and all of the amount. */
  function TrainRecipientAfter(oldDest: real, amount: real, u: real): (b: real)
    requires IsUnit(u) && amount >= 0.0
    ensures oldDest + 0.8 * amount <= b <= oldDest + amount
  {
    var f := Uniform(0.8, 1.0, u);
    assert amount * 0.8 <= amount * f <= amount * 1.0;
    oldDest + amount * f
  }

  /** Which of the three labelling rules fired, tried in order. */
  datatype FraudRule = LargeDrain | SmallPeriodic | Background | NoRule

  /** Rule 1's condition: a transfer above 1,000,000 that removes more than 90% of the sender's balance. */
  predicate LargeDrainCase(kind: TxType, amount: real, oldOrig: real, newOrig: real)
    requires oldOrig > 0.0
  {
    kind == Transfer && amount > 1000000.0 && (oldOrig - newOrig) / oldOrig > 0.9
  }

  /** Rule 2's condition, without its draw: a transfer or cash-out below 10,000 on a step divisible by 7. */
  predicate SmallPeriodicCase(kind: TxType, amount: real, step: int)
  {
    (kind == Transfer || kind == CashOut) && amount < 10000.0 && FloorMod(step, 7) == 0
  }

  /**
    The labelling rules in order: the large drain always counts, the small
    periodic case only when rule 1 did not fire and its draw is below 0.3,
    and any other row with probability 0.005.
   */
  function LabelRule(kind: TxType, amount: real, oldOrig: real, newOrig: real, step: int, periodicU: real, backgroundU: real): (r: FraudRule)
    requires oldOrig > 0.0
    ensures r == LargeDrain <==> LargeDrainCase(kind, amount, oldOrig, newOrig)
    ensures r == SmallPeriodic <==> !LargeDrainCase(kind, amount, oldOrig, newOrig) && SmallPeriodicCase(kind, amount, step) && periodicU < 0.3
    ensures r == Background <==>
      !LargeDrainCase(kind, amount, oldOrig, newOrig) && !(SmallPeriodicCase(kind, amount, step) && periodicU < 0.3) && backgroundU < 0.005
  {
    if LargeDrainCase(kind, amount, oldOrig, newOrig) then LargeDrain
    else if SmallPeriodicCase(kind, amount, step) && periodicU < 0.3 then SmallPeriodic
    else if backgroundU < 0.005 then Background
    else NoRule
  }

  /** The first two rules can never both apply: their amount ranges are disjoint. */
  lemma RulesDisjoint(kind: TxType, amount: real, oldOrig: real, newOrig: real, step: int)
    requires oldOrig > 0.0
    ensures !(LargeDrainCase(kind, amount, oldOrig, newOrig) && SmallPeriodicCase(kind, amount, step))
  {
  }

  /** One row of the training frame. */
  datatype TrainRow = TrainRow(
    step: int,
    kind: TxType,
    amount: real,
    oldbalanceOrg: real,
    newbalanceOrig: real,
    oldbalanceDest: real,
    newbalanceDest: real,
    isFraud: bool,
    isFlaggedFraud: bool)

  /**
    A labelled row. The large-drain transfer is always fraud whatever the
    draws; a flagged row is always a fraud row.
   */
  function TrainRowOf(d: TrainDraw): (row: TrainRow)
    requires ValidTrainDraw(d)
    ensures row.newbalanceOrig >= 0.0 && row.newbalanceOrig <= row.oldbalanceOrg
    ensures row.newbalanceDest >= row.oldbalanceDest
    ensures LargeDrainCase(d.kind, d.amount, d.oldOrig, row.newbalanceOrig) ==> row.isFraud
    ensures row.isFlaggedFraud ==> row.isFraud
    ensures row.isFlaggedFraud <==> row.isFraud && d.flagU < 0.7
    ensures row.isFraud <==> LabelRule(d.kind, d.amount, d.oldOrig, row.newbalanceOrig, d.step, d.periodicU, d.backgroundU) != NoRule
  {
    var newOrig := TrainSenderAfter(d.oldOrig, d.amount, d.debitU);
    var newDest := TrainRecipientAfter(d.oldDest, d.amount, d.creditU);
    var fraud := LabelRule(d.kind, d.amount, d.oldOrig, newOrig, d.step, d.periodicU, d.backgroundU) != NoRule;
    TrainRow(d.step, d.kind, d.amount, d.oldOrig, newOrig, d.oldDest, newDest, fraud, fraud && d.flagU < 0.7)
  }

  function TrainRows(draws: seq<TrainDraw>): (rows: seq<TrainRow>)
    requires forall i :: 0 <= i < |draws| ==> ValidTrainDraw(draws[i])
    ensures |rows| == |draws|
    ensures forall i :: 0 <= i < |rows| ==> rows[i] == TrainRowOf(draws[i])
  {
    if draws == [] then [] else [TrainRowOf(draws[0])] + TrainRows(draws[1..])
  }

  function IsFraudRow(r: TrainRow): bool
  {
    r.isFraud
  }

  function IsFlaggedRow(r: TrainRow): bool
  {
    r.isFlaggedFraud
  }

  /** Over the whole training frame, no more rows are flagged than are fraudulent. */
  lemma FlaggedWithinFraud(draws: seq<TrainDraw>)
    requires forall i :: 0 <= i < |draws| ==> ValidTrainDraw(draws[i])
    ensures Count(TrainRows(draws), IsFlaggedRow) <= Count(TrainRows(draws), IsFraudRow)
  {
    CountImplies(TrainRows(draws), IsFlaggedRow, IsFraudRow);
  }

  // ---------------------------------------------------------------------------
  // Feature columns
  // ---------------------------------------------------------------------------

  /** The numeric columns in frame order, before the type dummies. */
  const NumericColumns: seq<string> :=
    ["step", "amount", "oldbalanceOrg", "newbalanceOrig", "oldbalanceDest", "newbalanceDest"]

  /** The type names in the sorted order `get_dummies` uses for its indicator columns. */
  const DummyOrder: seq<TxType> := [CashIn, CashOut, Debit, Payment, Transfer]

  /** Strict lexicographic order on strings, as Python compares them. */
  predicate LexLess(a: string, b: string)
    decreases |a|
  {
    if a == [] then b != []
    else if b == [] then false
    else if a[0] != b[0] then a[0] < b[0]
    else LexLess(a[1..], b[1..])
  }

  /** `DummyOrder` really is the sorted order of the type names. */
  lemma DummyOrderSorted()
    ensures forall i :: 0 <= i < |DummyOrder| - 1 ==> LexLess(TypeName(DummyOrder[i]), TypeName(DummyOrder[i + 1]))
  {
    assert LexLess(TypeName(CashIn), TypeName(CashOut)) by {
      assert LexLess("IN", "OUT");
      assert TypeName(CashIn) == "CASH_" + "IN" && TypeName(CashOut) == "CASH_" + "OUT";
      assert LexLess("_IN", "_OUT");
      assert LexLess("H_IN", "H_OUT");
      assert LexLess("SH_IN", "SH_OUT");
      assert LexLess("ASH_IN", "ASH_OUT");
    }
  }

  /** The types of `order` that occur in `present`, in that order. */
  function PresentInOrder(order: seq<TxType>, present: set<TxType>): (r: seq<TxType>)
    ensures |r| <= |order|
    ensures forall t :: t in r <==> t in order && t in present
  {
    if order == [] then []
    else (if order[0] in present then [order[0]] else []) + PresentInOrder(order[1..], present)
  }

  /** The indicator column of a type: `type_` followed by the type name. */
  function DummyName(t: TxType): string
  {
    match t
    case Transfer => "type_TRANSFER"
    case Payment => "type_PAYMENT"
    case CashOut => "type_CASH_OUT"
    case Debit => "type_DEBIT"
    case CashIn => "type_CASH_IN"
  }

  lemma DummyNameIsPrefixed(t: TxType)
    ensures DummyName(t) == "type_" + TypeName(t)
  {
  }

  function DummyColumns(types: seq<TxType>): (r: seq<string>)
    ensures |r| == |types|
    ensures forall i :: 0 <= i < |r| ==> r[i] == DummyName(types[i])
  {
    if types == [] then [] else [DummyName(types[0])] + DummyColumns(types[1..])
  }

  /**
    The classifier's features: the frame after `get_dummies(columns=['type'],
    drop_first=True)` with the two label columns dropped. The first type in
    sorted order that occurs gets no indicator column.
   */
  function FeatureColumns(present: set<TxType>): (cols: seq<string>)
    ensures |cols| == |NumericColumns| + (if |PresentInOrder(DummyOrder, present)| == 0 then 0 else |PresentInOrder(DummyOrder, present)| - 1)
    ensures cols[..|NumericColumns|] == NumericColumns
    ensures "isFraud" !in cols && "isFlaggedFraud" !in cols
  {
    var kinds := PresentInOrder(DummyOrder, present);
    var dummies := if kinds == [] then [] else DummyColumns(kinds[1..]);
    forall i | 0 <= i < |dummies|
      ensures dummies[i] != "isFraud" && dummies[i] != "isFlaggedFraud"
    {
      assert dummies[i][0] == 't';
    }
    NumericColumns + dummies
  }

  /** When every type of `order` occurs, none is filtered out. */
  lemma {:induction false} AllPresentKept(order: seq<TxType>, present: set<TxType>)
    requires forall i :: 0 <= i < |order| ==> order[i] in present
    ensures PresentInOrder(order, present) == order
  {
    if order != [] {
      AllPresentKept(order[1..], present);
    }
  }

  lemma AllTypesPresent()
    ensures PresentInOrder(DummyOrder, {Transfer, Payment, CashOut, Debit, CashIn}) == DummyOrder
  {
    AllPresentKept(DummyOrder, {Transfer, Payment, CashOut, Debit, CashIn});
  }

  /** With all five types present, the features are the six numeric columns and four indicators; CASH_IN is the dropped one. */
  lemma AllTypesFeatures()
    ensures var cols := FeatureColumns({Transfer, Payment, CashOut, Debit, CashIn});
      && |cols| == 10
      && cols[..6] == NumericColumns
      && cols[6] == "type_CASH_OUT" && cols[7] == "type_DEBIT" && cols[8] == "type_PAYMENT" && cols[9] == "type_TRANSFER"
  {
    AllTypesPresent();
    var rest: seq<TxType> := [CashOut, Debit, Payment, Transfer];
    assert DummyOrder[1..] == rest;
    var cols := FeatureColumns({Transfer, Payment, CashOut, Debit, CashIn});
    assert cols == NumericColumns + DummyColumns(rest);
    assert cols[6] == DummyName(CashOut) && cols[7] == DummyName(Debit);
    assert cols[8] == DummyName(Payment) && cols[9] == DummyName(Transfer);
  }
}
