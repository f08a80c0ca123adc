/**
  The PaySim-style transaction record shared by the generators and the
  dashboard's scoring form, and the five transaction types.
 */
module Transactions {
  import opened Outcomes

  datatype TxType = Transfer | Payment | CashOut | Debit | CashIn

  /** The type as it appears in the `type` column and in the dashboard's select box. */
  function TypeName(t: TxType): string
  {
    match t
    case Transfer => "TRANSFER"
    case Payment => "PAYMENT"
    case CashOut => "CASH_OUT"
    case Debit => "DEBIT"
    case CashIn => "CASH_IN"
  }

  /** Reads a `type` cell; any other text is not a transaction type. */
  function ParseType(s: string): (r: Option<TxType>)
  {
    if s == "TRANSFER" then Some(Transfer)
    else if s == "PAYMENT" then Some(Payment)
    else if s == "CASH_OUT" then Some(CashOut)
    else if s == "DEBIT" then Some(Debit)
    else if s == "CASH_IN" then Some(CashIn)
    else None
  }

  /** Names and types correspond one to one. */
  lemma ParseTypeName(t: TxType, s: string)
    ensures ParseType(TypeName(t)) == Some(t)
    ensures ParseType(s) == Some(t) <==> s == TypeName(t)
  {
  }

  /** One row of the transaction CSVs; `isFraud`/`isFlaggedFraud` are the 0/1 label columns. */
  datatype Transaction = Transaction(
    step: int,
    kind: TxType,
    amount: real,
    nameOrig: string,
    oldbalanceOrg: real,
    newbalanceOrig: real,
    nameDest: string,
    oldbalanceDest: real,
    newbalanceDest: real,
    isFraud: bool,
    isFlaggedFraud: bool)

  /** The generators move money to the recipient only for these two types. */
  predicate CreditsRecipient(t: TxType)
  {
    t == Transfer || t == Payment
  }
}
