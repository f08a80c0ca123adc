# Aegis Alliance trust-transparency core, in Dafny

This project models the data generators and the scoring rules behind the
Aegis Alliance fraud-detection dashboard (`trust_transparency/`):

- the labelled test-data generator: ten-digit account identifiers, legitimate
  records whose balances move by exactly the amount, five fraud patterns, and
  the numbering, split and shuffle of a whole data set;
- the dashboard's rules: the score-to-verification mapping of the audit log,
  the balance-anomaly checks and the two weighted heuristics of the
  transaction forms, the three-way status with its risk colour, the
  simulated confusion matrix, and the audit-log loader's column renames and
  required-column check;
- the bulk and sample CSV generators: the progress bar, the split into full
  chunks and a remainder, the sequence of CSV writes with their file mode and
  header, and the second pass that aligns every fraud score with its label;
- the seed-data generator: the risk-adjusted fraud probability, its own
  verification thresholds (0.8 and 0.5) and proof rate (0.02), sorted
  timestamps, the user pool, the 24-row metric table and the 120-row
  federation-progress table;
- the training-set builder of the sample model: post-transaction balances,
  the three labelling rules in order, the flag column and the feature columns;
- the dashboard test's 100-row frame with its injected anomalies.

Every random draw is a parameter. A unit draw `u` stands for `random()`, and
`uniform(lo, hi)` is `lo + (hi - lo) * u`, as CPython computes it. A
`randint` draw is the drawn integer, with its range as a precondition. A
`choice` draw is the chosen value. `round(x, 2)` and `round(x, 4)` are exact
half-up rounding on reals. `int(x)` truncates toward zero, and `//` and `%`
are Python's floor division and modulo (`Numeric.FloorDiv`,
`Numeric.FloorMod`). The results of `sqrt`, `exp` and `np.percentile` are
parameters as well.

Modules: `Numeric`, `Outcomes`, `Decimal`, `Accounts`, `Transactions`,
`Shuffling` (Python's Fisher-Yates `random.shuffle`), `TestData`, `Scoring`,
`Detection` (the dashboard's checks applied to generated records), `SeedData`,
`TrainingLabels`, `TestRows`, `BulkSave`, `BulkRecords` and `AuditLog`.

`generate_transaction_chunk` and the body of `generate_sample_transactions`
build the same sixteen columns with the same draws and the same alignment
loop. Both are modelled by `BulkRecords.GenerateRecords`.

Where the documented behaviour and the code differ, the model follows the code, with
one exception: `BulkSave.SaveTransactions` writes the remainder chunk the way the
corrected plan `BulkSave.SavePlan` does, with the loop's file mode and header. The
code as written always appends it without a header; that behaviour is
`BulkSave.WrittenPlan` (see Findings). The other differences:

- `generate_test_dataset` does not validate its arguments. A ratio above 1
  gives more fraudulent records than requested (`TestData.OverfullRatio`).
- The destination anomaly check uses the signed change `new - old`. The
  sender check uses its absolute value.

## Model

| member | source | states |
|---|---|---|
| `Accounts.GenerateAccountNumber` | trust_transparency/generate_test_data.py:11-14 | the identifier is 11 characters long, starts with `M` for a merchant and `C` otherwise, and parses back to the drawn ten-digit number |
| `Accounts.ParseAccountName` | trust_transparency/generate_test_data.py:13-14 | parsing an identifier `f"{prefix}{number}"` gives back the prefix and the number |
| `Accounts.AccountNameInjective` | trust_transparency/generate_test_data.py:14 | different (prefix, number) pairs give different identifiers |
| `Accounts.SevenDigitCustomer` | trust_transparency/generate_massive_transactions.py:49 | `C` followed by a seven-digit number is 8 characters long and parses back to that number |
| `Transactions.ParseTypeName` | trust_transparency/generate_test_data.py:19 | every transaction type name parses back to its type |
| `Shuffling.Shuffle` | trust_transparency/generate_test_data.py:235 | the shuffle keeps the length and is a permutation (same multiset) |
| `Shuffling.ShuffleCount` | trust_transparency/generate_test_data.py:235 | shuffling does not change how many records satisfy a predicate |
| `Shuffling.ShuffleDistinct` | trust_transparency/generate_test_data.py:235 | distinct keys stay distinct after the shuffle |
| `Shuffling.PermutationAll` | trust_transparency/generate_test_data.py:235 | a property of every record survives any permutation |
| `TestData.NormalAmount` | trust_transparency/generate_test_data.py:19-34 | a legitimate amount is whole cents within its type's range (10-5000 payment, 50-20000 transfer, 50-10000 cash-out, 50-8000 cash-in, 10-2000 debit) |
| `TestData.MoveRounded` | trust_transparency/generate_test_data.py:42-49 | rounding the moved raw balance equals moving the rounded balance by the whole-cents amount |
| `TestData.NormalSender` | trust_transparency/generate_test_data.py:41-49 | the sender's balance moves by exactly the amount (up for cash-in, down otherwise), starts between 1.5 and 10 times the amount, and never goes negative |
| `TestData.NormalRecipient` | trust_transparency/generate_test_data.py:44-51 | the recipient gains exactly the amount for transfers and payments and is unchanged otherwise, from a start in [1000, 100000] |
| `TestData.NormalTransaction` | trust_transparency/generate_test_data.py:16-68 | a legitimate record: unlabelled, customer sender, merchant recipient exactly for transfers and payments, exact balance conservation on both sides |
| `TestData.BalanceMismatchMove` | trust_transparency/generate_test_data.py:81-102 | a transfer of 1000-10000 to a merchant; the sender keeps its balance and the recipient gains twice the amount |
| `TestData.AccountEmptyingMove` | trust_transparency/generate_test_data.py:104-126 | a cash-out of the sender's whole balance (5000-50000) to a customer, leaving zero; the recipient is unchanged |
| `TestData.LargeTransferMove` | trust_transparency/generate_test_data.py:128-150 | a transfer of 50000-200000 to a merchant from a sender that holds at least the amount; both sides move by the amount to within rounding |
| `TestData.MultipleRecipientsMove` | trust_transparency/generate_test_data.py:152-173 | a transfer of 500-2000 to one of the mule accounts M1000000000..M1000000020; both sides move by the amount to within rounding |
| `TestData.UnusualMerchantMove` | trust_transparency/generate_test_data.py:175-195 | a payment of 5000-15000 to M9999999999, whose balance starts at 100000-500000; both sides move by the amount to within rounding |
| `TestData.FraudulentTransaction` | trust_transparency/generate_test_data.py:70-212 | a fraudulent record is labelled fraud, flagged exactly when its amount exceeds 50000 (so only large transfers), and shows its pattern's type, amount and balance movement |
| `TestData.NormalRecords` | trust_transparency/generate_test_data.py:228-229 | legitimate records carry consecutive steps from the first one and are unlabelled |
| `TestData.FraudRecords` | trust_transparency/generate_test_data.py:231-232 | fraudulent records carry consecutive steps from the first one and are labelled fraud |
| `TestData.OrderedDataset` | trust_transparency/generate_test_data.py:220-232 | before the shuffle, legitimate records are numbered from 1 and fraudulent ones continue from `num_normal + 1` |
| `TestData.GenerateTestDataset` | trust_transparency/generate_test_data.py:214-235 | the data set has one record per step of both ranges, exactly the fraud range's size of fraudulent records, pairwise distinct steps, and every step in its label's range |
| `TestData.NumFraudBounds` | trust_transparency/generate_test_data.py:221-222 | for a ratio in [0, 1], `num_fraud` lies in [0, n] |
| `TestData.DatasetSteps` | trust_transparency/generate_test_data.py:221-235 | for a ratio in [0, 1], there are n records, `num_fraud` of them fraudulent, and every step 1..n occurs |
| `TestData.DefaultDatasetSplit` | trust_transparency/generate_test_data.py:214-222 | the default call splits 1000 records into 950 legitimate and 50 fraudulent |
| `TestData.OverfullRatio` | trust_transparency/generate_test_data.py:221-232 | the ratio is not validated: 100 records at 1.5 give 150 fraudulent records and no legitimate one |
| `Scoring.AuditVerification` | trust_transparency/dashboard.py:1264-1272 | the mapping is total and exclusive: Declined iff score > 0.7, OTP Verified iff 0.3 < score <= 0.7, Auto-Approved iff score <= 0.3 |
| `Scoring.AuditVerificationMonotone` | trust_transparency/dashboard.py:1266-1271 | a higher score never gets a more lenient outcome |
| `Scoring.VerificationLabelInjective` | trust_transparency/dashboard.py:1267-1272 | the three labels are distinct, so the written column determines the outcome |
| `Scoring.LoggedVerification` | trust_transparency/dashboard.py:3700 | a transaction predicted as fraud is logged Declined; otherwise the score decides between OTP Verified and Auto-Approved |
| `Scoring.LoggedMatchesAudit` | trust_transparency/dashboard.py:3444 | with prediction `p > 0.7`, the logged verification equals the audit-log mapping for every score, and it is Declined exactly when fraud is predicted |
| `Scoring.DisplayStatus` | trust_transparency/dashboard.py:3552-3575 | the badge is fraud exactly when predicted, suspicious exactly when not predicted and above 0.3, approved otherwise |
| `Scoring.RiskColour` | trust_transparency/dashboard.py:3578 | red iff the score is above 0.7, green iff it is at most 0.3, amber otherwise |
| `Scoring.StatusConsistent` | trust_transparency/dashboard.py:3552-3578 | for every score, the badge's colour is the risk colour and its verification is both the logged one and the audit mapping's |
| `Scoring.BalanceFactor` | trust_transparency/dashboard.py:3282-3292 | the balance factor is 0 or 1, and 1 exactly when the sender or the recipient shows an anomaly |
| `Scoring.TypeFactor` | trust_transparency/dashboard.py:3293-3300 | the type risk lies in [0.1, 0.7], with 0.5 for any string that is not a type name |
| `Scoring.TypeFactorAboveDefault` | trust_transparency/dashboard.py:3293-3300 | only CASH_OUT has a type risk above the 0.5 default |
| `Scoring.FallbackScore` | trust_transparency/dashboard.py:3464-3465 | for a non-negative amount the fallback score lies in [0.03, 0.91], and it predicts fraud only with a positive amount and a balance anomaly |
| `Scoring.FormProbability` | trust_transparency/dashboard.py:3400-3465 | the first form's probability lies in [0, 1] for a non-negative amount; a label-only model gives 0.7-0.9 for a positive label and 0.1-0.3 for a negative one |
| `Scoring.LabelOnlyOutcome` | trust_transparency/dashboard.py:3440-3444 | a negative label is always auto-approved; a positive one is predicted as fraud exactly when the noise draw is not its lowest value |
| `Scoring.AmountFactor` | trust_transparency/dashboard.py:3751 | the amount factor is at most 1, non-negative for a non-negative amount, and 1 exactly from 10000 upward |
| `Scoring.ChangeFactor` | trust_transparency/dashboard.py:3754-3756 | the change factor lies in [0, 1] and is 1 exactly when the two absolute balance changes sum to at least 50000 |
| `Scoring.SecondScore` | trust_transparency/dashboard.py:3778-3781 | for a non-negative amount the second heuristic lies in [0.03, 0.91], and predicts fraud only for a positive amount |
| `Scoring.SecondProbability` | trust_transparency/dashboard.py:3770-3784 | with a model loaded the placeholder draws from [0.6, 0.9] for types riskier than the default and from [0, 0.4] otherwise; the result lies in [0, 1] |
| `Scoring.PlaceholderOnlyFlagsCashOut` | trust_transparency/dashboard.py:3774-3791 | with the placeholder model only a cash-out can be reported as fraud |
| `Scoring.SimulatedConfusion` | trust_transparency/dashboard.py:4010-4014 | the cells sum to 950 legitimate and 50 fraudulent cases, and are all non-negative for an accuracy in [0, 1] |
| `Scoring.ConfusionMonotone` | trust_transparency/dashboard.py:4011-4013 | a higher accuracy never lowers the correct cells, and accuracy 1 leaves no errors |
| `Detection.NormalRecordAnomaly` | trust_transparency/dashboard.py:3282-3288 | a generated legitimate record trips the anomaly check exactly when it is a debit or a cash-in, and never on the recipient side |
| `Detection.FraudRecordAnomaly` | trust_transparency/dashboard.py:3283-3289 | a generated fraudulent record trips the anomaly check exactly when it follows the balance-mismatch pattern |
| `Detection.FallbackPassesNormal` | trust_transparency/dashboard.py:3464 | the fallback heuristic never predicts fraud for a generated legitimate record |
| `Detection.FallbackMissesFraud` | trust_transparency/dashboard.py:3465 | the fallback heuristic never predicts fraud for a generated fraudulent record either |
| `SeedData.FraudProbability` | trust_transparency/generate_data.py:53-73 | the fraud probability lies in [0.005, 0.15], and equals the base rate exactly when no risk factor applies |
| `SeedData.FraudProbabilityMonotone` | trust_transparency/generate_data.py:58-73 | each risk factor only raises the probability, and all three give 0.15 |
| `SeedData.SeedVerification` | trust_transparency/generate_data.py:89-97 | Declined iff score > 0.8, OTP Verified iff 0.5 < score <= 0.8, Auto-Approved iff score <= 0.5 |
| `SeedData.SeedVersusDashboard` | trust_transparency/generate_data.py:92-97 | the seed mapping is never stricter than the dashboard's, and the two differ exactly on (0.3, 0.5] and (0.7, 0.8] |
| `SeedData.ZkRates` | trust_transparency/generate_data.py:99-106 | with the same draw, every proof the dashboard's sample accepts the seed data accepts, and they differ exactly on (0.02, 0.05] |
| `SeedData.SortAscending` | trust_transparency/generate_data.py:19 | the sorted timestamps are ascending and a rearrangement of the draws |
| `SeedData.TimestampColumn` | trust_transparency/generate_data.py:16-19 | every timestamp lies in the 30-day window, and the column is ascending and a rearrangement of the draws |
| `SeedData.UserCount` | trust_transparency/generate_data.py:33 | `n_users` is at most n, and zero exactly for one or no sample |
| `SeedData.ChooseOne` | trust_transparency/generate_data.py:35 | `choices` fails with IndexError exactly on an empty pool, and otherwise returns a member of it |
| `SeedData.SeedRowOf` | trust_transparency/generate_data.py:56-106 | a row's label is drawn against its risk-adjusted probability (so a fraud draw is below 0.15), its verification follows the seed thresholds, and its user is from the pool |
| `SeedData.GenerateSeedTransactions` | trust_transparency/generate_data.py:11-123 | fails with ValueError for a negative count and IndexError for one sample; otherwise n rows in ascending time order, each with a user from the pool, the seed verification of its score, the label drawn against its risk-adjusted probability and the proof status of its draw |
| `SeedData.PrivacyImpact` | trust_transparency/generate_data.py:144-145 | the privacy impact lies in [0.5, 1], and is 0.5 for a non-positive epsilon |
| `SeedData.PrivacyImpactMonotone` | trust_transparency/generate_data.py:144 | a weaker privacy setting never lowers the impact factor: a larger epsilon with a larger square root gives an impact at least as high, including the step up from epsilon 0, whose impact is the minimum 0.5 |
| `SeedData.MetricRowOf` | trust_transparency/generate_data.py:147-155 | a metric row keeps its model and epsilon, its AUC, precision, recall and F1 each lie between half and all of the model's base value, and its latency is at least the base |
| `SeedData.ModelMetrics` | trust_transparency/generate_data.py:126-157 | the metric table has 24 rows, epsilon in the outer loop and model in the inner one, and every row's AUC, precision, recall and F1 lie between half and all of its model's base value |
| `SeedData.MetricPairsExactlyOnce` | trust_transparency/generate_data.py:141-142 | each (epsilon, model) pair labels exactly one row |
| `SeedData.CurveOf` | trust_transparency/generate_data.py:168-184 | every learning curve starts at or above 0.6 and rises to at most 0.89 |
| `SeedData.ProgressRowOf` | trust_transparency/generate_data.py:186-199 | the AUC stays within the curve's range plus 0.01 of noise, and the other metrics are their fixed fractions of it plus at most 0.02 |
| `SeedData.FederationProgress` | trust_transparency/generate_data.py:159-201 | the progress table has 120 rows, round `i / 4 + 1` and model `i % 4` |
| `SeedData.ProgressCoversRounds` | trust_transparency/generate_data.py:166-167 | every round 1..30 appears with every model, and no other round appears |
| `TrainingLabels.TrainSenderAfter` | trust_transparency/models/train_model.py:22 | the sender's new balance is non-negative and never above the old one |
| `TrainingLabels.TrainRecipientAfter` | trust_transparency/models/train_model.py:24 | the recipient gains between 80% and 100% of the amount |
| `TrainingLabels.LabelRule` | trust_transparency/models/train_model.py:31-51 | the large-drain rule fires exactly on its condition; the small-periodic rule exactly when large-drain does not, its condition holds and its draw is below 0.3; the background rule exactly when neither earlier rule fired and its draw is below 0.005 |
| `TrainingLabels.RulesDisjoint` | trust_transparency/models/train_model.py:37-45 | the first two rules' conditions never hold together |
| `TrainingLabels.TrainRowOf` | trust_transparency/models/train_model.py:18-67 | a training row is fraud exactly when some rule fired, and flagged exactly when it is fraud and its flag draw is below 0.7 |
| `TrainingLabels.FlaggedWithinFraud` | trust_transparency/models/train_model.py:65-67 | over the whole frame, no more rows are flagged than are fraudulent |
| `TrainingLabels.DummyOrderSorted` | trust_transparency/models/train_model.py:70 | the indicator columns follow the sorted order of the type names |
| `TrainingLabels.DummyNameIsPrefixed` | trust_transparency/models/train_model.py:70 | each indicator column is `type_` followed by the type name |
| `TrainingLabels.FeatureColumns` | trust_transparency/models/train_model.py:69-73 | the features are the six numeric columns followed by one indicator per present type but the first, and exclude both label columns |
| `TrainingLabels.AllTypesFeatures` | trust_transparency/models/train_model.py:70-73 | with all five types present, the features are the six numeric columns and four indicators, CASH_IN being dropped |
| `TestRows.PlainRow` | trust_transparency/test_dashboard.py:63-82 | a test row before injection conserves balances like a real transaction, has a customer sender and a merchant recipient, and is unlabelled |
| `TestRows.InjectAnomalies` | trust_transparency/test_dashboard.py:88-95 | injection changes only the two new balances: the sender keeps its balance on a draw below 0.7, the recipient gains twice the amount on a draw below 0.5 |
| `TestRows.TestRowOf` | trust_transparency/test_dashboard.py:84-109 | a row is fraud exactly when its draw is below 0.05; a legitimate row is the plain row, a fraudulent one the plain row with anomalies injected |
| `TestRows.TestFrameShape` | trust_transparency/test_dashboard.py:62-112 | the frame has 100 rows, steps 1..10, customer senders and merchant recipients |
| `TestRows.SenderAnomalyOfRow` | trust_transparency/test_dashboard.py:78-91 | the dashboard's sender check flags a test row exactly when it is a debit or cash-in, or else when the fraud injection kept the sender's balance, but not both |
| `TestRows.RecipientAnomalyOfRow` | trust_transparency/test_dashboard.py:81-95 | the recipient check flags a test row exactly when the injection doubled the credit |
| `BulkSave.ProgressBar` | trust_transparency/generate_massive_transactions.py:23-29 | a zero total fails with ZeroDivisionError; otherwise the line ends exactly at the last iteration, the first `filled` cells are fill and the rest dashes, and in range the bar is `length` long |
| `BulkSave.FillBounds` | trust_transparency/generate_massive_transactions.py:24-25 | for 0 <= iteration <= total the filled length lies in [0, length] |
| `BulkSave.FillFullIff` | trust_transparency/generate_massive_transactions.py:24-28 | for a positive length the bar is full exactly at the last iteration |
| `BulkSave.FillMonotone` | trust_transparency/generate_massive_transactions.py:24 | the bar never shrinks as the iteration advances |
| `BulkSave.ChunkSplit` | trust_transparency/generate_massive_transactions.py:75-76 | a zero chunk size fails; otherwise `num_chunks * chunk_size + remaining == total`, with 0 <= remaining < chunk_size for a positive chunk size |
| `BulkSave.SaveTransactions` | trust_transparency/generate_massive_transactions.py:72-109 | the run performs the save plan's writes and draws one 40-cell bar per full chunk, of which only the last ends the line |
| `BulkSave.SavePlanRows` | trust_transparency/generate_massive_transactions.py:89-109 | for a non-negative total and a positive chunk size the writes hold exactly `total` rows |
| `BulkSave.NegativeTotalRows` | trust_transparency/generate_massive_transactions.py:89-109 | the unvalidated negative total runs no full chunk and writes only the remainder, `total % chunk_size` rows: as written one headerless append, in the corrected plan one truncating write with the header |
| `BulkSave.SavePlanHeaderOnce` | trust_transparency/generate_massive_transactions.py:82-94 | only the first write truncates the file and writes the header; for a positive total there is exactly one header |
| `BulkSave.ShortTotalNoHeader` | trust_transparency/generate_massive_transactions.py:107-109 | as written, a total below one chunk is a single appended write without a header |
| `BulkSave.PlansAgree` | trust_transparency/generate_massive_transactions.py:107-109 | the written and the corrected plans agree whenever at least one full chunk is written |
| `BulkRecords.LabelShares` | trust_transparency/generate_sample_transactions.py:33-34 | `isFraud` is 1 for draws from 0.997 upward and `isFlaggedFraud` for draws from 0.999 upward |
| `BulkRecords.Balance` | trust_transparency/generate_massive_transactions.py:50-54 | a balance column value is whole cents in [0, 1000000] |
| `BulkRecords.FirstPassRecord` | trust_transparency/generate_massive_transactions.py:38-59 | a first-pass record's timestamp lies within 90 days 23:59 back, its amount is whole cents in [10, 100000], its names parse as `C` plus the drawn number, its labels are 0/1 by their weights, and its proof is `zk_` plus 16 hex digits |
| `BulkRecords.AlignedScore` | trust_transparency/generate_sample_transactions.py:40-45 | an aligned score lies in [0.7, 0.99] for `isFraud == 1` and in [0.01, 0.3] otherwise, to four decimals |
| `BulkRecords.AlignScores` | trust_transparency/generate_massive_transactions.py:62-67 | the alignment loop changes only the score column, and afterwards every score agrees with its label |
| `BulkRecords.GenerateRecords` | trust_transparency/generate_sample_transactions.py:8-48 | the frame has `max(0, n)` rows, each its first-pass record with the aligned score |
| `BulkRecords.LabelFromScore` | trust_transparency/generate_massive_transactions.py:64-67 | after alignment a record is fraudulent exactly when its score is at least 0.7 |
| `BulkRecords.AlignedVerification` | trust_transparency/dashboard.py:1266-1271 | the audit mapping auto-approves every aligned legitimate score and never auto-approves an aligned fraud score, declining it unless it is exactly 0.7 |
| `BulkRecords.BoundaryFraudNotDeclined` | trust_transparency/generate_sample_transactions.py:43 | the lowest fraud draw scores exactly 0.7, which the strict threshold sends to OTP verification |
| `AuditLog.RenameColumn` | trust_transparency/dashboard.py:1125-1127 | a rename happens only when the old name is present and the new one absent, renames every column of the old name, and leaves the other columns untouched |
| `AuditLog.MissingColumns` | trust_transparency/dashboard.py:1131 | a name is missing exactly when it is required and absent from the header |
| `AuditLog.LoadAuditLog` | trust_transparency/dashboard.py:1119-1136 | an unreadable file gives the 100-entry sample log; a header loads from the file exactly when all seven required columns are present after the renames, and then the view has exactly those columns |
| `AuditLog.NormalizeIdempotent` | trust_transparency/dashboard.py:1119-1127 | renaming an already renamed header changes nothing |
| `AuditLog.NormalizeKeepsRequired` | trust_transparency/dashboard.py:1124-1131 | no required column present in the file is renamed away |
| `AuditLog.LoadsWhenCovered` | trust_transparency/dashboard.py:1118-1136 | a header that holds each required column, or the generator name the mapping turns into it, loads from the file |
| `AuditLog.SeedFileLoads` | trust_transparency/generate_data.py:109-122 | the seed generator's transactions file loads from the file after its three compact names are renamed |
| `AuditLog.RecordHeaderSettled` | trust_transparency/dashboard.py:1120-1127 | none of the three renames applies to the bulk and sample generators' header, which already uses the dashboard's names |
| `AuditLog.RecordFileLoads` | trust_transparency/generate_sample_transactions.py:16-38 | a file with the bulk or sample generator's header loads unchanged |
| `AuditLog.MissingFallsBack` | trust_transparency/dashboard.py:1130-1136 | a header missing a required column that no rename supplies falls back to the sample log |

## Left out

- User interface, Streamlit state, caching, printing and terminal output: only the values they display are modelled.
- File and directory I/O: the CSV writes are modelled as a list of writes (rows, start index, mode, header), and a read as the header it yields. Reading `data/transactions.csv` failing is the `None` header.
- The clock, `uuid.uuid4()`, `random`, `np.random`, `np.percentile`, `sqrt` and `exp` are parameters. Draw consumption order, seeding and the distributions are not modelled. In particular, the source draws column by column and the model per record.
- Floating point: reals are exact, and `round` is half-up where Python rounds the binary value half-to-even. The identities proved for conservation and ranges hold up to that difference.
- `random.choices` with weights is modelled by its bisection on the cumulative weights, with the float sum of the weights taken as exact.
- The classifier, the scaler and `RandomForestClassifier.fit` are opaque. The first form takes the model's probability as a parameter in [0, 1] (`Scoring.ScoreSource`).
- The fallback sample log (`generate_sample_audit_log`) appears only as "100 sample entries". Its contents, the timestamp conversion and sorting, and the numeric-column repair after loading are not part of this model.
- `generate_transaction_chunk`'s `start_idx` is unused by the source. It is kept only as the write's start index.
- The elapsed time, rate and ETA printed with each chunk, including a division by a zero elapsed time, are left out with the clock.
- `new_overview.py`, `launch.py` and the dashboard's remaining pages (charts, ROC data, batch samples) are not part of this model.
- `BulkSave.SaveTransactions`: models the remainder write as corrected (see Findings); the code as written is `BulkSave.WrittenPlan`.
- `TestData.NumFraud`: `int(num_samples * fraud_ratio)` is truncated on the exact real product, while Python truncates the binary float product; e.g. `100 * 0.29` is `28.999999999999996` in binary floating point, so Python makes 28 fraudulent records and the model 29.
- `SeedData.UserCount`: `int(n * 0.7)` is truncated on the exact real product, while Python truncates the binary float product. They differ where that product falls just below a whole number, e.g. n = 90, 170 and 180: `90 * 0.7` is `62.99999999999999` in binary floating point, so Python makes 62 users and the model 63.
- `BulkRecords.FirstPassRecord`: the timestamp is kept as an offset in minutes before the clock reading, not as a formatted string.
- `SeedData.GenerateSeedTransactions`: `np.random.lognormal` and `np.random.beta` values are parameters, constrained only to be positive and in [0, 1].

## Findings

| source | as written | input that shows it | evidently intended | confidence | as-written member | corrected member |
|---|---|---|---|---|---|---|
| trust_transparency/generate_massive_transactions.py:107-109 | the remainder chunk is always written with `mode='a'` and `header=False` | `total_transactions=1000`, `chunk_size=100000`: no full chunk, one remainder write that appends to any existing file and writes no header | the remainder uses the loop's current `mode` and `header`, so the first write of a run truncates the file and writes the header | medium, not executed | `BulkSave.ShortTotalNoHeader` | `BulkSave.SavePlanHeaderOnce` |
