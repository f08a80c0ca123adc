/**
  The dashboard's seed data: synthetic audit-log transactions with a
  risk-adjusted fraud label, a score-based verification and a ZK-proof
  status; the privacy-versus-performance metric table; and the federated
  learning progress table.

  Random draws, the 95th-percentile amount and the values of `sqrt` and `exp`
  the tables need are parameters.
 */
module SeedData {
  import opened Numeric
  import opened Outcomes
  import opened Decimal
  import opened Scoring

  // ---------------------------------------------------------------------------
  // Fraud probability, verification and proof status
  // ---------------------------------------------------------------------------

  const BaseFraudRate: real := 0.005

  /**
    The base rate 0.005, multiplied by 5 above the 95th percentile, by 3 for
    country "OTHER" and by 2 for "Online Services", then capped at 1. The cap
    never binds: the largest value is 0.15.
   */
  function FraudProbability(aboveP95: bool, country: string, category: string): (p: real)
    ensures BaseFraudRate <= p <= 0.15
    ensures p == BaseFraudRate <==> !aboveP95 && country != "OTHER" && category != "Online Services"
  {
    var byAmount := if aboveP95 then BaseFraudRate * 5.0 else BaseFraudRate;
    var byCountry := if country == "OTHER" then byAmount * 3.0 else byAmount;
    var byCategory := if category == "Online Services" then byCountry * 2.0 else byCountry;
    if byCategory <= 1.0 then byCategory else 1.0
  }

  /** Each risk factor can only raise the probability, and all three together give the maximum 0.15. */
  lemma FraudProbabilityMonotone(aboveP95: bool, country: string, category: string)
    ensures FraudProbability(aboveP95, country, category) <= FraudProbability(true, country, category)
    ensures FraudProbability(aboveP95, country, category) <= FraudProbability(aboveP95, "OTHER", category)
    ensures FraudProbability(aboveP95, country, category) <= FraudProbability(aboveP95, country, "Online Services")
    ensures FraudProbability(true, "OTHER", "Online Services") == 0.15
  {
  }

  /** The seed data's own thresholds, 0.8 and 0.5, higher than the dashboard's 0.7 and 0.3. */
  function SeedVerification(score: real): (v: Verification)
    ensures v == Declined <==> score > 0.8
    ensures v == OtpVerified <==> 0.5 < score <= 0.8
    ensures v == AutoApproved <==> score <= 0.5
  {
    if score > 0.8 then Declined else if score > 0.5 then OtpVerified else AutoApproved
  }

  /**
    The seed data is never stricter than the dashboard's own mapping, and the
    two agree except on the bands `(0.3, 0.5]` and `(0.7, 0.8]`.
   */
  lemma SeedVersusDashboard(score: real)
    ensures Severity(SeedVerification(score)) <= Severity(AuditVerification(score))
    ensures SeedVerification(score) == AuditVerification(score) <==> !(0.3 < score <= 0.5 || 0.7 < score <= 0.8)
  {
  }

  /** The seed data's proof check passes unless the draw is at most 0.02. */
  predicate SeedZkVerified(r: real)
  {
    r > 0.02
  }

  /** With the same draw, every proof the dashboard accepts the seed data accepts too, and they differ exactly on `(0.02, 0.05]`. */
  lemma ZkRates(r: real)
    ensures DashboardZkVerified(r) ==> SeedZkVerified(r)
    ensures SeedZkVerified(r) && !DashboardZkVerified(r) <==> 0.02 < r <= 0.05
  {
  }

  // ---------------------------------------------------------------------------
  // Timestamps
  // ---------------------------------------------------------------------------

  ghost predicate Ascending(s: seq<real>)
  {
    forall i, j :: 0 <= i < j < |s| ==> s[i] <= s[j]
  }

  /** Every element of `s` is at least `x`. */
  ghost predicate AllAtLeast(s: seq<real>, x: real)
  {
    forall i :: 0 <= i < |s| ==> x <= s[i]
  }

  function Insert(x: real, s: seq<real>): (r: seq<real>)
    requires Ascending(s)
    ensures Ascending(r)
    ensures multiset(r) == multiset(s) + multiset{x}
    ensures |r| == |s| + 1
  {
    if s == [] || x <= s[0] then [x] + s
    else
      var rest := Insert(x, s[1..]);
      assert s == [s[0]] + s[1..];
      LowerBoundKept(rest, s[1..], x, s[0]);
      [s[0]] + rest
  }

  /** A lower bound of `s` and of `x` is a lower bound of any rearrangement of `s` plus `x`. */
  lemma LowerBoundKept(r: seq<real>, s: seq<real>, x: real, b: real)
    requires multiset(r) == multiset(s) + multiset{x}
    requires AllAtLeast(s, b) && b <= x
    ensures AllAtLeast(r, b)
  {
    forall i | 0 <= i < |r|
      ensures b <= r[i]
    {
      assert r[i] in multiset(r);
      if r[i] != x {
        assert r[i] in multiset(s);
        assert r[i] in s;
      }
    }
  }

  /** `timestamps.sort()`: ascending, and a rearrangement of the draws. */
  function SortAscending(s: seq<real>): (r: seq<real>)
    ensures Ascending(r)
    ensures multiset(r) == multiset(s)
    ensures |r| == |s|
  {
    if s == [] then []
    else
      assert s == [s[0]] + s[1..];
      Insert(s[0], SortAscending(s[1..]))
  }

  /** `start + (end - start) * random()` for each unit draw. */
  function DrawTimes(start: real, span: real, us: seq<real>): (r: seq<real>)
    requires span >= 0.0
    requires forall i :: 0 <= i < |us| ==> IsUnit(us[i])
    ensures |r| == |us|
    ensures forall i :: 0 <= i < |r| ==> start <= r[i] <= start + span
  {
    if us == [] then [] else [Uniform(start, start + span, us[0])] + DrawTimes(start, span, us[1..])
  }

  /** The timestamp column: the draws sorted ascending, all inside the window `[start, start + span]`. */
  function TimestampColumn(start: real, span: real, us: seq<real>): (r: seq<real>)
    requires span >= 0.0
    requires forall i :: 0 <= i < |us| ==> IsUnit(us[i])
    ensures |r| == |us|
    ensures Ascending(r)
    ensures multiset(r) == multiset(DrawTimes(start, span, us))
    ensures forall i :: 0 <= i < |r| ==> start <= r[i] <= start + span
  {
    var drawn := DrawTimes(start, span, us);
    var sorted := SortAscending(drawn);
    forall i | 0 <= i < |sorted|
      ensures start <= sorted[i] <= start + span
    {
      assert sorted[i] in multiset(drawn);
      assert sorted[i] in drawn;
    }
    sorted
  }

  // ---------------------------------------------------------------------------
  // Users
  // ---------------------------------------------------------------------------

  /** `n_users = int(n_samples * 0.7)`; it is zero exactly for one or no sample. */
  function UserCount(n: nat): (k: nat)
    ensures k <= n
    ensures k == 0 <==> n <= 1
  {
    var x := n as real * 0.7;
    var k := Trunc(x);
    assert n >= 2 ==> x >= 1.4;
    k
  }

  /** `f"USER{randint(1000, 9999)}"`. */
  function UserName(number: nat): (s: string)
    ensures |s| > 4 && s[..4] == "USER"
  {
    "USER" + Digits(number)
  }

  function UserNames(numbers: seq<nat>): (r: seq<string>)
    ensures |r| == |numbers|
    ensures forall i :: 0 <= i < |r| ==> r[i] == UserName(numbers[i])
  {
    if numbers == [] then [] else [UserName(numbers[0])] + UserNames(numbers[1..])
  }

  /** `random.choices(population)` for one element: index `floor(random() * len(population))`, an `IndexError` when empty. */
  function ChooseOne<T>(population: seq<T>, u: real): (r: Result<T>)
    requires IsHalfOpenUnit(u)
    ensures r.Err? <==> |population| == 0
    ensures r.Err? ==> r.error == IndexError
    ensures r.Ok? ==> r.value in population
  {
    if |population| == 0 then Err(IndexError)
    else
      var n := |population| as real;
      assert u * n < n by {
        assert u * n < 1.0 * n;
      }
      Ok(population[(u * n).Floor])
  }

  // ---------------------------------------------------------------------------
  // Transactions
  // ---------------------------------------------------------------------------

  const Banks: seq<string> := ["Bank A", "Bank B", "Bank C"]
  const Categories: seq<string> := ["Retail", "Food", "Travel", "Online Services", "Entertainment", "Other"]
  const Countries: seq<string> := ["TH", "US", "SG", "JP", "OTHER"]
  const Devices: seq<string> := ["Mobile", "Web", "ATM", "POS", "Other"]

  /** The header of the transactions CSV this generator writes, in column order. */
  const TransactionColumns: seq<string> := [
    "Timestamp", "TransactionID", "UserID", "Bank", "Amount", "Category",
    "Country", "Device", "IsFraud", "FraudScore", "Verification", "ZKProof"]

  /** The per-row draws; weighted `choices` draws are the chosen value. */
  datatype SeedDraw = SeedDraw(
    idNumber: nat,
    bank: string,
    amount: real,
    userU: real,
    category: string,
    country: string,
    device: string,
    fraudU: real,
    score: real,
    zkU: real)

  predicate ValidSeedDraw(d: SeedDraw)
  {
    && 10000 <= d.idNumber <= 99999
    && d.bank in Banks && d.category in Categories && d.country in Countries && d.device in Devices
    && d.amount > 0.0
    && IsHalfOpenUnit(d.userU) && IsHalfOpenUnit(d.fraudU) && IsHalfOpenUnit(d.zkU)
    && 0.0 <= d.score <= 1.0
  }

  datatype SeedRow = SeedRow(
    timestamp: real,
    transactionId: string,
    user: string,
    bank: string,
    amount: real,
    category: string,
    country: string,
    device: string,
    isFraud: bool,
    fraudScore: real,
    verification: Verification,
    zkVerified: bool)

  /** One row, with the fraud label drawn against the row's risk-adjusted probability. */
  function SeedRowOf(time: real, d: SeedDraw, users: seq<string>, p95: real): (row: SeedRow)
    requires ValidSeedDraw(d) && |users| > 0
    ensures row.user in users
    ensures row.isFraud ==> d.fraudU < 0.15
    ensures row.isFraud <==> d.fraudU < FraudProbability(d.amount > p95, d.country, d.category)
    ensures row.verification == SeedVerification(row.fraudScore)
    ensures row.zkVerified <==> SeedZkVerified(d.zkU)
    ensures row.timestamp == time && row.fraudScore == d.score
  {
    SeedRow(
      time, "TX" + Digits(d.idNumber), ChooseOne(users, d.userU).value,
      d.bank, d.amount, d.category, d.country, d.device,
      d.fraudU < FraudProbability(d.amount > p95, d.country, d.category),
      d.score, SeedVerification(d.score), SeedZkVerified(d.zkU))
  }

  function SeedRows(times: seq<real>, draws: seq<SeedDraw>, users: seq<string>, p95: real): (rows: seq<SeedRow>)
    requires |times| == |draws| && |users| > 0
    requires forall i :: 0 <= i < |draws| ==> ValidSeedDraw(draws[i])
    ensures |rows| == |draws|
    ensures forall i :: 0 <= i < |rows| ==> rows[i] == SeedRowOf(times[i], draws[i], users, p95)
    ensures forall i :: 0 <= i < |rows| ==>
              && rows[i].timestamp == times[i]
              && rows[i].user in users
              && rows[i].verification == SeedVerification(rows[i].fraudScore)
              && (rows[i].isFraud <==> draws[i].fraudU < FraudProbability(draws[i].amount > p95, draws[i].country, draws[i].category))
              && (rows[i].zkVerified <==> SeedZkVerified(draws[i].zkU))
  {
    if draws == [] then []
    else [SeedRowOf(times[0], draws[0], users, p95)] + SeedRows(times[1..], draws[1..], users, p95)
  }

  predicate ValidSeedDraws(n: int, span: real, timeUs: seq<real>, draws: seq<SeedDraw>, userNumbers: seq<nat>)
  {
    && span >= 0.0
    && (n >= 0 ==> |timeUs| == n && |draws| == n && |userNumbers| == UserCount(n))
    && (forall i :: 0 <= i < |timeUs| ==> IsUnit(timeUs[i]))
    && (forall i :: 0 <= i < |draws| ==> ValidSeedDraw(draws[i]))
  }

  /**
    `generate_transactions(n)`: a negative count fails in NumPy's lognormal
    draw, a single sample fails because its user list is empty, and otherwise
    there are `n` rows with ascending timestamps, each row's label, verification
    and proof status following the rules above.
   */
  function GenerateSeedTransactions(n: int, start: real, span: real, timeUs: seq<real>, draws: seq<SeedDraw>,
                                    userNumbers: seq<nat>, p95: real): (r: Result<seq<SeedRow>>)
    requires ValidSeedDraws(n, span, timeUs, draws, userNumbers)
    ensures r.Err? <==> n < 0 || n == 1
    ensures n < 0 ==> r == Err(ValueError)
    ensures n == 1 ==> r == Err(IndexError)
    ensures r.Ok? ==> |r.value| == n
    ensures r.Ok? ==> forall i, j :: 0 <= i < j < |r.value| ==> r.value[i].timestamp <= r.value[j].timestamp
    ensures r.Ok? ==> forall i :: 0 <= i < |r.value| ==>
              && r.value[i].user in UserNames(userNumbers)
              && r.value[i].verification == SeedVerification(r.value[i].fraudScore)
              && (r.value[i].isFraud <==> draws[i].fraudU < FraudProbability(draws[i].amount > p95, draws[i].country, draws[i].category))
              && (r.value[i].zkVerified <==> SeedZkVerified(draws[i].zkU))
  {
    if n < 0 then Err(ValueError)
    else if n == 0 then Ok([])
    else if UserCount(n) == 0 then Err(IndexError)
    else
      var times := TimestampColumn(start, span, timeUs);
      Ok(SeedRows(times, draws, UserNames(userNumbers), p95))
  }

  // ---------------------------------------------------------------------------
  // Model metrics
  // ---------------------------------------------------------------------------

  const Epsilons: seq<real> := [0.1, 0.5, 1.0, 2.0, 5.0, 10.0]
  const Models: seq<string> := ["Bank A", "Bank B", "Bank C", "Federated"]

  datatype BaseMetrics = BaseMetrics(auc: real, precision: real, recall: real, f1: real, latency: real)

  /** The metrics of each model at minimal privacy, in the order of `Models`. */
  function BaseOf(m: nat): BaseMetrics
    requires m < |Models|
  {
    if m == 0 then BaseMetrics(0.82, 0.75, 0.71, 0.73, 12.0)
    else if m == 1 then BaseMetrics(0.79, 0.72, 0.68, 0.70, 15.0)
    else if m == 2 then BaseMetrics(0.84, 0.78, 0.73, 0.75, 13.0)
    else BaseMetrics(0.89, 0.83, 0.81, 0.82, 18.0)
  }

  /**
    `max(0.5, min(1, 1 - 0.3 / sqrt(eps)))` for `eps > 0` (0 otherwise, then
    clamped); `root` is the value of `sqrt(eps)`.
   */
  function PrivacyImpact(eps: real, root: real): (r: real)
    requires eps > 0.0 ==> root > 0.0
    ensures 0.5 <= r <= 1.0
    ensures eps <= 0.0 ==> r == 0.5
  {
    var raw := if eps > 0.0 then 1.0 - 0.3 / root else 0.0;
    Max(0.5, Min(1.0, raw))
  }

  /**
    A weaker privacy setting never lowers the impact factor: a larger epsilon
    with a larger square root, including the step up from `eps == 0`, where
    the factor is its minimum 0.5.
   */
  lemma PrivacyImpactMonotone(eps: real, root: real, eps': real, root': real)
    requires 0.0 <= eps <= eps'
    requires eps > 0.0 ==> 0.0 < root <= root'
    requires eps' > 0.0 ==> root' > 0.0
    ensures PrivacyImpact(eps, root) <= PrivacyImpact(eps', root')
  {
    if eps > 0.0 {
      ReciprocalAntitone(root, root');
    }
  }

  /** Dividing 0.3 by a larger positive number gives a smaller quotient. */
  lemma ReciprocalAntitone(a: real, b: real)
    requires 0.0 < a <= b
    ensures 0.3 / b <= 0.3 / a
  {
    var x := 0.3 / b;
    var y := 0.3 / a;
    assert x * b == 0.3 && y * a == 0.3;
    assert y > 0.0;
    assert y * a <= y * b;
    if x > y {
      assert x * b > y * b;
    }
  }

  datatype MetricRow = MetricRow(model: string, epsilon: real, rocAuc: real, precision: real, recall: real, f1: real, latency: real)

  function MetricRowOf(e: nat, m: nat, root: real): (row: MetricRow)
    requires e < |Epsilons| && m < |Models| && root > 0.0
    ensures row.model == Models[m] && row.epsilon == Epsilons[e]
    ensures 0.5 * BaseOf(m).auc <= row.rocAuc <= BaseOf(m).auc
    ensures 0.5 * BaseOf(m).precision <= row.precision <= BaseOf(m).precision
    ensures 0.5 * BaseOf(m).recall <= row.recall <= BaseOf(m).recall
    ensures 0.5 * BaseOf(m).f1 <= row.f1 <= BaseOf(m).f1
    ensures row.latency >= BaseOf(m).latency
  {
    var eps := Epsilons[e];
    var impact := PrivacyImpact(eps, root);
    var base := BaseOf(m);
    MetricRow(Models[m], eps, base.auc * impact, base.precision * impact, base.recall * impact, base.f1 * impact,
              base.latency * (if eps > 0.0 then 1.0 + 0.5 / eps else 10.0))
  }

  /**
    `generate_model_metrics()`: one row per (epsilon, model) pair, epsilons in
    the outer loop; `roots[e]` is `sqrt(Epsilons[e])`.
   */
  function ModelMetrics(roots: seq<real>): (rows: seq<MetricRow>)
    requires |roots| == |Epsilons|
    requires forall e :: 0 <= e < |roots| ==> roots[e] > 0.0
    ensures |rows| == 24
    ensures forall i :: 0 <= i < 24 ==> rows[i].epsilon == Epsilons[i / 4] && rows[i].model == Models[i % 4]
    ensures forall i :: 0 <= i < 24 ==> 0.5 * BaseOf(i % 4).auc <= rows[i].rocAuc <= BaseOf(i % 4).auc
    ensures forall i :: 0 <= i < 24 ==> 0.5 * BaseOf(i % 4).precision <= rows[i].precision <= BaseOf(i % 4).precision
    ensures forall i :: 0 <= i < 24 ==> 0.5 * BaseOf(i % 4).recall <= rows[i].recall <= BaseOf(i % 4).recall
    ensures forall i :: 0 <= i < 24 ==> 0.5 * BaseOf(i % 4).f1 <= rows[i].f1 <= BaseOf(i % 4).f1
  {
    seq(24, i requires 0 <= i < 24 => MetricRowOf(i / 4, i % 4, roots[i / 4]))
  }

  /** Each (epsilon, model) pair labels exactly one row of the metric table. */
  lemma MetricPairsExactlyOnce(roots: seq<real>, e: nat, m: nat)
    requires |roots| == |Epsilons|
    requires forall k :: 0 <= k < |roots| ==> roots[k] > 0.0
    requires e < |Epsilons| && m < |Models|
    ensures ModelMetrics(roots)[4 * e + m].epsilon == Epsilons[e]
    ensures ModelMetrics(roots)[4 * e + m].model == Models[m]
    ensures forall i :: 0 <= i < 24 && ModelMetrics(roots)[i].epsilon == Epsilons[e] && ModelMetrics(roots)[i].model == Models[m] ==> i == 4 * e + m
  {
    var rows := ModelMetrics(roots);
    forall i | 0 <= i < 24 && rows[i].epsilon == Epsilons[e] && rows[i].model == Models[m]
      ensures i == 4 * e + m
    {
      EpsilonsDistinct(i / 4, e);
      ModelsDistinct(i % 4, m);
    }
  }

  lemma EpsilonsDistinct(a: nat, b: nat)
    requires a < |Epsilons| && b < |Epsilons| && Epsilons[a] == Epsilons[b]
    ensures a == b
  {
  }

  lemma ModelsDistinct(a: nat, b: nat)
    requires a < |Models| && b < |Models| && Models[a] == Models[b]
    ensures a == b
  {
  }

  // ---------------------------------------------------------------------------
  // Federated learning progress
  // ---------------------------------------------------------------------------

  const Rounds: nat := 30

  datatype Curve = Curve(baseAuc: real, maxAuc: real, learningRate: real)

  /** The learning-curve parameters; any model other than the three named ones gets Bank C's. */
  function CurveOf(model: string): (c: Curve)
    ensures 0.6 <= c.baseAuc < c.maxAuc <= 0.89
  {
    if model == "Federated" then Curve(0.7, 0.89, 0.15)
    else if model == "Bank A" then Curve(0.65, 0.82, 0.12)
    else if model == "Bank B" then Curve(0.63, 0.79, 0.11)
    else Curve(0.67, 0.84, 0.13)
  }

  /** The draws of one progress row: `decay` is `exp(-learning_rate * round)`, the rest are the four noise draws. */
  datatype ProgressDraw = ProgressDraw(decay: real, aucU: real, precisionU: real, recallU: real, f1U: real)

  predicate ValidProgressDraw(d: ProgressDraw)
  {
    0.0 < d.decay <= 1.0 && IsUnit(d.aucU) && IsUnit(d.precisionU) && IsUnit(d.recallU) && IsUnit(d.f1U)
  }

  datatype ProgressRow = ProgressRow(round: int, model: string, rocAuc: real, precision: real, recall: real, f1: real)

  /** One row: the curve value plus noise of at most 0.01, the other metrics fixed fractions of it plus noise of at most 0.02. */
  function ProgressRowOf(r: int, model: string, d: ProgressDraw): (row: ProgressRow)
    requires ValidProgressDraw(d)
    ensures row.round == r && row.model == model
    ensures CurveOf(model).baseAuc - 0.01 <= row.rocAuc <= CurveOf(model).maxAuc + 0.01
    ensures row.rocAuc * 0.9 - 0.02 <= row.precision <= row.rocAuc * 0.9 + 0.02
    ensures row.rocAuc * 0.85 - 0.02 <= row.recall <= row.rocAuc * 0.85 + 0.02
    ensures row.rocAuc * 0.87 - 0.02 <= row.f1 <= row.rocAuc * 0.87 + 0.02
  {
    var c := CurveOf(model);
    var gap := c.maxAuc - c.baseAuc;
    UnitScaleBounds(gap, 1.0 - d.decay);
    var auc := c.baseAuc + gap * (1.0 - d.decay) + Uniform(-0.01, 0.01, d.aucU);
    ProgressRow(r, model, auc,
                auc * 0.9 + Uniform(-0.02, 0.02, d.precisionU),
                auc * 0.85 + Uniform(-0.02, 0.02, d.recallU),
                auc * 0.87 + Uniform(-0.02, 0.02, d.f1U))
  }

  /** `generate_federation_progress()`: rounds 1 to 30 in the outer loop, the four models in the inner one. */
  function FederationProgress(draws: seq<ProgressDraw>): (rows: seq<ProgressRow>)
    requires |draws| == Rounds * |Models|
    requires forall i :: 0 <= i < |draws| ==> ValidProgressDraw(draws[i])
    ensures |rows| == 120
    ensures forall i :: 0 <= i < 120 ==> rows[i].round == i / 4 + 1 && rows[i].model == Models[i % 4]
  {
    seq(120, i requires 0 <= i < 120 => ProgressRowOf(i / 4 + 1, Models[i % 4], draws[i]))
  }

  /** Every round from 1 to 30 appears, each with all four models, so the table reports 30 distinct rounds. */
  lemma ProgressCoversRounds(draws: seq<ProgressDraw>, r: int, m: nat)
    requires |draws| == Rounds * |Models|
    requires forall i :: 0 <= i < |draws| ==> ValidProgressDraw(draws[i])
    requires 1 <= r <= Rounds && m < |Models|
    ensures exists i :: 0 <= i < 120 && FederationProgress(draws)[i].round == r && FederationProgress(draws)[i].model == Models[m]
    ensures forall i :: 0 <= i < 120 ==> 1 <= FederationProgress(draws)[i].round <= Rounds
  {
    var i := 4 * (r - 1) + m;
    assert FederationProgress(draws)[i].round == r;
  }
}
