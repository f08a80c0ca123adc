/**
  The dashboard's audit-log loader: the transactions file's header is brought
  to the dashboard's column names by three conditional renames, and unless all
  seven required columns are then present the loader falls back to a generated
  sample log of 100 entries.
 */
module AuditLog {
  import opened Outcomes
  import SeedData
  import BulkRecords

  /** The columns the audit view selects, in this order. */
  const RequiredColumns: seq<string> := [
    "Timestamp", "Transaction ID", "Bank", "Amount", "Fraud Score", "Verification", "ZK Proof"]

  /** Size of the sample log used as the fallback. */
  const FallbackEntries: nat := 100

  /** One entry of `column_mapping`: a generator's name and the dashboard's name for it. */
  datatype Rename = Rename(from: string, to: string)

  /** `column_mapping`, in its iteration order. */
  const ColumnMapping: seq<Rename> := [
    Rename("TransactionID", "Transaction ID"),
    Rename("FraudScore", "Fraud Score"),
    Rename("ZKProof", "ZK Proof")]

  /**
    One step of the rename loop: `df.rename(columns={from: to})` is applied
    only when `from` is a column and `to` is not; it renames every column
    called `from`.
   */
  function RenameColumn(cols: seq<string>, m: Rename): (r: seq<string>)
    ensures |r| == |cols|
    ensures forall i :: 0 <= i < |cols| && cols[i] != m.from ==> r[i] == cols[i]
    ensures m.from in cols && m.to !in cols ==> forall i :: 0 <= i < |cols| && cols[i] == m.from ==> r[i] == m.to
    ensures !(m.from in cols && m.to !in cols) ==> r == cols
  {
    if m.from in cols && m.to !in cols then
      seq(|cols|, i requires 0 <= i < |cols| => if cols[i] == m.from then m.to else cols[i])
    else
      cols
  }

  /** The renames of `ms`, applied in order. */
  function RenameAll(cols: seq<string>, ms: seq<Rename>): (r: seq<string>)
    ensures |r| == |cols|
    decreases |ms|
  {
    if ms == [] then cols else RenameAll(RenameColumn(cols, ms[0]), ms[1..])
  }

  /** The header after the loader's rename loop. */
  function NormalizeColumns(cols: seq<string>): (r: seq<string>)
    ensures |r| == |cols|
  {
    RenameAll(cols, ColumnMapping)
  }

  /** `missing_columns`: the required columns absent from `cols`, in required order. */
  function MissingColumns(required: seq<string>, cols: seq<string>): (r: seq<string>)
    ensures forall c :: c in r <==> c in required && c !in cols
    ensures |r| <= |required|
  {
    if required == [] then []
    else (if required[0] in cols then [] else [required[0]]) + MissingColumns(required[1..], cols)
  }

  /** What the audit view shows: the required columns of the file, or the fallback sample log. */
  datatype AuditSource = FromFile(columns: seq<string>) | SampleLog(entries: nat)

  /**
    `load_audit_log()` on the transactions file's header, or `None` when
    reading it raises: the view reads the file's columns exactly when every
    required column is present after the renames.
   */
  function LoadAuditLog(header: Option<seq<string>>): (r: AuditSource)
    ensures header.None? ==> r == SampleLog(FallbackEntries)
    ensures header.Some? ==>
      (r.FromFile? <==> forall c :: c in RequiredColumns ==> c in NormalizeColumns(header.value))
    ensures r.FromFile? ==> r.columns == RequiredColumns
    ensures r.SampleLog? ==> r.entries == FallbackEntries
  {
    match header
    case None => SampleLog(FallbackEntries)
    case Some(cols) =>
      if MissingColumns(RequiredColumns, NormalizeColumns(cols)) == [] then FromFile(RequiredColumns)
      else
        assert MissingColumns(RequiredColumns, NormalizeColumns(cols))[0] in MissingColumns(RequiredColumns, NormalizeColumns(cols));
        SampleLog(FallbackEntries)
  }

  /** The name a rename introduces is never one another rename removes. */
  predicate Compatible(ms: seq<Rename>)
  {
    forall i, j :: 0 <= i < |ms| && 0 <= j < |ms| ==> ms[i].to != ms[j].from
  }

  /** After a rename step, either its source name is gone or its target name is present. */
  predicate Settled(cols: seq<string>, m: Rename)
  {
    m.from !in cols || m.to in cols
  }

  /** A rename step is a no-op on a settled header. */
  lemma RenameSettled(cols: seq<string>, m: Rename)
    requires Settled(cols, m)
    ensures RenameColumn(cols, m) == cols
  {
  }

  /** A rename step settles itself, provided it really renames something. */
  lemma RenameSettles(cols: seq<string>, m: Rename)
    requires m.from != m.to
    ensures Settled(RenameColumn(cols, m), m)
  {
    var r := RenameColumn(cols, m);
    if m.from in cols && m.to !in cols {
      var i :| 0 <= i < |cols| && cols[i] == m.from;
      assert r[i] == m.to;
    }
  }

  /** A rename step keeps any other rename settled when neither touches the other's names. */
  lemma RenameKeepsSettled(cols: seq<string>, m: Rename, n: Rename)
    requires Settled(cols, n)
    requires m.to != n.from && n.to != m.from
    ensures Settled(RenameColumn(cols, m), n)
  {
    var r := RenameColumn(cols, m);
    if n.to in cols {
      var i :| 0 <= i < |cols| && cols[i] == n.to;
      assert r[i] == n.to;
    }
  }

  /** Applying the renames leaves every one of them settled. */
  lemma {:induction false} RenameAllSettles(cols: seq<string>, ms: seq<Rename>)
    requires Compatible(ms)
    requires forall i :: 0 <= i < |ms| ==> ms[i].from != ms[i].to
    ensures forall i :: 0 <= i < |ms| ==> Settled(RenameAll(cols, ms), ms[i])
    decreases |ms|
  {
    if ms != [] {
      var c1 := RenameColumn(cols, ms[0]);
      RenameSettles(cols, ms[0]);
      RenameAllSettles(c1, ms[1..]);
      KeepsSettledAll(c1, ms[1..], ms[0]);
      forall i | 0 <= i < |ms|
        ensures Settled(RenameAll(cols, ms), ms[i])
      {
        if i > 0 {
          assert ms[i] == ms[1..][i - 1];
        }
      }
    }
  }

  /** Renames that do not touch `n`'s names keep `n` settled. */
  lemma {:induction false} KeepsSettledAll(cols: seq<string>, ms: seq<Rename>, n: Rename)
    requires Settled(cols, n)
    requires forall i :: 0 <= i < |ms| ==> ms[i].to != n.from && n.to != ms[i].from
    ensures Settled(RenameAll(cols, ms), n)
    decreases |ms|
  {
    if ms != [] {
      RenameKeepsSettled(cols, ms[0], n);
      KeepsSettledAll(RenameColumn(cols, ms[0]), ms[1..], n);
    }
  }

  /** On a header on which every rename is settled, the renames change nothing. */
  lemma {:induction false} RenameAllSettledNoop(cols: seq<string>, ms: seq<Rename>)
    requires forall i :: 0 <= i < |ms| ==> Settled(cols, ms[i])
    ensures RenameAll(cols, ms) == cols
    decreases |ms|
  {
    if ms != [] {
      RenameSettled(cols, ms[0]);
      RenameAllSettledNoop(cols, ms[1..]);
    }
  }

  /** Loading an already normalised header renames nothing more. */
  lemma NormalizeIdempotent(cols: seq<string>)
    ensures NormalizeColumns(NormalizeColumns(cols)) == NormalizeColumns(cols)
  {
    RenameAllSettles(cols, ColumnMapping);
    RenameAllSettledNoop(NormalizeColumns(cols), ColumnMapping);
  }

  /** Renames whose source names are not `c` never remove a column called `c`. */
  lemma {:induction false} RenameAllKeeps(cols: seq<string>, ms: seq<Rename>, c: string)
    requires c in cols
    requires forall i :: 0 <= i < |ms| ==> ms[i].from != c
    ensures c in RenameAll(cols, ms)
    decreases |ms|
  {
    if ms != [] {
      var r := RenameColumn(cols, ms[0]);
      var i :| 0 <= i < |cols| && cols[i] == c;
      assert r[i] == c;
      RenameAllKeeps(r, ms[1..], c);
    }
  }

  /** No column the dashboard requires is ever renamed away. */
  lemma NormalizeKeepsRequired(cols: seq<string>, c: string)
    requires c in RequiredColumns && c in cols
    ensures c in NormalizeColumns(cols)
  {
    RenameAllKeeps(cols, ColumnMapping, c);
  }

  /** No two renames share a source name. */
  predicate DistinctSources(ms: seq<Rename>)
  {
    forall i, j :: 0 <= i < j < |ms| ==> ms[i].from != ms[j].from
  }

  /** A rename whose source column is present leaves its target present at the end. */
  lemma {:induction false} RenameAllIntroduces(cols: seq<string>, ms: seq<Rename>, k: nat)
    requires Compatible(ms) && DistinctSources(ms)
    requires k < |ms| && ms[k].from in cols
    ensures ms[k].to in RenameAll(cols, ms)
    decreases |ms|
  {
    var c1 := RenameColumn(cols, ms[0]);
    var i :| 0 <= i < |cols| && cols[i] == ms[k].from;
    if k == 0 {
      if ms[0].to in cols {
        var j :| 0 <= j < |cols| && cols[j] == ms[0].to;
        assert c1[j] == ms[0].to;
      } else {
        assert c1[i] == ms[0].to;
      }
      forall j | 0 <= j < |ms[1..]|
        ensures ms[1..][j].from != ms[0].to
      {
        assert ms[1..][j] == ms[j + 1];
      }
      RenameAllKeeps(c1, ms[1..], ms[0].to);
    } else {
      assert c1[i] == ms[k].from;
      assert ms[1..][k - 1] == ms[k];
      RenameAllIntroduces(c1, ms[1..], k - 1);
    }
  }

  /** The dashboard's own mapping satisfies the conditions above. */
  lemma MappingWellFormed()
    ensures Compatible(ColumnMapping) && DistinctSources(ColumnMapping)
    ensures forall i :: 0 <= i < |ColumnMapping| ==> ColumnMapping[i].from != ColumnMapping[i].to
  {
  }

  /**
    A header that holds, for every required column, either that column or
    the generator name the mapping turns into it loads from the file.
   */
  lemma LoadsWhenCovered(cols: seq<string>)
    requires forall c :: c in RequiredColumns ==> c in cols || exists k :: 0 <= k < |ColumnMapping| && ColumnMapping[k].to == c && ColumnMapping[k].from in cols
    ensures LoadAuditLog(Some(cols)) == FromFile(RequiredColumns)
  {
    MappingWellFormed();
    forall c | c in RequiredColumns
      ensures c in NormalizeColumns(cols)
    {
      if c in cols {
        NormalizeKeepsRequired(cols, c);
      } else {
        var k :| 0 <= k < |ColumnMapping| && ColumnMapping[k].to == c && ColumnMapping[k].from in cols;
        RenameAllIntroduces(cols, ColumnMapping, k);
      }
    }
  }

  /** The transactions file of the seed generator loads: its three compact names are renamed into place. */
  lemma SeedFileLoads()
    ensures LoadAuditLog(Some(SeedData.TransactionColumns)) == FromFile(RequiredColumns)
  {
    var cols := SeedData.TransactionColumns;
    assert cols[0] == "Timestamp" && cols[1] == "TransactionID" && cols[3] == "Bank";
    assert cols[4] == "Amount" && cols[9] == "FraudScore" && cols[10] == "Verification" && cols[11] == "ZKProof";
    assert ColumnMapping[0].from == cols[1] && ColumnMapping[1].from == cols[9] && ColumnMapping[2].from == cols[11];
    LoadsWhenCovered(cols);
  }

  /** The bulk and sample generators already use the dashboard's names, so no rename applies to their header. */
  lemma RecordHeaderSettled()
    ensures NormalizeColumns(BulkRecords.Columns) == BulkRecords.Columns
  {
    var cols := BulkRecords.Columns;
    assert ColumnMapping[0].to == cols[1];
    assert ColumnMapping[1].to == cols[13];
    assert ColumnMapping[2].to == cols[15];
    RenameAllSettledNoop(cols, ColumnMapping);
  }

  /** A header that already holds every required column under the dashboard's names loads from the file. */
  lemma LoadsWhenSettled(cols: seq<string>)
    requires NormalizeColumns(cols) == cols
    requires forall j :: 0 <= j < |RequiredColumns| ==> RequiredColumns[j] in cols
    ensures LoadAuditLog(Some(cols)) == FromFile(RequiredColumns)
  {
  }

  /** A file with the bulk or sample generator's header loads from the file. */
  lemma RecordFileLoads()
    ensures LoadAuditLog(Some(BulkRecords.Columns)) == FromFile(RequiredColumns)
  {
    var cols := BulkRecords.Columns;
    RecordHeaderSettled();
    var at: seq<nat> := [0, 1, 2, 4, 13, 14, 15];
    forall j | 0 <= j < |RequiredColumns|
      ensures RequiredColumns[j] in cols
    {
      assert cols[at[j]] == RequiredColumns[j];
    }
    LoadsWhenSettled(cols);
  }

  /** A header missing a required column that no rename supplies falls back to the sample log. */
  lemma MissingFallsBack(cols: seq<string>, c: string)
    requires c in RequiredColumns && c !in cols
    requires forall k :: 0 <= k < |ColumnMapping| ==> ColumnMapping[k].to != c
    ensures LoadAuditLog(Some(cols)) == SampleLog(FallbackEntries)
  {
    RenameAllAbsent(cols, ColumnMapping, c);
  }

  /** Renames that never target `c` cannot make `c` appear. */
  lemma {:induction false} RenameAllAbsent(cols: seq<string>, ms: seq<Rename>, c: string)
    requires c !in cols
    requires forall k :: 0 <= k < |ms| ==> ms[k].to != c
    ensures c !in RenameAll(cols, ms)
    decreases |ms|
  {
    if ms != [] {
      RenameAllAbsent(RenameColumn(cols, ms[0]), ms[1..], c);
    }
  }
}
