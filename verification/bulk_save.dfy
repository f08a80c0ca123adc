/**
  The bulk generator's driver: the terminal progress bar, the split of the
  requested total into full chunks and a remainder, and the sequence of CSV
  writes (rows, file mode, header) it performs.
 */
module BulkSave {
  import opened Numeric
  import opened Outcomes
  import opened Shuffling

  // ---------------------------------------------------------------------------
  // Progress bar
  // ---------------------------------------------------------------------------

  /** `c * n` in Python: `n` copies of `c`, the empty string for `n <= 0`. */
  function Repeat(c: char, n: int): (s: string)
    ensures |s| == MaxInt(0, n)
    ensures forall i :: 0 <= i < |s| ==> s[i] == c
    decreases n
  {
    if n <= 0 then "" else [c] + Repeat(c, n - 1)
  }

  /** The bar's fill character. */
  const Fill: char := '\U{2588}'

  /** The bar of `print_progress_bar`, and whether the call ends the line. */
  datatype BarLine = BarLine(bar: string, filled: int, finished: bool)

  /** `length * iteration // total`. */
  function FilledLength(length: int, iteration: int, total: int): int
    requires total != 0
  {
    FloorDiv(length * iteration, total)
  }

  /**
    `print_progress_bar(iteration, total, length=length)` without the output:
    a total of zero fails in the percentage's division; otherwise `filled`
    cells of the fill character, then dashes up to `length`.
   */
  function ProgressBar(iteration: int, total: int, length: int): (r: Result<BarLine>)
    ensures r.Err? <==> total == 0
    ensures r.Err? ==> r.error == ZeroDivisionError
    ensures r.Ok? ==> (r.value.finished <==> iteration == total)
    ensures r.Ok? ==> forall i :: 0 <= i < |r.value.bar| ==> (r.value.bar[i] == Fill <==> i < r.value.filled)
    ensures r.Ok? && 0 <= iteration <= total && 0 <= length ==> |r.value.bar| == length && 0 <= r.value.filled <= length
  {
    if total == 0 then Err(ZeroDivisionError)
    else
      var filled := FilledLength(length, iteration, total);
      var line := BarLine(Repeat(Fill, filled) + Repeat('-', length - filled), filled, iteration == total);
      if 0 <= iteration <= total && 0 <= length then
        FillBounds(length, iteration, total);
        Ok(line)
      else
        Ok(line)
  }

  /** The floor quotient is the unique `k` with `k * t <= a < k * t + t`. */
  lemma QuotientUnique(a: int, t: int, k: int)
    requires t > 0 && k * t <= a < k * t + t
    ensures FloorDiv(a, t) == k
  {
    var q := FloorDiv(a, t);
    assert (q - k) * t == q * t - k * t;
    ProductBetween(q - k, t);
  }

  /** A negative multiple of a positive `t` is at most `-t`. */
  lemma {:induction false} NegativeMultiple(x: int, t: int)
    requires t > 0 && x < 0
    ensures x * t <= -t
    decreases -x
  {
    if x < -1 {
      NegativeMultiple(x + 1, t);
      assert x * t == (x + 1) * t - t;
    }
  }

  /** An integer multiple of `t` strictly between `-t` and `t` is zero. */
  lemma ProductBetween(x: int, t: int)
    requires t > 0 && -t < x * t < t
    ensures x == 0
  {
    if x < 0 {
      NegativeMultiple(x, t);
    } else if x > 0 {
      NegativeMultiple(-x, t);
    }
  }

  /** Within the run, the filled length stays between 0 and `length`. */
  lemma FillBounds(length: int, iteration: int, total: int)
    requires 0 <= iteration <= total && 0 < total && 0 <= length
    ensures 0 <= FilledLength(length, iteration, total) <= length
  {
    var q := FilledLength(length, iteration, total);
    assert 0 <= length * iteration <= length * total;
    assert q * total <= length * total;
    assert -total < q * total;
    SignOfProduct(q, total);
    SignOfProduct(length - q, total);
    assert (length - q) * total == length * total - q * total;
  }

  /** With `t > 0`, a product above `-t` has a non-negative left factor. */
  lemma SignOfProduct(x: int, t: int)
    requires t > 0
    ensures x * t > -t ==> x >= 0
  {
    if x < 0 {
      NegativeMultiple(x, t);
    }
  }

  /** For a positive length the bar is full exactly at the last iteration. */
  lemma FillFullIff(length: int, iteration: int, total: int)
    requires 0 <= iteration <= total && 0 < total && 0 < length
    ensures FilledLength(length, iteration, total) == length <==> iteration == total
  {
    if iteration == total {
      QuotientUnique(length * total, total, length);
    } else {
      FillShortBefore(length, iteration, total);
    }
  }

  /** Before the last iteration the bar still has an empty cell. */
  lemma FillShortBefore(length: int, iteration: int, total: int)
    requires 0 <= iteration < total && 0 < length
    ensures FilledLength(length, iteration, total) < length
  {
    var q := FilledLength(length, iteration, total);
    var done := length * iteration;
    MultiplyMonotone(length, iteration, total - 1);
    assert done <= length * (total - 1);
    assert length * (total - 1) == length * total - length;
    assert q * total <= done;
    var gap := (length - q) * total;
    assert gap == length * total - q * total;
    assert gap >= length > 0;
    SignOfProduct(length - q - 1, total);
  }

  /** Multiplying by a non-negative factor keeps the order. */
  lemma MultiplyMonotone(x: int, y: int, z: int)
    requires x >= 0 && y <= z
    ensures x * y <= x * z
  {
    assert x * z - x * y == x * (z - y);
  }

  /** The bar never shrinks as the iteration advances. */
  lemma FillMonotone(length: int, i: int, j: int, total: int)
    requires 0 < total && 0 <= length && i <= j
    ensures FilledLength(length, i, total) <= FilledLength(length, j, total)
  {
    var p := FilledLength(length, i, total);
    var q := FilledLength(length, j, total);
    assert length * i <= length * j;
    assert (q - p) * total == q * total - p * total;
    SignOfProduct(q - p, total);
  }

  // ---------------------------------------------------------------------------
  // Chunks and writes
  // ---------------------------------------------------------------------------

  /** `num_chunks = total // chunk_size` and `remaining = total % chunk_size`. */
  function ChunkSplit(total: int, chunkSize: int): (r: Result<(int, int)>)
    ensures r.Err? <==> chunkSize == 0
    ensures r.Ok? ==> r.value.0 * chunkSize + r.value.1 == total
    ensures r.Ok? && chunkSize > 0 ==> 0 <= r.value.1 < chunkSize
    ensures r.Ok? && chunkSize > 0 && total >= 0 ==> r.value.0 >= 0
  {
    if chunkSize == 0 then Err(ZeroDivisionError)
    else
      var n := FloorDiv(total, chunkSize);
      var m := FloorMod(total, chunkSize);
      NonNegativeQuotient(total, chunkSize);
      Ok((n, m))
  }

  lemma NonNegativeQuotient(total: int, chunkSize: int)
    requires chunkSize != 0
    ensures chunkSize > 0 && total >= 0 ==> FloorDiv(total, chunkSize) >= 0
  {
    if chunkSize > 0 {
      SignOfProduct(FloorDiv(total, chunkSize), chunkSize);
    }
  }

  /** `to_csv`'s `mode='w'` (truncate) or `mode='a'` (append). */
  datatype FileMode = Overwrite | Append

  /** One `to_csv` call: how many rows, the chunk's start index, the file mode and whether a header line is written. */
  datatype CsvWrite = CsvWrite(rows: nat, startIndex: int, mode: FileMode, header: bool)

  /** The rows a chunk of the given size holds: `range(size)` is empty for a non-positive size. */
  function ChunkRows(size: int): nat
  {
    MaxInt(0, size) as nat
  }

  /** Number of full chunks the loop runs: `range(num_chunks)` is empty when it is negative. */
  function Iterations(total: int, chunkSize: int): nat
    requires chunkSize != 0
  {
    MaxInt(0, FloorDiv(total, chunkSize)) as nat
  }

  /**
    The writes of the first `k` loop iterations: the first one truncates the
    file and writes the header, every later one appends without it.
   */
  function FullWrites(k: nat, chunkSize: int): (ws: seq<CsvWrite>)
    ensures |ws| == k
  {
    seq(k, i => CsvWrite(ChunkRows(chunkSize), i * chunkSize, if i == 0 then Overwrite else Append, i == 0))
  }

  /**
    The writes of `generate_and_save_transactions` as written: the remainder
    is always appended without a header, even when no full chunk came before.
   */
  function WrittenPlan(total: int, chunkSize: int): (ws: seq<CsvWrite>)
    requires chunkSize != 0
  {
    var n := FloorDiv(total, chunkSize);
    var rem := FloorMod(total, chunkSize);
    FullWrites(Iterations(total, chunkSize), chunkSize)
      + (if rem > 0 then [CsvWrite(rem, n * chunkSize, Append, false)] else [])
  }

  /**
    The writes with the remainder using the mode and header the loop leaves
    behind: truncate-with-header when no full chunk was written.
   */
  function SavePlan(total: int, chunkSize: int): (ws: seq<CsvWrite>)
    requires chunkSize != 0
  {
    var n := FloorDiv(total, chunkSize);
    var rem := FloorMod(total, chunkSize);
    var k := Iterations(total, chunkSize);
    FullWrites(k, chunkSize)
      + (if rem > 0 then [CsvWrite(rem, n * chunkSize, if k == 0 then Overwrite else Append, k == 0)] else [])
  }

  /** What a run leaves behind: the CSV writes and the progress bars drawn after each full chunk. */
  datatype SaveRun = SaveRun(writes: seq<CsvWrite>, bars: seq<BarLine>)

  /**
    `generate_and_save_transactions(total, output_file, chunk_size)` with the
    remainder write corrected (see `WrittenPlan`): the loop keeps `mode` and
    `header`, draws a 40-cell bar after every chunk, and the last bar is the
    only one that ends the line.
   */
  method SaveTransactions(total: int, chunkSize: int) returns (r: Result<SaveRun>)
    ensures r.Err? <==> chunkSize == 0
    ensures r.Err? ==> r.error == ZeroDivisionError
    ensures r.Ok? ==> r.value.writes == SavePlan(total, chunkSize)
    ensures r.Ok? ==> |r.value.bars| == Iterations(total, chunkSize)
    ensures r.Ok? ==> forall i :: 0 <= i < |r.value.bars| ==>
      ProgressBar(i + 1, |r.value.bars|, 40) == Ok(r.value.bars[i])
    ensures r.Ok? ==> forall i :: 0 <= i < |r.value.bars| ==>
      |r.value.bars[i].bar| == 40 && (r.value.bars[i].finished <==> i == |r.value.bars| - 1)
  {
    if chunkSize == 0 {
      return Err(ZeroDivisionError);
    }
    var numChunks := FloorDiv(total, chunkSize);
    var remaining := FloorMod(total, chunkSize);
    var k := Iterations(total, chunkSize);
    var header := true;
    var mode := Overwrite;
    var writes: seq<CsvWrite> := [];
    var bars: seq<BarLine> := [];
    var i := 0;
    while i < numChunks
      invariant 0 <= i <= k
      invariant k > 0 ==> k == numChunks
      invariant writes == FullWrites(i, chunkSize)
      invariant header <==> i == 0
      invariant mode == (if i == 0 then Overwrite else Append)
      invariant |bars| == i
      invariant forall j :: 0 <= j < i ==> ProgressBar(j + 1, k, 40) == Ok(bars[j])
      invariant forall j :: 0 <= j < i ==> |bars[j].bar| == 40 && (bars[j].finished <==> j == k - 1)
    {
      writes := writes + [CsvWrite(ChunkRows(chunkSize), i * chunkSize, mode, header)];
      mode := Append;
      header := false;
      var bar := ProgressBar(i + 1, numChunks, 40);
      bars := bars + [bar.value];
      i := i + 1;
    }
    if remaining > 0 {
      writes := writes + [CsvWrite(remaining, numChunks * chunkSize, mode, header)];
    }
    return Ok(SaveRun(writes, bars));
  }

  /** Total rows over a list of writes. */
  function TotalRows(ws: seq<CsvWrite>): nat
  {
    if ws == [] then 0 else TotalRows(ws[..|ws| - 1]) + ws[|ws| - 1].rows
  }

  function IsHeader(w: CsvWrite): bool
  {
    w.header
  }

  lemma {:induction false} FullWritesRows(k: nat, chunkSize: int)
    ensures TotalRows(FullWrites(k, chunkSize)) == k * ChunkRows(chunkSize)
  {
    if k > 0 {
      assert FullWrites(k, chunkSize)[..k - 1] == FullWrites(k - 1, chunkSize);
      FullWritesRows(k - 1, chunkSize);
    }
  }

  /** For a positive chunk size and a non-negative total, the writes hold exactly `total` rows. */
  lemma SavePlanRows(total: int, chunkSize: int)
    requires total >= 0 && chunkSize > 0
    ensures TotalRows(SavePlan(total, chunkSize)) == total
  {
    var n := FloorDiv(total, chunkSize);
    var rem := FloorMod(total, chunkSize);
    NonNegativeQuotient(total, chunkSize);
    var full := FullWrites(n, chunkSize);
    FullWritesRows(n, chunkSize);
    var ws := SavePlan(total, chunkSize);
    if rem > 0 {
      assert ws[..|ws| - 1] == full;
    } else {
      assert ws == full;
    }
  }

  /**
    The source does not reject a negative total: no full chunk is written,
    and the remainder, which Python's `%` makes non-negative, is written on
    its own, so the file holds `total % chunkSize` rows. As written it is
    appended without a header; the corrected plan truncates and writes one.
   */
  lemma NegativeTotalRows(total: int, chunkSize: int)
    requires total < 0 && chunkSize > 0
    ensures Iterations(total, chunkSize) == 0
    ensures TotalRows(WrittenPlan(total, chunkSize)) == FloorMod(total, chunkSize)
    ensures FloorMod(total, chunkSize) > 0 ==>
      WrittenPlan(total, chunkSize) == [CsvWrite(FloorMod(total, chunkSize), FloorDiv(total, chunkSize) * chunkSize, Append, false)]
    ensures TotalRows(SavePlan(total, chunkSize)) == FloorMod(total, chunkSize)
    ensures FloorMod(total, chunkSize) > 0 ==>
      SavePlan(total, chunkSize) == [CsvWrite(FloorMod(total, chunkSize), FloorDiv(total, chunkSize) * chunkSize, Overwrite, true)]
  {
    var q := FloorDiv(total, chunkSize);
    assert (-q) * chunkSize == -(q * chunkSize);
    SignOfProduct(-q, chunkSize);
    assert q < 0;
    var ws := SavePlan(total, chunkSize);
    var wr := WrittenPlan(total, chunkSize);
    if FloorMod(total, chunkSize) > 0 {
      assert ws[..|ws| - 1] == [];
      assert wr[..|wr| - 1] == [];
    }
  }

  /**
    In the corrected plan the first write, and only it, writes the header,
    and it is the one that truncates the file; every later write appends.
   */
  lemma SavePlanHeaderOnce(total: int, chunkSize: int)
    requires chunkSize != 0
    ensures forall i :: 0 <= i < |SavePlan(total, chunkSize)| ==>
      (SavePlan(total, chunkSize)[i].header <==> i == 0) &&
      (SavePlan(total, chunkSize)[i].mode == Overwrite <==> i == 0)
    ensures total > 0 && chunkSize > 0 ==>
      |SavePlan(total, chunkSize)| >= 1 && Count(SavePlan(total, chunkSize), IsHeader) == 1
  {
    var ws := SavePlan(total, chunkSize);
    if total > 0 && chunkSize > 0 {
      NonNegativeQuotient(total, chunkSize);
      assert |ws| >= 1 by {
        if FloorDiv(total, chunkSize) == 0 {
          assert FloorMod(total, chunkSize) == total;
        }
      }
      assert ws == [ws[0]] + ws[1..];
      CountAppend([ws[0]], ws[1..], IsHeader);
      CountUniform(ws[1..], IsHeader, false);
    }
  }

  /** The written and the corrected plan differ only when no full chunk is written. */
  lemma PlansAgree(total: int, chunkSize: int)
    requires chunkSize != 0
    ensures Iterations(total, chunkSize) > 0 ==> WrittenPlan(total, chunkSize) == SavePlan(total, chunkSize)
  {
  }

  /**
    As written, a total smaller than one chunk is appended to whatever the
    output file already holds, and without the header line: no write
    truncates the file and none writes the header.
   */
  lemma ShortTotalNoHeader(total: int, chunkSize: int)
    requires 0 < total < chunkSize
    ensures WrittenPlan(total, chunkSize) == [CsvWrite(total, 0, Append, false)]
    ensures Count(WrittenPlan(total, chunkSize), IsHeader) == 0
  {
    QuotientUnique(total, chunkSize, 0);
    assert FloorMod(total, chunkSize) == total;
    assert WrittenPlan(total, chunkSize) == [CsvWrite(total, 0, Append, false)];
  }
}
