/**
 * The backend's `scans` table and the two read endpoints over it:
 * `/api/stats` (row counts) and `/api/recent` (the newest rows).
 * The table is an in-memory sequence of rows in insertion order.
 */
module ScanLog {
  import opened Wrappers

  /** One row of the `scans` table. `isPhishing` is the stored 0/1 flag. */
  datatype ScanRow = ScanRow(id: nat, url: string, isPhishing: bool, confidence: real, timestamp: int)

  /** The body of a `/api/stats` reply. */
  datatype Stats = Stats(totalScans: nat, phishingDetected: nat, safeScans: int)

  /** `/api/recent` returns at most this many rows. */
  const RecentLimit: nat := 20

  /** `SELECT COUNT(*) FROM scans WHERE is_phishing = 1`. */
  function CountPhishing(rows: seq<ScanRow>): nat
  {
    if rows == [] then 0
    else (if rows[0].isPhishing then 1 else 0) + CountPhishing(rows[1..])
  }

  /** The rows that are not flagged as phishing, counted independently. */
  function CountSafe(rows: seq<ScanRow>): nat
  {
    if rows == [] then 0
    else (if rows[0].isPhishing then 0 else 1) + CountSafe(rows[1..])
  }

  /** Every row is either phishing or safe. */
  lemma {:induction false} CountsPartitionRows(rows: seq<ScanRow>)
    ensures CountPhishing(rows) + CountSafe(rows) == |rows|
  {
    if rows != [] {
      CountsPartitionRows(rows[1..]);
    }
  }

  /**
   * `get_stats`: the total, the phishing count and their difference. The
   * difference is exactly the number of safe rows, so it is never negative.
   */
  function GetStats(rows: seq<ScanRow>): (s: Stats)
    ensures s.totalScans == |rows|
    ensures s.phishingDetected <= s.totalScans
    ensures s.safeScans == CountSafe(rows)
    ensures s.phishingDetected + s.safeScans == s.totalScans
  {
    CountsPartitionRows(rows);
    var total := |rows|;
    var phishingDetected := CountPhishing(rows);
    Stats(total, phishingDetected, total - phishingDetected)
  }

  lemma {:induction false} CountPhishingAppend(rows: seq<ScanRow>, row: ScanRow)
    ensures CountPhishing(rows + [row]) == CountPhishing(rows) + (if row.isPhishing then 1 else 0)
  {
    if rows == [] {
      assert rows + [row] == [row];
      assert [row][1..] == [];
    } else {
      assert (rows + [row])[1..] == rows[1..] + [row];
      CountPhishingAppend(rows[1..], row);
    }
  }

  /** Inserting one row adds one scan, counted as phishing or as safe by its flag. */
  lemma StatsAfterInsert(rows: seq<ScanRow>, row: ScanRow)
    ensures var before, after := GetStats(rows), GetStats(rows + [row]);
            after.totalScans == before.totalScans + 1
            && after.phishingDetected == before.phishingDetected + (if row.isPhishing then 1 else 0)
            && after.safeScans == before.safeScans + (if row.isPhishing then 0 else 1)
  {
    CountPhishingAppend(rows, row);
  }

  /** The rows from the most recently inserted to the first. */
  function NewestFirst(rows: seq<ScanRow>): seq<ScanRow>
  {
    if rows == [] then [] else [rows[|rows| - 1]] + NewestFirst(rows[..|rows| - 1])
  }

  lemma {:induction false} NewestFirstReverses(rows: seq<ScanRow>)
    ensures |NewestFirst(rows)| == |rows|
    ensures forall i :: 0 <= i < |rows| ==> NewestFirst(rows)[i] == rows[|rows| - 1 - i]
  {
    if rows != [] {
      var init := rows[..|rows| - 1];
      var tail := NewestFirst(init);
      NewestFirstReverses(init);
      assert NewestFirst(rows) == [rows[|rows| - 1]] + tail;
      forall i | 1 <= i < |rows|
        ensures NewestFirst(rows)[i] == rows[|rows| - 1 - i]
      {
        assert NewestFirst(rows)[i] == tail[i - 1];
        assert tail[i - 1] == init[|init| - 1 - (i - 1)];
      }
    }
  }

  /**
   * `get_recent_scans`: at most twenty rows, newest first. Rows are listed in
   * reverse insertion order, which is the `ORDER BY timestamp DESC` order
   * whenever timestamps never decrease (see `RecentAreNewest`).
   */
  function RecentScans(rows: seq<ScanRow>): (r: seq<ScanRow>)
    ensures |r| == if |rows| < RecentLimit then |rows| else RecentLimit
    ensures forall i :: 0 <= i < |r| ==> r[i] == rows[|rows| - 1 - i]
  {
    NewestFirstReverses(rows);
    Take(NewestFirst(rows), RecentLimit)
  }

  /** Timestamps never go backwards in insertion order. */
  ghost predicate TimestampsNonDecreasing(rows: seq<ScanRow>)
  {
    forall i, j :: 0 <= i < j < |rows| ==> rows[i].timestamp <= rows[j].timestamp
  }

  /**
   * With a clock that never goes backwards, the recent list is sorted by
   * timestamp, newest first, and no row left out is newer than a row listed.
   */
  lemma RecentAreNewest(rows: seq<ScanRow>)
    requires TimestampsNonDecreasing(rows)
    ensures var r := RecentScans(rows);
            (forall i, j :: 0 <= i < j < |r| ==> r[i].timestamp >= r[j].timestamp)
            && (forall i, k :: 0 <= i < |r| && 0 <= k < |rows| - |r| ==> rows[k].timestamp <= r[i].timestamp)
  {
    var r := RecentScans(rows);
    forall i, j | 0 <= i < j < |r|
      ensures r[i].timestamp >= r[j].timestamp
    {
      assert r[i] == rows[|rows| - 1 - i] && r[j] == rows[|rows| - 1 - j];
    }
    forall i, k | 0 <= i < |r| && 0 <= k < |rows| - |r|
      ensures rows[k].timestamp <= r[i].timestamp
    {
      assert r[i] == rows[|rows| - 1 - i];
    }
  }

  /** A new row stamped no earlier than the last one keeps the clock order. */
  lemma AppendKeepsTimestampOrder(rows: seq<ScanRow>, row: ScanRow)
    requires TimestampsNonDecreasing(rows)
    requires rows == [] || rows[|rows| - 1].timestamp <= row.timestamp
    ensures TimestampsNonDecreasing(rows + [row])
  {
    var all := rows + [row];
    forall i, j | 0 <= i < j < |all|
      ensures all[i].timestamp <= all[j].timestamp
    {
      if j < |rows| {
        assert all[i] == rows[i] && all[j] == rows[j];
      } else if i < |rows| - 1 {
        assert rows[i].timestamp <= rows[|rows| - 1].timestamp;
      }
    }
  }
}
