/**
 * The scan-distribution donut of the analytics dashboard: it fetches the
 * backend's statistics, keeps the safe and phishing counts as state, draws two
 * slices and writes the safe share, rounded to a whole percent, in the centre.
 */
module PieChart {
  import opened Wrappers
  import ScanLog

  /**
   * The two fields the chart reads from the `/api/stats` JSON; `None` is a
   * field that is missing or null.
   */
  datatype StatsBody = StatsBody(safeScans: Option<int>, phishingDetected: Option<int>)

  /** How `fetchStats` ends: the request or the JSON parse failed, or a body arrived. */
  datatype StatsFetch = FetchFailed | Fetched(body: StatsBody)

  /** `field || 0`: a missing field becomes 0 (a field that is 0 stays 0 anyway). */
  function OrZero(field: Option<int>): (v: int)
    ensures field.None? ==> v == 0
    ensures field.Some? ==> v == field.value
  {
    match field
    case None => 0
    case Some(x) => x
  }

  datatype Slice = Slice(name: string, value: int)

  /** `chartData`: the safe slice, then the phishing slice. */
  function ChartData(safe: int, phishing: int): (slices: seq<Slice>)
    ensures |slices| == 2
    ensures slices[0].name == "Safe" && slices[0].value == safe
    ensures slices[1].name == "Phishing" && slices[1].value == phishing
  {
    [Slice("Safe", safe), Slice("Phishing", phishing)]
  }

  /**
   * The centre percentage: 0 for no scans, otherwise `Math.round` of the safe
   * share times 100, which is the nearest whole number with halves rounded
   * up. For counts that are not negative it is a percentage.
   */
  function CenterPercent(safe: int, phishing: int): (p: int)
    ensures safe + phishing == 0 ==> p == 0
    ensures safe + phishing != 0 ==>
              var share := safe as real / (safe + phishing) as real * 100.0;
              p as real - 0.5 <= share < p as real + 0.5
    ensures safe >= 0 && phishing >= 0 ==> 0 <= p <= 100
  {
    var total := safe + phishing;
    if total == 0 then 0
    else
      var share := safe as real / total as real * 100.0;
      assert safe >= 0 && phishing >= 0 ==> 0.0 <= share <= 100.0 by {
        if safe >= 0 && phishing >= 0 {
          ShareAtMostWhole(safe, total);
        }
      }
      (share + 0.5).Floor
  }

  /** A part of a positive whole is at most all of it. */
  lemma ShareAtMostWhole(part: int, whole: int)
    requires 0 <= part <= whole && whole > 0
    ensures 0.0 <= part as real / whole as real * 100.0 <= 100.0
  {
    var q := part as real / whole as real;
    assert q * whole as real == part as real;
  }

  function DigitChar(d: int): (c: char)
    requires 0 <= d < 10
    ensures '0' <= c <= '9' && c as int - '0' as int == d
  {
    ('0' as int + d) as char
  }

  /** How JavaScript writes a non-negative integer: decimal digits, no leading zero. */
  function NatToDecimal(n: nat): (s: string)
    ensures |s| >= 1
    ensures forall i :: 0 <= i < |s| ==> '0' <= s[i] <= '9'
    ensures s[0] == '0' <==> n == 0
    decreases n
  {
    if n < 10 then [DigitChar(n)] else NatToDecimal(n / 10) + [DigitChar(n % 10)]
  }

  /** The value of a string of decimal digits. */
  function DecimalValue(s: string): int
    requires forall i :: 0 <= i < |s| ==> '0' <= s[i] <= '9'
  {
    if s == [] then 0 else DecimalValue(s[..|s| - 1]) * 10 + (s[|s| - 1] as int - '0' as int)
  }

  /** Reading the written digits back gives the number. */
  lemma {:induction false} DecimalRoundTrip(n: nat)
    ensures DecimalValue(NatToDecimal(n)) == n
    decreases n
  {
    var s := NatToDecimal(n);
    if n >= 10 {
      DecimalRoundTrip(n / 10);
      assert s[..|s| - 1] == NatToDecimal(n / 10);
    } else {
      assert s[..|s| - 1] == [];
    }
  }

  /** A number in a template string. */
  function IntToDecimal(i: int): string
  {
    if i < 0 then "-" + NatToDecimal(-i) else NatToDecimal(i)
  }

  /** `centerText`. */
  function CenterText(safe: int, phishing: int): string
  {
    if safe + phishing == 0 then "0%" else IntToDecimal(CenterPercent(safe, phishing)) + "%"
  }

  /**
   * For counts that are not negative, the centre text is the digits of the
   * rounded percentage, at most three of them, followed by '%'.
   */
  lemma CenterTextReadsBack(safe: nat, phishing: nat)
    ensures var t := CenterText(safe, phishing);
            var digits := t[..|t| - 1];
            && 2 <= |t| <= 4 && t[|t| - 1] == '%'
            && (forall i :: 0 <= i < |digits| ==> '0' <= digits[i] <= '9')
            && DecimalValue(digits) == CenterPercent(safe, phishing)
  {
    var p := CenterPercent(safe, phishing);
    var t := CenterText(safe, phishing);
    var s := NatToDecimal(p);
    if safe + phishing == 0 {
      assert t == "0%";
      assert t[..|t| - 1] == "0" == s;
    } else {
      assert t[..|t| - 1] == s;
    }
    DecimalRoundTrip(p);
    assert |s| <= 3 by {
      if p >= 10 {
        assert |NatToDecimal(p / 10)| == 1 || p / 10 == 10;
      }
    }
  }

  /** Only safe scans: "100%". */
  lemma AllSafeIsHundred(safe: int)
    requires safe > 0
    ensures CenterText(safe, 0) == "100%"
  {
    assert safe as real / (safe + 0) as real == 1.0;
    assert CenterPercent(safe, 0) == 100;
    assert NatToDecimal(10) == "10";
    assert NatToDecimal(100) == NatToDecimal(10) + "0";
  }

  /** Phishing scans and no safe ones: "0%". */
  lemma NoSafeIsZero(phishing: int)
    requires phishing > 0
    ensures CenterText(0, phishing) == "0%"
  {
    assert CenterPercent(0, phishing) == 0;
  }

  /** The JSON `/api/stats` sends for the backend's statistics. */
  function StatsJson(stats: ScanLog.Stats): StatsBody
  {
    StatsBody(Some(stats.safeScans), Some(stats.phishingDetected))
  }

  /**
   * Fed by the backend, the two slices are the safe and phishing row counts,
   * they add up to the number of scans, and the centre is a percentage.
   */
  lemma BackendStatsFeedChart(rows: seq<ScanLog.ScanRow>)
    ensures var body := StatsJson(ScanLog.GetStats(rows));
            var safe := OrZero(body.safeScans);
            var phishing := OrZero(body.phishingDetected);
            && ChartData(safe, phishing)[0].value == ScanLog.CountSafe(rows)
            && ChartData(safe, phishing)[1].value == ScanLog.CountPhishing(rows)
            && safe + phishing == |rows|
            && 0 <= CenterPercent(safe, phishing) <= 100
  {
    ScanLog.CountsPartitionRows(rows);
  }

  /** The component's two counters. */
  class PieChartView {
    var safe: int
    var phishing: int

    constructor ()
      ensures safe == 0 && phishing == 0
    {
      safe := 0;
      phishing := 0;
    }

    /**
     * `fetchStats`: a failure leaves both counters as they were; a body sets
     * each counter from its field, a missing field giving 0.
     */
    method FetchStats(reply: StatsFetch)
      modifies this
      ensures reply.FetchFailed? ==> safe == old(safe) && phishing == old(phishing)
      ensures reply.Fetched? ==>
                safe == OrZero(reply.body.safeScans) && phishing == OrZero(reply.body.phishingDetected)
    {
      match reply {
        case FetchFailed =>
        case Fetched(body) =>
          safe := OrZero(body.safeScans);
          phishing := OrZero(body.phishingDetected);
      }
    }
  }
}
