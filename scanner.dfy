/**
 * The mock URL scanner of the web frontend. It calls no backend: a URL that
 * mentions "phish" or "suspicious" is flagged, and any other URL is flagged
 * at random; the confidence is random in a band that depends on the flag.
 * The two `Math.random()` draws are parameters, each a real in [0, 1).
 */
module Scanner {
  import opened Wrappers
  import opened Strings

  datatype ScanStatus = Safe | Phishing

  /** What the result card shows. */
  datatype MockResult = MockResult(status: ScanStatus, confidence: int, explanation: string, suggestion: string)

  const PhishingExplanation: string :=
    "This URL contains suspicious patterns commonly found in phishing attempts. The domain was recently registered and mimics a legitimate service."
  const SafeExplanation: string :=
    "This URL appears to be legitimate and has no known phishing indicators. The domain has a good reputation and secure connection."
  const PhishingSuggestion: string :=
    "Do not click this link! Avoid entering any personal information if you have already visited this site."
  const SafeSuggestion: string :=
    "This link appears safe to visit, but always remain cautious about sharing sensitive information."

  /**
   * `isMalicious`. The random draw is only taken when neither keyword occurs;
   * as the draws are inputs, which call consumed which value does not matter.
   */
  predicate IsMalicious(url: string, maliciousDraw: real)
  {
    Contains(url, "phish") || Contains(url, "suspicious") || maliciousDraw > 0.7
  }

  /** A draw in [0, 1) scaled by a positive width lies in [0, width). */
  lemma ScaledDrawBelowWidth(draw: real, width: int)
    requires 0.0 <= draw < 1.0 && width > 0
    ensures 0.0 <= draw * width as real < width as real
  {
    assert (1.0 - draw) * width as real > 0.0;
  }

  /** `Math.floor(draw * width) + base`. */
  function RandomConfidence(draw: real, width: int, base: int): (c: int)
    requires width > 0
    ensures 0.0 <= draw < 1.0 ==> base <= c < base + width
  {
    assert 0.0 <= draw < 1.0 ==> 0.0 <= draw * width as real < width as real by {
      if 0.0 <= draw < 1.0 {
        ScaledDrawBelowWidth(draw, width);
      }
    }
    (draw * width as real).Floor + base
  }

  /**
   * The result of one scan: status, explanation and suggestion are all
   * picked by the same flag, and the confidence lies in [80, 99] for a
   * phishing result and in [70, 99] for a safe one.
   */
  function MockScan(url: string, maliciousDraw: real, confidenceDraw: real): (r: MockResult)
    ensures r.status == Phishing <==> IsMalicious(url, maliciousDraw)
    ensures r.explanation == PhishingExplanation <==> r.status == Phishing
    ensures r.suggestion == PhishingSuggestion <==> r.status == Phishing
    ensures r.explanation == (if r.status == Phishing then PhishingExplanation else SafeExplanation)
    ensures r.suggestion == (if r.status == Phishing then PhishingSuggestion else SafeSuggestion)
    ensures 0.0 <= confidenceDraw < 1.0 && r.status == Phishing ==> 80 <= r.confidence <= 99
    ensures 0.0 <= confidenceDraw < 1.0 && r.status == Safe ==> 70 <= r.confidence <= 99
  {
    assert |PhishingExplanation| != |SafeExplanation|;
    assert |PhishingSuggestion| != |SafeSuggestion|;
    var malicious := IsMalicious(url, maliciousDraw);
    MockResult(
      if malicious then Phishing else Safe,
      if malicious then RandomConfidence(confidenceDraw, 20, 80) else RandomConfidence(confidenceDraw, 30, 70),
      if malicious then PhishingExplanation else SafeExplanation,
      if malicious then PhishingSuggestion else SafeSuggestion)
  }

  /** A URL with "phish" or "suspicious" anywhere in it is flagged whatever the draws. */
  lemma KeywordAlwaysPhishing(before: string, keyword: string, after: string, maliciousDraw: real, confidenceDraw: real)
    requires keyword == "phish" || keyword == "suspicious"
    ensures MockScan(before + keyword + after, maliciousDraw, confidenceDraw).status == Phishing
  {
    var url := before + keyword + after;
    assert url[|before|..|before| + |keyword|] == keyword;
    ContainsAt(url, keyword, |before|);
  }

  /** Without a keyword, the draw decides: above 0.7 is phishing, anything else safe. */
  lemma DrawDecidesWithoutKeyword(url: string, maliciousDraw: real, confidenceDraw: real)
    requires !Contains(url, "phish") && !Contains(url, "suspicious")
    ensures MockScan(url, maliciousDraw, confidenceDraw).status == Phishing <==> maliciousDraw > 0.7
  {
  }

  /** Every confidence of each band is produced by some draw in [0, 1). */
  lemma ConfidenceBandsReached(c: int)
    ensures 80 <= c <= 99 ==>
              var draw := (c - 80) as real / 20.0;
              0.0 <= draw < 1.0 && MockScan("phish", 0.0, draw).confidence == c
    ensures 70 <= c <= 99 ==>
              var draw := (c - 70) as real / 30.0;
              0.0 <= draw < 1.0 && MockScan("", 0.0, draw).confidence == c
  {
    KeywordAlwaysPhishing("", "phish", "", 0.0, (c - 80) as real / 20.0);
    assert "" + "phish" + "" == "phish";
    assert !Contains("", "phish") && !Contains("", "suspicious");
    assert ((c - 80) as real / 20.0 * 20.0).Floor == c - 80;
    assert ((c - 70) as real / 30.0 * 30.0).Floor == c - 70;
  }

  /** The scanner's state: the input field, the busy flag and the result card. */
  class ScannerView {
    var url: string
    var isScanning: bool
    var scanResult: Option<MockResult>

    constructor ()
      ensures url == "" && !isScanning && scanResult == None
    {
      url := "";
      isScanning := false;
      scanResult := None;
    }

    /**
     * `handleScan`, given the two draws and whether the awaited delay
     * rejects. An empty URL starts nothing. Otherwise the busy flag is raised
     * and lowered again whether the scan finishes or fails; a finished scan
     * shows `MockScan`, a failed one keeps the previous result.
     */
    method HandleScan(maliciousDraw: real, confidenceDraw: real, fails: bool)
      modifies this
      ensures url == old(url)
      ensures old(url) == "" ==> isScanning == old(isScanning) && scanResult == old(scanResult)
      ensures old(url) != "" ==>
                !isScanning
                && scanResult == if fails then old(scanResult) else Some(MockScan(url, maliciousDraw, confidenceDraw))
    {
      if url == "" {
        return;
      }
      isScanning := true;
      if !fails {
        scanResult := Some(MockScan(url, maliciousDraw, confidenceDraw));
      }
      isScanning := false;
    }

    /** `handleInputChange`: the field takes the typed value and any result is cleared. */
    method HandleInputChange(value: string)
      modifies this
      ensures url == value && scanResult == None && isScanning == old(isScanning)
    {
      url := value;
      if scanResult.Some? {
        scanResult := None;
      }
    }
  }
}
