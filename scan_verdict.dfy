/**
 * The `/api/scan-url` endpoint of the backend: a rule for plain-HTTP URLs,
 * then the ML probability against a threshold, then a keyword fallback when
 * the ML components are not loaded; the verdict is mapped to a risk band and
 * one row is appended to the scans table.
 *
 * The ML model and its vectoriser are opaque: they are a function from the
 * normalised URL to a `Prediction`, consulted only when both components are
 * loaded.
 */
module ScanVerdict {
  import opened Wrappers
  import opened Strings
  import opened ScanLog
  import UrlNormaliser

  /** Which of the two ML artefacts loaded at start-up. */
  datatype MlComponents = MlComponents(modelLoaded: bool, vectorizerLoaded: bool)
  {
    predicate Loaded() { modelLoaded && vectorizerLoaded }
  }

  /** What feature extraction plus `predict_proba` produced for one URL. */
  datatype Prediction = Probability(p: real) | PredictionFailed

  /** The `message` of a reply; the text of an ML exception is not modelled. */
  datatype Message =
    | Pending
    | InsecureHttp
    | MlPhishing
    | MlSafe
    | MlError
    | Fallback(missing: seq<string>)

  datatype Risk = Low | Medium | High

  /** The classification part of a scan. */
  datatype Verdict = Verdict(isPhishing: bool, confidence: real, message: Message)

  /** What `/api/scan-url` answers: a 400 error, or the JSON of a finished scan. */
  datatype ScanReply =
    | BadRequest
    | Scanned(url: string, isPhishing: bool, confidence: real, risk: Risk, message: Message)

  const HttpPrefix: string := "http://"
  const HttpConfidence: real := 0.90
  const PhishingThresholdMl: real := 0.6
  const FallbackKeyword: string := "login-update-secure"
  const FallbackPhishingConfidence: real := 0.75
  const FallbackSafeConfidence: real := 0.1

  /** The URL uses plain HTTP, whatever the case of the scheme. */
  predicate UsesHttp(url: string)
  {
    StartsWith(Lower(url), HttpPrefix)
  }

  /** The names listed in the fallback message, in the order the message lists them. */
  function MissingParts(ml: MlComponents): (parts: seq<string>)
    ensures parts == [] <==> ml.Loaded()
  {
    (if ml.modelLoaded then [] else ["model"]) + (if ml.vectorizerLoaded then [] else ["vectorizer"])
  }

  /**
   * The verdict rules of `scan_url`. The HTTP rule takes precedence and never
   * consults the model; otherwise the model's probability decides against a
   * strict threshold of 0.6 and becomes the confidence, a failed prediction
   * leaves the URL safe with confidence 0, and without ML the keyword decides.
   * Every phishing verdict has a confidence above the ML threshold.
   */
  function Decide(url: string, ml: MlComponents, prediction: Prediction): (v: Verdict)
    ensures UsesHttp(url) ==> v == Verdict(true, HttpConfidence, InsecureHttp)
    ensures !UsesHttp(url) && ml.Loaded() && prediction.Probability? ==>
              (v.isPhishing <==> prediction.p > PhishingThresholdMl) && v.confidence == prediction.p
    ensures !UsesHttp(url) && ml.Loaded() && prediction.PredictionFailed? ==>
              !v.isPhishing && v.confidence == 0.0 && v.message == MlError
    ensures !UsesHttp(url) && !ml.Loaded() ==>
              (v.isPhishing <==> Contains(Lower(url), FallbackKeyword))
              && v.confidence == (if v.isPhishing then FallbackPhishingConfidence else FallbackSafeConfidence)
              && v.message == Fallback(MissingParts(ml))
    ensures v.isPhishing ==> v.confidence > PhishingThresholdMl
  {
    if UsesHttp(url) then Verdict(true, HttpConfidence, InsecureHttp)
    else if ml.Loaded() then
      match prediction
      case Probability(p) =>
        if p > PhishingThresholdMl then Verdict(true, p, MlPhishing) else Verdict(false, p, MlSafe)
      case PredictionFailed => Verdict(false, 0.0, MlError)
    else if Contains(Lower(url), FallbackKeyword) then
      Verdict(true, FallbackPhishingConfidence, Fallback(MissingParts(ml)))
    else
      Verdict(false, FallbackSafeConfidence, Fallback(MissingParts(ml)))
  }

  /** The risk band of a confidence: HIGH above 0.7, MEDIUM above 0.4, LOW otherwise. */
  function RiskLevel(confidence: real): (r: Risk)
    ensures r == High <==> confidence > 0.7
    ensures r == Medium <==> 0.4 < confidence <= 0.7
    ensures r == Low <==> confidence <= 0.4
  {
    if confidence > 0.7 then High else if confidence > 0.4 then Medium else Low
  }

  /** The `risk_level` string of a reply. */
  function RiskName(r: Risk): string
  {
    match r
    case High => "HIGH"
    case Medium => "MEDIUM"
    case Low => "LOW"
  }

  function RiskRank(r: Risk): nat
  {
    match r
    case Low => 0
    case Medium => 1
    case High => 2
  }

  /** A higher confidence never gives a lower risk band. */
  lemma RiskMonotone(c1: real, c2: real)
    requires c1 <= c2
    ensures RiskRank(RiskLevel(c1)) <= RiskRank(RiskLevel(c2))
  {
  }

  /** A phishing verdict is never reported as LOW risk. */
  lemma PhishingNeverLowRisk(url: string, ml: MlComponents, prediction: Prediction)
    ensures Decide(url, ml, prediction).isPhishing ==> RiskLevel(Decide(url, ml, prediction).confidence) != Low
  {
  }

  /** The model's outcome only matters when the HTTP rule did not fire and ML is loaded. */
  lemma PredictionOnlyConsultedWhenLoaded(url: string, ml: MlComponents, p1: Prediction, p2: Prediction)
    requires UsesHttp(url) || !ml.Loaded()
    ensures Decide(url, ml, p1) == Decide(url, ml, p2)
  {
  }

  /** A URL the ML model calls safe can still be reported as MEDIUM risk. */
  lemma SafeVerdictCanBeMediumRisk()
    ensures var v := Decide("https://a", MlComponents(true, true), Probability(0.5));
            !v.isPhishing && RiskLevel(v.confidence) == Medium
  {
    var lowered := Lower("https://a");
    assert lowered[4] == LowerChar('s') == 's';
    assert lowered[..7] != HttpPrefix by {
      assert lowered[..7][4] != HttpPrefix[4];
    }
  }

  /**
   * The classifier sees only the normalised URL: two URLs that escape the HTTP
   * rule and normalise alike get the same verdict from a loaded model.
   */
  lemma SameNormalFormSameMlVerdict(url1: string, parsed1: UrlNormaliser.ParsedUrl,
                                    url2: string, parsed2: UrlNormaliser.ParsedUrl,
                                    ml: MlComponents, classify: string -> Prediction)
    requires ml.Loaded() && !UsesHttp(url1) && !UsesHttp(url2)
    requires UrlNormaliser.PreprocessUrl(url1, parsed1) == UrlNormaliser.PreprocessUrl(url2, parsed2)
    ensures Decide(url1, ml, classify(UrlNormaliser.PreprocessUrl(url1, parsed1)))
            == Decide(url2, ml, classify(UrlNormaliser.PreprocessUrl(url2, parsed2)))
  {
  }

  /** Ids grow with insertion order and stay below the next id to hand out. */
  ghost predicate IdsIncreasingBelow(rows: seq<ScanRow>, nextId: nat)
  {
    && (forall i, j :: 0 <= i < j < |rows| ==> rows[i].id < rows[j].id)
    && (forall i :: 0 <= i < |rows| ==> rows[i].id < nextId)
  }

  /** The backend process: the ML artefacts it loaded and its scans table. */
  class ScanService {
    const ml: MlComponents
    var scans: seq<ScanRow>
    /** The next `AUTOINCREMENT` id. */
    var nextId: nat

    ghost predicate Valid()
      reads this
    {
      nextId >= 1 && IdsIncreasingBelow(scans, nextId)
    }

    constructor (ml: MlComponents)
      ensures Valid()
      ensures this.ml == ml && scans == [] && nextId == 1
    {
      this.ml := ml;
      scans := [];
      nextId := 1;
    }

    /**
     * `scan_url` for a request whose JSON `url` field is `request`, where
     * `parsed` is `urlparse` of that URL, `classify` is feature extraction plus
     * the model applied to the normalised URL, and `now` the database clock.
     * A missing or empty URL is a 400 error and inserts nothing; otherwise the
     * reply carries the verdict of `Decide` and its risk band, and exactly one
     * row with the same URL, flag and confidence is appended.
     */
    method ScanUrl(request: Option<string>, parsed: UrlNormaliser.ParsedUrl, classify: string -> Prediction, now: int)
      returns (reply: ScanReply)
      requires Valid()
      modifies this
      ensures Valid()
      ensures request == None || request == Some("") ==>
                reply == BadRequest && scans == old(scans) && nextId == old(nextId)
      ensures request.Some? && request.value != "" ==>
                var v := Decide(request.value, ml, classify(UrlNormaliser.PreprocessUrl(request.value, parsed)));
                && reply == Scanned(request.value, v.isPhishing, v.confidence, RiskLevel(v.confidence), v.message)
                && scans == old(scans) + [ScanRow(old(nextId), request.value, v.isPhishing, v.confidence, now)]
                && nextId == old(nextId) + 1
    {
      if request == None || request.value == "" {
        return BadRequest;
      }
      var url := request.value;

      var isPhishingFinal := 0;
      var confidenceFinal := 0.0;
      var message := Pending;
      var ruleTriggeredPhishing := false;

      if StartsWith(Lower(url), HttpPrefix) {
        isPhishingFinal := 1;
        confidenceFinal := HttpConfidence;
        message := InsecureHttp;
        ruleTriggeredPhishing := true;
      }

      if !ruleTriggeredPhishing && ml.Loaded() {
        var processed := UrlNormaliser.PreprocessUrl(url, parsed);
        match classify(processed) {
          case Probability(p) =>
            var mlIsPhishing := if p > PhishingThresholdMl then 1 else 0;
            isPhishingFinal := mlIsPhishing;
            confidenceFinal := p;
            message := if mlIsPhishing == 1 then MlPhishing else MlSafe;
          case PredictionFailed =>
            message := MlError;
        }
      } else if !ruleTriggeredPhishing && !ml.Loaded() {
        isPhishingFinal := if Contains(Lower(url), FallbackKeyword) then 1 else 0;
        confidenceFinal := if isPhishingFinal == 1 then FallbackPhishingConfidence else FallbackSafeConfidence;
        message := Fallback(MissingParts(ml));
      }

      scans := scans + [ScanRow(nextId, url, isPhishingFinal == 1, confidenceFinal, now)];
      nextId := nextId + 1;
      reply := Scanned(url, isPhishingFinal == 1, confidenceFinal, RiskLevel(confidenceFinal), message);
    }
  }
}
