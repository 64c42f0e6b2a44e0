/**
 * The extension's background script: it scans every tab that finishes
 * loading an http(s) page, caches the result under the tab's id, paints the
 * tab's badge from the result and asks the page's content script to show a
 * warning for phishing results; closing a tab drops its cache entry.
 *
 * Chrome's state is a `Browser` object: `chrome.storage.local` as a map from
 * tab id to entry (the key `scan_<tabId>`), the badge of each tab, and the
 * warning messages delivered to content scripts. The network and the content
 * script are inputs.
 */
module Background {
  import opened Wrappers
  import opened Strings
  import ScanVerdict

  /** The JSON body of a `/api/scan-url` reply as the extension reads it. */
  datatype ScanResult =
    | Verdict(isPhishing: bool, confidence: real, riskLevel: string, url: string)
    | ErrorBody(error: string)

  /** `result.is_phishing` is truthy: an error body has no such field. */
  predicate FlagsPhishing(r: ScanResult)
  {
    r.Verdict? && r.isPhishing
  }

  /** How `fetch` of the scan endpoint ended. */
  datatype FetchOutcome =
    | NetworkError
      /** `body` is `None` when `response.json()` rejects. */
    | Response(ok: bool, body: Option<ScanResult>)

  /** The value stored under `scan_<tabId>`. */
  datatype CacheEntry = CacheEntry(url: string, result: ScanResult, timestamp: int)

  datatype Badge = Badge(text: string, color: string)

  /** A `showWarning` message delivered to the content script of a tab. */
  datatype Warning = Warning(tabId: int, data: ScanResult)

  const ThreatBadge: Badge := Badge("!", "#FF0000")
  const SafeBadge: Badge := Badge("\U{2713}", "#4CAF50")
  const UnknownBadge: Badge := Badge("?", "#757575")

  const CompleteStatus: string := "complete"

  /**
   * The `onUpdated` filter: the tab finished loading and its URL starts,
   * case-sensitively, with "http://" or "https://".
   */
  predicate ShouldScan(status: Option<string>, tabUrl: Option<string>)
  {
    && status == Some(CompleteStatus)
    && tabUrl.Some? && tabUrl.value != ""
    && (StartsWith(tabUrl.value, "http://") || StartsWith(tabUrl.value, "https://"))
  }

  /** The result `scanCurrentUrl` goes on with, or `None` when it lands in its `catch`. */
  function Payload(outcome: FetchOutcome): (p: Option<ScanResult>)
    ensures p.Some? <==> outcome.Response? && outcome.ok && outcome.body.Some?
    ensures p.Some? ==> p.value == outcome.body.value
  {
    match outcome
    case NetworkError => None
    case Response(ok, body) => if ok then body else None
  }

  /**
   * The badge painted for a scan: red '!' exactly for a phishing result,
   * green check mark exactly for any other result, grey '?' exactly for a
   * failed scan.
   */
  function BadgeFor(payload: Option<ScanResult>): (b: Badge)
    ensures b == ThreatBadge <==> payload.Some? && FlagsPhishing(payload.value)
    ensures b == SafeBadge <==> payload.Some? && !FlagsPhishing(payload.value)
    ensures b == UnknownBadge <==> payload.None?
  {
    match payload
    case None => UnknownBadge
    case Some(result) => if FlagsPhishing(result) then ThreatBadge else SafeBadge
  }

  /**
   * The warning requested for a scan: only for a phishing result, carrying
   * that result unchanged.
   */
  function WarningFor(tabId: int, payload: Option<ScanResult>): (w: Option<Warning>)
    ensures w.Some? <==> BadgeFor(payload) == ThreatBadge
    ensures w.Some? ==> w.value == Warning(tabId, payload.value)
  {
    if payload.Some? && FlagsPhishing(payload.value) then Some(Warning(tabId, payload.value)) else None
  }

  /** URLs of other schemes, and any URL whose scheme is not lower-case, are never scanned. */
  lemma OnlyWebPagesScanned(status: Option<string>, tabUrl: Option<string>)
    requires ShouldScan(status, tabUrl)
    ensures tabUrl.value[..4] == "http"
    ensures tabUrl.value[4] == ':' || tabUrl.value[..6] == "https:"
  {
    var u := tabUrl.value;
    if StartsWith(u, "http://") {
      assert u[..4] == u[..7][..4];
    } else {
      assert u[..4] == u[..8][..4];
      assert u[..6] == u[..8][..6];
    }
  }

  /** Chrome's state as the extension sees it. */
  class Browser {
    /** `chrome.storage.local`, key `scan_<tabId>` written as the tab id. */
    var storage: map<int, CacheEntry>
    var badges: map<int, Badge>
    var warnings: seq<Warning>

    constructor ()
      ensures storage == map[] && badges == map[] && warnings == []
    {
      storage := map[];
      badges := map[];
      warnings := [];
    }

    /**
     * `scanCurrentUrl(url, tabId)` given how the request ends (`outcome`),
     * the clock (`now`) and whether the tab's content script can receive a
     * message. A usable reply overwrites exactly the tab's entry; a failure
     * leaves the storage untouched. The badge of the tab is set either way,
     * and an undeliverable warning changes nothing else.
     */
    method ScanCurrentUrl(url: string, tabId: int, outcome: FetchOutcome, now: int, contentScriptReady: bool)
      modifies this
      ensures storage == if Payload(outcome).Some?
                         then old(storage)[tabId := CacheEntry(url, Payload(outcome).value, now)]
                         else old(storage)
      ensures badges == old(badges)[tabId := BadgeFor(Payload(outcome))]
      ensures warnings == old(warnings) + (if contentScriptReady && WarningFor(tabId, Payload(outcome)).Some?
                                           then [WarningFor(tabId, Payload(outcome)).value] else [])
    {
      match outcome {
        case NetworkError =>
          badges := badges[tabId := UnknownBadge];
        case Response(ok, body) =>
          if !ok || body.None? {
            badges := badges[tabId := UnknownBadge];
            return;
          }
          var result := body.value;
          storage := storage[tabId := CacheEntry(url, result, now)];
          if FlagsPhishing(result) {
            badges := badges[tabId := ThreatBadge];
            if contentScriptReady {
              warnings := warnings + [Warning(tabId, result)];
            }
          } else {
            badges := badges[tabId := SafeBadge];
          }
      }
    }

    /** The `onUpdated` listener: scans only what `ShouldScan` admits; anything else changes nothing. */
    method OnUpdated(tabId: int, status: Option<string>, tabUrl: Option<string>,
                     outcome: FetchOutcome, now: int, contentScriptReady: bool)
      modifies this
      ensures !ShouldScan(status, tabUrl) ==>
                storage == old(storage) && badges == old(badges) && warnings == old(warnings)
      ensures ShouldScan(status, tabUrl) ==>
                && storage == (if Payload(outcome).Some?
                               then old(storage)[tabId := CacheEntry(tabUrl.value, Payload(outcome).value, now)]
                               else old(storage))
                && badges == old(badges)[tabId := BadgeFor(Payload(outcome))]
                && warnings == old(warnings) + (if contentScriptReady && WarningFor(tabId, Payload(outcome)).Some?
                                                then [WarningFor(tabId, Payload(outcome)).value] else [])
    {
      if status == Some(CompleteStatus) && tabUrl.Some? && tabUrl.value != "" {
        if StartsWith(tabUrl.value, "http://") || StartsWith(tabUrl.value, "https://") {
          ScanCurrentUrl(tabUrl.value, tabId, outcome, now, contentScriptReady);
        }
      }
    }

    /** The `onRemoved` listener: drops the tab's entry, if any, and nothing else. */
    method OnRemoved(tabId: int)
      modifies this
      ensures storage == old(storage) - {tabId}
      ensures tabId !in storage
      ensures forall t :: t in old(storage) && t != tabId ==> t in storage && storage[t] == old(storage)[t]
      ensures badges == old(badges) && warnings == old(warnings)
    {
      storage := storage - {tabId};
    }
  }

  /** How the backend's reply reaches the extension: a 400 for a refused request, JSON otherwise. */
  function Transport(reply: ScanVerdict.ScanReply): (outcome: FetchOutcome)
    ensures outcome.Response? && outcome.body.Some?
    ensures outcome.ok <==> reply.Scanned?
    ensures reply.BadRequest? ==> outcome.body.value == ErrorBody("URL is required")
    ensures reply.Scanned? ==>
              outcome.body.value == Verdict(reply.isPhishing, reply.confidence, ScanVerdict.RiskName(reply.risk), reply.url)
  {
    match reply
    case BadRequest => Response(false, Some(ErrorBody("URL is required")))
    case Scanned(url, isPhishing, confidence, risk, _) =>
      Response(true, Some(Verdict(isPhishing, confidence, ScanVerdict.RiskName(risk), url)))
  }

  /** Lower-casing a string whose prefix is already lower-case keeps that prefix. */
  lemma {:induction false} LowerKeepsLowerPrefix(s: string, prefix: string)
    requires StartsWith(s, prefix) && Lower(prefix) == prefix
    ensures StartsWith(Lower(s), prefix)
  {
    forall i | 0 <= i < |prefix|
      ensures Lower(s)[i] == prefix[i]
    {
      assert s[i] == s[..|prefix|][i] == prefix[i];
      assert Lower(prefix)[i] == LowerChar(prefix[i]);
    }
  }

  /**
   * Every page the background script scans over plain HTTP gets the red
   * badge and a warning, whatever the model says, once the backend answers.
   */
  lemma PlainHttpPagesGetThreatBadge(url: string, ml: ScanVerdict.MlComponents, prediction: ScanVerdict.Prediction, tabId: int)
    requires ShouldScan(Some(CompleteStatus), Some(url)) && StartsWith(url, "http://")
    ensures var v := ScanVerdict.Decide(url, ml, prediction);
            var reply := ScanVerdict.Scanned(url, v.isPhishing, v.confidence, ScanVerdict.RiskLevel(v.confidence), v.message);
            BadgeFor(Payload(Transport(reply))) == ThreatBadge
            && WarningFor(tabId, Payload(Transport(reply))).Some?
  {
    assert Lower("http://") == "http://";
    LowerKeepsLowerPrefix(url, "http://");
  }
}
