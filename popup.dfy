/**
 * The extension's popup: it shows the cached result of the active tab and
 * offers a manual "scan now" that writes the cache itself. The status line is
 * a message plus a CSS class `status status-<type>`.
 */
module Popup {
  import opened Wrappers
  import opened Background

  datatype StatusType = Loading | SafeType | Danger

  /**
   * The text of the status line. A phishing status shows the confidence as a
   * percentage with one decimal; that formatting is not modelled.
   */
  datatype StatusMessage = Text(text: string) | PhishingDetected(confidence: real)

  /** The active tab; an absent URL and an empty one are both falsy and are written "". */
  datatype Tab = Tab(id: int, url: string)

  datatype Status = Status(message: StatusMessage, kind: StatusType)

  const NoActiveTab: StatusMessage := Text("No active tab")
  const SiteAppearsSafe: StatusMessage := Text("\U{2705} Site appears safe")
  const NotYetScanned: StatusMessage := Text("\U{1F50D} Not yet scanned")
  const ScanningNow: StatusMessage := Text("\U{1F50D} Scanning...")
  const ScanFailed: StatusMessage := Text("\U{274C} Scan failed")

  function TypeName(t: StatusType): string
  {
    match t
    case Loading => "loading"
    case SafeType => "safe"
    case Danger => "danger"
  }

  /** The class `updateStatus` gives the status element. */
  function ClassName(t: StatusType): string
  {
    "status status-" + TypeName(t)
  }

  /** Each status type has its own class, so the class tells the type back. */
  lemma ClassNameIdentifiesType(t1: StatusType, t2: StatusType)
    ensures ClassName(t1) == ClassName(t2) <==> t1 == t2
  {
    if t1 != t2 {
      var n := |"status status-"|;
      assert ClassName(t1)[n] == TypeName(t1)[0];
      assert ClassName(t2)[n] == TypeName(t2)[0];
    }
  }

  /** How a stored or fresh result is shown: danger exactly when it flags phishing. */
  function ResultStatus(r: ScanResult): (s: Status)
    ensures s.kind == Danger <==> FlagsPhishing(r)
    ensures s.kind == Danger ==> s.message == PhishingDetected(r.confidence)
    ensures s.kind != Danger ==> s == Status(SiteAppearsSafe, SafeType)
  {
    if FlagsPhishing(r) then Status(PhishingDetected(r.confidence), Danger)
    else Status(SiteAppearsSafe, SafeType)
  }

  predicate HasUrl(tab: Option<Tab>)
  {
    tab.Some? && tab.value.url != ""
  }

  /**
   * `loadCurrentStatus`: no usable tab shows "No active tab" without reading
   * storage; a tab with no entry is "Not yet scanned"; otherwise the stored
   * result decides. Only a stored phishing result shows danger.
   */
  function CurrentStatus(tab: Option<Tab>, storage: map<int, CacheEntry>): (s: Status)
    ensures !HasUrl(tab) ==> s == Status(NoActiveTab, Loading)
    ensures HasUrl(tab) && tab.value.id !in storage ==> s == Status(NotYetScanned, Loading)
    ensures s.kind == Danger <==>
              HasUrl(tab) && tab.value.id in storage && FlagsPhishing(storage[tab.value.id].result)
    ensures s.kind == SafeType <==>
              HasUrl(tab) && tab.value.id in storage && !FlagsPhishing(storage[tab.value.id].result)
  {
    if !HasUrl(tab) then Status(NoActiveTab, Loading)
    else if tab.value.id in storage then ResultStatus(storage[tab.value.id].result)
    else Status(NotYetScanned, Loading)
  }

  /**
   * The result the manual scan goes on with. Unlike the background script it
   * does not look at `response.ok`: only a network failure or an unreadable
   * body is a failure.
   */
  function ManualPayload(outcome: FetchOutcome): (p: Option<ScanResult>)
    ensures p.None? <==> outcome.NetworkError? || outcome.body.None?
    ensures p.Some? ==> p.value == outcome.body.value
  {
    match outcome
    case NetworkError => None
    case Response(_, body) => body
  }

  /**
   * An error reply from the backend paints the grey badge in the background
   * script, but the manual scan caches it and shows the site as safe.
   */
  lemma ErrorReplyShownAsSafe(error: string)
    ensures var outcome := Response(false, Some(ErrorBody(error)));
            && BadgeFor(Payload(outcome)) == UnknownBadge
            && ManualPayload(outcome) == Some(ErrorBody(error))
            && ResultStatus(ErrorBody(error)) == Status(SiteAppearsSafe, SafeType)
  {
  }

  /** After a manual scan stores a result, reopening the popup shows the same status. */
  lemma ReopenShowsStoredResult(tab: Tab, storage: map<int, CacheEntry>, r: ScanResult, now: int)
    requires tab.url != ""
    ensures CurrentStatus(Some(tab), storage[tab.id := CacheEntry(tab.url, r, now)]) == ResultStatus(r)
  {
  }

  /** The popup's status element and URL line. */
  class PopupView {
    var message: StatusMessage
    var className: string
    var currentUrl: string

    constructor ()
      ensures message == Text("") && className == "" && currentUrl == ""
    {
      message := Text("");
      className := "";
      currentUrl := "";
    }

    /** `updateStatus(message, type)`. */
    method UpdateStatus(m: StatusMessage, t: StatusType)
      modifies this
      ensures message == m && className == ClassName(t)
      ensures currentUrl == old(currentUrl)
    {
      message := m;
      className := ClassName(t);
    }

    /** `loadCurrentStatus` for the active tab `tab`, reading `browser.storage`. */
    method LoadCurrentStatus(browser: Browser, tab: Option<Tab>)
      modifies this
      ensures var s := CurrentStatus(tab, browser.storage);
              message == s.message && className == ClassName(s.kind)
      ensures currentUrl == if HasUrl(tab) then tab.value.url else old(currentUrl)
    {
      if tab.None? || tab.value.url == "" {
        UpdateStatus(NoActiveTab, Loading);
        return;
      }
      currentUrl := tab.value.url;
      if tab.value.id in browser.storage {
        var data := browser.storage[tab.value.id];
        if FlagsPhishing(data.result) {
          UpdateStatus(PhishingDetected(data.result.confidence), Danger);
        } else {
          UpdateStatus(SiteAppearsSafe, SafeType);
        }
      } else {
        UpdateStatus(NotYetScanned, Loading);
      }
    }

    /**
     * `scanCurrentSite` for the active tab, given how the request ends and the
     * clock. Without a usable tab `scanCurrentSite` only raises an alert, so
     * nothing changes.
     * Otherwise any readable body, error bodies included, overwrites exactly
     * the tab's entry and is shown; a failure shows "Scan failed" and leaves
     * the storage alone. Badges and warnings are never touched.
     */
    method ScanCurrentSite(browser: Browser, tab: Option<Tab>, outcome: FetchOutcome, now: int)
      modifies this, browser
      ensures browser.badges == old(browser.badges) && browser.warnings == old(browser.warnings)
      ensures currentUrl == old(currentUrl)
      ensures !HasUrl(tab) ==>
                browser.storage == old(browser.storage)
                && message == old(message) && className == old(className)
      ensures HasUrl(tab) && ManualPayload(outcome).Some? ==>
                var r := ManualPayload(outcome).value;
                && browser.storage == old(browser.storage)[tab.value.id := CacheEntry(tab.value.url, r, now)]
                && message == ResultStatus(r).message && className == ClassName(ResultStatus(r).kind)
      ensures HasUrl(tab) && ManualPayload(outcome).None? ==>
                browser.storage == old(browser.storage)
                && message == ScanFailed && className == ClassName(Loading)
    {
      if tab.None? || tab.value.url == "" {
        return;
      }
      UpdateStatus(ScanningNow, Loading);
      match outcome {
        case NetworkError =>
          UpdateStatus(ScanFailed, Loading);
        case Response(_, body) =>
          if body.None? {
            UpdateStatus(ScanFailed, Loading);
            return;
          }
          var result := body.value;
          browser.storage := browser.storage[tab.value.id := CacheEntry(tab.value.url, result, now)];
          if FlagsPhishing(result) {
            UpdateStatus(PhishingDetected(result.confidence), Danger);
          } else {
            UpdateStatus(SiteAppearsSafe, SafeType);
          }
      }
    }
  }
}
