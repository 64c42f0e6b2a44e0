# Phishing detection: a verified model

This project models the decision logic of a small phishing-detection system
in Dafny and proves properties of it. The system has three parts:

- **Backend** (`backend/app.py`). A web service normalises URLs for its
  classifier. It judges a URL with a fixed order of rules:
  1. A plain-HTTP URL is phishing.
  2. Otherwise the ML probability is compared against a threshold of 0.6.
  3. When the ML artefacts are not loaded, a keyword check decides.

  It maps the confidence to a LOW/MEDIUM/HIGH risk band, records every scan
  in a table, and serves statistics and the twenty most recent scans.
- **Browser extension** (`extension/background.js`, `extension/popup.js`).
  - The background script scans each tab that finishes loading an http(s)
    page. It caches the result per tab, paints the tab's badge and asks the
    page to show a warning for phishing results.
  - The popup shows the cached status and can rescan on demand.
- **Web frontend** (`frontend/src/components/...`). Several small pieces of
  interactive logic:
  - an e-mail domain allow-list check;
  - a step-through scenario trainer;
  - a mock URL scanner whose random draws are explicit inputs;
  - a rotating "did you know" fact panel;
  - the donut chart of safe versus phishing scans, with its centre
    percentage.

Code that works on values is modelled as functions, with lemmas about them.
Most code that updates state is modelled as classes, whose methods are
proved against specification functions. These are:
- the scan service's table;
- Chrome's storage, badges and warning messages;
- the popup's status element;
- the state of the scenario stepper, the mock scanner and the donut chart.

Two components keep their state as values instead:
- the e-mail checker's form is an `EmailForm` value, and `PressCheck` and
  `EditEmail` map the old form to the new one;
- the fact panel's index is an integer, and `NextFactIndex` is the updater
  React applies to it.

Files:

| file | module | models |
|---|---|---|
| `common.dfy` | `Wrappers`, `Strings` | `Option`; prefix, substring, lower-casing, `split`, `join`, `strip` |
| `url_normaliser.dfy` | `UrlNormaliser` | `preprocess_url_for_ml` |
| `scan_log.dfy` | `ScanLog` | the scans table, `/api/stats`, `/api/recent` |
| `scan_verdict.dfy` | `ScanVerdict` | `/api/scan-url`: verdict rules, risk band, insertion |
| `background.dfy` | `Background` | the extension's background script |
| `popup.dfy` | `Popup` | the extension's popup |
| `valid_emails.dfy` | `ValidEmails` | the e-mail domain checker |
| `scenarios.dfy` | `Scenarios` | the scenario stepper |
| `scanner.dfy` | `Scanner` | the mock URL scanner |
| `did_you_know.dfy` | `DidYouKnow` | the rotating fact index and indicator dots |
| `pie_chart.dfy` | `PieChart` | the scan-distribution donut |

## Model

| member | source | states |
|---|---|---|
| UrlNormaliser.PathSegments | backend/app.py:64 | the path segments are exactly the non-empty '/'-separated pieces of the unstripped path (stripping the slashes first changes nothing); each one is non-empty and contains no '/' |
| UrlNormaliser.PreprocessUrl | backend/app.py:56-85 | with no scheme or no network location, the text comes back unchanged; otherwise the result is `scheme://netloc` followed by the first two non-empty path segments, each behind one slash |
| UrlNormaliser.NoSegmentsNoTrailingSlash | backend/app.py:71-84 | a path with no non-empty segment (`""`, `"/"`, `"//"`) gives `scheme://netloc` with no trailing slash |
| UrlNormaliser.KeepsFirstTwoSegments | backend/app.py:66-68 | with two or more segments, exactly the first two are kept, in order |
| UrlNormaliser.SegmentsOfPrefixed | backend/app.py:64-68 | re-reading the segments of a path built as `/a/b` returns `[a, b]` |
| UrlNormaliser.PreprocessIdempotent | backend/app.py:50-92 | when the normalised URL parses back into the same scheme, network location and kept path, normalising it again changes nothing |
| ScanLog.CountsPartitionRows | backend/app.py:227-235 | every row is counted either as phishing or as safe, and the two counts add up to the number of rows |
| ScanLog.GetStats | backend/app.py:223-236 | `total_scans` is the number of rows; `phishing_detected` never exceeds it; `safe_scans` is the number of rows not flagged, and the two add up to the total |
| ScanLog.CountPhishingAppend | backend/app.py:229-230 | appending a row raises the phishing count by one exactly when the row is flagged |
| ScanLog.StatsAfterInsert | backend/app.py:203-206 | one insertion raises the total by one, and raises exactly one of the phishing and safe counts by one, chosen by the row's flag |
| ScanLog.NewestFirstReverses | backend/app.py:259-264 | listing newest first is the reverse of insertion order, element by element |
| ScanLog.RecentScans | backend/app.py:254-280 | at most twenty rows are returned (all rows when there are fewer), and the i-th is the i-th most recently inserted |
| ScanLog.RecentAreNewest | backend/app.py:259-264 | when timestamps never go backwards, the list is sorted newest first and no row left out is newer than any row listed |
| ScanLog.AppendKeepsTimestampOrder | backend/app.py:203-206 | a row stamped no earlier than the last one keeps the table in clock order |
| ScanVerdict.MissingParts | backend/app.py:194-195 | the list of missing ML components is empty exactly when both the model and the vectoriser are loaded |
| ScanVerdict.Decide | backend/app.py:148-199 | the full decision table, in order: (1) a URL whose lower-cased form starts with `http://` is phishing at 0.90 and the model is not consulted; (2) with ML loaded, phishing exactly when the probability exceeds 0.6 strictly, and the probability becomes the confidence; (3) a failed prediction is safe at 0.0; (4) without ML, phishing exactly when the lower-cased URL contains `login-update-secure`, at 0.75, otherwise safe at 0.1. Any phishing verdict has confidence above 0.6 |
| ScanVerdict.RiskLevel | backend/app.py:214 | HIGH exactly above 0.7, MEDIUM exactly in (0.4, 0.7], LOW exactly at or below 0.4 |
| ScanVerdict.RiskMonotone | backend/app.py:214 | a higher confidence never gives a lower risk band |
| ScanVerdict.PhishingNeverLowRisk | backend/app.py:148-214 | no phishing verdict is reported as LOW risk |
| ScanVerdict.PredictionOnlyConsultedWhenLoaded | backend/app.py:154-199 | when the HTTP rule fires or ML is not loaded, the verdict does not depend on the model's output |
| ScanVerdict.SafeVerdictCanBeMediumRisk | backend/app.py:171-214 | risk is banded on the raw probability, so an HTTPS URL the model calls safe at 0.5 is reported as MEDIUM risk |
| ScanVerdict.ScanService.constructor | backend/app.py:124-137 | the table starts empty and ids start at 1 |
| ScanVerdict.SameNormalFormSameMlVerdict | backend/app.py:105-108 | the classifier sees only the normalised URL, so two URLs that escape the HTTP rule and normalise alike get the same verdict from a loaded model |
| ScanVerdict.ScanService.ScanUrl | backend/app.py:140-216 | a missing or empty `url` is a 400 reply and inserts nothing; otherwise the reply carries the verdict of `Decide`, with the classifier applied to the normalised URL, and its risk band; exactly one row with the same URL, flag and confidence is appended under the next id, and ids stay strictly increasing |
| Background.Payload | extension/background.js:27-31 | the script goes on with a result exactly when the reply is HTTP-ok and its body parses, and that result is the body |
| Background.BadgeFor | extension/background.js:44-84 | red `!` exactly for a phishing result, green check exactly for any other result, grey `?` exactly for a failed scan |
| Background.WarningFor | extension/background.js:44-59 | a warning is requested exactly when the badge is red, and it carries the result unchanged |
| Background.OnlyWebPagesScanned | extension/background.js:6-8 | only URLs beginning with lower-case `http:` or `https:` pass the filter |
| Background.Browser.ScanCurrentUrl | extension/background.js:15-86 | a usable reply overwrites exactly this tab's cache entry and a failure leaves the cache alone; the tab's badge is set either way; a warning is delivered only for phishing, and only when the content script can receive it |
| Background.Browser.OnUpdated | extension/background.js:5-12 | pages that fail the filter change nothing; for scanned pages the cache, the badge and the warnings change exactly as in `ScanCurrentUrl` |
| Background.Browser.OnRemoved | extension/background.js:89-91 | the closed tab's entry is gone; every other entry, the badges and the warnings are untouched |
| Background.Transport | backend/app.py:145-216 | the backend's reply as the extension receives it: it is HTTP-ok exactly for a finished scan and always has a body. A refused request carries `{"error": "URL is required"}`; a finished scan carries its flag, confidence, risk name and URL |
| Background.PlainHttpPagesGetThreatBadge | extension/background.js:8-59 | every plain-HTTP page the background script scans gets the red badge and a warning, whatever the model says |
| Popup.ClassNameIdentifiesType | extension/popup.js:66-72 | different status types get different CSS classes |
| Popup.ResultStatus | extension/popup.js:33-40 | the danger status is shown exactly for a result whose `is_phishing` is truthy; every other result is shown as safe |
| Popup.CurrentStatus | extension/popup.js:15-49 | no tab or no URL shows "No active tab"; no cache entry shows "Not yet scanned"; danger and safe are shown exactly for cached phishing and non-phishing results |
| Popup.ManualPayload | extension/popup.js:85-93 | the manual scan fails only on a network error or an unparsable body; it does not look at the HTTP status |
| Popup.ErrorReplyShownAsSafe | extension/popup.js:93-111 | the backend's 400 error body gives the grey badge in the background script, but the manual scan caches it and shows the site as safe |
| Popup.ReopenShowsStoredResult | extension/popup.js:96-111 | after a manual scan stores a result, reopening the popup shows the same status as the scan did |
| Popup.PopupView.UpdateStatus | extension/popup.js:66-72 | sets the message and the class `status status-<type>`, and nothing else |
| Popup.PopupView.LoadCurrentStatus | extension/popup.js:15-49 | the status element shows `CurrentStatus`; the URL line is updated only for a tab with a URL |
| Popup.PopupView.ScanCurrentSite | extension/popup.js:74-121 | without a usable tab nothing changes. A readable body (error bodies included) overwrites exactly the tab's entry and is shown. A failure shows "Scan failed" and leaves the cache alone. Badges and warnings are never touched |
| ValidEmails.PressCheck | frontend/src/components/ValidEmails.tsx:13-20 | pressing Check keeps the address and always sets a verdict, which is Valid exactly when `Check` says so |
| ValidEmails.EditEmail | frontend/src/components/ValidEmails.tsx:34-37 | editing the address clears the verdict |
| ValidEmails.CheckReadsFirstDomain | frontend/src/components/ValidEmails.tsx:13-20 | for `local@domain` optionally followed by `@...`, the address is valid exactly when the lower-cased `domain` is in the allow-list |
| ValidEmails.NoAtIsInvalid | frontend/src/components/ValidEmails.tsx:14-18 | an address without '@' is invalid |
| ValidEmails.EmptyDomainIsInvalid | frontend/src/components/ValidEmails.tsx:14-18 | an address ending at its first '@' is invalid |
| ValidEmails.CheckIgnoresDomainCase | frontend/src/components/ValidEmails.tsx:15 | domains that differ only in letter case get the same verdict |
| ValidEmails.UnlistedDomainIsInvalid | frontend/src/components/ValidEmails.tsx:13-20 | any domain outside the allow-list is invalid |
| ValidEmails.SuspiciousDomainsAreInvalid | frontend/src/components/ValidEmails.tsx:6-20 | each domain the page lists as suspicious is invalid |
| Scenarios.FindScenario | frontend/src/components/Scenarios.tsx:110 | the scenario found is the first one in the list with the id; none is found exactly when no scenario has the id |
| Scenarios.SelectScenario | frontend/src/components/Scenarios.tsx:101-105 | selecting sets the selection to the id, the step to 0 and hides the result |
| Scenarios.NextStep | frontend/src/components/Scenarios.tsx:107-118 | with no selection, selection 0 or an unknown id nothing changes; otherwise the step advances by one while a step is left, and after that the result is shown with the step unchanged |
| Scenarios.ScenariosWellFormed | frontend/src/components/Scenarios.tsx:21-99 | every scenario has at least one step, and the ids are 1 to 4 in order |
| Scenarios.FoundHasSteps | frontend/src/components/Scenarios.tsx:21-99 | a scenario found by id among the four stories has at least one step |
| Scenarios.NextOnSelected | frontend/src/components/Scenarios.tsx:107-118 | one press of Next on a known non-zero selection advances the step while a step is left, and otherwise shows the result |
| Scenarios.HandlersKeepInv | frontend/src/components/Scenarios.tsx:101-124 | select, next and reset keep the invariant: the step shown is a step of the selected scenario, and without a known selection the stepper is at its start |
| Scenarios.WalkThrough | frontend/src/components/Scenarios.tsx:113-117 | after n presses of Next from a fresh selection of a k-step scenario: step n if n < k, otherwise the last step with the result shown; so Next is a fixed point once the result is shown |
| Scenarios.ResultAfterExactlyStepCount | frontend/src/components/Scenarios.tsx:113-117 | the result appears after exactly as many presses as the scenario has steps, and not before |
| Scenarios.ScenarioStepper.constructor | frontend/src/components/Scenarios.tsx:17-19 | the stepper starts with no selection, step 0 and the result hidden |
| Scenarios.ScenarioStepper.HandleScenarioSelect | frontend/src/components/Scenarios.tsx:101-105 | the new state is `SelectScenario(id)` |
| Scenarios.ScenarioStepper.HandleNextStep | frontend/src/components/Scenarios.tsx:107-118 | the new state is `NextStep` of the old one |
| Scenarios.ScenarioStepper.HandleReset | frontend/src/components/Scenarios.tsx:120-124 | the state is the initial one again |
| Scanner.RandomConfidence | frontend/src/components/Scanner.tsx:33-35 | for a draw in [0, 1), `floor(draw * width) + base` lies in [base, base + width) |
| Scanner.MockScan | frontend/src/components/Scanner.tsx:27-42 | the status is phishing exactly when a keyword occurs or the draw exceeds 0.7; explanation and suggestion are chosen by the same flag; for a draw in [0, 1) the confidence is in [80, 99] when phishing and in [70, 99] when safe |
| Scanner.KeywordAlwaysPhishing | frontend/src/components/Scanner.tsx:27-29 | a URL containing `phish` or `suspicious` anywhere is flagged, whatever the draws |
| Scanner.DrawDecidesWithoutKeyword | frontend/src/components/Scanner.tsx:27-29 | without a keyword the URL is flagged exactly when the draw exceeds 0.7 |
| Scanner.ConfidenceBandsReached | frontend/src/components/Scanner.tsx:33-35 | every value of each confidence band is produced by some draw in [0, 1) |
| Scanner.ScannerView.constructor | frontend/src/components/Scanner.tsx:14-16 | empty URL, not scanning, no result |
| Scanner.ScannerView.HandleScan | frontend/src/components/Scanner.tsx:18-48 | an empty URL changes nothing; otherwise scanning ends not busy whether the scan succeeds or fails, and a successful scan shows `MockScan` of the URL |
| Scanner.ScannerView.HandleInputChange | frontend/src/components/Scanner.tsx:50-53 | typing sets the URL and clears any previous result |
| DidYouKnow.NextFactIndex | frontend/src/components/DidYouKnow.tsx:26-28 | the last index wraps to 0 and any other index advances by one; from a valid index the result is valid and equals `(i + 1) mod n` |
| DidYouKnow.RotateIsModular | frontend/src/components/DidYouKnow.tsx:26-28 | k updates from a valid index i give `(i + k) mod n` |
| DidYouKnow.IndexStaysInRange | frontend/src/components/DidYouKnow.tsx:5-28 | starting from 0, the index always names one of the ten facts |
| DidYouKnow.FullCycleReturns | frontend/src/components/DidYouKnow.tsx:26-28 | n updates return to the start, and no smaller positive number of updates does |
| DidYouKnow.Dots | frontend/src/components/DidYouKnow.tsx:52-57 | one dot per fact; a dot is highlighted exactly when its index is the current one |
| DidYouKnow.ExactlyOneDot | frontend/src/components/DidYouKnow.tsx:52-57 | the set of highlighted dots is exactly the current index |
| PieChart.OrZero | frontend/src/components/Analytics/PieChartComponent.tsx:24-25 | a missing field becomes 0 and a present one is kept |
| PieChart.ChartData | frontend/src/components/Analytics/PieChartComponent.tsx:35-38 | exactly two slices, Safe then Phishing, carrying the two counters |
| PieChart.CenterPercent | frontend/src/components/Analytics/PieChartComponent.tsx:40-41 | 0 for no scans; otherwise the nearest whole number to the safe share times 100, with halves rounded up; between 0 and 100 for counts that are not negative |
| PieChart.NatToDecimal | frontend/src/components/Analytics/PieChartComponent.tsx:41 | a number is written as decimal digits, with no leading zero |
| PieChart.DecimalRoundTrip | frontend/src/components/Analytics/PieChartComponent.tsx:41 | reading the written digits back gives the number |
| PieChart.CenterTextReadsBack | frontend/src/components/Analytics/PieChartComponent.tsx:40-41 | the centre text is one to three digits followed by '%', and the digits read back as `CenterPercent` |
| PieChart.AllSafeIsHundred | frontend/src/components/Analytics/PieChartComponent.tsx:41 | only safe scans shows "100%" |
| PieChart.NoSafeIsZero | frontend/src/components/Analytics/PieChartComponent.tsx:41 | phishing scans and no safe ones shows "0%" |
| PieChart.BackendStatsFeedChart | frontend/src/components/Analytics/PieChartComponent.tsx:20-38 | fed by the backend's `/api/stats`, the slices are the safe and phishing row counts; they add up to the number of scans, and the centre is a percentage |
| PieChart.PieChartView.constructor | frontend/src/components/Analytics/PieChartComponent.tsx:15-16 | both counters start at 0 |
| PieChart.PieChartView.FetchStats | frontend/src/components/Analytics/PieChartComponent.tsx:20-29 | a failed fetch leaves both counters unchanged; a body sets each counter from its field, with a missing field giving 0 |

## Left out

Backend:
- Flask routing, CORS, request JSON parsing and the sqlite connection.
  - The table is an in-memory sequence.
  - A body that is not JSON, and database failures, lead to 500 replies; these are not modelled.
- The `/api/test` endpoint and the home page: they only report status text.
- The ML model and the TF-IDF vectoriser are not modelled. Feature
  extraction plus `predict_proba` is an input function from the normalised
  URL to a `Prediction`.
- The text of an exception message is not modelled, and neither are log lines.
- `urlparse` is library behaviour. `UrlNormaliser.PreprocessUrl` takes the
  parse result as an input. Its exception fallback cannot occur on
  that input.
- UrlNormaliser.PreprocessIdempotent: assumes the normalised URL parses
  back into the scheme, network location and path it was built from.
  `urlparse` breaks that when a kept segment contains `;`. For example,
  `https://h/a/b;y/c` normalises to `https://h/a/b;y`. That URL re-parses
  with path `/a/b` and parameters `y`, and normalises again to
  `https://h/a/b`. Parameters are not part of `ParsedUrl`, so the model
  does not capture this case.
- The comments around `backend/app.py:78-84` say that `http://d.com/` keeps
  its trailing slash. The code drops it, and the model follows the code.
- The `days` query parameter that the donut sends is ignored by the backend,
  and so by the model.

Time and ordering:
- ScanLog.RecentScans: lists the rows in reverse insertion order. The
  backend's `ORDER BY timestamp DESC` coincides with that only when
  timestamps never go backwards. `ScanLog.RecentAreNewest` takes this as a
  hypothesis. Rows stamped in the same second may come back in any order
  from the database.
- Timers (the fact rotation interval, the scanner's delay), asynchrony and
  races between overlapping handlers are not modelled. Each handler runs to
  completion.

Numbers and strings:
- Floating point: confidences and shares are exact reals.
  - `Math.round` is `floor(x + 1/2)` on the exact share.
  - `toFixed(1)` in the popup's phishing message is not modelled; the
    message keeps the confidence as a number.
- Strings.Lower: lower-cases ASCII letters only.
  - Python's `lower()` and JavaScript's `toLowerCase()` also map other
    characters. The checked prefixes and keywords are ASCII, so the
    verdicts agree except where a non-ASCII character lower-cases to an
    ASCII one.
  - An example is the Kelvin sign (U+212A), which becomes `k`. An e-mail
    domain written with it in place of the `k` of `outlook.com` is valid
    in the browser but invalid in the model.

Extension and frontend:
- Chrome API failures are not modelled: storage errors, and the `catch`
  around `loadCurrentStatus`.
  - The content script (`content.js`), which draws the warning overlay,
    is not modelled. A delivered warning is recorded in
    `Background.Browser.warnings`.
- `loadStats` and `reportIssue` in the popup, and the `alert` calls, are not modelled.
- The popup's "Scan now" with no usable tab only raises an alert; the model
  changes nothing.
- Scanner: the two `Math.random()` draws are parameters. Which draw a call
  consumes is therefore immaterial.
- The donut's PNG export and slice-click alert are not modelled, and
  neither is the rendering of any component.
- The wording of scenario steps and of the facts is display text and is not
  modelled. A scenario step keeps only its `isPhishing` flag.
