# Wisecow application health checker — a Dafny model

The wisecow deployment serves a fortune message drawn by an ASCII cow inside
a `<pre>` block. The repository ships a health checker for it
(`scripts/k8s-app-health-checker.py`). The checker does three things:

- it requests the application's base URL and records whether an answer came back;
- it requests the URL again and looks for the fortune and the cow in the page;
- in Kubernetes mode, it asks `kubectl` for the application's pods and counts the running and the ready ones.

It then combines the three results into an overall HEALTHY/UNHEALTHY state, a
list of recommendations, and an exit status.

This project models that decision logic. Every network request and every
`kubectl` run is replaced by its outcome, passed in as a value. The modules
follow the script's structure:

| file | module | what it holds |
|---|---|---|
| `strings.dfy` | `Strings` | `str.lower()`, the substring test `p in s`, `str(int)` and its inverse |
| `checker.dfy` | `Checker` | the checker's configuration and its constructor (trailing-slash removal) |
| `http.dfy` | `Http` | request outcomes and the connectivity triple |
| `functionality.dfy` | `Functionality` | the page classifier (HEALTHY / DEGRADED / FAILED) |
| `pods.dfy` | `Pods` | the pod list, the counting loop and the pod-status variants |
| `report.dfy` | `Report` | overall health, recommendations, the comprehensive check and the exit code |

Where the script works step by step, the model does too. The pod summary is
a `for` loop that bumps two counters and appends one detail per pod. Its
inner loop stops at the first Ready condition. The recommendations are built
by successive appends. Each of these methods is proved equal to a
specification function, and the properties are proved as lemmas about that
function. The checker object is never changed after construction, so it is a
datatype.

The substring tests are stated by position. `Occurs(s, p)` holds when some
index of `s` starts a copy of `p`. `OccursIgnoringCase(s, p)` holds when some
window of `s` spells `p` once lower-cased. The functionality contract uses
these definitions, not the scanning function that computes the tests.

## Model

| member | source | states |
|---|---|---|
| `Checker.StripTrailingSlashes` | scripts/k8s-app-health-checker.py:23 | The result is a prefix of the URL. It does not end in '/'. Everything removed is '/'. |
| `Checker.StripTrailingSlashesUnique` | scripts/k8s-app-health-checker.py:23 | Any prefix with those three properties is the stripped URL, so `rstrip('/')` is fully pinned down. |
| `Checker.StripTrailingSlashesIdempotent` | scripts/k8s-app-health-checker.py:23 | Normalising twice gives the same URL as normalising once. |
| `Checker.NewChecker` | scripts/k8s-app-health-checker.py:22-27 | The base URL is normalised as above. The timeout and mode are kept. The namespace and app name come from NAMESPACE and APP_NAME, defaulting to "default" and "wisecow". |
| `Strings.Lower` | scripts/k8s-app-health-checker.py:46 | `.lower()` keeps the length, leaves no upper-case letter, keeps every character that is not an upper-case letter and maps each upper-case letter to its lower-case partner. |
| `Strings.LowerIdempotent` | scripts/k8s-app-health-checker.py:46 | Lower-casing an already lower-cased text changes nothing. |
| `Strings.Contains` | scripts/k8s-app-health-checker.py:127-129 | The scanning substring test is true exactly when `p` occurs at some position of `s`. |
| `Strings.LowerOccurs` | scripts/k8s-app-health-checker.py:126-128 | Searching the lower-cased text for `p` is the same as a case-insensitive search of the original text. |
| `Strings.NatToDigits` | scripts/k8s-app-health-checker.py:41 | `str(n)` is a non-empty string of digits with no leading zero. |
| `Strings.IntToString` | scripts/k8s-app-health-checker.py:41-44 | `str(i)` is canonical: digits without a leading zero, preceded by '-' only for a negative number (never "-0"). |
| `Strings.DigitsRoundTrip` | scripts/k8s-app-health-checker.py:41 | Reading the digits of `str(n)` back gives `n`. |
| `Strings.IntRoundTrip` | scripts/k8s-app-health-checker.py:44 | Reading `str(i)` back gives `i` for every integer, so different status codes never print alike. |
| `Strings.NumeralUnique` | scripts/k8s-app-health-checker.py:41-44 | A canonical numeral is `str` of the integer it reads as. With `IntRoundTrip`, `str(i)` is the only canonical text that reads as `i`. |
| `Http.CheckConnectivity` | scripts/k8s-app-health-checker.py:29-51 | Success holds exactly for a response or an HTTP error status. Its status text is a canonical numeral that reads back as the code, so by `Strings.NumeralUnique` it is exactly `str(code)`. Its time is the elapsed time. A URL error mentioning "timeout" in any case gives (false, "TIMEOUT", 0). Other URL errors give "URL_ERROR: " + message, other exceptions "REQUEST_ERROR: " + message, each with time 0. |
| `Http.StatusIsNumeralIffSuccess` | scripts/k8s-app-health-checker.py:41-51 | The status text is a numeral exactly when the check succeeded. |
| `Functionality.CheckFunctionality` | scripts/k8s-app-health-checker.py:108-143 | A failed fetch, including an HTTP error status, gives FAILED with the error message. For a received page it records the status, the size and the content type ("unknown" when absent). fortune_detected is a case-insensitive "fortune". cow_detected is a case-insensitive "cow" or "moo". html_format is a case-sensitive `<pre>` and `</pre>`. The verdict is HEALTHY exactly when the status is 200 and all three flags hold, otherwise DEGRADED. |
| `Functionality.WrappedArtIsHealthy` | scripts/k8s-app-health-checker.py:126-138 | The page the server is meant to serve (status 200, art wrapped in `<pre>`…`</pre>`) is HEALTHY whenever the art mentions a fortune and a cow. |
| `Functionality.UpperMarkersHidePre` | scripts/k8s-app-health-checker.py:129 | A page of the form `<PRE>` + art + `</PRE>` contains `<pre>` only if the art does. |
| `Functionality.UpperCaseMarkersAreDegraded` | scripts/k8s-app-health-checker.py:129-138 | The block-marker test is case-sensitive: every status-200 page of the form `<PRE>` + art + `</PRE>` whose art lacks `<pre>` is DEGRADED, whatever the art says. |
| `Pods.Count` | scripts/k8s-app-health-checker.py:88-91 | A counter never exceeds the number of items it counts over. |
| `Pods.FindReadyCondition` | scripts/k8s-app-health-checker.py:81-86 | The early-exit scan returns true exactly when some condition has type "Ready" and status "True". |
| `Pods.Summarise` | scripts/k8s-app-health-checker.py:68-99 | The counting loop produces exactly the specified summary. That is one detail per pod in order, the number of running pods and the number of ready pods. |
| `Pods.CheckPodStatus` | scripts/k8s-app-health-checker.py:53-106 | Outside Kubernetes mode the result is NOT_IN_K8S. A non-zero exit gives KUBECTL_ERROR with stderr. A kubectl timeout gives TIMEOUT. Undecodable output gives JSON_ERROR. Any other exception gives ERROR. Otherwise the result is the summary. |
| `Pods.PodsNotExaminedOnFailure` | scripts/k8s-app-health-checker.py:55-65 | Outside Kubernetes mode, or when kubectl exits non-zero, the result does not depend on the pod list. |
| `Pods.SummaryDetails` | scripts/k8s-app-health-checker.py:70-97 | total_pods is the number of items and the length of pod_details. Each detail keeps its pod's position and name. Its phase is the pod's phase, or "Unknown" when there is none. Its ready flag is true exactly when a Ready=True condition exists. |
| `Pods.SummaryCounts` | scripts/k8s-app-health-checker.py:72-91 | running_pods is the number of details whose phase is "Running", and ready_pods the number of ready details. Both are at most total_pods. |
| `Pods.ReadyPodsPositiveIff` | scripts/k8s-app-health-checker.py:83-91 | ready_pods > 0 exactly when some pod has a Ready=True condition. |
| `Pods.AllPodsReadyIff` | scripts/k8s-app-health-checker.py:83-91 | ready_pods == total_pods exactly when every pod has a Ready=True condition. |
| `Report.OverallHealth` | scripts/k8s-app-health-checker.py:176-186 | HEALTHY exactly when connectivity succeeded, the functionality verdict is HEALTHY and, in Kubernetes mode with a successful pod listing, ready_pods > 0. HEALTHY implies the page was fetched and classified HEALTHY. |
| `Report.FailedPodCheckNeverDowngrades` | scripts/k8s-app-health-checker.py:181-184 | A pod status other than SUCCESS leaves the overall health as it would be outside Kubernetes mode. |
| `Report.ExitCode` | scripts/k8s-app-health-checker.py:314 | The exit status is 0 or 1, and 0 exactly for HEALTHY. |
| `Report.ExitCodeReflectsChecks` | scripts/k8s-app-health-checker.py:176-186 | The checker exits 0 exactly when all of these hold: the server answered with any status; the page served is the fortune-telling cow; in Kubernetes mode with a successful listing, some pod has a Ready=True condition. |
| `Report.GenerateRecommendations` | scripts/k8s-app-health-checker.py:191-222 | The appends produce exactly the connectivity, functionality, response-time and pod advice, in that order. |
| `Report.RecommendationsOrdered` | scripts/k8s-app-health-checker.py:193-222 | The advice comes in strictly increasing section order, with at most four items. So DEGRADED and FAILED advice never appear together, and "No ready pods" and "Only r/t" never appear together. |
| `Report.RecommendationsEmptyIff` | scripts/k8s-app-health-checker.py:193-222 | The list is empty exactly when all of these hold: connectivity succeeded; functionality is HEALTHY; the response time is at most 5 s; in Kubernetes mode with a successful listing, 0 < ready_pods and ready_pods ≥ total_pods. |
| `Report.NoAdviceImpliesHealthy` | scripts/k8s-app-health-checker.py:176-222 | An empty advice list implies the overall state is HEALTHY. |
| `Report.HealthyAdviceIsAdvisory` | scripts/k8s-app-health-checker.py:176-222 | When the overall state is HEALTHY, only response-time or "Only r/t pods ready" advice can appear. |
| `Report.PodAdviceReflectsPods` | scripts/k8s-app-health-checker.py:211-220 | With a successful listing, "No ready pods" appears exactly when no pod is ready. "Only r/t" appears exactly when some pods are ready and some are not. |
| `Report.Message` | scripts/k8s-app-health-checker.py:197-220 | The six advice texts, with the pod counts printed by `str` and the seconds by a float-rendering parameter. Each text ends in the three characters that mark its kind. |
| `Report.MessagesTellKindsApart` | scripts/k8s-app-health-checker.py:197-220 | The printed texts of advice of different kinds always differ, whatever numbers they carry. |
| `Report.RunComprehensiveCheck` | scripts/k8s-app-health-checker.py:145-189 | Running the checks in order, narrowing the health flag by the pod check and generating the advice produces exactly the specified report. |

## Left out

- The network requests made with `urllib.request.urlopen` and the reading of the body are I/O. Their outcome is the `Http.Fetch` input. The body is taken as already decoded text, so the UTF-8 decoding that drops undecodable bytes is not modelled.
- The `kubectl` subprocess, its 10-second timeout and the JSON decoding of its output are foreign calls. Their outcome is the `Pods.KubectlRun` input.
- A pod item that lacks `metadata.name` or `status`, or a condition read by the loop that lacks `type`, makes the script raise `KeyError` partway through the loop, which is reported as ERROR. The model takes those documents as the `Unexpected` input variant. A condition's `status` is read only when its `type` is "Ready", and conditions after the first Ready=True one are never read. Documents that lack those unread keys are summarised by the script. The model gives every condition both fields, so it does not represent such documents.
- Pods.Pod: a pod whose JSON has `"phase": null` gets the phase `None` from `.get('phase', 'Unknown')`, not "Unknown". `Pod.phase` is an `Option<string>` and cannot express a present null. Such a pod is not represented, and the model shows it as "Unknown".
- The clock (`time.time()`, `datetime.now()`) is left out. Elapsed times are `real` inputs, and the report carries no timestamp.
- Report.GenerateRecommendations: the 5-second threshold is applied to the unrounded response time. The script applies it to `round(response_time, 3)`, so the two differ only for times within 0.0005 s above 5.0.
- Report.Assess: the script stores `round(response_time, 3)` in the report, and the slow-response advice prints that rounded value. `Results.connectivity.responseTime` and `HighResponseTime` carry the unrounded time. Rounding a binary float to three decimals is not modelled.
- Report.Message: the text of the response-time advice prints the seconds with Python's float formatting. That formatting is a parameter of the model, not a definition.
- Strings.Lower: only the ASCII letters are lower-cased; Unicode case mapping of other characters is not modelled. The searched words "fortune", "cow", "moo" and "timeout" are ASCII.
- Strings.ParseInt is the inverse of `str(int)` used to state what the status text preserves. It is not Python's `int()`, which also accepts signs, spaces and underscores.
- Http.CheckConnectivity: the `'start_time' in locals()` fallback to 0.0 is not modelled. `start_time` is assigned before any request is made, so an HTTP error always reports the elapsed time.
- `print_results`, the progress messages, argparse, the writes to NAMESPACE and APP_NAME in `main`, the filesystem probe that auto-detects Kubernetes mode, and the JSON file output are presentation and process plumbing.
- `sys.exit` itself is left out. Only the mapping from health state to exit status is modelled.
- The wisecow server script that the checker probes is not part of this model.
