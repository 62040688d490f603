/** The comprehensive check: run the three checks, combine them into one
    overall health state, derive the advice shown to the operator, and map
    the health state to the process exit code. */
module Report {
  import opened Strings
  import opened Checker
  import opened Http
  import F = Functionality
  import opened Pods

  datatype HealthState = Healthy | Unhealthy

  /** One recommendation. The report prints it as `Message`. */
  datatype Advice =
    | ConnectivityFailed
    | FunctionalityDegraded
    | FunctionalityFailed
    | HighResponseTime(seconds: real)
    | NoReadyPods
    | SomePodsNotReady(ready: nat, total: nat)

  /** The report of one comprehensive check. `podStatus` is present exactly
      in Kubernetes mode. */
  datatype Results = Results(
    baseUrl: string,
    k8sMode: bool,
    namespace: string,
    appName: string,
    connectivity: Connectivity,
    functionality: F.FunctionalityCheck,
    podStatus: Option<PodStatus>,
    overall: HealthState,
    recommendations: seq<Advice>)

  /** The seconds threshold above which a response is called slow. */
  const SlowResponseSeconds: real := 5.0

  // ---------------------------------------------------------------------
  // Overall health

  /** Healthy when the server answered and serves the cow; in Kubernetes
      mode a successful pod listing must also show at least one ready pod.
      A pod check that did not succeed is ignored. */
  function OverallHealth(k8sMode: bool, conn: Connectivity, func: F.FunctionalityCheck, pods: Option<PodStatus>): (h: HealthState)
    ensures h == Healthy ==> conn.success && func.Checked? && func.functionality == F.Healthy
    ensures h == Healthy <==>
      && conn.success
      && func.Outcome() == F.Healthy
      && (k8sMode && pods.Some? && pods.value.Success? ==> pods.value.ready > 0)
  {
    var healthy := conn.success && func.Outcome() == F.Healthy;
    var healthy' := if k8sMode && pods.Some? && pods.value.Success? then healthy && pods.value.ready > 0 else healthy;
    if healthy' then Healthy else Unhealthy
  }

  /** The process exit status for a health state. */
  function ExitCode(h: HealthState): (code: int)
    ensures code == 0 || code == 1
    ensures code == 0 <==> h == Healthy
  {
    if h == Healthy then 0 else 1
  }

  /** A pod check that did not succeed never lowers the overall health:
      the result is the same as outside Kubernetes mode. */
  lemma FailedPodCheckNeverDowngrades(conn: Connectivity, func: F.FunctionalityCheck, pods: PodStatus)
    requires !pods.Success?
    ensures OverallHealth(true, conn, func, Some(pods)) == OverallHealth(false, conn, func, None)
  {
  }

  // ---------------------------------------------------------------------
  // Recommendations

  /** The section of the report an advice belongs to, in printing order. */
  function Rank(a: Advice): nat {
    match a
    case ConnectivityFailed => 0
    case FunctionalityDegraded => 1
    case FunctionalityFailed => 1
    case HighResponseTime(_) => 2
    case NoReadyPods => 3
    case SomePodsNotReady(_, _) => 3
  }

  /** Which of the six advice texts an advice is. */
  function Kind(a: Advice): nat {
    match a
    case ConnectivityFailed => 0
    case FunctionalityDegraded => 1
    case FunctionalityFailed => 2
    case HighResponseTime(_) => 3
    case NoReadyPods => 4
    case SomePodsNotReady(_, _) => 5
  }

  /** The last three characters of an advice's text. */
  function Closing(a: Advice): string {
    match a
    case ConnectivityFailed => "ing"
    case FunctionalityDegraded => "ion"
    case FunctionalityFailed => "ogs"
    case HighResponseTime(_) => "nce"
    case NoReadyPods => "bes"
    case SomePodsNotReady(_, _) => "ods"
  }

  /** The text printed for an advice. Rendering a number of seconds is
      Python's float formatting, which is a parameter here. Each text ends
      in the closing of its kind. */
  function Message(a: Advice, showSeconds: real -> string): (m: string)
    ensures |m| >= 3 && m[|m| - 3..] == Closing(a)
  {
    match a
    case ConnectivityFailed => "HTTP connectivity failed - check if application is running"
    case FunctionalityDegraded => "Wisecow functionality degraded - check fortune/cowsay installation"
    case FunctionalityFailed => "Wisecow functionality failed - check application logs"
    case HighResponseTime(seconds) =>
      var head := "High response time (" + showSeconds(seconds);
      var tail := "s) - check application performance";
      assert (head + tail)[|head + tail| - 3..] == tail[|tail| - 3..];
      head + tail
    case NoReadyPods => "No ready pods - check pod logs and readiness probes"
    case SomePodsNotReady(ready, total) =>
      var head := "Only " + IntToString(ready) + "/" + IntToString(total);
      var tail := " pods ready - check failing pods";
      assert (head + tail)[|head + tail| - 3..] == tail[|tail| - 3..];
      head + tail
  }

  /** Advice of different kinds never print alike, whatever numbers they
      carry, so a printed report can be read back section by section. */
  lemma MessagesTellKindsApart(a: Advice, b: Advice, showSeconds: real -> string)
    requires Kind(a) != Kind(b)
    ensures Message(a, showSeconds) != Message(b, showSeconds)
  {
    assert Closing(a) != Closing(b);
  }

  function ConnectivityAdvice(conn: Connectivity): seq<Advice> {
    if !conn.success then [ConnectivityFailed] else []
  }

  function FunctionalityAdvice(func: F.FunctionalityCheck): seq<Advice> {
    match func.Outcome()
    case Degraded => [FunctionalityDegraded]
    case Failed => [FunctionalityFailed]
    case Healthy => []
  }

  function ResponseTimeAdvice(conn: Connectivity): seq<Advice> {
    if conn.responseTime > SlowResponseSeconds then [HighResponseTime(conn.responseTime)] else []
  }

  function PodAdvice(k8sMode: bool, pods: Option<PodStatus>): seq<Advice> {
    if k8sMode && pods.Some? && pods.value.Success? then
      if pods.value.ready == 0 then [NoReadyPods]
      else if pods.value.ready < pods.value.total then [SomePodsNotReady(pods.value.ready, pods.value.total)]
      else []
    else []
  }

  /** The advice list: connectivity, functionality, response time and pod
      readiness, in that order. */
  function Recommendations(k8sMode: bool, conn: Connectivity, func: F.FunctionalityCheck, pods: Option<PodStatus>): seq<Advice> {
    ConnectivityAdvice(conn) + FunctionalityAdvice(func) + ResponseTimeAdvice(conn) + PodAdvice(k8sMode, pods)
  }

  /** Builds the advice list by appending to an initially empty list. */
  method GenerateRecommendations(k8sMode: bool, conn: Connectivity, func: F.FunctionalityCheck, pods: Option<PodStatus>)
    returns (recs: seq<Advice>)
    ensures recs == Recommendations(k8sMode, conn, func, pods)
  {
    recs := [];
    if !conn.success {
      recs := recs + [ConnectivityFailed];
    }
    assert recs == ConnectivityAdvice(conn);
    var verdict := func.Outcome();
    if verdict == F.Degraded {
      recs := recs + [FunctionalityDegraded];
    } else if verdict == F.Failed {
      recs := recs + [FunctionalityFailed];
    }
    assert recs == ConnectivityAdvice(conn) + FunctionalityAdvice(func);
    if conn.responseTime > SlowResponseSeconds {
      recs := recs + [HighResponseTime(conn.responseTime)];
    }
    assert recs == ConnectivityAdvice(conn) + FunctionalityAdvice(func) + ResponseTimeAdvice(conn);
    if k8sMode && pods.Some? && pods.value.Success? {
      var ready := pods.value.ready;
      var total := pods.value.total;
      if ready == 0 {
        recs := recs + [NoReadyPods];
      } else if ready < total {
        recs := recs + [SomePodsNotReady(ready, total)];
      }
    }
  }

  /** The advice comes out section by section in a fixed order, with at most
      one advice per section: so never both functionality messages and
      never both pod messages. */
  lemma RecommendationsOrdered(k8sMode: bool, conn: Connectivity, func: F.FunctionalityCheck, pods: Option<PodStatus>)
    ensures |Recommendations(k8sMode, conn, func, pods)| <= 4
    ensures forall i, j :: 0 <= i < j < |Recommendations(k8sMode, conn, func, pods)| ==>
      Rank(Recommendations(k8sMode, conn, func, pods)[i]) < Rank(Recommendations(k8sMode, conn, func, pods)[j])
  {
    var c, f, t, p := ConnectivityAdvice(conn), FunctionalityAdvice(func), ResponseTimeAdvice(conn), PodAdvice(k8sMode, pods);
    var recs := c + f + t + p;
    assert forall a :: a in c ==> Rank(a) == 0;
    assert forall a :: a in f ==> Rank(a) == 1;
    assert forall a :: a in t ==> Rank(a) == 2;
    assert forall a :: a in p ==> Rank(a) == 3;
    forall i, j | 0 <= i < j < |recs|
      ensures Rank(recs[i]) < Rank(recs[j])
    {
      assert recs[i] in c || recs[i] in f || recs[i] in t || recs[i] in p;
      assert recs[i] in c ==> i < |c|;
      assert recs[j] in c || recs[j] in f || recs[j] in t || recs[j] in p;
    }
  }

  /** No advice is given exactly when the server answered quickly, serves
      the cow, and (in Kubernetes mode with a successful pod listing) every
      listed pod is ready and at least one is. */
  lemma RecommendationsEmptyIff(k8sMode: bool, conn: Connectivity, func: F.FunctionalityCheck, pods: Option<PodStatus>)
    ensures Recommendations(k8sMode, conn, func, pods) == [] <==>
      && conn.success
      && func.Outcome() == F.Healthy
      && conn.responseTime <= SlowResponseSeconds
      && (k8sMode && pods.Some? && pods.value.Success? ==> 0 < pods.value.ready && pods.value.total <= pods.value.ready)
  {
    var c, f, t, p := ConnectivityAdvice(conn), FunctionalityAdvice(func), ResponseTimeAdvice(conn), PodAdvice(k8sMode, pods);
    assert |c + f + t + p| == |c| + |f| + |t| + |p|;
  }

  /** An empty advice list means the overall state is healthy. */
  lemma NoAdviceImpliesHealthy(k8sMode: bool, conn: Connectivity, func: F.FunctionalityCheck, pods: Option<PodStatus>)
    requires Recommendations(k8sMode, conn, func, pods) == []
    ensures OverallHealth(k8sMode, conn, func, pods) == Healthy
  {
    RecommendationsEmptyIff(k8sMode, conn, func, pods);
  }

  /** When the overall state is healthy, the only advice possible is about
      a slow response or about some pods not being ready. */
  lemma HealthyAdviceIsAdvisory(k8sMode: bool, conn: Connectivity, func: F.FunctionalityCheck, pods: Option<PodStatus>)
    requires OverallHealth(k8sMode, conn, func, pods) == Healthy
    ensures forall a :: a in Recommendations(k8sMode, conn, func, pods) ==>
      a.HighResponseTime? || a.SomePodsNotReady?
  {
    var c, f, t, p := ConnectivityAdvice(conn), FunctionalityAdvice(func), ResponseTimeAdvice(conn), PodAdvice(k8sMode, pods);
    assert c == [] && f == [];
    assert forall a :: a in p ==> a.SomePodsNotReady?;
  }

  // ---------------------------------------------------------------------
  // The comprehensive check

  /** The report the comprehensive check produces from the outcomes of the
      connectivity request, the functionality request and `kubectl`. */
  function Assess(checker: Checker, connFetch: Fetch, funcFetch: Fetch, kubectl: KubectlRun): Results {
    var conn := CheckConnectivity(connFetch);
    var func := F.CheckFunctionality(funcFetch);
    var pods := if checker.k8sMode then Some(PodStatusOf(checker.k8sMode, kubectl)) else None;
    Results(
      checker.baseUrl, checker.k8sMode, checker.namespace, checker.appName,
      conn, func, pods,
      OverallHealth(checker.k8sMode, conn, func, pods),
      Recommendations(checker.k8sMode, conn, func, pods))
  }

  /** The comprehensive check as the source runs it: checks in order, the
      health flag narrowed by the pod check, then the advice. */
  method RunComprehensiveCheck(checker: Checker, connFetch: Fetch, funcFetch: Fetch, kubectl: KubectlRun)
    returns (results: Results)
    ensures results == Assess(checker, connFetch, funcFetch, kubectl)
  {
    var conn := CheckConnectivity(connFetch);
    var func := F.CheckFunctionality(funcFetch);
    var pods: Option<PodStatus> := None;
    if checker.k8sMode {
      var status := CheckPodStatus(checker, kubectl);
      pods := Some(status);
    }
    var healthy := conn.success && func.Outcome() == F.Healthy;
    if checker.k8sMode {
      if pods.Some? && pods.value.Success? {
        healthy := healthy && pods.value.ready > 0;
      }
    }
    var recs := GenerateRecommendations(checker.k8sMode, conn, func, pods);
    results := Results(
      checker.baseUrl, checker.k8sMode, checker.namespace, checker.appName,
      conn, func, pods,
      if healthy then Healthy else Unhealthy,
      recs);
  }

  /** End to end: the checker exits with 0 exactly when the server answered
      (any status), the page served is the fortune-telling cow, and, in
      Kubernetes mode with a successful pod listing, some listed pod has a
      Ready=True condition. */
  lemma ExitCodeReflectsChecks(checker: Checker, connFetch: Fetch, funcFetch: Fetch, kubectl: KubectlRun)
    ensures ExitCode(Assess(checker, connFetch, funcFetch, kubectl).overall) == 0 <==>
      && (connFetch.Response? || connFetch.HttpError?)
      && funcFetch.Response?
      && F.LooksLikeWisecow(funcFetch.status, funcFetch.body)
      && (checker.k8sMode && kubectl.Finished? && kubectl.returnCode == 0 && kubectl.output.Items? ==>
            exists i :: 0 <= i < |kubectl.output.pods| && HasReadyCondition(kubectl.output.pods[i].conditions))
  {
    if checker.k8sMode && kubectl.Finished? && kubectl.returnCode == 0 && kubectl.output.Items? {
      ReadyPodsPositiveIff(kubectl.output.pods);
    }
  }

  /** In Kubernetes mode with a successful pod listing, the "Only r/t pods
      ready" advice appears exactly when some listed pod is ready and some
      is not; "No ready pods" appears exactly when none is. */
  lemma PodAdviceReflectsPods(checker: Checker, connFetch: Fetch, funcFetch: Fetch, pods: seq<Pod>, stderr: string)
    requires checker.k8sMode
    ensures var recs := Assess(checker, connFetch, funcFetch, Finished(0, stderr, Items(pods))).recommendations;
      && (NoReadyPods in recs <==> forall i :: 0 <= i < |pods| ==> !HasReadyCondition(pods[i].conditions))
      && ((exists a :: a in recs && a.SomePodsNotReady?) <==>
            (exists i :: 0 <= i < |pods| && HasReadyCondition(pods[i].conditions)) &&
            (exists i :: 0 <= i < |pods| && !HasReadyCondition(pods[i].conditions)))
  {
    var results := Assess(checker, connFetch, funcFetch, Finished(0, stderr, Items(pods)));
    var conn, func := results.connectivity, results.functionality;
    var c, f, t := ConnectivityAdvice(conn), FunctionalityAdvice(func), ResponseTimeAdvice(conn);
    var p := PodAdvice(true, Some(Summary(pods)));
    assert results.recommendations == c + f + t + p;
    assert forall a: Advice :: a in c + f + t ==> !a.NoReadyPods? && !a.SomePodsNotReady?;
    ReadyPodsPositiveIff(pods);
    AllPodsReadyIff(pods);
    SummaryCounts(pods);
    var summary := Summary(pods);
    if 0 < summary.ready < summary.total {
      assert SomePodsNotReady(summary.ready, summary.total) in results.recommendations;
    } else {
      assert forall a: Advice :: a in p ==> !a.SomePodsNotReady?;
    }
  }
}
