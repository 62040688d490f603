/** The Kubernetes pod check: summarise the pods `kubectl` lists for the
    application. Running `kubectl` and decoding its JSON are not modelled;
    their outcome is an input. */
module Pods {
  import opened Strings
  import opened Checker

  /** One entry of a pod's `status.conditions`. */
  datatype Condition = Condition(kind: string, status: string)

  /** One item of the pod list: its `metadata.name`, its `status.phase`
      when present, and its conditions (an absent list is empty). */
  datatype Pod = Pod(name: string, phase: Option<string>, conditions: seq<Condition>)

  /** What the document printed by `kubectl` decoded to. `Unexpected` stands
      for a document whose items lack a field the summary reads, which makes
      the summary raise. */
  datatype Decoded =
    | Items(pods: seq<Pod>)
    | Malformed(message: string)
    | Unexpected(message: string)

  /** How the `kubectl get pods` run ended. `Crashed` is any other exception,
      for instance a missing `kubectl` binary. */
  datatype KubectlRun =
    | Finished(returnCode: int, stderr: string, output: Decoded)
    | TimedOut
    | Crashed(message: string)

  /** The per-pod line of the summary. */
  datatype PodDetail = PodDetail(name: string, phase: string, ready: bool)

  /** The dictionary the pod check returns, one variant per 'status'. */
  datatype PodStatus =
    | NotInK8s
    | KubectlError(error: string)
    | Timeout(error: string)
    | JsonError(error: string)
    | Error(error: string)
    | Success(total: nat, running: nat, ready: nat, details: seq<PodDetail>)

  // ---------------------------------------------------------------------
  // Specification

  predicate IsReadyCondition(c: Condition) {
    c.kind == "Ready" && c.status == "True"
  }

  /** Some condition says the pod is Ready. */
  predicate HasReadyCondition(conditions: seq<Condition>) {
    exists i | 0 <= i < |conditions| :: IsReadyCondition(conditions[i])
  }

  function PhaseOrUnknown(phase: Option<string>): string {
    if phase.Some? then phase.value else "Unknown"
  }

  function DetailOf(pod: Pod): PodDetail {
    PodDetail(pod.name, PhaseOrUnknown(pod.phase), HasReadyCondition(pod.conditions))
  }

  /** One detail per pod, in the order `kubectl` listed them. */
  function Details(pods: seq<Pod>): (ds: seq<PodDetail>)
    ensures |ds| == |pods|
  {
    seq(|pods|, i requires 0 <= i < |pods| => DetailOf(pods[i]))
  }

  predicate IsRunning(d: PodDetail) {
    d.phase == "Running"
  }

  predicate IsReady(d: PodDetail) {
    d.ready
  }

  /** The number of elements of `s` that satisfy `f`. */
  function Count<T>(s: seq<T>, f: T -> bool): (n: nat)
    ensures n <= |s|
    decreases |s|
  {
    if s == [] then 0 else Count(s[..|s| - 1], f) + (if f(s[|s| - 1]) then 1 else 0)
  }

  /** The summary of a decoded pod list. */
  function Summary(pods: seq<Pod>): PodStatus {
    var details := Details(pods);
    Success(|pods|, Count(details, IsRunning), Count(details, IsReady), details)
  }

  /** The pod check: nothing is examined outside Kubernetes mode or when
      `kubectl` fails; otherwise the decoded list is summarised. */
  function PodStatusOf(k8sMode: bool, run: KubectlRun): PodStatus {
    if !k8sMode then NotInK8s
    else
      match run
      case TimedOut => Timeout("kubectl command timed out")
      case Crashed(message) => Error(message)
      case Finished(returnCode, stderr, output) =>
        if returnCode != 0 then KubectlError(stderr)
        else
          match output
          case Malformed(message) => JsonError(message)
          case Unexpected(message) => Error(message)
          case Items(pods) => Summary(pods)
  }

  // ---------------------------------------------------------------------
  // The check as the source runs it

  /** The inner loop: scan the conditions and stop at the first Ready one. */
  method FindReadyCondition(conditions: seq<Condition>) returns (ready: bool)
    ensures ready == HasReadyCondition(conditions)
  {
    ready := false;
    for i := 0 to |conditions|
      invariant !ready
      invariant forall k :: 0 <= k < i ==> !IsReadyCondition(conditions[k])
    {
      if conditions[i].kind == "Ready" && conditions[i].status == "True" {
        ready := true;
        break;
      }
    }
  }

  /** The counting loop: one pass over the pods, two counters bumped in
      place and one detail appended per pod. */
  method Summarise(pods: seq<Pod>) returns (r: PodStatus)
    ensures r == Summary(pods)
  {
    var running: nat, ready: nat := 0, 0;
    var details: seq<PodDetail> := [];
    for i := 0 to |pods|
      invariant |details| == i
      invariant forall k :: 0 <= k < i ==> details[k] == DetailOf(pods[k])
      invariant running == Count(details, IsRunning)
      invariant ready == Count(details, IsReady)
    {
      var pod := pods[i];
      var phase := if pod.phase.Some? then pod.phase.value else "Unknown";
      var readyCondition := FindReadyCondition(pod.conditions);
      var detail := PodDetail(pod.name, phase, readyCondition);
      assert (details + [detail])[..|details|] == details;
      if phase == "Running" {
        running := running + 1;
      }
      if readyCondition {
        ready := ready + 1;
      }
      details := details + [detail];
    }
    assert details == Details(pods);
    r := Success(|pods|, running, ready, details);
  }

  /** The pod check: outside Kubernetes mode and on every failure of
      `kubectl` no pod is examined; otherwise the decoded list is
      summarised. */
  method CheckPodStatus(checker: Checker, run: KubectlRun) returns (r: PodStatus)
    ensures r == PodStatusOf(checker.k8sMode, run)
  {
    if !checker.k8sMode {
      return NotInK8s;
    }
    match run {
      case TimedOut =>
        return Timeout("kubectl command timed out");
      case Crashed(message) =>
        return Error(message);
      case Finished(returnCode, stderr, output) =>
        if returnCode != 0 {
          return KubectlError(stderr);
        }
        match output {
          case Malformed(message) =>
            return JsonError(message);
          case Unexpected(message) =>
            return Error(message);
          case Items(pods) =>
            r := Summarise(pods);
        }
    }
  }

  // ---------------------------------------------------------------------
  // Properties of the summary

  /** The positions of `s` whose element satisfies `f`. */
  ghost function Positions<T>(s: seq<T>, f: T -> bool): set<int> {
    set i | 0 <= i < |s| && f(s[i])
  }

  /** Extending a sequence by one element adds at most its position. */
  lemma PositionsSnoc<T>(s: seq<T>, f: T -> bool)
    requires |s| > 0
    ensures Positions(s, f) == Positions(s[..|s| - 1], f) + (if f(s[|s| - 1]) then {|s| - 1} else {})
    ensures |s| - 1 !in Positions(s[..|s| - 1], f)
  {
    var n := |s| - 1;
    var extra: set<int> := if f(s[n]) then {n} else {};
    forall i
      ensures i in Positions(s, f) <==> i in Positions(s[..n], f) + extra
    {
      if 0 <= i < n {
        assert s[..n][i] == s[i];
      }
    }
  }

  /** The count is the number of positions whose element satisfies `f`. */
  lemma {:induction false} CountIsCardinality<T>(s: seq<T>, f: T -> bool)
    ensures Count(s, f) == |Positions(s, f)|
    decreases |s|
  {
    if s != [] {
      CountIsCardinality(s[..|s| - 1], f);
      PositionsSnoc(s, f);
    } else {
      assert Positions(s, f) == {};
    }
  }

  /** Every element satisfies `f` exactly when all of them are counted. */
  lemma {:induction false} CountAllIff<T>(s: seq<T>, f: T -> bool)
    ensures Count(s, f) == |s| <==> forall i :: 0 <= i < |s| ==> f(s[i])
    decreases |s|
  {
    if s != [] {
      var init := s[..|s| - 1];
      CountAllIff(init, f);
      if forall i :: 0 <= i < |s| ==> f(s[i]) {
        assert forall i :: 0 <= i < |init| ==> f(init[i]);
      }
    }
  }

  /** Nothing is counted exactly when no element satisfies `f`. */
  lemma {:induction false} CountZeroIff<T>(s: seq<T>, f: T -> bool)
    ensures Count(s, f) == 0 <==> forall i :: 0 <= i < |s| ==> !f(s[i])
    decreases |s|
  {
    if s != [] {
      var init := s[..|s| - 1];
      CountZeroIff(init, f);
      if forall i :: 0 <= i < |s| ==> !f(s[i]) {
        assert forall i :: 0 <= i < |init| ==> !f(init[i]);
      }
    }
  }

  /** Outside Kubernetes mode, or when `kubectl` exits non-zero, the result
      does not depend on the pod list at all. */
  lemma PodsNotExaminedOnFailure(k8sMode: bool, returnCode: int, stderr: string, a: seq<Pod>, b: seq<Pod>)
    requires !k8sMode || returnCode != 0
    ensures PodStatusOf(k8sMode, Finished(returnCode, stderr, Items(a)))
         == PodStatusOf(k8sMode, Finished(returnCode, stderr, Items(b)))
    ensures !k8sMode ==> PodStatusOf(k8sMode, Finished(returnCode, stderr, Items(a))) == NotInK8s
    ensures k8sMode ==> PodStatusOf(k8sMode, Finished(returnCode, stderr, Items(a))) == KubectlError(stderr)
  {
  }

  /** What a successful summary lists: one detail per pod, in input order,
      carrying the pod's name, its phase or "Unknown" when it has none, and
      a ready flag that is true exactly when some condition is Ready=True. */
  lemma SummaryDetails(pods: seq<Pod>)
    ensures Summary(pods).total == |pods| == |Summary(pods).details|
    ensures forall i :: 0 <= i < |pods| ==>
      && Summary(pods).details[i].name == pods[i].name
      && (pods[i].phase.None? ==> Summary(pods).details[i].phase == "Unknown")
      && (pods[i].phase.Some? ==> Summary(pods).details[i].phase == pods[i].phase.value)
      && (Summary(pods).details[i].ready <==>
            exists k :: 0 <= k < |pods[i].conditions| && pods[i].conditions[k] == Condition("Ready", "True"))
  {
  }

  /** What a successful summary counts: exactly the listed pods whose phase
      is "Running", and exactly the listed pods that are ready; neither count
      exceeds the number of pods. */
  lemma SummaryCounts(pods: seq<Pod>)
    ensures Summary(pods).running <= Summary(pods).total
    ensures Summary(pods).ready <= Summary(pods).total
    ensures Summary(pods).running == |Positions(Summary(pods).details, IsRunning)|
    ensures Summary(pods).ready == |Positions(Summary(pods).details, IsReady)|
  {
    CountIsCardinality(Details(pods), IsRunning);
    CountIsCardinality(Details(pods), IsReady);
  }

  /** At least one pod is counted ready exactly when some pod has a
      Ready=True condition. */
  lemma ReadyPodsPositiveIff(pods: seq<Pod>)
    ensures Summary(pods).ready > 0 <==> exists i :: 0 <= i < |pods| && HasReadyCondition(pods[i].conditions)
  {
    var details := Details(pods);
    CountZeroIff(details, IsReady);
    if exists i :: 0 <= i < |pods| && HasReadyCondition(pods[i].conditions) {
      var i :| 0 <= i < |pods| && HasReadyCondition(pods[i].conditions);
      assert IsReady(details[i]);
    }
  }

  /** Every pod is counted ready exactly when every pod has a Ready=True
      condition. */
  lemma AllPodsReadyIff(pods: seq<Pod>)
    ensures Summary(pods).ready == Summary(pods).total <==> forall i :: 0 <= i < |pods| ==> HasReadyCondition(pods[i].conditions)
  {
    var details := Details(pods);
    CountAllIff(details, IsReady);
    forall i | 0 <= i < |pods|
      ensures IsReady(details[i]) == HasReadyCondition(pods[i].conditions)
    {
    }
  }
}
