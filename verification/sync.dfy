/** `Labeler.setPrimaryLabel`: one reconciliation of the `primary` label
    against an already-resolved primary pod name.

    Everything the Go code reaches through the network is an input here: the
    resolver's answer, the cluster's answer to the pod List call, and which
    Patch calls the cluster rejects. The result is the ordered trace of Patch
    calls issued together with the returned error, if any. */
module Sync {
  import opened Wrappers
  import opened Labels

  /** A pod returned by the List call. */
  datatype Pod = Pod(name: string, labels: Labels)

  /** The part of `Config` that `setPrimaryLabel` reads. */
  datatype SyncConfig = SyncConfig(namespace: string, labelSelector: string, labelAll: bool)

  /** One Patch call: which pod, and what it does to the `primary` label. */
  datatype PatchCall = PatchCall(pod: string, intent: LabelIntent)

  /** The errors `setPrimaryLabel` returns; `E` is whatever the injected
      primary resolver fails with, kept as the wrapped cause. */
  datatype SyncError<E> =
    | ResolveFailed(cause: E)
    | ListFailed(namespace: string, selector: string, listCause: string)
    | PrimaryNotFound
    | PatchFailed(pod: string, patchCause: string)

  datatype SyncResult<E> = Done | Failed(error: SyncError<E>)

  /** What one call did: whether it listed pods, the Patch calls in the order
      issued (a rejected call is included), and what it returned. */
  datatype Outcome<E> = Outcome(listed: bool, patches: seq<PatchCall>, result: SyncResult<E>)

  /** The patch intent for a pod: "true" for the primary, otherwise "false"
      when every pod is labelled and removal when only the primary is. */
  function DesiredIntent(pod: string, primary: string, labelAll: bool): (i: LabelIntent)
    ensures i == SetTrue <==> pod == primary
    ensures i == SetFalse <==> pod != primary && labelAll
    ensures i == Remove <==> pod != primary && !labelAll
  {
    var isPrimary := pod == primary;
    PrimaryLabelPatch(isPrimary, !isPrimary && !labelAll)
  }

  /** The Patch call made for a listed pod. */
  function CallFor(p: Pod, primary: string, labelAll: bool): PatchCall
  {
    PatchCall(p.name, DesiredIntent(p.name, primary, labelAll))
  }

  /** Reference plan: one call per listed pod, in listing order. */
  function Plan(pods: seq<Pod>, primary: string, labelAll: bool): (plan: seq<PatchCall>)
    ensures |plan| == |pods|
    ensures forall k :: 0 <= k < |pods| ==> plan[k] == CallFor(pods[k], primary, labelAll)
  {
    seq(|pods|, k requires 0 <= k < |pods| => CallFor(pods[k], primary, labelAll))
  }

  predicate HasPod(pods: seq<Pod>, name: string)
  {
    exists k :: 0 <= k < |pods| && pods[k].name == name
  }

  /** The detection pass: scans the listing for a pod named `primary`. */
  function FindPrimary(pods: seq<Pod>, primary: string): (found: bool)
    ensures found <==> HasPod(pods, primary)
  {
    if |pods| == 0 then false
    else if pods[0].name == primary then true
    else
      var rest := FindPrimary(pods[1..], primary);
      assert rest ==> pods[1..][0].name == primary || HasPod(pods[1..], primary);
      assert HasPod(pods[1..], primary) ==> HasPod(pods, primary) by {
        if HasPod(pods[1..], primary) {
          var k :| 0 <= k < |pods[1..]| && pods[1..][k].name == primary;
          assert pods[k + 1].name == primary;
        }
      }
      assert HasPod(pods, primary) && pods[0].name != primary ==> HasPod(pods[1..], primary) by {
        if HasPod(pods, primary) && pods[0].name != primary {
          var k :| 0 <= k < |pods| && pods[k].name == primary;
          assert pods[1..][k - 1].name == primary;
        }
      }
      rest
  }

  /** True when no pod at a position in `[lo, hi)` has its Patch rejected. */
  predicate Accepted(pods: seq<Pod>, rejected: map<string, string>, lo: nat, hi: nat)
    requires lo <= hi <= |pods|
  {
    forall k :: lo <= k < hi ==> pods[k].name !in rejected
  }

  /** The convergence pass from position `from` on: patch each pod in turn and
      stop at the first Patch the cluster rejects, without undoing the ones
      already issued. */
  function PatchFrom<E>(pods: seq<Pod>, primary: string, labelAll: bool,
                        rejected: map<string, string>, from: nat): (o: (seq<PatchCall>, SyncResult<E>))
    requires from <= |pods|
    decreases |pods| - from
    ensures from + |o.0| <= |pods|
    ensures forall k :: 0 <= k < |o.0| ==> o.0[k] == CallFor(pods[from + k], primary, labelAll)
    ensures o.1.Done? <==> Accepted(pods, rejected, from, |pods|)
    ensures o.1.Done? ==> from + |o.0| == |pods|
    ensures !o.1.Done? ==>
      var last := from + |o.0| - 1;
      && from <= last
      && pods[last].name in rejected
      && Accepted(pods, rejected, from, last)
      && o.1 == Failed(PatchFailed(pods[last].name, rejected[pods[last].name]))
  {
    if from == |pods| then ([], Done)
    else
      var call := CallFor(pods[from], primary, labelAll);
      if pods[from].name in rejected then
        ([call], Failed(PatchFailed(pods[from].name, rejected[pods[from].name])))
      else
        var rest := PatchFrom<E>(pods, primary, labelAll, rejected, from + 1);
        ([call] + rest.0, rest.1)
  }

  /** `setPrimaryLabel` with the resolver's answer, the List answer and the set
      of pods whose Patch is rejected (with the cause) given as inputs. */
  function SetPrimaryLabel<E>(cfg: SyncConfig, resolved: Result<string, E>,
                              listing: Result<seq<Pod>, string>,
                              rejected: map<string, string>): (o: Outcome<E>)
    // A resolver failure is wrapped and nothing is listed or patched.
    ensures resolved.Err? ==> o == Outcome(false, [], Failed(ResolveFailed(resolved.error)))
    ensures resolved.Ok? ==> o.listed
    // A List failure carries namespace and selector and patches nothing.
    ensures resolved.Ok? && listing.Err? ==>
      o.patches == [] && o.result == Failed(ListFailed(cfg.namespace, cfg.labelSelector, listing.error))
    // Detection gate: a primary missing from the listing patches nothing.
    ensures resolved.Ok? && listing.Ok? && !HasPod(listing.value, resolved.value) ==>
      o.patches == [] && o.result == Failed(PrimaryNotFound)
    ensures o.patches != [] ==>
      resolved.Ok? && listing.Ok? && HasPod(listing.value, resolved.value)
    // Success means every listed pod was patched once, in listing order.
    ensures o.result.Done? <==>
      resolved.Ok? && listing.Ok? && HasPod(listing.value, resolved.value)
      && Accepted(listing.value, rejected, 0, |listing.value|)
    ensures o.result.Done? ==>
      o.patches == Plan(listing.value, resolved.value, cfg.labelAll)
    // A listed primary and a rejected pod make the call fail on a Patch.
    ensures resolved.Ok? && listing.Ok? && HasPod(listing.value, resolved.value)
            && !Accepted(listing.value, rejected, 0, |listing.value|) ==>
      o.result.Failed? && o.result.error.PatchFailed?
    // Fail fast: the trace stops at the first rejected pod, which the error names.
    ensures o.result.Failed? && o.result.error.PatchFailed? ==>
      resolved.Ok? && listing.Ok? &&
      var pods := listing.value;
      var n := |o.patches|;
      && 1 <= n <= |pods|
      && o.patches == Plan(pods, resolved.value, cfg.labelAll)[..n]
      && pods[n - 1].name in rejected
      && Accepted(pods, rejected, 0, n - 1)
      && o.result.error == PatchFailed(pods[n - 1].name, rejected[pods[n - 1].name])
  {
    match resolved
    case Err(e) => Outcome(false, [], Failed(ResolveFailed(e)))
    case Ok(primary) =>
      match listing
      case Err(cause) =>
        Outcome(true, [], Failed(ListFailed(cfg.namespace, cfg.labelSelector, cause)))
      case Ok(pods) =>
        if !FindPrimary(pods, primary) then Outcome(true, [], Failed(PrimaryNotFound))
        else
          var converge := PatchFrom<E>(pods, primary, cfg.labelAll, rejected, 0);
          Outcome(true, converge.0, converge.1)
  }
}

/** Properties of one `setPrimaryLabel` call that relate its trace to its inputs. */
module SyncProperties {
  import opened Wrappers
  import opened Labels
  import opened Sync

  predicate UniqueNames(pods: seq<Pod>)
  {
    forall i, j :: 0 <= i < j < |pods| ==> pods[i].name != pods[j].name
  }

  predicate SameNames(a: seq<Pod>, b: seq<Pod>)
  {
    |a| == |b| && forall k :: 0 <= k < |a| ==> a[k].name == b[k].name
  }

  /** Positions in a trace whose patch sets the label to "true". */
  function TruePatches(patches: seq<PatchCall>): set<nat>
  {
    set k: nat | k < |patches| && patches[k].intent == SetTrue
  }

  /** In the reference plan for distinct pod names that include the primary,
      exactly one call carries "true", and it targets the primary. */
  lemma PlanHasOneTruePatch(pods: seq<Pod>, primary: string, labelAll: bool)
    requires UniqueNames(pods)
    requires HasPod(pods, primary)
    ensures |TruePatches(Plan(pods, primary, labelAll))| == 1
    ensures forall k :: k in TruePatches(Plan(pods, primary, labelAll)) ==>
              Plan(pods, primary, labelAll)[k].pod == primary
  {
    var plan := Plan(pods, primary, labelAll);
    var p :| 0 <= p < |pods| && pods[p].name == primary;
    assert plan[p] == CallFor(pods[p], primary, labelAll);
    assert p in TruePatches(plan);
    forall k | k in TruePatches(plan) ensures k == p {
      assert plan[k] == CallFor(pods[k], primary, labelAll);
    }
    assert TruePatches(plan) == {p};
  }

  /** On success with distinct pod names, exactly one Patch carries "true",
      and it targets the resolved primary. */
  lemma ExactlyOnePrimaryPatch<E>(cfg: SyncConfig, primary: string, pods: seq<Pod>,
                                  rejected: map<string, string>)
    requires UniqueNames(pods)
    requires SetPrimaryLabel<E>(cfg, Ok(primary), Ok(pods), rejected).result.Done?
    ensures
      var patches := SetPrimaryLabel<E>(cfg, Ok(primary), Ok(pods), rejected).patches;
      && |TruePatches(patches)| == 1
      && forall k :: k in TruePatches(patches) ==> patches[k].pod == primary
  {
    PlanHasOneTruePatch(pods, primary, cfg.labelAll);
  }

  /** The trace and the result depend on the pods' names only, never on the
      labels they already carry: the current label only gates a log line. */
  lemma TraceIgnoresLabels<E>(cfg: SyncConfig, resolved: Result<string, E>,
                              a: seq<Pod>, b: seq<Pod>, rejected: map<string, string>)
    requires SameNames(a, b)
    ensures SetPrimaryLabel(cfg, resolved, Ok(a), rejected)
         == SetPrimaryLabel(cfg, resolved, Ok(b), rejected)
  {
  }
}
