/** The label state the cluster ends up in after the Patch calls a
    `setPrimaryLabel` call committed, and the invariants that state keeps. */
module Convergence {
  import opened Wrappers
  import opened Labels
  import opened Sync
  import opened SyncProperties

  /** One accepted Patch applied to the listed pods: the pod of that name has
      its labels patched, every other pod is untouched. */
  function ApplyCall(pods: seq<Pod>, c: PatchCall): (r: seq<Pod>)
    ensures |r| == |pods|
    ensures forall i :: 0 <= i < |pods| ==> r[i].name == pods[i].name
    ensures forall i :: 0 <= i < |pods| && pods[i].name != c.pod ==> r[i] == pods[i]
    ensures forall i :: 0 <= i < |pods| && pods[i].name == c.pod ==>
              r[i].labels == ApplyPatch(pods[i].labels, c.intent)
  {
    seq(|pods|, i requires 0 <= i < |pods| =>
      if pods[i].name == c.pod then pods[i].(labels := ApplyPatch(pods[i].labels, c.intent))
      else pods[i])
  }

  /** Accepted Patch calls applied in the order they were issued. */
  function ApplyAll(pods: seq<Pod>, calls: seq<PatchCall>): seq<Pod>
    decreases |calls|
  {
    if |calls| == 0 then pods else ApplyAll(ApplyCall(pods, calls[0]), calls[1..])
  }

  /** The Patch calls that took effect: all issued calls except a rejected
      last one. Nothing is rolled back. */
  function Committed<E>(o: Outcome<E>): (c: seq<PatchCall>)
    ensures c <= o.patches
    ensures o.result.Failed? && o.result.error.PatchFailed? && |o.patches| > 0 ==>
              |c| == |o.patches| - 1
    ensures !(o.result.Failed? && o.result.error.PatchFailed?) ==> c == o.patches
  {
    if o.result.Failed? && o.result.error.PatchFailed? && |o.patches| > 0
    then o.patches[..|o.patches| - 1]
    else o.patches
  }

  /** The pods as they are after the call. */
  function After<E>(pods: seq<Pod>, o: Outcome<E>): seq<Pod>
  {
    ApplyAll(pods, Committed(o))
  }

  /** The pods the calls target. */
  function Targets(calls: seq<PatchCall>): set<string>
  {
    set k | 0 <= k < |calls| :: calls[k].pod
  }

  /** Every call carries the intent its pod's name dictates. */
  predicate NameDetermined(calls: seq<PatchCall>, primary: string, labelAll: bool)
  {
    forall k :: 0 <= k < |calls| ==> calls[k].intent == DesiredIntent(calls[k].pod, primary, labelAll)
  }

  /** The pod with its `primary` label converged. */
  function Converged(p: Pod, primary: string, labelAll: bool): Pod
  {
    p.(labels := ApplyPatch(p.labels, DesiredIntent(p.name, primary, labelAll)))
  }

  /** Applying name-determined calls converges exactly the targeted pods,
      however many times each is targeted, and leaves the rest alone. */
  lemma {:induction false} ApplyNameDetermined(pods: seq<Pod>, calls: seq<PatchCall>,
                                               primary: string, labelAll: bool)
    requires NameDetermined(calls, primary, labelAll)
    decreases |calls|
    ensures |ApplyAll(pods, calls)| == |pods|
    ensures forall i :: 0 <= i < |pods| ==>
      ApplyAll(pods, calls)[i] ==
        if pods[i].name in Targets(calls) then Converged(pods[i], primary, labelAll) else pods[i]
  {
    if |calls| > 0 {
      var next := ApplyCall(pods, calls[0]);
      var rest := calls[1..];
      assert NameDetermined(rest, primary, labelAll) by {
        forall k | 0 <= k < |rest| ensures rest[k].intent == DesiredIntent(rest[k].pod, primary, labelAll) {
          assert rest[k] == calls[k + 1];
        }
      }
      ApplyNameDetermined(next, rest, primary, labelAll);
      assert Targets(calls) == {calls[0].pod} + Targets(rest) by {
        forall n | n in Targets(calls) ensures n in {calls[0].pod} + Targets(rest) {
          var k :| 0 <= k < |calls| && calls[k].pod == n;
          if k > 0 { assert rest[k - 1].pod == n; }
        }
        forall n | n in Targets(rest) ensures n in Targets(calls) {
          var k :| 0 <= k < |rest| && rest[k].pod == n;
          assert calls[k + 1].pod == n;
        }
      }
      forall i | 0 <= i < |pods|
        ensures ApplyAll(pods, calls)[i] ==
          if pods[i].name in Targets(calls) then Converged(pods[i], primary, labelAll) else pods[i]
      {
        if pods[i].name == calls[0].pod {
          ApplyPatchIdempotent(pods[i].labels, DesiredIntent(pods[i].name, primary, labelAll));
        }
      }
    }
  }

  /** Every listed pod's name is targeted by its plan. */
  lemma PlanTargetsEveryPod(pods: seq<Pod>, primary: string, labelAll: bool, n: nat)
    requires n <= |pods|
    ensures NameDetermined(Plan(pods, primary, labelAll)[..n], primary, labelAll)
    ensures forall i :: 0 <= i < n ==> pods[i].name in Targets(Plan(pods, primary, labelAll)[..n])
    ensures forall name :: name in Targets(Plan(pods, primary, labelAll)[..n]) ==>
              exists i :: 0 <= i < n && pods[i].name == name
  {
  }

  /** After a successful call every listed pod is its converged self. */
  lemma SuccessfulSyncConvergesEveryPod<E>(cfg: SyncConfig, primary: string, pods: seq<Pod>,
                                           rejected: map<string, string>)
    requires SetPrimaryLabel<E>(cfg, Ok(primary), Ok(pods), rejected).result.Done?
    ensures var after := After(pods, SetPrimaryLabel<E>(cfg, Ok(primary), Ok(pods), rejected));
      && |after| == |pods|
      && forall i :: 0 <= i < |pods| ==> after[i] == Converged(pods[i], primary, cfg.labelAll)
  {
    var o := SetPrimaryLabel<E>(cfg, Ok(primary), Ok(pods), rejected);
    PlanTargetsEveryPod(pods, primary, cfg.labelAll, |pods|);
    assert Plan(pods, primary, cfg.labelAll)[..|pods|] == o.patches;
    ApplyNameDetermined(pods, o.patches, primary, cfg.labelAll);
  }

  /** After a successful call every listed pod has its
      `primary` label converged -- "true" exactly on the primary, "false" on
      the others when every pod is labelled, absent on the others otherwise --
      and every other label unchanged. */
  lemma SuccessfulSyncConverges<E>(cfg: SyncConfig, primary: string, pods: seq<Pod>,
                                   rejected: map<string, string>)
    requires SetPrimaryLabel<E>(cfg, Ok(primary), Ok(pods), rejected).result.Done?
    ensures var after := After(pods, SetPrimaryLabel<E>(cfg, Ok(primary), Ok(pods), rejected));
      && |after| == |pods|
      && (forall i :: 0 <= i < |pods| ==> after[i] == Converged(pods[i], primary, cfg.labelAll))
      && (forall i :: 0 <= i < |pods| ==>
            (PrimaryLabel(after[i].labels) == Some("true") <==> pods[i].name == primary))
      && (forall i :: 0 <= i < |pods| && pods[i].name != primary && cfg.labelAll ==>
            PrimaryLabel(after[i].labels) == Some("false"))
      && (forall i :: 0 <= i < |pods| && pods[i].name != primary && !cfg.labelAll ==>
            PrimaryLabel(after[i].labels) == None)
      && (forall i, key :: 0 <= i < |pods| && key != PrimaryKey && key in pods[i].labels ==>
            key in after[i].labels && after[i].labels[key] == pods[i].labels[key])
  {
    SuccessfulSyncConvergesEveryPod<E>(cfg, primary, pods, rejected);
  }

  /** Converging distinct pods that include the primary leaves exactly one of
      them carrying `primary="true"`: the primary. */
  lemma ConvergedHasOnePrimary(pods: seq<Pod>, after: seq<Pod>, primary: string, labelAll: bool)
    requires UniqueNames(pods) && HasPod(pods, primary)
    requires |after| == |pods|
    requires forall i :: 0 <= i < |pods| ==> after[i] == Converged(pods[i], primary, labelAll)
    ensures exists p :: 0 <= p < |after| && after[p].name == primary
              && PrimaryLabel(after[p].labels) == Some("true")
              && forall i :: 0 <= i < |after| && PrimaryLabel(after[i].labels) == Some("true") ==> i == p
  {
    var p :| 0 <= p < |pods| && pods[p].name == primary;
    assert after[p] == Converged(pods[p], primary, labelAll);
    forall i | 0 <= i < |after| && PrimaryLabel(after[i].labels) == Some("true") ensures i == p {
      assert after[i] == Converged(pods[i], primary, labelAll);
      assert pods[i].name == primary;
    }
  }

  /** Exclusivity: with distinct pod names, exactly one pod carries
      `primary="true"` after a successful call. */
  lemma SuccessfulSyncHasOnePrimary<E>(cfg: SyncConfig, primary: string, pods: seq<Pod>,
                                       rejected: map<string, string>)
    requires UniqueNames(pods)
    requires SetPrimaryLabel<E>(cfg, Ok(primary), Ok(pods), rejected).result.Done?
    ensures var after := After(pods, SetPrimaryLabel<E>(cfg, Ok(primary), Ok(pods), rejected));
      exists p :: 0 <= p < |after| && after[p].name == primary
        && PrimaryLabel(after[p].labels) == Some("true")
        && forall i :: 0 <= i < |after| && PrimaryLabel(after[i].labels) == Some("true") ==> i == p
  {
    var after := After(pods, SetPrimaryLabel<E>(cfg, Ok(primary), Ok(pods), rejected));
    SuccessfulSyncConvergesEveryPod<E>(cfg, primary, pods, rejected);
    ConvergedHasOnePrimary(pods, after, primary, cfg.labelAll);
  }

  /** A call that fails before the convergence pass -- a resolver, List or
      detection failure -- leaves every pod in the namespace as it was,
      whatever the List call answered. */
  lemma EarlyFailureChangesNothing<E>(cfg: SyncConfig, resolved: Result<string, E>,
                                      listing: Result<seq<Pod>, string>, pods: seq<Pod>,
                                      rejected: map<string, string>)
    requires var o := SetPrimaryLabel(cfg, resolved, listing, rejected);
      o.result.Failed? && !o.result.error.PatchFailed?
    ensures SetPrimaryLabel(cfg, resolved, listing, rejected).patches == []
    ensures After(pods, SetPrimaryLabel(cfg, resolved, listing, rejected)) == pods
  {
  }

  /** Fail fast with partial progress: when the primary is listed and some
      pod's Patch is rejected, the call fails at the first rejected pod; the
      pods before it are converged and, names being distinct, it and every
      pod after it are unchanged. */
  lemma PatchFailureLeavesPartialProgress<E>(cfg: SyncConfig, primary: string, pods: seq<Pod>,
                                             rejected: map<string, string>)
    requires UniqueNames(pods)
    requires HasPod(pods, primary) && !Accepted(pods, rejected, 0, |pods|)
    ensures var o := SetPrimaryLabel<E>(cfg, Ok(primary), Ok(pods), rejected);
      var failed := |o.patches| - 1;
      var after := After(pods, o);
      && o.result.Failed? && o.result.error.PatchFailed?
      && 0 <= failed < |pods|
      && pods[failed].name in rejected
      && Accepted(pods, rejected, 0, failed)
      && o.result.error.pod == pods[failed].name
      && |after| == |pods|
      && (forall i :: 0 <= i < failed ==> after[i] == Converged(pods[i], primary, cfg.labelAll))
      && (forall i :: failed <= i < |pods| ==> after[i] == pods[i])
  {
    var o := SetPrimaryLabel<E>(cfg, Ok(primary), Ok(pods), rejected);
    var failed := |o.patches| - 1;
    var committed := Committed(o);
    assert committed == Plan(pods, primary, cfg.labelAll)[..failed];
    PlanTargetsEveryPod(pods, primary, cfg.labelAll, failed);
    ApplyNameDetermined(pods, committed, primary, cfg.labelAll);
    assert forall i :: failed <= i < |pods| ==> pods[i].name !in Targets(committed);
  }

  /** Idempotence: running again against the labels a successful call left
      behind succeeds with the same Patch calls and changes nothing. */
  lemma SyncIsIdempotent<E>(cfg: SyncConfig, primary: string, pods: seq<Pod>,
                            rejected: map<string, string>)
    requires SetPrimaryLabel<E>(cfg, Ok(primary), Ok(pods), rejected).result.Done?
    ensures var first := SetPrimaryLabel<E>(cfg, Ok(primary), Ok(pods), rejected);
      var second := SetPrimaryLabel<E>(cfg, Ok(primary), Ok(After(pods, first)), rejected);
      && second == first
      && After(After(pods, first), second) == After(pods, first)
  {
    var first := SetPrimaryLabel<E>(cfg, Ok(primary), Ok(pods), rejected);
    var after := After(pods, first);
    SuccessfulSyncConverges<E>(cfg, primary, pods, rejected);
    assert SameNames(after, pods);
    TraceIgnoresLabels<E>(cfg, Ok(primary), after, pods, rejected);
    SuccessfulSyncConverges<E>(cfg, primary, after, rejected);
    var again := After(after, first);
    forall i | 0 <= i < |after| ensures again[i] == after[i] {
      ApplyPatchIdempotent(pods[i].labels, DesiredIntent(pods[i].name, primary, cfg.labelAll));
    }
  }

  /** Eventual convergence: whatever `primary` labels an earlier, partially
      applied call left behind, a successful call ends in the same `primary`
      labels as one that started from any other labels on the same pods. */
  lemma ConvergenceForgetsHistory<E>(cfg: SyncConfig, primary: string, a: seq<Pod>, b: seq<Pod>,
                                     rejected: map<string, string>)
    requires SameNames(a, b)
    requires SetPrimaryLabel<E>(cfg, Ok(primary), Ok(a), rejected).result.Done?
    ensures SetPrimaryLabel<E>(cfg, Ok(primary), Ok(b), rejected).result.Done?
    ensures var afterA := After(a, SetPrimaryLabel<E>(cfg, Ok(primary), Ok(a), rejected));
      var afterB := After(b, SetPrimaryLabel<E>(cfg, Ok(primary), Ok(b), rejected));
      |afterA| == |afterB| &&
      forall i :: 0 <= i < |afterA| ==> PrimaryLabel(afterA[i].labels) == PrimaryLabel(afterB[i].labels)
  {
    TraceIgnoresLabels<E>(cfg, Ok(primary), a, b, rejected);
    SuccessfulSyncConverges<E>(cfg, primary, a, rejected);
    SuccessfulSyncConverges<E>(cfg, primary, b, rejected);
  }
}
