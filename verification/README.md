# Mongo primary labeler — a Dafny model

This project models the reconciliation logic of a sidecar that keeps a
`primary` label on Kubernetes pods in step with the current primary of a
MongoDB replica set. Three pieces are modelled and proved:

1. **The pod label synchronizer** (`Labeler.setPrimaryLabel` and
   `primaryLabelPatch`). It is a pure function, `Sync.SetPrimaryLabel`. Its
   inputs are the injected resolver's answer, the cluster's answer to the pod
   List call, and the set of pods whose Patch the cluster rejects, each with
   its cause. It returns whether List was called, the ordered trace of Patch
   calls, and the result. Every Patch call carries a three-state intent:
   `SetTrue`, `SetFalse` or `Remove`. `Convergence` applies the committed
   calls to the pods with strategic-merge semantics: a string value sets the
   key and null removes it. On top of that it proves the end-state
   invariants.
2. **Primary-name derivation** (the tail of `getMongoPrimary`). The decoded
   `hello` reply is a record of four optional BSON fields. `Resolver`
   chooses the host from `primary`, or falls back to `me` on a writable
   node. It then drops the port with Go's `net.SplitHostPort`, modelled in
   `HostPort`, and keeps the text before the first dot.
3. **Configuration parsing** (`getConfigFromEnvironment`). The environment
   is a `map<string, string>`. `Configuration` holds the required selector,
   the defaults, and one error kind per invalid setting.

Modules: `Wrappers` (Option/Result), `Strconv` (Go's `ParseBool`/`FormatBool`),
`HostPort`, `Labels`, `Sync`, `SyncProperties`, `Convergence`, `Resolver`,
`Configuration`, and `Scenarios`, which restates the repository's test cases
as lemmas.

Assumptions:
- Pod names are distinct whenever a lemma needs it (`UniqueNames`).
  Kubernetes guarantees this within a namespace.
- Go strings are byte strings. The model uses `char` sequences, which is the
  same thing for the ASCII names and addresses involved.
- MongoDB's legacy reply names the flag `ismaster`; the model reads that key, as main.go:260 does.

## Model

| member | source | states |
|---|---|---|
| Labels.PrimaryLabelPatch | main.go:131-144 | `remove` overrides `value`: the intent is removal exactly when `remove` is set, otherwise "true"/"false" as `value` says |
| Labels.WireValueRoundTrip | main.go:131-143 | the patch body's label value (string or null) decodes back to the intent, and it is null exactly for removal |
| Labels.ApplyPatch | main.go:133-136 | under strategic merge a string sets `primary`, null deletes it, and every other label keeps its key and value |
| Labels.ApplyPatchIdempotent | main.go:131-144 | applying the same patch twice equals applying it once |
| Labels.ApplyPatchNoOp | main.go:131-144 | a patch whose value the label already has leaves the labels unchanged |
| Strconv.ParseBool | main.go:168-182 | accepts exactly 1/t/T/TRUE/true/True as true and 0/f/F/FALSE/false/False as false, anything else fails |
| Strconv.ParseFormatBool | main.go:132 | a formatted boolean parses back to itself |
| Sync.DesiredIntent | main.go:105-111 | the primary pod gets "true"; any other pod gets "false" iff LabelAll, else removal |
| Sync.FindPrimary | main.go:93-102 | the detection scan succeeds iff some listed pod is named like the primary |
| Sync.PatchFrom | main.go:104-127 | patches pods one by one in listing order; it succeeds iff no remaining pod is rejected, and otherwise stops at the first rejected pod, whose name and cause the error carries, after issuing the calls up to and including it |
| Sync.SetPrimaryLabel | main.go:71-129 | a resolver error is wrapped with no List and no Patch; a List error carries namespace and selector; a primary missing from the listing gives "primary not found" and zero patches; any patch implies the primary was found; success iff nothing is rejected, and then the trace is the per-pod plan in order; a listed primary and a rejected pod give a patch error, whose trace is the plan up to and including the first rejected pod, which the error names |
| SyncProperties.PlanHasOneTruePatch | main.go:104-111 | with distinct names that include the primary, exactly one planned call carries "true", and it targets the primary |
| SyncProperties.ExactlyOnePrimaryPatch | main.go:104-128 | on success with distinct names, exactly one issued Patch carries "true", and it targets the primary |
| SyncProperties.TraceIgnoresLabels | main.go:105-111 | two listings with the same names give identical outcomes (trace and result): the current label only gates a log line |
| Convergence.ApplyCall | main.go:117-123 | a committed Patch changes only the pod it names, and only by the strategic-merge application |
| Convergence.Committed | main.go:124-126 | the committed calls are the issued ones minus a rejected last call; nothing is rolled back |
| Convergence.ApplyNameDetermined | main.go:104-127 | applying name-determined calls converges exactly the targeted pods, however often each is targeted, and leaves the others unchanged |
| Convergence.PlanTargetsEveryPod | main.go:104-127 | every prefix of the plan is name-determined and targets exactly the pods of that prefix |
| Convergence.SuccessfulSyncConvergesEveryPod | main.go:104-128 | after success every listed pod equals itself with its `primary` label converged to its name-determined intent |
| Convergence.SuccessfulSyncConverges | main.go:104-128 | after success every listed pod is converged: "true" iff it is the primary, "false" on the others with LabelAll, absent on the others without it, all other labels unchanged |
| Convergence.ConvergedHasOnePrimary | main.go:104-111 | converging distinct pods that include the primary leaves exactly one pod with primary="true", and it is the primary |
| Convergence.SuccessfulSyncHasOnePrimary | main.go:104-128 | after success with distinct names, exactly one pod carries primary="true", and it is the primary |
| Convergence.EarlyFailureChangesNothing | main.go:72-102 | for any List answer, a resolver, List or detection failure issues no Patch and leaves every pod in the namespace as it was |
| Convergence.PatchFailureLeavesPartialProgress | main.go:104-126 | when the primary is listed and some pod is rejected, the call fails with a patch error at the first rejected pod, which the error names; the pods before it are converged; with distinct names, it and the pods after it are unchanged |
| Convergence.SyncIsIdempotent | main.go:105-128 | a second run on the labels a successful run left gives the same outcome and changes nothing |
| Convergence.ConvergenceForgetsHistory | main.go:104-128 | the `primary` labels after a success do not depend on the labels the pods started with, so the next successful tick repairs a partial run |
| HostPort.SplitHostPort | main.go:264-267 | no colon means a missing-port error; an accepted address is exactly `host:port` with a colon-free host, or `[host]:port`, with no brackets in host or port and no colon in the port |
| HostPort.SplitJoinHostPort | main.go:264 | splitting a joined host and port gives them back |
| Resolver.PrimaryHost | main.go:256-263 | a non-empty string `primary` wins; otherwise `me` when `isWritablePrimary` or else `ismaster` is boolean true; otherwise empty |
| Resolver.FirstLabel | main.go:268 | the result is the dot-free prefix of the host that ends at its first dot, or the whole host when it has no dot |
| Resolver.PrimaryPodName | main.go:256-272 | an unsplittable host is an invalid-host error carrying the split error; for a splittable host, a non-empty first DNS label is success and is the name (non-empty, dot-free, the host up to its first dot), while an empty or dot-leading host is exactly the no-pod-name error for that host |
| Resolver.NoPrimaryReported | main.go:256-267 | a reply naming no primary and not from a writable node fails as an invalid empty host |
| Resolver.FirstLabelOfQualified | main.go:268 | the first label of `name.domain`, and of a dotless `name`, is `name` |
| Resolver.StableIdentityResolvesToPod | main.go:256-272 | an address `pod.domain:port` yields `pod`, whether it comes from `primary` or from `me` |
| Configuration.GetConfigFromEnvironment | main.go:146-192 | an error iff the selector is missing or LABEL_ALL, DEBUG or the timeout is invalid, reported in that order with the offending value; otherwise the selector is verbatim, NAMESPACE/MONGO_ADDRESS are verbatim or default, LabelAll and Debug are true iff their setting parses to true, and the timeout is the parsed value or 10s |
| Configuration.OnlySelectorGivesDefaults | main.go:153-160 | an environment setting only LABEL_SELECTOR yields namespace `default`, address `localhost:27017`, LabelAll false, Info level and a 10s timeout |
| Configuration.OtherVariablesIgnored | main.go:146-192 | variables other than the six recognised ones do not affect the result |
| Configuration.ConfigEnvRoundTrip | main.go:146-192 | the environment written from a configuration reads back as that configuration |
| Scenarios.AllVariablesSet | main_test.go:94-113 | all six variables set give the expected configuration, Debug level and a 7s timeout |
| Scenarios.MissingSelector | main_test.go:114-124 | no LABEL_SELECTOR is the missing-selector error |
| Scenarios.DefaultValues | main_test.go:125-139 | only the selector gives the defaults |
| Scenarios.FalseValuesRespected | main_test.go:140-156 | LABEL_ALL=false and DEBUG=false keep LabelAll false and the Info level |
| Scenarios.InvalidDebugValue | main_test.go:157-165 | an unparsable DEBUG is its own error |
| Scenarios.InvalidLabelAllValue | main_test.go:166-174 | an unparsable LABEL_ALL is its own error |
| Scenarios.InvalidTimeoutValue | main_test.go:175-183 | an unparsable K8S_REQUEST_TIMEOUT is its own error |
| Scenarios.LabelAllTrue | main_test.go:207-215 | pods mongo-0..2 with primary mongo-1 and LabelAll get false, true, false |
| Scenarios.LabelAllFalse | main_test.go:216-224 | without LabelAll they get removal, true, removal |
| Scenarios.PrimaryMissing | main_test.go:259-274 | primary mongo-9 gives "primary not found" and no patch |
| Scenarios.ResolverFails | main_test.go:276-288 | a resolver error is wrapped, with no List and no Patch |
| Scenarios.StopsAfterPatchError | main_test.go:290-322 | a rejected mongo-1 leaves the trace mongo-0, mongo-1 and an error naming mongo-1 with its cause |
| Scenarios.StatefulSetMemberResolves | main.go:256-272 | `mongo-1.mongo.default.svc:27017` resolves to `mongo-1` |
| Scenarios.IpAddressGivesFirstOctet | main.go:268 | a writable node reporting `me` = `10.0.0.5:27017` resolves to `10`: an address outside the stable-identity form yields a plausible but wrong name, not an error |

## Left out

- Connecting to MongoDB: connect, ping, the `hello` command, disconnect and their 20-second context (main.go:227-255) are network I/O through a driver. The decoded reply is an input, and connect, ping and command failures are not modelled.
- Kubernetes client construction: `New`, `getKubeClientSet` and `homeDir` (main.go:60-69, 194-225) are credential and flag plumbing.
- The ticker loop in `main` (main.go:275-297) is periodic scheduling and process exit. One cycle is modelled. `Convergence.ConvergenceForgetsHistory` states why a later successful tick repairs an earlier partial one.
- `configureLogger` and every log call, including the "setting primary" line gated by the pod's current label (main.go:107-109). They are side effects only.
- Request contexts and the K8S_REQUEST_TIMEOUT deadline (main.go:80-81). This is wall-clock behaviour; the timeout value is parsed but never used by the model.
- The JSON marshalling error of the patch (main.go:111-114). It is unreachable for this fixed map shape, so the patch is a tagged intent.
- Go's `time.ParseDuration` is a parameter of `Configuration.GetConfigFromEnvironment`, mapping text to nanoseconds or failure. Its code is not part of this model. `Scenarios` supplies a whole-seconds stand-in.
- `HostPort.SplitHostPort` models Go's `net.SplitHostPort` after its documented behaviour; the standard-library source it restates is not part of the repository.
- Error values are structured datatypes, not formatted message text. The synchronizer's errors carry the Go messages' context and wrapped cause: the resolver's error, the namespace, the selector and the List cause, the pod and the Patch cause. The configuration errors carry only the offending value: the `strconv.ParseBool` or `time.ParseDuration` error that main.go:171, 178 and 187 wrap is not modelled.
- Convergence.Committed: a Patch that returned an error is assumed to have taken no effect, so `Convergence.PatchFailureLeavesPartialProgress` calls the failing pod unchanged. In Go that error also covers transport failures and the shared K8S_REQUEST_TIMEOUT deadline (main.go:80, 124), after which the server may already have applied the patch; the model promises nothing for that case.
- The Patch outcome oracle is keyed by pod name. So a pod name cannot be accepted once and rejected later within one call. This only matters for duplicate names, which Kubernetes rules out.
