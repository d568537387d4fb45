/** The scenarios of the repository's tests, restated as lemmas about the model. */
module Scenarios {
  import opened Wrappers
  import opened Labels
  import opened Sync
  import opened Convergence
  import opened Configuration
  import opened Resolver
  import opened HostPort

  /** A stand-in for `time.ParseDuration` that reads whole seconds written
      as decimal digits followed by "s". */
  function ParseSeconds(text: string): (r: Option<int>)
    ensures r.Some? ==> r.value >= 0
  {
    if |text| < 2 || text[|text| - 1] != 's' then None
    else match Digits(text[..|text| - 1])
      case None => None
      case Some(n) => Some(n * Second)
  }

  /** A non-empty run of decimal digits, as a number. */
  function Digits(s: string): Option<nat>
  {
    if |s| == 0 then None
    else if !('0' <= s[|s| - 1] <= '9') then None
    else
      var d := (s[|s| - 1] as int) - ('0' as int);
      if |s| == 1 then Some(d)
      else match Digits(s[..|s| - 1])
        case None => None
        case Some(n) => Some(10 * n + d)
  }

  // The configuration table.

  lemma AllVariablesSet()
    ensures GetConfigFromEnvironment(
              map["LABEL_SELECTOR" := "app=mongo", "NAMESPACE" := "test-namespace",
                  "MONGO_ADDRESS" := "mongo:27017", "LABEL_ALL" := "true", "DEBUG" := "true",
                  "K8S_REQUEST_TIMEOUT" := "7s"], ParseSeconds)
         == Ok(Config("app=mongo", "test-namespace", "mongo:27017", true, DebugLevel, 7 * Second))
  {
  }

  lemma MissingSelector()
    ensures GetConfigFromEnvironment(
              map["NAMESPACE" := "test-namespace", "MONGO_ADDRESS" := "mongo:27017",
                  "LABEL_ALL" := "true", "DEBUG" := "true"], ParseSeconds)
         == Err(MissingLabelSelector)
  {
  }

  lemma DefaultValues()
    ensures GetConfigFromEnvironment(map["LABEL_SELECTOR" := "app=mongo"], ParseSeconds)
         == Ok(Config("app=mongo", "default", "localhost:27017", false, InfoLevel, DefaultK8sRequestTimeout))
  {
  }

  lemma FalseValuesRespected()
    ensures GetConfigFromEnvironment(
              map["LABEL_SELECTOR" := "app=mongo", "LABEL_ALL" := "false", "DEBUG" := "false"], ParseSeconds)
         == Ok(Config("app=mongo", "default", "localhost:27017", false, InfoLevel, DefaultK8sRequestTimeout))
  {
  }

  lemma InvalidDebugValue()
    ensures GetConfigFromEnvironment(
              map["LABEL_SELECTOR" := "app=mongo", "DEBUG" := "not-a-bool"], ParseSeconds)
         == Err(InvalidDebug("not-a-bool"))
  {
  }

  lemma InvalidLabelAllValue()
    ensures GetConfigFromEnvironment(
              map["LABEL_SELECTOR" := "app=mongo", "LABEL_ALL" := "not-a-bool"], ParseSeconds)
         == Err(InvalidLabelAll("not-a-bool"))
  {
  }

  lemma InvalidTimeoutValue()
    ensures GetConfigFromEnvironment(
              map["LABEL_SELECTOR" := "app=mongo", "K8S_REQUEST_TIMEOUT" := "not-a-duration"], ParseSeconds)
         == Err(InvalidRequestTimeout("not-a-duration"))
  {
  }

  // The synchronizer against three pods, mongo-0, mongo-1 and mongo-2.

  function MongoPods(): seq<Pod>
  {
    [Pod("mongo-0", map["role" := "mongo"]), Pod("mongo-1", map["role" := "mongo"]),
     Pod("mongo-2", map["role" := "mongo"])]
  }

  function TestConfig(labelAll: bool): SyncConfig
  {
    SyncConfig("default", "role=mongo", labelAll)
  }

  lemma LabelAllTrue()
    ensures SetPrimaryLabel<string>(TestConfig(true), Ok("mongo-1"), Ok(MongoPods()), map[])
         == Outcome(true, [PatchCall("mongo-0", SetFalse), PatchCall("mongo-1", SetTrue),
                           PatchCall("mongo-2", SetFalse)], Done)
  {
  }

  lemma LabelAllFalse()
    ensures SetPrimaryLabel<string>(TestConfig(false), Ok("mongo-1"), Ok(MongoPods()), map[])
         == Outcome(true, [PatchCall("mongo-0", Remove), PatchCall("mongo-1", SetTrue),
                           PatchCall("mongo-2", Remove)], Done)
  {
  }

  lemma PrimaryMissing()
    ensures SetPrimaryLabel<string>(TestConfig(true), Ok("mongo-9"), Ok(MongoPods()), map[])
         == Outcome(true, [], Failed(PrimaryNotFound))
  {
  }

  lemma ResolverFails()
    ensures SetPrimaryLabel<string>(TestConfig(true), Err("mongo unavailable"), Ok(MongoPods()), map[])
         == Outcome(false, [], Failed(ResolveFailed("mongo unavailable")))
  {
  }

  lemma StopsAfterPatchError()
    ensures SetPrimaryLabel<string>(TestConfig(true), Ok("mongo-1"), Ok(MongoPods()),
                                    map["mongo-1" := "patch failed for mongo-1"])
         == Outcome(true, [PatchCall("mongo-0", SetFalse), PatchCall("mongo-1", SetTrue)],
                    Failed(PatchFailed("mongo-1", "patch failed for mongo-1")))
  {
  }

  // Identity derivation.

  lemma StatefulSetMemberResolves()
    ensures PrimaryPodName(Hello(Some(BString("mongo-1.mongo.default.svc:27017")),
                                 None, None, None)) == Ok("mongo-1")
  {
    var pod, domain, port := "mongo-1", "mongo.default.svc", "27017";
    var h := Hello(Some(BString(pod + "." + domain + ":" + port)), None, None, None);
    assert pod + "." + domain + ":" + port == "mongo-1.mongo.default.svc:27017";
    assert forall k :: 0 <= k < |domain| ==> domain[k] != ':' && domain[k] != '[' && domain[k] != ']';
    assert forall k :: 0 <= k < |pod| ==> pod[k] != ':' && pod[k] != '[' && pod[k] != ']' && pod[k] != '.';
    assert ':' !in pod + "." + domain;
    assert PrimaryHost(h) == JoinHostPort(pod + "." + domain, port);
    StableIdentityResolvesToPod(h, pod, domain, port);
  }

  /** An address outside the stable-identity form still yields a name, just
      not a pod's: an IPv4 member address gives its first octet. */
  lemma IpAddressGivesFirstOctet()
    ensures PrimaryPodName(Hello(None, Some(BBool(true)), None, Some(BString("10.0.0.5:27017"))))
         == Ok("10")
  {
    var host := "10.0.0.5:27017";
    assert host == JoinHostPort("10" + "." + "0.0.5", "27017");
    StableIdentityResolvesToPod(Hello(None, Some(BBool(true)), None, Some(BString(host))),
                                "10", "0.0.5", "27017");
  }
}
