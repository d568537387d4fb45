/** The pure tail of `getMongoPrimary`: from the decoded `hello` reply to the
    short name of the primary's pod. */
module Resolver {
  import opened Wrappers
  import opened HostPort

  /** The BSON types the reply's fields are asserted against; any other type
      fails both assertions alike. */
  datatype BsonValue = BString(s: string) | BBool(b: bool) | BOther

  /** The four fields of the decoded reply that are read; None is a missing
      field. */
  datatype Hello = Hello(primary: Option<BsonValue>, isWritablePrimary: Option<BsonValue>,
                         ismaster: Option<BsonValue>, me: Option<BsonValue>)

  datatype ResolveError =
    | InvalidPrimaryHost(host: string, reason: AddrError)
    | NoPodName(host: string)

  /** `v, _ := field.(string)`: the string, or "" when the field is missing or
      not a string. */
  function AsString(f: Option<BsonValue>): string
  {
    if f.Some? && f.value.BString? then f.value.s else ""
  }

  /** `v, ok := field.(bool); ok && v`. */
  predicate IsTrue(f: Option<BsonValue>)
  {
    f.Some? && f.value.BBool? && f.value.b
  }

  /** The primary's `host:port`: the `primary` field when it is a non-empty
      string; otherwise the answering node's own `me` when it reports itself
      writable (`isWritablePrimary`, else legacy `ismaster`); otherwise "". */
  function PrimaryHost(h: Hello): (host: string)
    ensures AsString(h.primary) != "" ==> host == AsString(h.primary)
    ensures AsString(h.primary) == "" && (IsTrue(h.isWritablePrimary) || IsTrue(h.ismaster)) ==>
              host == AsString(h.me)
    ensures host != "" ==> host == AsString(h.primary) || host == AsString(h.me)
    ensures !IsTrue(h.isWritablePrimary) && !IsTrue(h.ismaster) ==> host == AsString(h.primary)
  {
    var primaryHost := AsString(h.primary);
    if primaryHost == "" then
      if IsTrue(h.isWritablePrimary) then AsString(h.me)
      else if IsTrue(h.ismaster) then AsString(h.me)
      else primaryHost
    else primaryHost
  }

  /** `strings.Split(host, ".")[0]`: the host up to its first dot, or the
      whole host when it has none. */
  function FirstLabel(host: string): (name: string)
    ensures name <= host
    ensures '.' !in name
    ensures |name| == |host| || host[|name|] == '.'
  {
    if |host| == 0 || host[0] == '.' then ""
    else [host[0]] + FirstLabel(host[1..])
  }

  /** Host and pod name derived from the reply: split off the port, keep the
      first DNS label, reject an empty result. */
  function PrimaryPodName(h: Hello): (r: Result<string, ResolveError>)
    ensures SplitHostPort(PrimaryHost(h)).Err? ==>
              r == Err(InvalidPrimaryHost(PrimaryHost(h), SplitHostPort(PrimaryHost(h)).error))
    ensures r.Ok? ==>
      var host := SplitHostPort(PrimaryHost(h)).value.0;
      && SplitHostPort(PrimaryHost(h)).Ok?
      && r.value != "" && '.' !in r.value
      && (host == r.value || r.value + "." <= host)
    ensures SplitHostPort(PrimaryHost(h)).Ok? ==>
      var host := SplitHostPort(PrimaryHost(h)).value.0;
      (host != "" && host[0] != '.' ==> r.Ok?)
      && (host == "" || host[0] == '.' ==> r == Err(NoPodName(host)))
    ensures r.Err? && r.error.NoPodName? ==>
      var host := r.error.host;
      && SplitHostPort(PrimaryHost(h)) == Ok((host, SplitHostPort(PrimaryHost(h)).value.1))
      && (host == "" || host[0] == '.')
  {
    var primaryHost := PrimaryHost(h);
    match SplitHostPort(primaryHost)
    case Err(e) => Err(InvalidPrimaryHost(primaryHost, e))
    case Ok((host, _)) =>
      var name := FirstLabel(host);
      assert name != "" && |name| < |host| ==> host[..|name| + 1] == name + ".";
      if |name| != 0 then Ok(name) else Err(NoPodName(host))
  }

  /** A reply reporting no primary at all is an invalid-host error. */
  lemma NoPrimaryReported(h: Hello)
    requires AsString(h.primary) == ""
    requires !IsTrue(h.isWritablePrimary) && !IsTrue(h.ismaster)
    ensures PrimaryPodName(h) == Err(InvalidPrimaryHost("", MissingPort))
  {
  }

  /** The first label of `name.domain`, or of a dotless `name`, is `name`. */
  lemma {:induction false} FirstLabelOfQualified(name: string, domain: string)
    requires '.' !in name
    ensures FirstLabel(name + "." + domain) == name
    ensures FirstLabel(name) == name
  {
    if |name| > 0 {
      FirstLabelOfQualified(name[1..], domain);
      assert (name + "." + domain)[1..] == name[1..] + "." + domain;
    }
  }

  /** A Kubernetes stable network identity `pod.service.namespace...:port`
      resolves to `pod`, whether it comes from `primary` or, on a writable
      node that omits it, from `me`. */
  lemma StableIdentityResolvesToPod(h: Hello, pod: string, domain: string, port: string)
    requires pod != "" && '.' !in pod && NoDelimiters(pod)
    requires '[' !in domain && ']' !in domain && ':' !in domain
    requires NoDelimiters(port)
    requires PrimaryHost(h) == JoinHostPort(pod + "." + domain, port)
    ensures PrimaryPodName(h) == Ok(pod)
  {
    var host := pod + "." + domain;
    assert ':' !in host;
    SplitJoinHostPort(host, port);
    FirstLabelOfQualified(pod, domain);
  }
}
