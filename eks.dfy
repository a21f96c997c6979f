/**
 * The EKS side of `env_kube_sps/eks.py`: the cluster-description cache, the kubeconfig
 * record, and the `environment` secret built from labelled parameter versions.
 */
module Eks {
  import opened Wrappers
  import opened Strings
  import opened PyDict
  import opened Context
  import Util
  import Sps
  import Kube

  // ---------------------------------------------------------------------------
  // check_cluster
  // ---------------------------------------------------------------------------

  /** The answer of `list_clusters()`: the names, or a `ClientError`. */
  datatype ClusterListing = Listed(names: seq<string>) | ListingError

  /**
   * `check_cluster()` on the cache: a cached name passes at once; otherwise the listing is
   * read and, when it names the cluster, the description (`None`: a `ClientError`) is cached.
   * A `ClientError` from either call fails the check; a cluster the listing does not name
   * passes it without being cached.
   */
  function CheckClusterOutcome(cache: Dict<Cluster>, name: string, listing: ClusterListing, describe: Option<Cluster>)
    : (r: (bool, Dict<Cluster>))
    ensures !r.0 <==> name !in Keys(cache) && (listing.ListingError? || (name in listing.names && describe.None?))
    ensures name in Keys(r.1) <==> name in Keys(cache) || (listing.Listed? && name in listing.names && describe.Some?)
    ensures name !in Keys(cache) && name in Keys(r.1) ==> Get(r.1, name) == describe
    ensures forall k :: k != name ==> Get(r.1, k) == Get(cache, k)
    ensures name in Keys(cache) ==> r.1 == cache
  {
    if name in Keys(cache) then (true, cache)
    else
      match listing
      case ListingError => (false, cache)
      case Listed(names) =>
        if name !in names then (true, cache)
        else
          match describe
          case None => (false, cache)
          case Some(c) => (true, Put(cache, name, c))
  }

  /** `check_cluster()`. */
  method CheckCluster(ctx: Ctx, name: string, listing: ClusterListing, describe: Option<Cluster>) returns (ok: bool)
    modifies ctx`eksClusters
    ensures (ok, ctx.eksClusters) == CheckClusterOutcome(old(ctx.eksClusters), name, listing, describe)
  {
    ok := true;
    if name !in Keys(ctx.eksClusters) {
      if listing.ListingError? {
        return false;
      }
      if name in listing.names {
        if describe.None? {
          return false;
        }
        ctx.eksClusters := Put(ctx.eksClusters, name, describe.value);
      }
    }
  }

  // ---------------------------------------------------------------------------
  // _kubeconfig
  // ---------------------------------------------------------------------------

  datatype NamedCluster = NamedCluster(name: string, certificateAuthorityData: string, server: string)
  datatype NamedContext = NamedContext(name: string, cluster: string, user: string, namespace: string)
  datatype NamedUser = NamedUser(name: string, token: string)
  datatype KubeConfig = KubeConfig(
    apiVersion: string, kind: string, clusters: seq<NamedCluster>, contexts: seq<NamedContext>,
    currentContext: string, preferences: Dict<string>, users: seq<NamedUser>)

  const CONTEXT_NAME: string := "this"

  /**
   * `_kubeconfig()`: `None` stands for the `KeyError` of a cluster that is not cached.
   * `presignedUrl` is the STS URL the bearer token is made from.
   */
  function Kubeconfig(clusters: Dict<Cluster>, clusterName: string, namespace: string, presignedUrl: string)
    : (r: Option<KubeConfig>)
    ensures r.None? <==> clusterName !in Keys(clusters)
  {
    match Get(clusters, clusterName)
    case None => None
    case Some(c) =>
      Some(KubeConfig("v1", "Config",
        [NamedCluster(clusterName, c.certificateAuthorityData, c.endpoint)],
        [NamedContext(CONTEXT_NAME, clusterName, clusterName, namespace)],
        CONTEXT_NAME, [],
        [NamedUser(clusterName, Util.Token(presignedUrl))]))
  }

  /**
   * The kubeconfig is self-contained: the current context is the one context, which names
   * the one cluster (with the cached endpoint) and the one user, whose token carries the URL.
   */
  lemma KubeconfigResolves(clusters: Dict<Cluster>, clusterName: string, namespace: string, presignedUrl: string)
    requires clusterName in Keys(clusters)
    ensures var k := Kubeconfig(clusters, clusterName, namespace, presignedUrl).value;
      && |k.clusters| == 1 && |k.contexts| == 1 && |k.users| == 1
      && k.contexts[0].name == k.currentContext && k.preferences == []
      && k.contexts[0].cluster == k.clusters[0].name == clusterName
      && k.contexts[0].user == k.users[0].name == clusterName
      && k.contexts[0].namespace == namespace
      && Some(Cluster(k.clusters[0].certificateAuthorityData, k.clusters[0].server)) == Get(clusters, clusterName)
      && Util.TokenUrl(k.users[0].token) == Some(presignedUrl)
  {
    Util.TokenRoundTrip(presignedUrl);
  }

  /**
   * A cluster absent from the listing passes `check_cluster` without being cached, and the
   * kubeconfig that `preflight` then builds meets the missing key.
   */
  lemma UnlistedClusterPassesThenMissing(cache: Dict<Cluster>, name: string, names: seq<string>, describe: Option<Cluster>,
                                         namespace: string, presignedUrl: string)
    requires name !in Keys(cache) && name !in names
    ensures CheckClusterOutcome(cache, name, Listed(names), describe) == (true, cache)
    ensures Kubeconfig(CheckClusterOutcome(cache, name, Listed(names), describe).1, name, namespace, presignedUrl).None?
  {
  }

  // ---------------------------------------------------------------------------
  // preflight
  // ---------------------------------------------------------------------------

  /** How `preflight` ends: with a verdict, or with the `KeyError` of `_kubeconfig`. */
  datatype PreflightOutcome = Returned(ok: bool) | RaisedKeyError

  /**
   * `preflight()`: the cluster check, then the kubeconfig, then the RBAC reviews of
   * `secrets`, then the namespace lookup (`namespaceExists`: `read_namespace` answers).
   */
  method Preflight(ctx: Ctx, name: string, namespace: string, listing: ClusterListing, describe: Option<Cluster>,
                   presignedUrl: string, review: Kube.ResourceAttributes -> Kube.ReviewAnswer, namespaceExists: bool)
    returns (outcome: PreflightOutcome, config: Option<KubeConfig>)
    modifies ctx`eksClusters
    ensures var (passed, cache) := CheckClusterOutcome(old(ctx.eksClusters), name, listing, describe);
      && ctx.eksClusters == cache
      && (!passed ==> outcome == Returned(false) && config.None?)
      && (passed ==> config == Kubeconfig(cache, name, namespace, presignedUrl))
      && (passed && config.None? ==> outcome == RaisedKeyError)
      && (passed && config.Some? ==> outcome == Returned(
            namespaceExists &&
            forall i :: 0 <= i < |Kube.RBAC_VERBS| ==> review(Kube.Reviews("secrets", namespace)[i]) == Kube.Allowed))
  {
    var passed := CheckCluster(ctx, name, listing, describe);
    if !passed {
      return Returned(false), None;
    }
    config := Kubeconfig(ctx.eksClusters, name, namespace, presignedUrl);
    if config.None? {
      return RaisedKeyError, config;
    }
    var rbacOk, _ := Kube.CheckRbac("secrets", namespace, review);
    if !rbacOk {
      return Returned(false), config;
    }
    outcome := Returned(namespaceExists);
  }

  // ---------------------------------------------------------------------------
  // sync
  // ---------------------------------------------------------------------------

  /** `sps_labels`: `staged` when no label is given. */
  function EffectiveLabels(withLabel: seq<string>): (labels: seq<string>)
    ensures |withLabel| == 0 ==> labels == ["staged"]
    ensures |withLabel| > 0 ==> labels == withLabel
  {
    if |withLabel| == 0 then ["staged"] else withLabel
  }

  /** `'='.join((el['Name'].split('/')[-1], el['Value']))`. */
  function PayloadLine(pv: ParameterVersion): (line: string)
    ensures StartsWith(line, LastSegment(pv.name) + "=")
    ensures EndsWith(line, pv.value)
  {
    LastSegment(pv.name) + "=" + pv.value
  }

  function PayloadLines(pvs: seq<ParameterVersion>): (lines: seq<string>)
    ensures |lines| == |pvs|
    ensures forall i :: 0 <= i < |pvs| ==> lines[i] == PayloadLine(pvs[i])
  {
    seq(|pvs|, i requires 0 <= i < |pvs| => PayloadLine(pvs[i]))
  }

  /** The secret's `environment` value: one `tail=Value` line per version, in order. */
  function Payload(pvs: seq<ParameterVersion>): (text: string)
    ensures |pvs| == 0 ==> text == ""
    ensures |pvs| > 0 && (forall i :: 0 <= i < |pvs| ==> '\n' !in PayloadLine(pvs[i])) ==>
      Split(text, '\n') == PayloadLines(pvs)
  {
    var lines := PayloadLines(pvs);
    if |pvs| > 0 && (forall i :: 0 <= i < |pvs| ==> '\n' !in PayloadLine(pvs[i])) then
      SplitJoin(lines, '\n');
      Join(lines, '\n')
    else Join(lines, '\n')
  }

  /** A version whose line reads back as its own `K=V` pair. */
  predicate Readable(pv: ParameterVersion) {
    var tail := LastSegment(pv.name);
    && |tail| > 0 && '=' !in tail && '\n' !in tail && !IsSpace(tail[0])
    && |pv.value| > 0 && '\n' !in pv.value && !IsSpace(pv.value[0])
  }

  /**
   * Reading the payload back as an input file gives one line per version, and each line
   * yields the version's last name segment and value.
   */
  lemma PayloadReadsBack(pvs: seq<ParameterVersion>)
    requires |pvs| > 0
    requires forall i :: 0 <= i < |pvs| ==> Readable(pvs[i])
    ensures |Split(Payload(pvs), '\n')| == |pvs|
    ensures forall i :: 0 <= i < |pvs| ==>
      Util.ParseKeyValue(Split(Payload(pvs), '\n')[i]) == Some((LastSegment(pvs[i].name), pvs[i].value))
  {
    var lines := PayloadLines(pvs);
    forall i | 0 <= i < |lines| ensures '\n' !in lines[i] {
      var tail := LastSegment(pvs[i].name);
      NotInConcat(tail, "=", '\n');
      NotInConcat(tail + "=", pvs[i].value, '\n');
    }
    SplitJoin(lines, '\n');
    forall i | 0 <= i < |pvs|
      ensures Util.ParseKeyValue(lines[i]) == Some((LastSegment(pvs[i].name), pvs[i].value))
    {
      Util.ParseKeyValueRoundTrip(LastSegment(pvs[i].name), pvs[i].value);
    }
  }

  /** How `create_namespaced_secret` answers: created, or an `ApiException` with its reason. */
  datatype CreateAnswer = Created | ApiException(reason: string)

  datatype SecretCall = CreateSecret(namespace: string, body: Kube.Secret) | PatchSecret(name: string, namespace: string, body: Kube.Secret)

  /** The message `sync` prints afterwards. */
  datatype Report = ReportedCreated | ReportedUpdated

  /**
   * Create first; a `Conflict` leads to a patch of the same secret. Any other
   * `ApiException` leads to no further call, yet the secret is still reported updated.
   */
  function SecretCalls(namespace: string, secret: Kube.Secret, answer: CreateAnswer): (r: (seq<SecretCall>, Report))
    ensures |r.0| > 0 && r.0[0] == CreateSecret(namespace, secret)
    ensures |r.0| == 2 <==> answer == ApiException("Conflict")
    ensures |r.0| == 2 ==> r.0[1] == PatchSecret(secret.name, namespace, secret)
    ensures |r.0| <= 2
    ensures r.1 == ReportedCreated <==> answer == Created
  {
    var create := [CreateSecret(namespace, secret)];
    match answer
    case Created => (create, ReportedCreated)
    case ApiException(reason) =>
      if reason == "Conflict" then (create + [PatchSecret(secret.name, namespace, secret)], ReportedUpdated)
      else (create, ReportedUpdated)
  }

  /** The key of the secret's only data entry. */
  const SECRET_DATA_KEY: string := "environment"

  /** `'{}-env'.format(component)`. */
  function SecretName(component: string): (name: string)
    ensures EndsWith(name, "-env") && StartsWith(name, component)
  {
    component + "-env"
  }

  /**
   * `sync()`: collect the versions carrying the requested labels (refreshing the listing),
   * build the payload and the secret, then create or patch it. `listingPages` and
   * `history` are the parameter-store answers, `answer` the cluster's reply to the create.
   */
  method Sync(ctx: Ctx, namespace: string, withLabel: seq<string>, listingPages: seq<Sps.Page>,
              history: string -> seq<ParameterVersion>, answer: CreateAnswer)
    returns (calls: seq<SecretCall>, report: Report)
    requires exists i :: 0 <= i < |listingPages| && !Sps.HasMore(listingPages[i])
    modifies ctx`parameters
    ensures ctx.parameters == Sps.MergePages(old(ctx.parameters), listingPages[..Sps.PagesRead(listingPages)])
    ensures var versions := Sps.VersionsByLabel(Sps.SlashNames(Keys(ctx.parameters)), history, EffectiveLabels(withLabel));
      var secret := Kube.MakeSecret(SecretName(ctx.component), [(SECRET_DATA_KEY, Payload(versions))], withLabel, ctx.environment);
      (calls, report) == SecretCalls(namespace, secret, answer)
  {
    var labels := EffectiveLabels(withLabel);
    var paramObjects := Sps.ParametersByLabel(ctx, labels, true, listingPages, history);
    var params := Payload(paramObjects);
    var paramData := [(SECRET_DATA_KEY, params)];
    var secretName := SecretName(ctx.component);
    var secretObj := Kube.MakeSecret(secretName, paramData, withLabel, ctx.environment);
    var r := SecretCalls(namespace, secretObj, answer);
    calls, report := r.0, r.1;
  }
}
