/** The Kubernetes side of `env_kube_sps/kube.py`: the secret record and the RBAC check. */
module Kube {
  import opened Wrappers
  import opened Strings
  import opened PyDict
  import Util

  /** `__package__` of the module that sets the `heritage` label. */
  const HERITAGE: string := "env_kube_sps"

  /**
   * The labels of the secret: the `with_label` pairs, then `heritage` and `environment`
   * assigned over them.
   */
  function SecretLabels(withLabel: seq<string>, environment: string): (labels: Dict<string>)
    ensures DistinctKeys(labels)
    ensures Get(labels, "heritage") == Some(HERITAGE)
    ensures Get(labels, "environment") == Some(environment)
    ensures forall k :: k != "heritage" && k != "environment" ==> Get(labels, k) == Get(Util.SecretLabels(withLabel), k)
    ensures StartsWithSeq(Keys(labels), Keys(Util.SecretLabels(withLabel)))
  {
    var user := Util.SecretLabels(withLabel);
    var withHeritage := Put(user, "heritage", HERITAGE);
    var labels := Put(withHeritage, "environment", environment);
    assert Keys(labels)[..|Keys(user)|] == Keys(withHeritage)[..|Keys(user)|];
    labels
  }

  /** A `V1Secret`: type, metadata name and labels, and `string_data`. */
  datatype Secret = Secret(secretType: string, name: string, labels: Dict<string>, stringData: Dict<string>)

  /** `secret(name, secrets)`: an opaque secret carrying the given data unchanged. */
  function MakeSecret(name: string, secrets: Dict<string>, withLabel: seq<string>, environment: string): (s: Secret)
    ensures s.secretType == "opaque" && s.name == name && s.stringData == secrets
    ensures s.labels == SecretLabels(withLabel, environment)
  {
    Secret("opaque", name, SecretLabels(withLabel, environment), secrets)
  }

  // ---------------------------------------------------------------------------
  // check_rbac
  // ---------------------------------------------------------------------------

  const RBAC_VERBS: seq<string> := ["create", "update", "delete", "list"]

  /** The `resource_attributes` of one self-subject access review. */
  datatype ResourceAttributes = ResourceAttributes(namespace: string, verb: string, resource: string)

  /** How the cluster answers a review: allowed, not allowed, or an `ApiException`. */
  datatype ReviewAnswer = Allowed | NotAllowed | ApiError

  /** The four reviews in verb order, for the lower-cased kind in the namespace. */
  function Reviews(kind: string, namespace: string): (rs: seq<ResourceAttributes>)
    ensures |rs| == |RBAC_VERBS|
    ensures forall i :: 0 <= i < |rs| ==> rs[i] == ResourceAttributes(namespace, RBAC_VERBS[i], AsciiLower(kind))
  {
    seq(|RBAC_VERBS|, i requires 0 <= i < |RBAC_VERBS| => ResourceAttributes(namespace, RBAC_VERBS[i], AsciiLower(kind)))
  }

  /** How many reviews are made: all, or up to and including the first that raises. */
  function AskedCount(rs: seq<ResourceAttributes>, review: ResourceAttributes -> ReviewAnswer): (n: nat)
    ensures n <= |rs|
    ensures forall i :: 0 <= i < n - 1 ==> review(rs[i]) != ApiError
    ensures n < |rs| ==> n > 0 && review(rs[n - 1]) == ApiError
    ensures (forall i :: 0 <= i < |rs| ==> review(rs[i]) != ApiError) ==> n == |rs|
    decreases |rs|
  {
    if |rs| == 0 then 0
    else if review(rs[0]) == ApiError then 1
    else
      var n := 1 + AskedCount(rs[1..], review);
      assert forall i :: 1 <= i < |rs| ==> rs[1..][i - 1] == rs[i];
      n
  }

  /**
   * `check_rbac(kind)`: review each verb in turn; a denial makes the result False but the
   * remaining verbs are still reviewed, while an `ApiException` returns False at once.
   * `review` is the cluster's answer to a review; `asked` lists the reviews made.
   */
  method CheckRbac(kind: string, namespace: string, review: ResourceAttributes -> ReviewAnswer)
    returns (ok: bool, asked: seq<ResourceAttributes>)
    ensures asked == Reviews(kind, namespace)[..AskedCount(Reviews(kind, namespace), review)]
    ensures ok <==> forall i :: 0 <= i < |RBAC_VERBS| ==> review(Reviews(kind, namespace)[i]) == Allowed
  {
    ghost var rs := Reviews(kind, namespace);
    var retval := true;
    asked := [];
    var i := 0;
    while i < |RBAC_VERBS|
      invariant 0 <= i <= |RBAC_VERBS|
      invariant asked == rs[..i]
      invariant forall j :: 0 <= j < i ==> review(rs[j]) != ApiError
      invariant retval <==> forall j :: 0 <= j < i ==> review(rs[j]) == Allowed
    {
      var attributes := ResourceAttributes(namespace, RBAC_VERBS[i], AsciiLower(kind));
      asked := asked + [attributes];
      var res := review(attributes);
      if res == ApiError {
        AskedAtError(rs, review, i);
        return false, asked;
      }
      if res == NotAllowed {
        retval := false;
      }
      i := i + 1;
    }
    return retval, asked;
  }

  lemma {:induction false} AskedAtError(rs: seq<ResourceAttributes>, review: ResourceAttributes -> ReviewAnswer, i: nat)
    requires i < |rs| && review(rs[i]) == ApiError
    requires forall j :: 0 <= j < i ==> review(rs[j]) != ApiError
    ensures AskedCount(rs, review) == i + 1
    decreases i
  {
    if i > 0 {
      assert review(rs[0]) != ApiError;
      assert rs[1..][i - 1] == rs[i];
      forall j | 0 <= j < i - 1 ensures review(rs[1..][j]) != ApiError {
        assert rs[1..][j] == rs[j + 1];
      }
      AskedAtError(rs[1..], review, i - 1);
    }
  }
}
