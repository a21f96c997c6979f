/**
 * The state the commands share through `ctx.obj`: the `Ctx` container of
 * `env_kube_sps/main.py` with the fields the commands read and write. SDK clients are
 * not part of it; their answers are passed to the operations as data.
 */
module Context {
  import opened PyDict

  /** An SSM parameter record; only `Name` and `Value` are read. */
  datatype Parameter = Parameter(name: string, value: string)

  /** One entry of `get_parameter_history`: a version and the labels attached to it. */
  datatype ParameterVersion = ParameterVersion(name: string, value: string, version: nat, labels: seq<string>)

  /** An element of `list_aliases()['Aliases']`: an empty (falsy) entry or an alias record. */
  datatype AliasEntry = EmptyEntry | Alias(aliasName: string)

  /** What `describe_cluster()['cluster']` provides to a kubeconfig. */
  datatype Cluster = Cluster(certificateAuthorityData: string, endpoint: string)

  class Ctx {
    /** `ctx.obj.main`: the group options. */
    var environment: string
    var component: string
    /** Name-keyed parameter cache. */
    var parameters: Dict<Parameter>
    /** Every alias list fetched so far, in fetch order. */
    var kmsAliases: seq<AliasEntry>
    /** Cluster descriptions keyed by cluster name. */
    var eksClusters: Dict<Cluster>
    var kmsAlias: string
    var spsPrefix: string
    var keyid: string
    /** The lines of the input file, and the variables ingested from them or from `--set-key`. */
    var raw: seq<string>
    var envVariables: Dict<string>

    /** `Ctx()` followed by the set-up of the `main` group command. */
    constructor(environment: string, component: string)
      ensures this.environment == environment && this.component == component
      ensures parameters == [] && kmsAliases == [] && eksClusters == []
      ensures kmsAlias == "alias/" + environment + "/ssm"
      ensures spsPrefix == "/" + environment + "/" + component
      ensures keyid == "" && raw == [] && envVariables == []
    {
      this.environment := environment;
      this.component := component;
      parameters := [];
      kmsAliases := [];
      eksClusters := [];
      kmsAlias := "alias/" + environment + "/ssm";
      spsPrefix := "/" + environment + "/" + component;
      keyid := "";
      raw := [];
      envVariables := [];
    }
  }
}
