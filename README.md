# A Dafny model of the logic in gladiatr72/tools

The repository holds three command-line tools for AWS and Kubernetes:

- **env-kube-sps** keeps environment variables in the SSM Parameter Store and copies labelled parameter versions into an `environment` secret of a Kubernetes namespace on an EKS cluster.
- **mkeksauth** builds the `aws-auth` ConfigMap. That ConfigMap maps IAM roles, IAM group members and EC2 node roles onto Kubernetes RBAC groups.
- **ysplit** splits a YAML bundle of Kubernetes manifests into one file per manifest.

The model covers the logic between the SDK calls. Every SDK answer is an input: parameter pages, alias lists, the cluster listing and description, IAM roles, groups and users, EC2 instances and instance profiles, access-review answers, and the reply to a secret create. Every SDK write becomes a recorded request. The state that the source keeps in objects is kept in Dafny classes:

- the `Ctx` object of env-kube-sps, with its parameter cache, alias list, key id and cluster cache;
- `EksAuth`, with its name flags, role and user lists and document;
- the click parameters that `_ingest_json_config` writes into;
- the `GetCallerIdentity` request that the two STS handlers rewrite.

Methods that change those objects are proved against functions on values. The properties the tools promise are then proved about those functions as lemmas.

Modules, one per source file, plus helpers:

- `Util`: `env_kube_sps/util.py`.
- `Sps`: `env_kube_sps/sps.py`.
- `Kms`: `env_kube_sps/kms.py`.
- `Eks`: `env_kube_sps/eks.py`.
- `Kube`: `env_kube_sps/kube.py`.
- `Context`: the `Ctx` class of `env_kube_sps/main.py` and its set-up by the `main` group.
- `MkEksAuth`: `mkeksauth.py`.
- `YSplit`: `ysplit/__init__.py`.
- `PyDict`: an insertion-ordered Python `dict` over string keys, kept as a sequence of pairs.
- `Strings`: the few `str` operations the tools use.
- `Utf8`: UTF-8 as in section 3 of RFC 3629.
- `Base64`: the URL-safe alphabet of section 5 of RFC 4648.
- `Wrappers`: `Option` and `Result`.

The model follows the code as written, including the behaviours below, which a reader of the code can easily miss. The one exception is the defect listed under "## Findings": `Sps.Preflight` uses the corrected check, and `Sps.PreflightAsWritten` keeps the code as written.

- **`check_cluster` can also fail on describe.** It returns False when `describe_cluster` raises `ClientError`, not only when `list_clusters` does: both calls sit inside the same `try`.
- **A cluster missing from the listing passes `check_cluster`.** It is then not cached, so `_kubeconfig` raises `KeyError` (`Eks.UnlistedClusterPassesThenMissing`).
- **`KEY_VALUE_REX` needs only something after the `=`.** After the first `=` there need only be some character other than a line feed. When the rest of the line is whitespace, backtracking gives the last such character as the value. Only a line whose `=` is followed by line feeds alone, or by nothing, yields no pair.
- **`KEY_VALUE_REX` keeps whitespace before the `=` in the key.** The text before the first `=` loses only its leading whitespace, and keeps at least one character.
- **`_ingest_json_config` skips only elements without a `pop` method.** A string, number, bool or `null` element is skipped. A list raises `TypeError` from `list.pop('role')`, and a dict without `role` raises `KeyError`. Neither exception is caught.

## Model

| member | source | states |
|---|---|---|
| Context.Ctx.constructor | env-kube-sps/env_kube_sps/main.py:25-54 | A fresh context has empty caches and empty key id, the KMS alias `alias/<environment>/ssm` and the prefix `/<environment>/<component>` |
| Util.LastNotNewline | env-kube-sps/env_kube_sps/util.py:29 | The last character that is not a line feed, with only line feeds after it; none when all are line feeds |
| Util.LineEnd | env-kube-sps/env_kube_sps/util.py:29 | The end of what `.` can take from a position: no line feed before it, a line feed or the end at it |
| Util.KeyGroup | env-kube-sps/env_kube_sps/util.py:29 | The key group is a non-empty suffix of the text before `=`, preceded only by whitespace |
| Util.ValueGroup | env-kube-sps/env_kube_sps/util.py:29 | A value group, when there is one, is non-empty and holds no line feed |
| Util.MatchAt | env-kube-sps/env_kube_sps/util.py:29 | A match cut at the first `=` has a non-empty key without `=` and a non-empty one-line value |
| Util.ParseKeyValue | env-kube-sps/env_kube_sps/util.py:29 | `KEY_VALUE_REX.findall`: no `=` means no pair; a pair has a non-empty key without `=` and a non-empty one-line value |
| Util.ParseKeyValueCut | env-kube-sps/env_kube_sps/util.py:29 | The regex splits the line at its first `=`, so the value may itself contain `=` |
| Util.ValueGroupSound | env-kube-sps/env_kube_sps/util.py:29 | A value group is surrounded by whitespace only (`\s*(.+)\s*$`) |
| Util.MatchAtSound | env-kube-sps/env_kube_sps/util.py:29 | The key and value of a match are surrounded by whitespace only |
| Util.ParseKeyValueSound | env-kube-sps/env_kube_sps/util.py:29 | A matched line is whitespace, key, `=`, whitespace, value, whitespace: the shape the regex describes |
| Util.ValueGroupComplete | env-kube-sps/env_kube_sps/util.py:29 | Whitespace, a one-line value and whitespace always give a value group |
| Util.ParseKeyValueComplete | env-kube-sps/env_kube_sps/util.py:29 | Conversely, every line of that shape matches |
| Util.ParseKeyValueRoundTrip | env-kube-sps/env_kube_sps/util.py:29 | `k=v` with a key without `=` and a one-line value, neither starting with whitespace, gives back exactly `(k, v)` |
| Util.ParseKeyValueNoValue | env-kube-sps/env_kube_sps/util.py:29 | A line whose `=` is followed by nothing or by line feeds only yields no pair |
| Util.CollectPairs | env-kube-sps/env_kube_sps/util.py:43-47 | The dict comprehension over `K=V` lines has distinct keys, none of them excluded |
| Util.CollectPairsStep | env-kube-sps/env_kube_sps/util.py:43-47 | One more line adds exactly the key it yields |
| Util.CollectPairsKeyFrom | env-kube-sps/env_kube_sps/util.py:43-47 | Every key that some line yields is in the dictionary |
| Util.CollectPairsKeySource | env-kube-sps/env_kube_sps/util.py:43-47 | Every key of the dictionary comes from a line that yields it |
| Util.CollectPairsLastWins | env-kube-sps/env_kube_sps/util.py:43-47 | A key takes the value of the last line that yields it: later duplicates override earlier ones |
| Util.SecretLabels | env-kube-sps/env_kube_sps/util.py:43-47 | `secret_labels()` is a dictionary with distinct keys |
| Util.Dict2Tags | env-kube-sps/env_kube_sps/util.py:55-62 | One `{'Key': k, 'Value': v}` tag per entry, in dictionary order |
| Util.Tags2Dict | env-kube-sps/env_kube_sps/util.py:55-62 | The dictionary a tag list describes has distinct keys |
| Util.FromPairsOfDict | env-kube-sps/env_kube_sps/util.py:55-62 | Assigning a dictionary's entries in order into an empty one rebuilds it |
| Util.Tags2DictOfDict2Tags | env-kube-sps/env_kube_sps/util.py:55-62 | Mapping the tags back gives the original dictionary |
| Util.Chunks | env-kube-sps/env_kube_sps/util.py:65-76 | The consecutive slices of `limit` elements that `chunk_sequence` yields, for a positive limit; sizes and order are stated by `Util.ChunkSizes` and `Util.FlattenChunks` |
| Util.FlattenChunks | env-kube-sps/env_kube_sps/util.py:65-76 | Concatenating the chunks reproduces the sequence in order |
| Util.ChunkSizes | env-kube-sps/env_kube_sps/util.py:72-76 | Chunks are non-empty with at most `limit` elements, all but the last exactly `limit`; there are ceil(len/limit) of them and none for an empty input |
| Util.ChunkMembers | env-kube-sps/env_kube_sps/util.py:65-76 | Every element of a chunk comes from the sequence |
| Util.ChunkSequence | env-kube-sps/env_kube_sps/util.py:65-76 | The generator's loop yields exactly `Chunks(s, limit)` for a positive limit and nothing for a negative one; a zero limit is the `ValueError` of `range` |
| Util.Token | env-kube-sps/env_kube_sps/util.py:139-144 | The token starts with `k8s-aws-v1.` |
| Util.TokenIsUnpadded | env-kube-sps/env_kube_sps/util.py:139-144 | The token is the prefix followed by the unpadded URL-safe base 64 of the URL's UTF-8 |
| Util.TokenAlphabet | env-kube-sps/env_kube_sps/util.py:139-144 | After the prefix there is no `=` and only characters of the URL-safe alphabet |
| Util.TokenRoundTrip | env-kube-sps/env_kube_sps/util.py:139-144 | Dropping the prefix, re-padding and decoding gives back the URL |
| Util.ClusterNameMoved | env-kube-sps/env_kube_sps/util.py:189-191 | With `ClusterName` present it is popped from the params and stored as `context['eks_cluster']`; without it both are unchanged; other keys keep their values |
| Util.HeadersWithClusterName | env-kube-sps/env_kube_sps/util.py:193-196 | Header `x-k8s-aws-id` is set to `context['eks_cluster']` only when that key is present; other headers are untouched |
| Util.StsRequest.constructor | env-kube-sps/env_kube_sps/util.py:189-196 | A request holds the given params, context and headers |
| Util.StsRequest.RetrieveClusterName | env-kube-sps/env_kube_sps/util.py:189-191 | The handler rewrites params and context as `ClusterNameMoved` says and leaves the headers |
| Util.StsRequest.InjectClusterNameHeader | env-kube-sps/env_kube_sps/util.py:193-196 | The handler rewrites the headers as `HeadersWithClusterName` says and leaves params and context |
| Util.HandlersCarryClusterName | env-kube-sps/env_kube_sps/util.py:179-196 | Through both handlers a `ClusterName` parameter ends up as the header and no longer in the params; other headers are untouched |
| Sps.PageDict | env-kube-sps/env_kube_sps/sps.py:25-28 | The page as a name-keyed dictionary has distinct keys |
| Sps.PageDictGet | env-kube-sps/env_kube_sps/sps.py:25-28 | A name maps to the last parameter of that name on the page |
| Sps.PageDictMissing | env-kube-sps/env_kube_sps/sps.py:25-28 | A name not on the page is not in its dictionary |
| Sps.MergePages | env-kube-sps/env_kube_sps/sps.py:22-33 | Merging pages keeps the cache a dictionary |
| Sps.MergePagesLastWins | env-kube-sps/env_kube_sps/sps.py:22-33 | A name takes its entry from the last page that lists it |
| Sps.MergePagesUnlisted | env-kube-sps/env_kube_sps/sps.py:22-33 | A name that no page lists keeps its cached entry, or stays absent |
| Sps.MergePagesKeepsOrder | env-kube-sps/env_kube_sps/sps.py:22-33 | Names already cached stay at the front, in their order |
| Sps.MergePagesSnoc | env-kube-sps/env_kube_sps/sps.py:22-33 | One more page is one more `update` |
| Sps.RequestsSnoc | env-kube-sps/env_kube_sps/sps.py:20-31 | One more page is one more call, with the previous page's token |
| Sps.HasMore | env-kube-sps/env_kube_sps/sps.py:30 | A page asks for another exactly when its `NextToken` is present and non-empty, as the truth test of `res.get('NextToken', None)` is |
| Sps.PagesRead | env-kube-sps/env_kube_sps/sps.py:22-33 | The loop reads up to and including the first page without a `NextToken` |
| Sps.NextPageRead | env-kube-sps/env_kube_sps/sps.py:30-33 | A page that is read carries a `NextToken` exactly when another page is read after it; a page without one is the last page read |
| Sps.Requests | env-kube-sps/env_kube_sps/sps.py:20-31 | The first call has no token; each later call carries the previous page's `NextToken` |
| Sps.SlashNames | env-kube-sps/env_kube_sps/sps.py:35 | Exactly the cached names that begin with `/`, whatever the path asked for |
| Sps.ReadPages | env-kube-sps/env_kube_sps/sps.py:22-33 | The paging loop calls once per page that is read, the first time without a token and afterwards with the previous page's `NextToken`; it merges each page into the cache in order, so the cache ends as `MergePages` of the pages read |
| Sps.ParametersList | env-kube-sps/env_kube_sps/sps.py:17-35 | Fetches only on `refresh` or an empty cache; the cache becomes the pages read merged in, the calls are `Requests`, the result is `SlashNames` of the cache |
| Sps.Lookup | env-kube-sps/env_kube_sps/sps.py:108-111 | A cached path is always found without asking the service; an uncached one denotes what the service holds |
| Sps.CheckParameter | env-kube-sps/env_kube_sps/sps.py:106-116 | A cached path is present without a fetch; a found path is cached and present; `ParameterNotFound` is absent and leaves the cache; what every path denotes is unchanged |
| Sps.FileVariables | env-kube-sps/env_kube_sps/sps.py:147-167 | File-mode variables have distinct keys, none in `AUTO_VARS` |
| Sps.FileVariablesSkip | env-kube-sps/env_kube_sps/sps.py:163-165 | An empty line, or a line without a match, adds no variable |
| Sps.SetKeyKeepsAutoVars | env-kube-sps/env_kube_sps/sps.py:171-175 | In `--set-key` mode no `AUTO_VARS` filter applies |
| Sps.Ingest | env-kube-sps/env_kube_sps/sps.py:157-175 | File mode splits the file at `\n` and filters; otherwise `raw` is empty and the `--set-key` pairs are taken unfiltered |
| Sps.ParamPath | env-kube-sps/env_kube_sps/sps.py:205 | The parameter path lies under `prefix/` |
| Sps.SyncTags | env-kube-sps/env_kube_sps/sps.py:207-212 | The tags are `Name`, `component`, `environment` and `Managed-By: env-kube-sps`, in that order |
| Sps.VariableRequests | env-kube-sps/env_kube_sps/sps.py:214-253 | Skip exactly when the parameter exists and `update` is off or the value is unchanged; overwrite without tags when it exists; create with tags when it does not; name, value, type with key id, and `Advanced` tier exactly above 4096 characters |
| Sps.WellFormed | env-kube-sps/env_kube_sps/sps.py:235-253 | The shape of every `put_parameter` request |
| Sps.SyncPlan | env-kube-sps/env_kube_sps/sps.py:201-253 | The requests of the `sync` loop, variable by variable, each from `VariableRequests` of the path's lookup; its properties are `Sps.SyncPlanWellFormed`, `Sps.SyncPlanLength` and `Sps.SyncPlanSnoc` |
| Sps.SyncPlanWellFormed | env-kube-sps/env_kube_sps/sps.py:201-253 | Every request of the plan is well formed |
| Sps.SyncPlanLength | env-kube-sps/env_kube_sps/sps.py:201-253 | At most one request per variable, and one for each when none exists yet |
| Sps.SyncPlanSnoc | env-kube-sps/env_kube_sps/sps.py:201 | One more variable adds its own requests at the end |
| Sps.SyncVariable | env-kube-sps/env_kube_sps/sps.py:203-255 | One loop body gives the variable's requests and changes what no path denotes |
| Sps.Sync | env-kube-sps/env_kube_sps/sps.py:193-255 | The requests are the plan of the ingested variables, in order |
| Sps.LabelHits | env-kube-sps/env_kube_sps/sps.py:86-88 | A version appears once per requested label it carries, and only then |
| Sps.VersionsWithLabels | env-kube-sps/env_kube_sps/sps.py:86-88 | Exactly the versions of a history that carry a requested label |
| Sps.VersionsWithLabelsAppend | env-kube-sps/env_kube_sps/sps.py:86-88 | The entries follow the history's version order: a split history filters to the earlier part's entries, then the later part's |
| Sps.VersionsWithLabelsSingle | env-kube-sps/env_kube_sps/sps.py:86-88 | One version gives `LabelHits`: itself once per requested label it carries, in label order |
| Sps.VersionsWithLabelsCount | env-kube-sps/env_kube_sps/sps.py:86-88 | The filter makes one entry per version and carried requested label, summed over the history |
| Sps.VersionsByLabel | env-kube-sps/env_kube_sps/sps.py:83-89 | Exactly the wanted versions of the listed parameters |
| Sps.VersionsByLabelAppend | env-kube-sps/env_kube_sps/sps.py:83-89 | The entries follow the parameters' listing order: split parameters give the earlier ones' entries, then the later ones' |
| Sps.VersionsByLabelSingle | env-kube-sps/env_kube_sps/sps.py:83-89 | One parameter contributes its filtered history, by version, then label |
| Sps.ParametersByLabel | env-kube-sps/env_kube_sps/sps.py:79-91 | The listing as `ParametersList` does it, then `VersionsByLabel` of the slash names |
| Sps.PurgeMatch | env-kube-sps/env_kube_sps/sps.py:122-125 | `^/{environment}/{component}/(pattern)` under `re.I` |
| Sps.PurgeSelection | env-kube-sps/env_kube_sps/sps.py:127-131 | Exactly the listed names that match |
| Sps.PurgeBatches | env-kube-sps/env_kube_sps/sps.py:127-135 | The batches hold only matching listed names, at most ten each, together all of them in order |
| Sps.Purge | env-kube-sps/env_kube_sps/sps.py:119-141 | A refreshed listing, the selection in batches of ten, deletions stopping at a failing batch, and names reported only when all succeed |
| Sps.DeleteBatches | env-kube-sps/env_kube_sps/sps.py:133-141 | The deletions made are the batches up to and including the first that fails |
| Sps.PreflightGate | env-kube-sps/env_kube_sps/sps.py:276-296 | KMS is consulted exactly when one of `--input-file` and `--set-key` is given and the label has at most 8 characters |
| Sps.PreflightAsWritten | env-kube-sps/env_kube_sps/sps.py:291-296 | The code as written raises `TypeError` exactly in the long-label branch |
| Sps.PreflightCorrected | env-kube-sps/env_kube_sps/sps.py:276-301 | The check passes exactly when the gates pass and the key is found |
| Sps.PreflightLongLabelRaises | env-kube-sps/env_kube_sps/sps.py:291-296 | A nine-character label raises where `False` was meant |
| Sps.PreflightAgreesElsewhere | env-kube-sps/env_kube_sps/sps.py:276-301 | Outside that branch the written code returns what the corrected one does |
| Sps.Preflight | env-kube-sps/env_kube_sps/sps.py:271-301 | The corrected `preflight()`, where a too-long label returns False instead of raising: failed gates return False without touching the KMS state; otherwise `check_key` runs and decides |
| Kms.Names | env-kube-sps/env_kube_sps/kms.py:23-24 | An entry is truthy and its `AliasName` is the wanted alias |
| Kms.Matching | env-kube-sps/env_kube_sps/kms.py:20-25 | The `check` list holds only truthy entries with the wanted alias name |
| Kms.MatchingNonEmpty | env-kube-sps/env_kube_sps/kms.py:20-27 | `check` is non-empty exactly when some truthy entry names the alias |
| Kms.MatchingAppend | env-kube-sps/env_kube_sps/kms.py:16-25 | Filtering an extended list is filtering each part |
| Kms.KeyIdFor | env-kube-sps/env_kube_sps/kms.py:27-38 | The key id is the alias when it matches and `''` when nothing matches |
| Kms.KeyIdStable | env-kube-sps/env_kube_sps/kms.py:16-28 | Once the alias is seen, later fetches, duplicates included, keep the key id |
| Kms.CheckKey | env-kube-sps/env_kube_sps/kms.py:8-47 | The alias list grows by the fetched list; the result is True exactly when some entry names the alias; `keyid` is the alias or `''` |
| Kms.Preflight | env-kube-sps/env_kube_sps/kms.py:49-51 | Always truthy, without a lookup |
| Kube.SecretLabels | env-kube-sps/env_kube_sps/kube.py:12-17 | The user labels plus `heritage` and `environment`, which override user keys of the same name; other keys and their order are kept |
| Kube.MakeSecret | env-kube-sps/env_kube_sps/kube.py:6-25 | An opaque secret with the given name, the merged labels and the data unchanged |
| Kube.Reviews | env-kube-sps/env_kube_sps/kube.py:35-43 | The reviews for create, update, delete and list, in order, on the lower-cased kind in the namespace |
| Kube.AskedCount | env-kube-sps/env_kube_sps/kube.py:35-67 | All reviews are made unless one raises; then exactly those up to it |
| Kube.AskedAtError | env-kube-sps/env_kube_sps/kube.py:54-67 | The first review that raises is the last one made |
| Kube.CheckRbac | env-kube-sps/env_kube_sps/kube.py:28-91 | The reviews made are those up to the first `ApiException`; the result is True exactly when every verb is allowed; a denial does not stop the loop |
| Eks.CheckClusterOutcome | env-kube-sps/env_kube_sps/eks.py:11-35 | False only on a `ClientError` for an uncached name; a cached name passes unchanged; a listed, described name is cached; other entries are untouched |
| Eks.CheckCluster | env-kube-sps/env_kube_sps/eks.py:11-35 | The method's verdict and cache are `CheckClusterOutcome` of the old cache |
| Eks.Kubeconfig | env-kube-sps/env_kube_sps/eks.py:38-77 | The `KeyError` of `_kubeconfig` exactly when the cluster is not cached |
| Eks.KubeconfigResolves | env-kube-sps/env_kube_sps/eks.py:38-77 | One cluster, one user and one context `this`, which is current and names both and the namespace; the server data is the cached one; preferences are empty; the token carries the URL |
| Eks.UnlistedClusterPassesThenMissing | env-kube-sps/env_kube_sps/eks.py:16-41 | An uncached cluster the listing omits passes the check and then has no kubeconfig |
| Eks.Preflight | env-kube-sps/env_kube_sps/eks.py:96-110 | The cluster check, then the kubeconfig, then the RBAC reviews of `secrets`, then the namespace, each able to end it |
| Eks.EffectiveLabels | env-kube-sps/env_kube_sps/eks.py:118-121 | `['staged']` when no label is given, the labels otherwise |
| Eks.PayloadLine | env-kube-sps/env_kube_sps/eks.py:126-128 | The line is the name's last `/`-segment, `=`, and the value |
| Eks.PayloadLines | env-kube-sps/env_kube_sps/eks.py:125-129 | One line per version, in order |
| Eks.Payload | env-kube-sps/env_kube_sps/eks.py:125-129 | No versions give the empty text; lines free of line feeds split back into exactly the payload lines, in order |
| Eks.PayloadReadsBack | env-kube-sps/env_kube_sps/eks.py:125-131 | Split at `\n`, the payload has one line per version, and each line parses back to the name's tail and the value |
| Eks.SecretCalls | env-kube-sps/env_kube_sps/eks.py:137-160 | Create first; only an `ApiException` with reason `Conflict` adds a patch; any exception still reports "updated" |
| Eks.SecretName | env-kube-sps/env_kube_sps/eks.py:133 | The secret is named `<component>-env` |
| Eks.Sync | env-kube-sps/env_kube_sps/eks.py:114-160 | A refreshed listing, the labelled versions, the secret with its single `environment` entry, then the create-or-patch calls |
| MkEksAuth.Falsy | mkeksauth/build/lib/src/mkeksauth.py:330 | Python's truth test: false exactly for `null`, `false`, `0`, `""`, `[]` and `{}` |
| MkEksAuth.Iterate | mkeksauth/build/lib/src/mkeksauth.py:345-350 | What a `for` loop walks through for each JSON value, and `TypeError` for the scalars |
| MkEksAuth.NonColonRun | mkeksauth/build/lib/src/mkeksauth.py:121 | `[^:]+` takes the leading run of characters other than `:` |
| MkEksAuth.DigitRun | mkeksauth/build/lib/src/mkeksauth.py:121 | `[\d]+` takes the leading run of digits |
| MkEksAuth.RestOfLine | mkeksauth/build/lib/src/mkeksauth.py:121 | `.*` takes everything up to the first line feed |
| MkEksAuth.MatchAccount | mkeksauth/build/lib/src/mkeksauth.py:121 | The group after the account number holds no line feed |
| MkEksAuth.MatchRegion | mkeksauth/build/lib/src/mkeksauth.py:121 | The group after the region holds no line feed |
| MkEksAuth.MatchArn | mkeksauth/build/lib/src/mkeksauth.py:121 | A match starts with `arn:aws:eks:` |
| MkEksAuth.Search | mkeksauth/build/lib/src/mkeksauth.py:123 | `re.search` finds the leftmost position where the pattern matches, or none at any position |
| MkEksAuth.ParsedClusterName | mkeksauth/build/lib/src/mkeksauth.py:118-131 | A name in which the ARN occurs nowhere comes back unchanged |
| MkEksAuth.MatchAccountSound | mkeksauth/build/lib/src/mkeksauth.py:121 | A match after the region is digits, `:cluster/`, the group, and a line break or the end |
| MkEksAuth.MatchAccountSplit | mkeksauth/build/lib/src/mkeksauth.py:121 | The account number is followed by `:cluster/` |
| MkEksAuth.MatchRegionSound | mkeksauth/build/lib/src/mkeksauth.py:121 | A match after the head is a region without `:`, `:`, the account number, `:cluster/` and the group |
| MkEksAuth.MatchRegionSplit | mkeksauth/build/lib/src/mkeksauth.py:121 | The region ends at the first `:` |
| MkEksAuth.MatchArnSound | mkeksauth/build/lib/src/mkeksauth.py:121 | Every match comes from `arn:aws:eks:<region>:<digits>:cluster/<name>` |
| MkEksAuth.MatchAccountComplete | mkeksauth/build/lib/src/mkeksauth.py:121 | Digits, `:cluster/` and a name always match, giving the name |
| MkEksAuth.MatchRegionComplete | mkeksauth/build/lib/src/mkeksauth.py:121 | A region, `:`, digits, `:cluster/` and a name always match, giving the name |
| MkEksAuth.MatchArnComplete | mkeksauth/build/lib/src/mkeksauth.py:121 | Every well-formed ARN matches, and the group is everything after `cluster/` up to the line end |
| MkEksAuth.Arn | mkeksauth/build/lib/src/mkeksauth.py:121 | An EKS cluster ARN starts with the head and ends with the name |
| MkEksAuth.FullArnName | mkeksauth/build/lib/src/mkeksauth.py:118-131 | A context named by a cluster's full ARN stands for the cluster's name |
| MkEksAuth.ReparsingChangesNestedArn | mkeksauth/build/lib/src/mkeksauth.py:119-129 | Parsing twice can differ from parsing once, which is why the once-only flag matters |
| MkEksAuth.OwnedBy | mkeksauth/build/lib/src/mkeksauth.py:137-144 | The instance carries the tag `kubernetes.io/cluster/<name>` with value `owned`, the EC2 filter |
| MkEksAuth.RunsWithProfile | mkeksauth/build/lib/src/mkeksauth.py:146-152 | An owned instance in state `running` whose attached instance profile is the given one |
| MkEksAuth.NodeRoleArns | mkeksauth/build/lib/src/mkeksauth.py:146-154 | Every ARN is a role of a listed instance profile, and there are none without a running owned instance |
| MkEksAuth.NodeRole | mkeksauth/build/lib/src/mkeksauth.py:157-163 | A node entry has the role ARN, username `system:node:{{EC2PrivateDNSName}}` and group `system:masters` |
| MkEksAuth.NodeRoles | mkeksauth/build/lib/src/mkeksauth.py:156-163 | One node entry per role ARN, in order |
| MkEksAuth.Enumerate | mkeksauth/build/lib/src/mkeksauth.py:156 | Walking a set visits every element exactly once |
| MkEksAuth.RoleEntry | mkeksauth/build/lib/src/mkeksauth.py:169 | A role entry has the role's ARN and name and the one RBAC group |
| MkEksAuth.RolesNamed | mkeksauth/build/lib/src/mkeksauth.py:168-173 | The entries of one mapping are those for the IAM roles of that name |
| MkEksAuth.RoleAssignments | mkeksauth/build/lib/src/mkeksauth.py:168-173 | One entry per (mapping, IAM role of that name), and no other |
| MkEksAuth.RoleAssignmentsAppend | mkeksauth/build/lib/src/mkeksauth.py:168-173 | The entries keep the mappings' order |
| MkEksAuth.UserEntry | mkeksauth/build/lib/src/mkeksauth.py:185 | A user entry has the user's ARN and name and the one RBAC group |
| MkEksAuth.Members | mkeksauth/build/lib/src/mkeksauth.py:184-190 | A group the mapping names gives one entry per member, in order; another group gives none |
| MkEksAuth.GroupAssignments | mkeksauth/build/lib/src/mkeksauth.py:184-190 | One IAM group's entries, mapping by mapping |
| MkEksAuth.UserAssignments | mkeksauth/build/lib/src/mkeksauth.py:184-190 | One entry per (IAM group the mapping names, member user), and no other |
| MkEksAuth.UserAssignmentsAppend | mkeksauth/build/lib/src/mkeksauth.py:184-192 | The entries are ordered by IAM group |
| MkEksAuth.AssembledDocument | mkeksauth/build/lib/src/mkeksauth.py:78-84 | A copy of the template with `mapRoles` always set, `mapUsers` set when there are users and removed otherwise, the rest unchanged |
| MkEksAuth.EksAuth.constructor | mkeksauth/build/lib/src/mkeksauth.py:39-70 | A new object holds the name, unparsed, with no roles or users and the template document |
| MkEksAuth.EksAuth.ClusterName | mkeksauth/build/lib/src/mkeksauth.py:118-131 | The first call parses the name and sets the flag; later calls return the stored name unchanged |
| MkEksAuth.EksAuth.SetClusterRoleArn | mkeksauth/build/lib/src/mkeksauth.py:251-265 | The cluster is looked up under the parsed name; when found it is marked existing and its role ARN is stored |
| MkEksAuth.EksAuth.LoadNodeRole | mkeksauth/build/lib/src/mkeksauth.py:133-163 | One node entry for each distinct role ARN of a running owned instance's profile, appended |
| MkEksAuth.EksAuth.BuildRoles | mkeksauth/build/lib/src/mkeksauth.py:165-175 | The mapped role entries are appended |
| MkEksAuth.EksAuth.UsersFromGroups | mkeksauth/build/lib/src/mkeksauth.py:177-192 | The group members' entries are appended |
| MkEksAuth.EksAuth.Populate | mkeksauth/build/lib/src/mkeksauth.py:74-77 | The node entries come first, then the mapped roles; the users are the group members |
| MkEksAuth.EksAuth.AssembleDocument | mkeksauth/build/lib/src/mkeksauth.py:78-84 | The document is `AssembledDocument` of the roles and users |
| MkEksAuth.NewEksAuth | mkeksauth/build/lib/src/mkeksauth.py:59-84 | `BadParameter` without a kube context or when the parsed name is not found; otherwise the whole object as `__init__` leaves it |
| MkEksAuth.PairedWith | mkeksauth/build/lib/src/mkeksauth.py:310 | `(group, role)` for each member |
| MkEksAuth.PairedWithSelf | mkeksauth/build/lib/src/mkeksauth.py:317 | `(member, member)` for each member: the loop variable shadows `role` |
| MkEksAuth.Dispatch | mkeksauth/build/lib/src/mkeksauth.py:338-355 | An unknown key is warned about; only `TypeError` escapes; each ingestor changes only its own parameter |
| MkEksAuth.UnknownKeys | mkeksauth/build/lib/src/mkeksauth.py:350-355 | The warned keys have no ingestor |
| MkEksAuth.ItemsRun | mkeksauth/build/lib/src/mkeksauth.py:350-355 | Without an exception, exactly the unknown keys are warned about |
| MkEksAuth.ElementRun | mkeksauth/build/lib/src/mkeksauth.py:346-355 | A value without `pop` is skipped and changes nothing |
| MkEksAuth.ElementsRun | mkeksauth/build/lib/src/mkeksauth.py:345-355 | Only keys without an ingestor are warned about |
| MkEksAuth.ConfigRun | mkeksauth/build/lib/src/mkeksauth.py:337-357 | A configuration that cannot be iterated raises `TypeError` at once |
| MkEksAuth.ItemsRunStops | mkeksauth/build/lib/src/mkeksauth.py:350-355 | After an exception the remaining keys are not looked at |
| MkEksAuth.ElementsRunStops | mkeksauth/build/lib/src/mkeksauth.py:345-355 | After an exception the remaining elements are not looked at |
| MkEksAuth.DispatchKeeps | mkeksauth/build/lib/src/mkeksauth.py:309-333 | One dispatch only appends to the groups and never replaces a set cluster name |
| MkEksAuth.ItemsRunKeeps | mkeksauth/build/lib/src/mkeksauth.py:350-355 | The same holds for one element's keys |
| MkEksAuth.ElementRunKeeps | mkeksauth/build/lib/src/mkeksauth.py:346-355 | The same holds for one element |
| MkEksAuth.ElementsRunKeeps | mkeksauth/build/lib/src/mkeksauth.py:345-355 | The same holds for the whole list |
| MkEksAuth.ConfigRunKeeps | mkeksauth/build/lib/src/mkeksauth.py:308-357 | The configuration only appends to the command-line groups, and a cluster name already set is never replaced |
| MkEksAuth.RolesIgnoreTheirRole | mkeksauth/build/lib/src/mkeksauth.py:316-319 | `iam-roles` replaces the roles with `(member, member)` pairs, whatever the element's `role` |
| MkEksAuth.GroupsAndClusterName | mkeksauth/build/lib/src/mkeksauth.py:309-333 | `iam-groups` appends one `(member, role)` pair per member; an empty cluster name is filled by `cluster-name` |
| MkEksAuth.Params.State | mkeksauth/build/lib/src/mkeksauth.py:309-333 | The parameters `_ingest_json_config` can change |
| MkEksAuth.Params.constructor | mkeksauth/build/lib/src/mkeksauth.py:309-333 | The parameters start as given |
| MkEksAuth.Params.IngestGroups | mkeksauth/build/lib/src/mkeksauth.py:308-312 | `_ingest_groups` does what `Dispatch` says for `iam-groups` |
| MkEksAuth.Params.IngestRoles | mkeksauth/build/lib/src/mkeksauth.py:315-319 | `_ingest_roles` does what `Dispatch` says for `iam-roles` |
| MkEksAuth.Params.IngestClusterName | mkeksauth/build/lib/src/mkeksauth.py:327-333 | `_ingest_cluster_name` does what `Dispatch` says for `cluster-name` |
| MkEksAuth.Params.IngestEntry | mkeksauth/build/lib/src/mkeksauth.py:322-355 | One `perm_type: members` entry does what `Dispatch` says; `_ingest_users` changes nothing |
| MkEksAuth.Params.IngestElement | mkeksauth/build/lib/src/mkeksauth.py:346-355 | One element does what `ElementRun` says |
| MkEksAuth.Params.IngestElements | mkeksauth/build/lib/src/mkeksauth.py:345-355 | The loop does what `ElementsRun` says |
| MkEksAuth.Params.IngestJsonConfig | mkeksauth/build/lib/src/mkeksauth.py:337-357 | `_ingest_json_config` does what `ConfigRun` says |
| YSplit.Pad2 | manifest-bundle-splitter/ysplit/__init__.py:33 | `'%-.2d' % n`: at least two digits, denoting `n`, no padding from 10 on |
| YSplit.KindPrefix | manifest-bundle-splitter/ysplit/__init__.py:33 | The prefix is the padded number followed by `--` |
| YSplit.FileName | manifest-bundle-splitter/ysplit/__init__.py:35 | The name starts with prefix, kind, `--`, metadata name, ends with `.yaml`, and has nothing more |
| YSplit.DocPath | manifest-bundle-splitter/ysplit/__init__.py:36 | The path is the output path, `/`, then exactly the file name |
| YSplit.Manifests | manifest-bundle-splitter/ysplit/__init__.py:27-29 | Only manifests remain, never more than the bundle holds |
| YSplit.ManifestsMembers | manifest-bundle-splitter/ysplit/__init__.py:27-29 | Every manifest of the bundle remains, and nothing else does |
| YSplit.ManifestsAppend | manifest-bundle-splitter/ysplit/__init__.py:27-29 | Dropping falsy documents distributes over concatenation, so manifests keep their bundle order |
| YSplit.KindNumbers | manifest-bundle-splitter/ysplit/__init__.py:24-33 | The `setdefault` dictionary has distinct kinds and holds the latest manifest's kind |
| YSplit.KindNumbersArePositions | manifest-bundle-splitter/ysplit/__init__.py:33 | Each kind's number is its position among the kinds |
| YSplit.KindNumbersHaveKinds | manifest-bundle-splitter/ysplit/__init__.py:33 | A kind is numbered exactly when some manifest has it |
| YSplit.KindNumbersStable | manifest-bundle-splitter/ysplit/__init__.py:33 | Later documents never renumber or reorder a kind |
| YSplit.KindNumbersSnocKeeps | manifest-bundle-splitter/ysplit/__init__.py:33 | One more document keeps every number |
| YSplit.FirstAppearanceNumber | manifest-bundle-splitter/ysplit/__init__.py:33 | A kind's number is the count of distinct kinds seen before its first manifest |
| YSplit.FirstAppearanceStep | manifest-bundle-splitter/ysplit/__init__.py:33 | A new kind gets the next number |
| YSplit.Writes | manifest-bundle-splitter/ysplit/__init__.py:27-42 | One write per manifest |
| YSplit.PathIn | manifest-bundle-splitter/ysplit/__init__.py:36 | The kind is numbered, and the path is the output path, `/`, then the file name for that number |
| YSplit.WritesPerManifest | manifest-bundle-splitter/ysplit/__init__.py:27-42 | The writes follow the manifests in bundle order, each to the path its kind's number gives |
| YSplit.EmptyDocumentsTakeNoNumber | manifest-bundle-splitter/ysplit/__init__.py:28-33 | Empty documents take no kind number |
| YSplit.EmptyDocumentsWriteNothing | manifest-bundle-splitter/ysplit/__init__.py:28-29 | Empty documents cause no write |
| YSplit.WritesSnoc | manifest-bundle-splitter/ysplit/__init__.py:27-42 | One more document adds its write, if any, at the end |
| YSplit.Files | manifest-bundle-splitter/ysplit/__init__.py:41-42 | Every path written holds a file |
| YSplit.LastWriteWins | manifest-bundle-splitter/ysplit/__init__.py:41-42 | A file holds the last manifest written to its path |
| YSplit.SameKindAndNameOverwrite | manifest-bundle-splitter/ysplit/__init__.py:35-42 | Two manifests with the same kind and name go to the same path |
| YSplit.RunStep | manifest-bundle-splitter/ysplit/__init__.py:27-42 | What one loop iteration does to the numbering and the writes |
| YSplit.Run | manifest-bundle-splitter/ysplit/__init__.py:19-42 | The loop makes exactly the writes `Writes` describes |
| PyDict.Keys | env-kube-sps/env_kube_sps/sps.py:35 | `d.keys()` in insertion order |
| PyDict.Find | env-kube-sps/env_kube_sps/sps.py:109 | The first position of a key, or none when the key is absent |
| PyDict.Get | env-kube-sps/env_kube_sps/sps.py:221 | A key has a value exactly when it is present |
| PyDict.GetAt | env-kube-sps/env_kube_sps/sps.py:221 | The value stored with a key is the one found |
| PyDict.Put | env-kube-sps/env_kube_sps/sps.py:25-28 | `d[k] = v`: the key takes the value, keeps its place or is appended, and other keys are unchanged |
| PyDict.Remove | env-kube-sps/env_kube_sps/util.py:191 | `pop` removes the key and leaves the others |
| PyDict.SetDefault | manifest-bundle-splitter/ysplit/__init__.py:33 | `setdefault`: the stored value, after storing the default for a missing key |
| PyDict.PutAll | env-kube-sps/env_kube_sps/sps.py:25-28 | `update` keeps a dictionary's keys distinct |
| PyDict.FromPairs | env-kube-sps/env_kube_sps/util.py:43-47 | A dict comprehension has distinct keys |
| PyDict.ToMap | env-kube-sps/env_kube_sps/util.py:43-47 | The mapping a dictionary denotes when order is ignored |
| PyDict.PutAllGetMentioned | env-kube-sps/env_kube_sps/sps.py:25-28 | After `update`, a key has the value of the last pair naming it |
| PyDict.PutAllGetUnmentioned | env-kube-sps/env_kube_sps/sps.py:25-28 | After `update`, a key no pair names keeps its value |
| PyDict.PutAllHasKey | env-kube-sps/env_kube_sps/sps.py:25-28 | After `update`, the keys are the old ones and the mentioned ones |
| PyDict.PutAllKeepsOrder | env-kube-sps/env_kube_sps/sps.py:25-28 | `update` keeps the old keys in their places at the front |
| PyDict.PutAllDict | env-kube-sps/env_kube_sps/kube.py:14-17 | Updating with a dict: its keys take its values, the others keep theirs |
| Strings.IsSpace | env-kube-sps/env_kube_sps/util.py:29 | The characters `\s` matches in a str pattern; none of them is a printable ASCII character such as `=` |
| Strings.LeadingSpaces | env-kube-sps/env_kube_sps/util.py:29 | `^\s*` takes the leading whitespace |
| Strings.IndexOf | env-kube-sps/env_kube_sps/util.py:29 | The first occurrence of a character, or none |
| Strings.IndexOfAfterPrefix | env-kube-sps/env_kube_sps/util.py:29 | The first `=` after a prefix without one is at the prefix's end |
| Strings.Split | env-kube-sps/env_kube_sps/sps.py:158 | `split` gives at least one part, none containing the separator |
| Strings.Join | env-kube-sps/env_kube_sps/eks.py:125 | `sep.join(parts)`; `Strings.JoinSplit` and `Strings.SplitJoin` prove it inverse to `Strings.Split` |
| Strings.JoinSplit | env-kube-sps/env_kube_sps/sps.py:158 | Joining the parts gives back the text |
| Strings.SplitJoin | env-kube-sps/env_kube_sps/eks.py:125-129 | Splitting joined parts without separators gives back the parts |
| Strings.SplitLastIsSuffix | env-kube-sps/env_kube_sps/eks.py:127 | The last part is a suffix without the separator, preceded by one |
| Strings.LastSegment | env-kube-sps/env_kube_sps/eks.py:127 | `split('/')[-1]` is the text after the last slash |
| Strings.RStrip | env-kube-sps/env_kube_sps/util.py:143 | `rstrip('=')` removes only a trailing run of `=` |
| Strings.RStripRun | env-kube-sps/env_kube_sps/util.py:143 | Stripping the padding off a text that does not end with `=` gives the text |
| Strings.LeadingSpacesCover | env-kube-sps/env_kube_sps/util.py:29 | Leading whitespace covers any whitespace prefix |
| Strings.EqualIgnoringCase | env-kube-sps/env_kube_sps/sps.py:124 | `re.I` on literal text: equal texts match, and matching texts have the same length |
| Strings.AsciiLower | env-kube-sps/env_kube_sps/kube.py:41 | `lower()` character by character, for ASCII letters |
| Strings.DigitChar | manifest-bundle-splitter/ysplit/__init__.py:33 | A digit character |
| Strings.Decimal | manifest-bundle-splitter/ysplit/__init__.py:33 | `str(n)`: digits, no leading zero except for 0 |
| Strings.DecimalRoundTrip | manifest-bundle-splitter/ysplit/__init__.py:33 | The digits denote the number |
| Utf8.EncodeChar | env-kube-sps/env_kube_sps/util.py:142-143 | One to four bytes per character, continuation bytes after the first |
| Utf8.Encode | env-kube-sps/env_kube_sps/util.py:142-143 | One to four bytes per character |
| Utf8.DecodeFirst | env-kube-sps/env_kube_sps/util.py:142-143 | Decoding consumes one to four bytes |
| Utf8.DecodeFirstEncodeChar | env-kube-sps/env_kube_sps/util.py:142-143 | The first character decodes back from its encoding |
| Utf8.DecodeEncode | env-kube-sps/env_kube_sps/util.py:142-143 | Decoding the UTF-8 of a text gives back the text |
| Base64.UrlSafeChar | env-kube-sps/env_kube_sps/util.py:142-143 | Each sextet's character of the URL-safe alphabet decodes back to it |
| Base64.Block | env-kube-sps/env_kube_sps/util.py:142-143 | Three octets give four alphabet characters |
| Base64.Tail | env-kube-sps/env_kube_sps/util.py:142-143 | One or two final octets give two or three alphabet characters |
| Base64.Unpadded | env-kube-sps/env_kube_sps/util.py:142-143 | The encoding without padding uses only the alphabet, and its length is never 1 modulo 4 |
| Base64.Encode | env-kube-sps/env_kube_sps/util.py:142-143 | `urlsafe_b64encode`: a multiple of four characters |
| Base64.Repad | env-kube-sps/env_kube_sps/util.py:142-143 | Restoring padding gives a multiple of four characters |
| Base64.DecodeBlockOfBlock | env-kube-sps/env_kube_sps/util.py:142-143 | A full group decodes back to its three octets |
| Base64.DecodeEncodeOne | env-kube-sps/env_kube_sps/util.py:142-143 | One octet round-trips through `xx==` |
| Base64.DecodeEncodeTwo | env-kube-sps/env_kube_sps/util.py:142-143 | Two octets round-trip through `xxx=` |
| Base64.DecodeEncodeThree | env-kube-sps/env_kube_sps/util.py:142-143 | Three octets round-trip through one group |
| Base64.DecodeEncodeGroup | env-kube-sps/env_kube_sps/util.py:142-143 | A group in front decodes ahead of the rest |
| Base64.DecodeEncode | env-kube-sps/env_kube_sps/util.py:142-143 | Decoding the encoding gives back the octets |
| Base64.EncodeIsPadded | env-kube-sps/env_kube_sps/util.py:142-143 | The padded encoding is the unpadded one followed only by `=` |
| Base64.RepadUnpadded | env-kube-sps/env_kube_sps/util.py:142-143 | Stripping the padding and restoring it gives back the padded encoding |

## Left out

- The SDK calls themselves (boto3 SSM, KMS, EKS, STS, IAM, EC2; Kubernetes CoreV1, RBAC, AuthorizationV1). They are replaced by inputs (pages, alias lists, listings, descriptions, review oracles, group and role listings) and by recorded requests.
- The `label_parameter_version` retry loop with `time.sleep` after each `put_parameter` is polling against the service. `Sps.Sync` stops at the request.
- `parameter_history` and its pagination (`sps.py:38-60`) are a function argument `history` in `Sps.ParametersByLabel` and `Eks.Sync`. `parameter_labels_list` is not modelled either.
- `get_expiration_time`, `get_eks_token`, `STSClientFactory.get_sts_client` and `_get_role_credentials` depend on the clock and on credentials. `whoami` is an SDK call.
- `_get_presigned_url` is an SDK call. Its URL is the `url` argument of `Util.Token` and the `presignedUrl` argument of `Eks.Kubeconfig`.
- YAML and JSON parsing and rendering are not modelled: `yaml.load_all`/`dump`, `_yaml_out`, `_yaml_str_format`, `json.loads`, and the standard-input selector of mkeksauth. `MkEksAuth.DataValue` keeps the entry lists that would be rendered, and a `MkEksAuth.Json` value stands for what `json.loads` returns.
- The click wiring is not modelled: option parsing, `emit_error` and `click.secho` messages and colours, the `list_sps` command of `main.py`, the mkeksauth listing commands, and the `EksAuth.render`/`apply` calls.
- The `account`, `region` and `kube_rbac_*` properties and `_extract_kube_*` of `EksAuth` are SDK calls and not modelled.
- `EksAuth` keeps `users`, `roles` and `_valid` as class attributes shared by all instances. The model gives each instance its own fields, so sharing across instances is not modelled.
- The `context`, `user`, `verbose`, `output_file` and `apply` arguments of `EksAuth.__init__` are not modelled. The only context effect is whether a client configuration exists (`hasKubeContext`).
- `MkEksAuth.EksAuth.LoadNodeRole`: Python's iteration order over the node-role set is not fixed by the model. `MkEksAuth.Enumerate` promises only that each ARN is visited once.
- ysplit's `os.path.abspath(output_path)` is the `filePath` argument. The `--verbose` echo and the file writing become the recorded writes.
- ysplit documents are either empty or have a string `kind` and `metadata.name`. A document without them (`KeyError`), other falsy values, and non-string kinds are not modelled.
- The purge pattern supplied by the user is an abstract predicate on what follows the prefix. Regex metacharacters inside the environment or component names are not modelled: the prefix is compared literally, ignoring ASCII case only.
- `Strings.AsciiLower`: `kind.lower()` and `re.I` are modelled for ASCII letters only, without Unicode case mapping.
- `MkEksAuth.DigitRun`: `\d` is modelled as the ASCII digits, though Python's `str` patterns also accept other Unicode decimal digits.
- `Sps.ParametersList`: the pages are a finite input that must contain a page without `NextToken`, so the model does not cover a service that paginates forever.
- `Util.HeadersWithClusterName`: header names are compared case-sensitively. botocore's request headers are case-insensitive, so an existing `X-K8s-Aws-Id` is replaced in the source but kept beside the new header in the model.
- `Sps.CheckParameter`: a `ClientError` other than `ParameterNotFound` propagates in the source. The model does not include it.
- `Sps.Purge`: only the `ClientError` of `delete_parameters` is modelled. The listing is assumed to succeed.
- JSON numbers are not given a floating-point value, and duplicate object keys cannot occur, because a `MkEksAuth.Json` object is a dictionary.
- `MkEksAuth.EksAuth.LoadNodeRole`: an instance with no instance profile would raise in the source. The model gives each instance a profile ARN.

## Findings

| source | as written | input that shows it | evidently intended | confidence | as-written member | corrected member |
|---|---|---|---|---|---|---|
| env-kube-sps/env_kube_sps/sps.py:291-296 | the too-long-label branch calls `emit_error(..., color=-"yellow")`; unary minus on a `str` raises `TypeError` before `return False` | `--input-file` given and `--with-label candidate` (nine characters) | report the problem and return False, so that `sync_to_sps` does not proceed | high (not executed) | Sps.PreflightAsWritten, Sps.PreflightLongLabelRaises | Sps.PreflightCorrected, Sps.Preflight |
