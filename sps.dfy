/**
 * The parameter-store logic of `env_kube_sps/sps.py`: the name-keyed parameter cache
 * filled from paged listings, the ingestion of `K=V` variables, the per-variable
 * create / overwrite / skip plan of `sync`, label filtering of parameter versions, the
 * purge selection and its batches, and argument validation.
 */
module Sps {
  import opened Wrappers
  import opened Strings
  import opened PyDict
  import opened Context
  import Util
  import Kms

  // ---------------------------------------------------------------------------
  // parameters_list
  // ---------------------------------------------------------------------------

  /** One answer of `get_parameters_by_path`. */
  datatype Page = Page(parameters: seq<Parameter>, nextToken: Option<string>)

  /** `res.get('NextToken', None)` is truthy. */
  predicate HasMore(p: Page) {
    p.nextToken.Some? && p.nextToken.value != ""
  }

  /** A `get_parameters_by_path` call; `WithDecryption` and `Recursive` are always set. */
  datatype PathRequest = PathRequest(path: string, nextToken: Option<string>)

  /** `{param['Name']: param for param in page['Parameters']}`. */
  function PageDict(p: Page): (d: Dict<Parameter>)
    ensures DistinctKeys(d)
  {
    FromPairs(seq(|p.parameters|, i requires 0 <= i < |p.parameters| => (p.parameters[i].name, p.parameters[i])))
  }

  /** A page's dictionary holds, for each name on the page, the last parameter of that name. */
  lemma PageDictGet(p: Page, i: nat)
    requires i < |p.parameters|
    requires forall j :: i < j < |p.parameters| ==> p.parameters[j].name != p.parameters[i].name
    ensures Get(PageDict(p), p.parameters[i].name) == Some(p.parameters[i])
  {
    var pairs := seq(|p.parameters|, i requires 0 <= i < |p.parameters| => (p.parameters[i].name, p.parameters[i]));
    PutAllGetMentioned([], pairs, i);
  }

  /** A name that is not on the page is not in its dictionary. */
  lemma PageDictMissing(p: Page, name: string)
    requires forall j :: 0 <= j < |p.parameters| ==> p.parameters[j].name != name
    ensures name !in Keys(PageDict(p))
  {
    var pairs := seq(|p.parameters|, i requires 0 <= i < |p.parameters| => (p.parameters[i].name, p.parameters[i]));
    PutAllGetUnmentioned([], pairs, name);
  }

  /** The cache after `parameters.update(...)` for each page in turn. */
  function MergePages(d: Dict<Parameter>, pages: seq<Page>): (r: Dict<Parameter>)
    ensures DistinctKeys(d) ==> DistinctKeys(r)
    decreases |pages|
  {
    if |pages| == 0 then d
    else PutAll(MergePages(d, pages[..|pages| - 1]), PageDict(pages[|pages| - 1]))
  }

  /** A name takes its entry from the last page that lists it: later pages overwrite earlier ones. */
  lemma {:induction false} MergePagesLastWins(d: Dict<Parameter>, pages: seq<Page>, j: nat, name: string)
    requires j < |pages| && name in Keys(PageDict(pages[j]))
    requires forall j' :: j < j' < |pages| ==> name !in Keys(PageDict(pages[j']))
    ensures Get(MergePages(d, pages), name) == Get(PageDict(pages[j]), name)
    decreases |pages|
  {
    var init := pages[..|pages| - 1];
    PutAllDict(MergePages(d, init), PageDict(pages[|pages| - 1]), name);
    if j < |pages| - 1 {
      forall j' | j < j' < |init| ensures name !in Keys(PageDict(init[j'])) {
        assert init[j'] == pages[j'];
      }
      assert init[j] == pages[j];
      MergePagesLastWins(d, init, j, name);
    }
  }

  /** A name no page lists keeps its cached entry, or stays absent. */
  lemma {:induction false} MergePagesUnlisted(d: Dict<Parameter>, pages: seq<Page>, name: string)
    requires forall j :: 0 <= j < |pages| ==> name !in Keys(PageDict(pages[j]))
    ensures Get(MergePages(d, pages), name) == Get(d, name)
    decreases |pages|
  {
    if |pages| > 0 {
      var init := pages[..|pages| - 1];
      PutAllDict(MergePages(d, init), PageDict(pages[|pages| - 1]), name);
      forall j | 0 <= j < |init| ensures name !in Keys(PageDict(init[j])) {
        assert init[j] == pages[j];
      }
      MergePagesUnlisted(d, init, name);
    }
  }

  /** Merging pages keeps the names already cached at the front, in their order. */
  lemma {:induction false} MergePagesKeepsOrder(d: Dict<Parameter>, pages: seq<Page>)
    ensures StartsWithSeq(Keys(MergePages(d, pages)), Keys(d))
    decreases |pages|
  {
    if |pages| > 0 {
      var init := pages[..|pages| - 1];
      MergePagesKeepsOrder(d, init);
      var mid := MergePages(d, init);
      PutAllKeepsOrder(mid, PageDict(pages[|pages| - 1]));
      var after := Keys(MergePages(d, pages));
      assert after[..|Keys(d)|] == after[..|Keys(mid)|][..|Keys(d)|];
    }
  }

  lemma MergePagesSnoc(d: Dict<Parameter>, pages: seq<Page>, i: nat)
    requires i < |pages|
    ensures MergePages(d, pages[..i + 1]) == PutAll(MergePages(d, pages[..i]), PageDict(pages[i]))
  {
    assert pages[..i + 1][..i] == pages[..i];
  }

  lemma RequestsSnoc(path: string, pages: seq<Page>, i: nat, token: Option<string>)
    requires i < |pages|
    requires token == if i == 0 then None else pages[i - 1].nextToken
    ensures Requests(path, pages[..i + 1]) == Requests(path, pages[..i]) + [PathRequest(path, token)]
  {
  }

  /** The number of pages the `while True` loop reads: up to and including the first one without a token. */
  function PagesRead(pages: seq<Page>): (n: nat)
    requires exists i :: 0 <= i < |pages| && !HasMore(pages[i])
    ensures 0 < n <= |pages|
    ensures !HasMore(pages[n - 1])
    ensures forall j :: 0 <= j < n - 1 ==> HasMore(pages[j])
    decreases |pages|
  {
    if !HasMore(pages[0]) then 1
    else
      var i :| 0 <= i < |pages| && !HasMore(pages[i]);
      assert !HasMore(pages[1..][i - 1]);
      var n := 1 + PagesRead(pages[1..]);
      assert forall j :: 1 <= j < n - 1 ==> pages[j] == pages[1..][j - 1];
      n
  }

  /** Page `i` is read and carries a token exactly when another page is read after it. */
  lemma NextPageRead(pages: seq<Page>, i: nat)
    requires (exists i :: 0 <= i < |pages| && !HasMore(pages[i]))
    requires i < PagesRead(pages)
    ensures HasMore(pages[i]) <==> i + 1 < PagesRead(pages)
  {
  }

  /** The calls made while reading `pages`: the first without a token, each later one with the previous page's token. */
  function Requests(path: string, pages: seq<Page>): (rs: seq<PathRequest>)
    ensures |rs| == |pages|
    ensures |rs| > 0 ==> rs[0] == PathRequest(path, None)
    ensures forall j :: 0 < j < |rs| ==> rs[j] == PathRequest(path, pages[j - 1].nextToken)
  {
    seq(|pages|, j requires 0 <= j < |pages| => PathRequest(path, if j == 0 then None else pages[j - 1].nextToken))
  }

  /** `[el for el in names if el.startswith('/')]`. */
  function SlashNames(names: seq<string>): (r: seq<string>)
    ensures forall x :: x in r <==> x in names && StartsWith(x, "/")
    ensures |r| <= |names|
    decreases |names|
  {
    if |names| == 0 then []
    else (if StartsWith(names[0], "/") then [names[0]] else []) + SlashNames(names[1..])
  }

  /**
   * `parameters_list(param_path, refresh)`. The listing is read only when `refresh` is set or
   * the cache is empty; `pages` are the answers the service would give, in order. The result
   * is every cached name that starts with `/`, whatever `param_path` was.
   */
  method ParametersList(ctx: Ctx, paramPath: string, refresh: bool, pages: seq<Page>)
    returns (names: seq<string>, requests: seq<PathRequest>)
    requires exists i :: 0 <= i < |pages| && !HasMore(pages[i])
    modifies ctx`parameters
    ensures var n := if refresh || |old(ctx.parameters)| == 0 then PagesRead(pages) else 0;
      && ctx.parameters == MergePages(old(ctx.parameters), pages[..n])
      && requests == Requests(paramPath, pages[..n])
    ensures names == SlashNames(Keys(ctx.parameters))
  {
    requests := [];
    if refresh || |ctx.parameters| == 0 {
      requests := ReadPages(ctx, paramPath, pages);
    } else {
      assert pages[..0] == [];
    }
    names := SlashNames(Keys(ctx.parameters));
  }

  /** The `while True` loop of `parameters_list`: one call per page, until a page has no `NextToken`. */
  method ReadPages(ctx: Ctx, paramPath: string, pages: seq<Page>) returns (requests: seq<PathRequest>)
    requires exists i :: 0 <= i < |pages| && !HasMore(pages[i])
    modifies ctx`parameters
    ensures ctx.parameters == MergePages(old(ctx.parameters), pages[..PagesRead(pages)])
    ensures requests == Requests(paramPath, pages[..PagesRead(pages)])
  {
    requests := [];
    var start := ctx.parameters;
    var parameters := start;
    ghost var n := PagesRead(pages);
    var token: Option<string> := None;
    var i := 0;
    while true
      invariant 0 <= i < n
      invariant parameters == MergePages(start, pages[..i])
      invariant requests == Requests(paramPath, pages[..i])
      invariant token == if i == 0 then None else pages[i - 1].nextToken
      decreases n - i
    {
      RequestsSnoc(paramPath, pages, i, token);
      requests := requests + [PathRequest(paramPath, token)];
      var res := pages[i];
      MergePagesSnoc(start, pages, i);
      parameters := PutAll(parameters, PageDict(res));
      NextPageRead(pages, i);
      if HasMore(res) {
        token := res.nextToken;
        i := i + 1;
      } else {
        break;
      }
    }
    ctx.parameters := parameters;
  }

  // ---------------------------------------------------------------------------
  // check_parameter
  // ---------------------------------------------------------------------------

  /** What a path denotes: its cached entry, or else what the service holds (`None`: `ParameterNotFound`). */
  function Lookup(cache: Dict<Parameter>, store: string -> Option<Parameter>, path: string): (r: Option<Parameter>)
    ensures path in Keys(cache) ==> r.Some?
  {
    if path in Keys(cache) then Get(cache, path) else store(path)
  }

  /**
   * `check_parameter(param_path)`: a cached path is present without a fetch; otherwise the
   * service is asked and a found parameter is cached under the path.
   */
  method CheckParameter(ctx: Ctx, paramPath: string, store: string -> Option<Parameter>)
    returns (present: bool, fetched: bool)
    modifies ctx`parameters
    ensures fetched <==> paramPath !in Keys(old(ctx.parameters))
    ensures present <==> Lookup(old(ctx.parameters), store, paramPath).Some?
    ensures ctx.parameters ==
      if fetched && present then Put(old(ctx.parameters), paramPath, store(paramPath).value)
      else old(ctx.parameters)
    ensures present ==> Get(ctx.parameters, paramPath) == Lookup(old(ctx.parameters), store, paramPath)
    ensures forall p :: Lookup(ctx.parameters, store, p) == Lookup(old(ctx.parameters), store, p)
  {
    fetched := false;
    if paramPath !in Keys(ctx.parameters) {
      fetched := true;
      var res := store(paramPath);
      if res.None? {
        return false, fetched;
      }
      ctx.parameters := Put(ctx.parameters, paramPath, res.value);
    }
    present := true;
  }

  // ---------------------------------------------------------------------------
  // ingest
  // ---------------------------------------------------------------------------

  /** Variables the shell sets by itself, dropped from an input file. */
  const AUTO_VARS: seq<string> := ["LANG", "LOGNAME", "HOME", "PATH", "TZ", "USER", "SHELL"]

  /**
   * The variables of an input file's lines. The guard `el and KEY_VALUE_REX.search(el)`
   * admits exactly the lines that have a match, which are the only ones `findall` yields
   * a pair for, so it adds nothing beyond the match itself.
   */
  function FileVariables(lines: seq<string>): (d: Dict<string>)
    ensures DistinctKeys(d)
    ensures forall i :: 0 <= i < |d| ==> d[i].0 !in AUTO_VARS
  {
    Util.CollectPairs(lines, AUTO_VARS)
  }

  /** An empty line, or one without a match, adds no variable. */
  lemma FileVariablesSkip(lines: seq<string>, line: string)
    requires line == "" || Util.ParseKeyValue(line).None?
    ensures FileVariables(lines + [line]) == FileVariables(lines)
  {
    assert (lines + [line])[..|lines|] == lines;
  }

  /** Variables given with `--set-key` are not filtered: an auto variable is kept there. */
  lemma SetKeyKeepsAutoVars(setKey: seq<string>, i: nat)
    requires i < |setKey| && Util.ParseKeyValue(setKey[i]).Some?
    ensures Util.ParseKeyValue(setKey[i]).value.0 in Keys(Util.CollectPairs(setKey, []))
  {
    Util.CollectPairsKeyFrom(setKey, [], i, Util.ParseKeyValue(setKey[i]).value.0);
  }

  /**
   * `ingest()`: with an input file, its text split at line feeds becomes `raw` and the
   * variables are read from those lines, auto variables dropped; otherwise `raw` is empty and
   * the variables come from the `--set-key` options.
   */
  method Ingest(ctx: Ctx, inputFile: Option<string>, setKey: seq<string>)
    modifies ctx`raw, ctx`envVariables
    ensures inputFile.Some? ==> ctx.raw == Split(inputFile.value, '\n') && ctx.envVariables == FileVariables(ctx.raw)
    ensures inputFile.None? ==> ctx.raw == [] && ctx.envVariables == Util.CollectPairs(setKey, [])
  {
    if inputFile.Some? {
      ctx.raw := Split(inputFile.value, '\n');
      ctx.envVariables := FileVariables(ctx.raw);
    } else {
      ctx.raw := [];
      ctx.envVariables := Util.CollectPairs(setKey, []);
    }
  }

  // ---------------------------------------------------------------------------
  // sync: the decision and the request for each variable
  // ---------------------------------------------------------------------------

  /** The `Type` of a `put_parameter` call, with the `KeyId` that goes with a secure string. */
  datatype ParamType = StringType | SecureString(keyId: string)

  /**
   * The arguments of one `put_parameter` call: `Overwrite=True` is present exactly when
   * `overwrite` holds, `Tags` exactly when `tags` is given, `Tier='Advanced'` exactly when
   * `advancedTier` holds.
   */
  datatype PutRequest = PutRequest(
    name: string, value: string, overwrite: bool, tags: Option<seq<Util.Tag>>,
    paramType: ParamType, advancedTier: bool)

  /** What `sync` reads from its context: the path prefix, the flags, the KMS key id, and the tag values. */
  datatype SyncSettings = SyncSettings(
    prefix: string, update: bool, isSecret: bool, keyid: string, component: string, environment: string)

  const MAX_STANDARD_VALUE: nat := 4096

  /** `'{}/{}'.format(path_prefix, K)`. */
  function ParamPath(prefix: string, k: string): (p: string)
    ensures StartsWith(p, prefix + "/")
  {
    prefix + "/" + k
  }

  /** `dict2tags({'Name': K, 'component': ..., 'environment': ..., 'Managed-By': 'env-kube-sps'})`. */
  function SyncTags(k: string, component: string, environment: string): (tags: seq<Util.Tag>)
    ensures |tags| == 4
    ensures tags[0] == Util.Tag("Name", k) && tags[1] == Util.Tag("component", component)
    ensures tags[2] == Util.Tag("environment", environment) && tags[3] == Util.Tag("Managed-By", "env-kube-sps")
  {
    Util.Dict2Tags([("Name", k), ("component", component), ("environment", environment), ("Managed-By", "env-kube-sps")])
  }

  /**
   * The requests one variable leads to, given what its path denotes. An existing parameter
   * is skipped without `--update`, or when its value is unchanged, and is otherwise
   * overwritten without tags; a missing one is created with tags.
   */
  function VariableRequests(s: SyncSettings, k: string, v: string, existing: Option<Parameter>): (rs: seq<PutRequest>)
    ensures |rs| <= 1
    ensures |rs| == 0 <==> existing.Some? && (!s.update || v == existing.value.value)
    ensures |rs| == 1 ==>
      && rs[0].name == ParamPath(s.prefix, k) && rs[0].value == v
      && rs[0].overwrite == existing.Some? && rs[0].tags.Some? == existing.None?
      && (rs[0].tags.Some? ==> rs[0].tags.value == SyncTags(k, s.component, s.environment))
      && rs[0].paramType == (if s.isSecret then SecureString(s.keyid) else StringType)
      && (rs[0].advancedTier <==> |v| > MAX_STANDARD_VALUE)
  {
    if existing.Some? && (!s.update || v == existing.value.value) then []
    else
      [PutRequest(
        ParamPath(s.prefix, k), v, existing.Some?,
        if existing.Some? then None else Some(SyncTags(k, s.component, s.environment)),
        if s.isSecret then SecureString(s.keyid) else StringType,
        |v| > MAX_STANDARD_VALUE)]
  }

  /** The requests of a whole `sync`, in variable order; each path is looked up in the cache as it was on entry. */
  function SyncPlan(vars: Dict<string>, s: SyncSettings, cache: Dict<Parameter>, store: string -> Option<Parameter>): seq<PutRequest>
    decreases |vars|
  {
    if |vars| == 0 then []
    else
      var (k, v) := vars[|vars| - 1];
      SyncPlan(vars[..|vars| - 1], s, cache, store) + VariableRequests(s, k, v, Lookup(cache, store, ParamPath(s.prefix, k)))
  }

  /** A request is of the shape `sync` ever sends with these settings. */
  predicate WellFormed(r: PutRequest, s: SyncSettings) {
    && StartsWith(r.name, s.prefix + "/")
    && r.overwrite != r.tags.Some?
    && r.paramType == (if s.isSecret then SecureString(s.keyid) else StringType)
    && (r.advancedTier <==> |r.value| > MAX_STANDARD_VALUE)
  }

  /** Every request of a plan has a path under the prefix, exactly one of overwrite and tags, and the configured type and tier. */
  lemma {:induction false} SyncPlanWellFormed(vars: Dict<string>, s: SyncSettings, cache: Dict<Parameter>, store: string -> Option<Parameter>)
    ensures forall i :: 0 <= i < |SyncPlan(vars, s, cache, store)| ==> WellFormed(SyncPlan(vars, s, cache, store)[i], s)
    decreases |vars|
  {
    if |vars| > 0 {
      SyncPlanWellFormed(vars[..|vars| - 1], s, cache, store);
    }
  }

  /** A plan has one request per variable that is not skipped. */
  lemma {:induction false} SyncPlanLength(vars: Dict<string>, s: SyncSettings, cache: Dict<Parameter>, store: string -> Option<Parameter>)
    ensures |SyncPlan(vars, s, cache, store)| <= |vars|
    ensures s.update && (forall i :: 0 <= i < |vars| ==> Lookup(cache, store, ParamPath(s.prefix, vars[i].0)).None?)
      ==> |SyncPlan(vars, s, cache, store)| == |vars|
    decreases |vars|
  {
    if |vars| > 0 {
      var init := vars[..|vars| - 1];
      forall i | 0 <= i < |init| ensures init[i] == vars[i] { }
      SyncPlanLength(init, s, cache, store);
    }
  }

  lemma SyncPlanSnoc(vars: Dict<string>, i: nat, s: SyncSettings, cache: Dict<Parameter>, store: string -> Option<Parameter>)
    requires i < |vars|
    ensures SyncPlan(vars[..i + 1], s, cache, store) ==
      SyncPlan(vars[..i], s, cache, store) + VariableRequests(s, vars[i].0, vars[i].1, Lookup(cache, store, ParamPath(s.prefix, vars[i].0)))
  {
    assert vars[..i + 1][..i] == vars[..i];
  }

  /** The body of the `sync` loop for one variable: check the path, then build the request unless it is skipped. */
  method SyncVariable(ctx: Ctx, s: SyncSettings, k: string, v: string, store: string -> Option<Parameter>)
    returns (step: seq<PutRequest>)
    modifies ctx`parameters
    ensures step == VariableRequests(s, k, v, Lookup(old(ctx.parameters), store, ParamPath(s.prefix, k)))
    ensures forall p :: Lookup(ctx.parameters, store, p) == Lookup(old(ctx.parameters), store, p)
  {
    var paramPath := ParamPath(s.prefix, k);
    var present, _ := CheckParameter(ctx, paramPath, store);
    step := [];
    if present {
      var cached := Get(ctx.parameters, paramPath).value;
      if s.update && v != cached.value {
        step := [PutRequest(paramPath, v, true, None,
          if s.isSecret then SecureString(s.keyid) else StringType, |v| > MAX_STANDARD_VALUE)];
      }
    } else {
      var tags := SyncTags(k, s.component, s.environment);
      step := [PutRequest(paramPath, v, false, Some(tags),
        if s.isSecret then SecureString(s.keyid) else StringType, |v| > MAX_STANDARD_VALUE)];
    }
  }

  /**
   * `sync()`: for each ingested variable in order, `check_parameter` on its path, then
   * either skip it or send the request built for it. The requests are the plan computed
   * from the cache on entry; the cache only gains parameters found in the service.
   */
  method Sync(ctx: Ctx, update: bool, isSecret: bool, store: string -> Option<Parameter>)
    returns (requests: seq<PutRequest>)
    modifies ctx`parameters
    ensures requests == SyncPlan(ctx.envVariables,
      SyncSettings(ctx.spsPrefix, update, isSecret, ctx.keyid, ctx.component, ctx.environment),
      old(ctx.parameters), store)
    ensures forall p :: Lookup(ctx.parameters, store, p) == Lookup(old(ctx.parameters), store, p)
  {
    var s := SyncSettings(ctx.spsPrefix, update, isSecret, ctx.keyid, ctx.component, ctx.environment);
    ghost var cache := ctx.parameters;
    var vars := ctx.envVariables;
    requests := [];
    var i := 0;
    while i < |vars|
      invariant 0 <= i <= |vars|
      invariant requests == SyncPlan(vars[..i], s, cache, store)
      invariant forall p :: Lookup(ctx.parameters, store, p) == Lookup(cache, store, p)
    {
      var (k, v) := vars[i];
      SyncPlanSnoc(vars, i, s, cache, store);
      var step := SyncVariable(ctx, s, k, v, store);
      requests := requests + step;
      i := i + 1;
    }
    assert vars[..i] == vars;
  }

  // ---------------------------------------------------------------------------
  // parameters_by_label
  // ---------------------------------------------------------------------------

  /** How many of the requested labels a version carries, counting repeats in the request. */
  function CarriedCount(labels: seq<string>, carried: seq<string>): nat
    decreases |labels|
  {
    if |labels| == 0 then 0 else (if labels[0] in carried then 1 else 0) + CarriedCount(labels[1..], carried)
  }

  /** `[pver for l in labels if l in pver['Labels']]`: the version once for each requested label it carries. */
  function LabelHits(pver: ParameterVersion, labels: seq<string>): (hits: seq<ParameterVersion>)
    ensures |hits| == CarriedCount(labels, pver.labels)
    ensures forall i :: 0 <= i < |hits| ==> hits[i] == pver
    ensures |hits| > 0 <==> exists l :: l in labels && l in pver.labels
    decreases |labels|
  {
    if |labels| == 0 then []
    else
      var rest := LabelHits(pver, labels[1..]);
      assert forall l :: l in labels[1..] ==> l in labels;
      assert forall l :: l in labels ==> l == labels[0] || l in labels[1..];
      (if labels[0] in pver.labels then [pver] else []) + rest
  }

  /** Version `x` carries at least one of the requested labels. */
  predicate Wanted(x: ParameterVersion, labels: seq<string>) {
    exists l :: l in labels && l in x.labels
  }

  /** The label filter over one parameter's history, in version order. */
  function VersionsWithLabels(versions: seq<ParameterVersion>, labels: seq<string>): (r: seq<ParameterVersion>)
    ensures forall x :: x in r <==> x in versions && Wanted(x, labels)
    decreases |versions|
  {
    if |versions| == 0 then []
    else
      var hits := LabelHits(versions[0], labels);
      var rest := VersionsWithLabels(versions[1..], labels);
      assert forall x :: x in versions <==> x == versions[0] || x in versions[1..];
      assert |hits| > 0 ==> hits[0] == versions[0];
      hits + rest
  }

  /** The whole comprehension: by parameter in listing order, then version, then requested label. */
  function VersionsByLabel(names: seq<string>, history: string -> seq<ParameterVersion>, labels: seq<string>)
    : (r: seq<ParameterVersion>)
    ensures forall x :: x in r <==> exists p :: p in names && x in VersionsWithLabels(history(p), labels)
    decreases |names|
  {
    if |names| == 0 then []
    else
      var first := VersionsWithLabels(history(names[0]), labels);
      var rest := VersionsByLabel(names[1..], history, labels);
      assert forall p :: p in names <==> p == names[0] || p in names[1..];
      first + rest
  }

  /** The number of entries the label filter makes for a history: each version's carried requested labels. */
  function HitCount(versions: seq<ParameterVersion>, labels: seq<string>): nat
    decreases |versions|
  {
    if |versions| == 0 then 0 else CarriedCount(labels, versions[0].labels) + HitCount(versions[1..], labels)
  }

  /** Filtering a history split in two: the earlier versions' entries come first. */
  lemma {:induction false} VersionsWithLabelsAppend(v1: seq<ParameterVersion>, v2: seq<ParameterVersion>, labels: seq<string>)
    ensures VersionsWithLabels(v1 + v2, labels) == VersionsWithLabels(v1, labels) + VersionsWithLabels(v2, labels)
    decreases |v1|
  {
    if |v1| == 0 {
      assert v1 + v2 == v2;
    } else {
      var v := v1 + v2;
      assert v[0] == v1[0] && v[1..] == v1[1..] + v2;
      var hits := LabelHits(v1[0], labels);
      calc {
        VersionsWithLabels(v, labels);
        hits + VersionsWithLabels(v1[1..] + v2, labels);
        { VersionsWithLabelsAppend(v1[1..], v2, labels); }
        hits + (VersionsWithLabels(v1[1..], labels) + VersionsWithLabels(v2, labels));
        (hits + VersionsWithLabels(v1[1..], labels)) + VersionsWithLabels(v2, labels);
      }
    }
  }

  /** A one-version history gives that version once per requested label it carries. */
  lemma VersionsWithLabelsSingle(v: ParameterVersion, labels: seq<string>)
    ensures VersionsWithLabels([v], labels) == LabelHits(v, labels)
  {
    assert [v][1..] == [];
  }

  /** The filter makes exactly `HitCount` entries: one per version and carried requested label. */
  lemma {:induction false} VersionsWithLabelsCount(versions: seq<ParameterVersion>, labels: seq<string>)
    ensures |VersionsWithLabels(versions, labels)| == HitCount(versions, labels)
    decreases |versions|
  {
    if |versions| > 0 {
      VersionsWithLabelsCount(versions[1..], labels);
    }
  }

  /** Parameters split in two: the earlier parameters' versions come first. */
  lemma {:induction false} VersionsByLabelAppend(n1: seq<string>, n2: seq<string>,
                                               history: string -> seq<ParameterVersion>, labels: seq<string>)
    ensures VersionsByLabel(n1 + n2, history, labels) == VersionsByLabel(n1, history, labels) + VersionsByLabel(n2, history, labels)
    decreases |n1|
  {
    if |n1| == 0 {
      assert n1 + n2 == n2;
    } else {
      var n := n1 + n2;
      assert n[0] == n1[0] && n[1..] == n1[1..] + n2;
      var first := VersionsWithLabels(history(n1[0]), labels);
      calc {
        VersionsByLabel(n, history, labels);
        first + VersionsByLabel(n1[1..] + n2, history, labels);
        { VersionsByLabelAppend(n1[1..], n2, history, labels); }
        first + (VersionsByLabel(n1[1..], history, labels) + VersionsByLabel(n2, history, labels));
        (first + VersionsByLabel(n1[1..], history, labels)) + VersionsByLabel(n2, history, labels);
      }
    }
  }

  /** One parameter contributes its own filtered history. */
  lemma VersionsByLabelSingle(p: string, history: string -> seq<ParameterVersion>, labels: seq<string>)
    ensures VersionsByLabel([p], history, labels) == VersionsWithLabels(history(p), labels)
  {
    assert [p][1..] == [];
  }

  /**
   * `parameters_by_label(labels, refresh)`: list the parameters under the context's prefix,
   * then keep each version of each listed parameter once per requested label it carries.
   * `history` is what `parameter_history` gives for a name.
   */
  method ParametersByLabel(ctx: Ctx, labels: seq<string>, refresh: bool, pages: seq<Page>,
                           history: string -> seq<ParameterVersion>)
    returns (r: seq<ParameterVersion>)
    requires exists i :: 0 <= i < |pages| && !HasMore(pages[i])
    modifies ctx`parameters
    ensures var n := if refresh || |old(ctx.parameters)| == 0 then PagesRead(pages) else 0;
      ctx.parameters == MergePages(old(ctx.parameters), pages[..n])
    ensures r == VersionsByLabel(SlashNames(Keys(ctx.parameters)), history, labels)
  {
    var names, _ := ParametersList(ctx, ctx.spsPrefix, refresh, pages);
    r := VersionsByLabel(names, history, labels);
  }

  // ---------------------------------------------------------------------------
  // purge
  // ---------------------------------------------------------------------------

  const PURGE_BATCH: nat := 10

  /**
   * `rex.search(name)` for `^{prefix}/({pattern})` under `re.I`: the name starts with the prefix
   * and a slash, ignoring case, and the user's pattern matches at the start of what follows.
   */
  predicate PurgeMatch(name: string, prefix: string, pattern: string -> bool) {
    && |name| >= |prefix| + 1
    && EqualIgnoringCase(name[..|prefix| + 1], prefix + "/")
    && pattern(name[|prefix| + 1..])
  }

  /** `[el for el in names if rex.search(el)]`. */
  function PurgeSelection(names: seq<string>, prefix: string, pattern: string -> bool): (sel: seq<string>)
    ensures forall x :: x in sel <==> x in names && PurgeMatch(x, prefix, pattern)
    ensures |sel| <= |names|
    decreases |names|
  {
    if |names| == 0 then []
    else (if PurgeMatch(names[0], prefix, pattern) then [names[0]] else []) + PurgeSelection(names[1..], prefix, pattern)
  }

  /** The delete batches hold only selected cached names, at most ten each, and together all of them in order. */
  lemma PurgeBatches(names: seq<string>, prefix: string, pattern: string -> bool)
    ensures var sel := PurgeSelection(names, prefix, pattern);
      var batches := Util.Chunks(sel, PURGE_BATCH);
      && Util.Flatten(batches) == sel
      && (forall i :: 0 <= i < |batches| ==> 0 < |batches[i]| <= PURGE_BATCH)
      && (forall i, x :: 0 <= i < |batches| && x in batches[i] ==> x in names && PurgeMatch(x, prefix, pattern))
  {
    var sel := PurgeSelection(names, prefix, pattern);
    Util.FlattenChunks(sel, PURGE_BATCH);
    Util.ChunkSizes(sel, PURGE_BATCH);
    forall i, x | 0 <= i < |Util.Chunks(sel, PURGE_BATCH)| && x in Util.Chunks(sel, PURGE_BATCH)[i]
      ensures x in names && PurgeMatch(x, prefix, pattern)
    {
      Util.ChunkMembers(sel, PURGE_BATCH, i, x);
    }
  }

  /**
   * `purge()`: refresh the listing, select the names the pattern matches under
   * `/{environment}/{component}`, and delete them ten at a time. `failingBatch` is the
   * first batch the service rejects with a `ClientError`, if any: the deletions stop there
   * and no name is reported deleted.
   */
  method Purge(ctx: Ctx, pattern: string -> bool, pages: seq<Page>, failingBatch: Option<nat>)
    returns (calls: seq<seq<string>>, reported: seq<string>, failed: bool)
    requires exists i :: 0 <= i < |pages| && !HasMore(pages[i])
    modifies ctx`parameters
    ensures ctx.parameters == MergePages(old(ctx.parameters), pages[..PagesRead(pages)])
    ensures var sel := PurgeSelection(SlashNames(Keys(ctx.parameters)), "/" + ctx.environment + "/" + ctx.component, pattern);
      var batches := Util.Chunks(sel, PURGE_BATCH);
      && failed == (failingBatch.Some? && failingBatch.value < |batches|)
      && calls == (if failed then batches[..failingBatch.value + 1] else batches)
      && reported == (if failed then [] else sel)
  {
    var prefix := "/" + ctx.environment + "/" + ctx.component;
    var names, _ := ParametersList(ctx, prefix, true, pages);
    var params := PurgeSelection(names, prefix, pattern);
    var chunked := Util.ChunkSequence(params, PURGE_BATCH);
    calls, failed := DeleteBatches(chunked.value, failingBatch);
    reported := if failed then [] else params;
  }

  /** `for batch in ...: delete_parameters(Names=batch)`, stopping at the first batch that raises. */
  method DeleteBatches(batches: seq<seq<string>>, failingBatch: Option<nat>)
    returns (calls: seq<seq<string>>, failed: bool)
    ensures failed == (failingBatch.Some? && failingBatch.value < |batches|)
    ensures calls == if failed then batches[..failingBatch.value + 1] else batches
  {
    calls := [];
    failed := false;
    var b := 0;
    while b < |batches| && !failed
      invariant 0 <= b <= |batches|
      invariant calls == batches[..b]
      invariant failed ==> failingBatch == Some(b - 1)
      invariant !failed ==> (failingBatch.Some? ==> failingBatch.value >= b)
      decreases |batches| - b
    {
      calls := calls + [batches[b]];
      if failingBatch == Some(b) {
        failed := true;
      }
      b := b + 1;
    }
  }

  // ---------------------------------------------------------------------------
  // preflight
  // ---------------------------------------------------------------------------

  /** Which check of `preflight` settles the outcome before the KMS lookup, if any. */
  datatype Gate = BothGiven | NeitherGiven | LabelTooLong | ConsultKms

  const MAX_LABEL_LENGTH: nat := 8

  /**
   * The argument checks in order: `--input-file` and `--set-key` exclude each other and one
   * is required; `--with-label` is a single string here, and its length in characters is
   * compared with 8.
   */
  function PreflightGate(inputFile: bool, setKey: seq<string>, withLabel: string): (g: Gate)
    ensures g == ConsultKms <==> inputFile != (|setKey| > 0) && |withLabel| <= MAX_LABEL_LENGTH
    ensures g == BothGiven <==> inputFile && |setKey| > 0
    ensures g == NeitherGiven <==> !inputFile && |setKey| == 0
  {
    if inputFile && |setKey| > 0 then BothGiven
    else if !(inputFile || |setKey| > 0) then NeitherGiven
    else if |withLabel| > MAX_LABEL_LENGTH then LabelTooLong
    else ConsultKms
  }

  datatype Outcome = Returned(ok: bool) | RaisedTypeError

  /**
   * `preflight()` as written: the too-long-label branch passes `color=-"yellow"`, and the
   * unary minus on a string raises `TypeError` before `return False` is reached.
   */
  function PreflightAsWritten(inputFile: bool, setKey: seq<string>, withLabel: string, keyFound: bool): (o: Outcome)
    ensures o.RaisedTypeError? <==> PreflightGate(inputFile, setKey, withLabel) == LabelTooLong
  {
    match PreflightGate(inputFile, setKey, withLabel)
    case BothGiven => Returned(false)
    case NeitherGiven => Returned(false)
    case LabelTooLong => RaisedTypeError
    case ConsultKms => Returned(keyFound)
  }

  /** `preflight()` as intended: every failed check returns False, and only a passing one consults KMS. */
  function PreflightCorrected(inputFile: bool, setKey: seq<string>, withLabel: string, keyFound: bool): (ok: bool)
    ensures ok <==> PreflightGate(inputFile, setKey, withLabel) == ConsultKms && keyFound
  {
    match PreflightGate(inputFile, setKey, withLabel)
    case BothGiven => false
    case NeitherGiven => false
    case LabelTooLong => false
    case ConsultKms => keyFound
  }

  /** A nine-character label with an input file raises instead of returning False. */
  lemma PreflightLongLabelRaises()
    ensures PreflightAsWritten(true, [], "candidate", true) == RaisedTypeError
    ensures !PreflightCorrected(true, [], "candidate", true)
  {
  }

  /** The two agree wherever the as-written code does not raise. */
  lemma PreflightAgreesElsewhere(inputFile: bool, setKey: seq<string>, withLabel: string, keyFound: bool)
    requires PreflightGate(inputFile, setKey, withLabel) != LabelTooLong
    ensures PreflightAsWritten(inputFile, setKey, withLabel, keyFound) == Returned(PreflightCorrected(inputFile, setKey, withLabel, keyFound))
  {
  }

  /**
   * `preflight()` with the label branch returning False: KMS is consulted, through
   * `check_key` with the aliases it would fetch, only when the argument checks pass.
   */
  method Preflight(ctx: Ctx, inputFile: bool, setKey: seq<string>, withLabel: string, fetched: seq<AliasEntry>)
    returns (ok: bool)
    modifies ctx`kmsAliases, ctx`keyid
    ensures PreflightGate(inputFile, setKey, withLabel) != ConsultKms ==>
      !ok && ctx.kmsAliases == old(ctx.kmsAliases) && ctx.keyid == old(ctx.keyid)
    ensures PreflightGate(inputFile, setKey, withLabel) == ConsultKms ==> ctx.kmsAliases == old(ctx.kmsAliases) + fetched
    ensures ok == PreflightCorrected(inputFile, setKey, withLabel,
      exists i :: 0 <= i < |ctx.kmsAliases| && Kms.Names(ctx.kmsAliases[i], ctx.kmsAlias))
  {
    if PreflightGate(inputFile, setKey, withLabel) != ConsultKms {
      return false;
    }
    ok := Kms.CheckKey(ctx, fetched);
  }
}
