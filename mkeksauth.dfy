/**
 * `mkeksauth`: builds the `aws-auth` ConfigMap that maps AWS IAM roles and users onto
 * Kubernetes RBAC groups of an EKS cluster, and folds a JSON configuration read from
 * standard input into the command-line parameters.
 */
module MkEksAuth {
  import opened Wrappers
  import opened Strings
  import opened PyDict

  // ---------------------------------------------------------------------------
  // JSON values, as `json.loads` produces them
  // ---------------------------------------------------------------------------

  datatype Json =
    | JNull
    | JBool(b: bool)
    | JNumber(n: int)
    | JString(s: string)
    | JArray(items: seq<Json>)
    | JObject(members: Dict<Json>)

  /** Python's truth value of a JSON value. */
  predicate Falsy(j: Json)
    ensures Falsy(j) <==>
      j == JNull || j == JBool(false) || j == JNumber(0) || j == JString("") || j == JArray([]) || j == JObject([])
  {
    match j
    case JNull => true
    case JBool(b) => !b
    case JNumber(n) => n == 0
    case JString(s) => |s| == 0
    case JArray(items) => |items| == 0
    case JObject(m) => |m| == 0
  }

  /**
   * What `for x in j` walks through: the items of a list, the one-character strings of a
   * string, the keys of an object; `None` where Python raises `TypeError` (not iterable).
   */
  function Iterate(j: Json): (r: Option<seq<Json>>)
    ensures r.None? <==> j.JNull? || j.JBool? || j.JNumber?
    ensures j.JArray? ==> r == Some(j.items)
    ensures j.JString? ==> r.Some? && |r.value| == |j.s| && forall i :: 0 <= i < |j.s| ==> r.value[i] == JString([j.s[i]])
    ensures j.JObject? ==> r.Some? && |r.value| == |j.members| && forall i :: 0 <= i < |j.members| ==> r.value[i] == JString(j.members[i].0)
  {
    match j
    case JArray(items) => Some(items)
    case JString(s) => Some(seq(|s|, i requires 0 <= i < |s| => JString([s[i]])))
    case JObject(m) => Some(seq(|m|, i requires 0 <= i < |m| => JString(m[i].0)))
    case _ => None
  }

  // ---------------------------------------------------------------------------
  // The EKS cluster ARN: `arn:aws:eks:[^:]+:[\d]+:cluster/(?P<cluster_name>.*)`
  // ---------------------------------------------------------------------------

  const ARN_HEAD: string := "arn:aws:eks:"
  const ARN_CLUSTER: string := ":cluster/"

  /** The length of the leading run of characters other than `:`. */
  function NonColonRun(s: string): (n: nat)
    ensures n <= |s|
    ensures forall i :: 0 <= i < n ==> s[i] != ':'
    ensures n < |s| ==> s[n] == ':'
    decreases |s|
  {
    if |s| == 0 || s[0] == ':' then 0 else 1 + NonColonRun(s[1..])
  }

  /** The length of the leading run of decimal digits. */
  function DigitRun(s: string): (n: nat)
    ensures n <= |s|
    ensures forall i :: 0 <= i < n ==> IsDigit(s[i])
    ensures n < |s| ==> !IsDigit(s[n])
    decreases |s|
  {
    if |s| == 0 || !IsDigit(s[0]) then 0 else 1 + DigitRun(s[1..])
  }

  /** What `.*` takes: everything up to the first line break. */
  function RestOfLine(s: string): (r: string)
    ensures StartsWith(s, r)
    ensures '\n' !in r
    ensures |r| < |s| ==> s[|r|] == '\n'
  {
    match IndexOf(s, '\n')
    case None => s
    case Some(i) => s[..i]
  }

  /** After the region's `:`: the account number, `:cluster/`, then the group. */
  function MatchAccount(v: string): (g: Option<string>)
    ensures g.Some? ==> '\n' !in g.value
  {
    var d := DigitRun(v);
    if d == 0 || !StartsWith(v[d..], ARN_CLUSTER) then None
    else Some(RestOfLine(v[d + |ARN_CLUSTER|..]))
  }

  /** After `arn:aws:eks:`: the region, up to its `:`, then the rest. */
  function MatchRegion(u: string): (g: Option<string>)
    ensures g.Some? ==> '\n' !in g.value
  {
    var r := NonColonRun(u);
    if r == 0 || r == |u| then None else MatchAccount(u[r + 1..])
  }

  /**
   * The pattern matched at the start of `t`, giving the named group. Each run of the pattern
   * is followed by a character it cannot take, so backtracking never finds another match.
   */
  function MatchArn(t: string): (g: Option<string>)
    ensures g.Some? ==> StartsWith(t, ARN_HEAD) && '\n' !in g.value
  {
    if StartsWith(t, ARN_HEAD) then MatchRegion(t[|ARN_HEAD|..]) else None
  }

  /** `re.search`: the leftmost position where `m` matches, with what it gives. */
  function Search(s: string, m: string -> Option<string>): (r: Option<(nat, string)>)
    ensures r.Some? ==> r.value.0 <= |s| && m(s[r.value.0..]) == Some(r.value.1)
    ensures r.Some? ==> forall p {:trigger m(s[p..])} :: 0 <= p < r.value.0 ==> m(s[p..]).None?
    ensures r.None? ==> forall p {:trigger m(s[p..])} :: 0 <= p <= |s| ==> m(s[p..]).None?
    decreases |s|
  {
    match m(s)
    case Some(g) =>
      assert s[0..] == s;
      Some((0, g))
    case None =>
      assert s[0..] == s;
      if |s| == 0 then None
      else
        match Search(s[1..], m)
        case None =>
          assert forall p :: 1 <= p <= |s| ==> s[p..] == s[1..][p - 1..];
          None
        case Some((p, g)) =>
          assert forall q :: 1 <= q <= p + 1 ==> s[q..] == s[1..][q - 1..];
          Some((p + 1, g))
  }

  /** The cluster name a context name stands for: the ARN's tail, or the name unchanged. */
  function ParsedClusterName(s: string): (name: string)
    ensures (forall p {:trigger MatchArn(s[p..])} :: 0 <= p <= |s| ==> MatchArn(s[p..]).None?) ==> name == s
  {
    match Search(s, MatchArn)
    case None => s
    case Some((_, g)) => g
  }

  lemma CutAt(s: string, prefix: string, rest: string)
    requires StartsWith(s, prefix) && rest == s[|prefix|..]
    ensures s == prefix + rest
  {
  }

  lemma CutAround(s: string, i: nat, mid: string, rest: string)
    requires i + |mid| <= |s| && s[i..][..|mid|] == mid && rest == s[i + |mid|..]
    ensures s == s[..i] + (mid + rest)
  {
    assert s[i..] == mid + rest;
  }

  /** What `MatchAccount` takes apart: the account number, `:cluster/`, the group, the rest. */
  lemma MatchAccountSound(v: string) returns (account: string, post: string)
    requires MatchAccount(v).Some?
    ensures v == account + (ARN_CLUSTER + (MatchAccount(v).value + post))
    ensures |account| > 0 && forall i :: 0 <= i < |account| ==> IsDigit(account[i])
    ensures |post| > 0 ==> post[0] == '\n'
  {
    var d := MatchAccountSplit(v);
    var w := v[d + |ARN_CLUSTER|..];
    var g := RestOfLine(w);
    account, post := v[..d], w[|g|..];
    CutAt(w, g, post);
    CutAround(v, d, ARN_CLUSTER, w);
  }

  /** Where `MatchAccount` cuts: after the leading digits, which `:cluster/` follows. */
  lemma MatchAccountSplit(v: string) returns (d: nat)
    requires MatchAccount(v).Some?
    ensures 0 < d && d + |ARN_CLUSTER| <= |v| && v[d..][..|ARN_CLUSTER|] == ARN_CLUSTER
    ensures forall i :: 0 <= i < d ==> IsDigit(v[i])
    ensures MatchAccount(v) == Some(RestOfLine(v[d + |ARN_CLUSTER|..]))
  {
    d := DigitRun(v);
  }

  lemma {:induction false} MatchRegionSound(u: string) returns (region: string, account: string, post: string)
    requires MatchRegion(u).Some?
    ensures u == region + (":" + (account + (ARN_CLUSTER + (MatchRegion(u).value + post))))
    ensures |region| > 0 && ':' !in region
    ensures |account| > 0 && forall i :: 0 <= i < |account| ==> IsDigit(account[i])
    ensures |post| > 0 ==> post[0] == '\n'
  {
    var r := MatchRegionSplit(u);
    var v := u[r + 1..];
    account, post := MatchAccountSound(v);
    region := u[..r];
    CutAround(u, r, ":", v);
  }

  /** Where `MatchRegion` cuts: at the first `:`, which is neither first nor missing. */
  lemma MatchRegionSplit(u: string) returns (r: nat)
    requires MatchRegion(u).Some?
    ensures 0 < r < |u| && u[r] == ':' && ':' !in u[..r]
    ensures MatchRegion(u) == MatchAccount(u[r + 1..])
  {
    r := NonColonRun(u);
  }

  /** A match always comes from a well-formed ARN: region, account number, cluster name. */
  lemma MatchArnSound(t: string) returns (region: string, account: string, post: string)
    requires MatchArn(t).Some?
    ensures t == ARN_HEAD + (region + (":" + (account + (ARN_CLUSTER + (MatchArn(t).value + post)))))
    ensures |region| > 0 && ':' !in region
    ensures |account| > 0 && forall i :: 0 <= i < |account| ==> IsDigit(account[i])
    ensures |post| > 0 ==> post[0] == '\n'
  {
    var u := t[|ARN_HEAD|..];
    region, account, post := MatchRegionSound(u);
    CutAround(t, 0, ARN_HEAD, u);
    assert t[..0] + (ARN_HEAD + u) == ARN_HEAD + u;
  }

  lemma MatchAccountComplete(account: string, name: string, post: string)
    requires |account| > 0 && forall i :: 0 <= i < |account| ==> IsDigit(account[i])
    requires '\n' !in name
    requires |post| > 0 ==> post[0] == '\n'
    ensures MatchAccount(account + ARN_CLUSTER + name + post) == Some(name)
  {
    var w := name + post;
    var v := account + ARN_CLUSTER + w;
    assert v == account + ARN_CLUSTER + name + post;
    var d := DigitRun(v);
    assert v[|account|] == ':';
    assert d == |account|;
    assert v[d..] == ARN_CLUSTER + w;
    assert v[d..][..|ARN_CLUSTER|] == ARN_CLUSTER;
    assert v[d + |ARN_CLUSTER|..] == w;
    if |post| == 0 {
      assert w == name;
    } else {
      assert w == name + ['\n'] + post[1..];
      IndexOfAfterPrefix(name, '\n', post[1..]);
      assert w[..|name|] == name;
    }
  }

  lemma MatchRegionComplete(region: string, account: string, name: string, post: string)
    requires |region| > 0 && ':' !in region
    requires |account| > 0 && forall i :: 0 <= i < |account| ==> IsDigit(account[i])
    requires '\n' !in name
    requires |post| > 0 ==> post[0] == '\n'
    ensures MatchRegion(region + ":" + account + ARN_CLUSTER + name + post) == Some(name)
  {
    var v := account + ARN_CLUSTER + name + post;
    var u := region + ":" + v;
    assert u == region + ":" + account + ARN_CLUSTER + name + post;
    var r := NonColonRun(u);
    assert u[|region|] == ':';
    assert r == |region|;
    assert u[r + 1..] == v;
    MatchAccountComplete(account, name, post);
  }

  /** Every well-formed ARN matches, and the group is the cluster name up to the line end. */
  lemma MatchArnComplete(region: string, account: string, name: string, post: string)
    requires |region| > 0 && ':' !in region
    requires |account| > 0 && forall i :: 0 <= i < |account| ==> IsDigit(account[i])
    requires '\n' !in name
    requires |post| > 0 ==> post[0] == '\n'
    ensures MatchArn(ARN_HEAD + region + ":" + account + ARN_CLUSTER + name + post) == Some(name)
  {
    var u := region + ":" + account + ARN_CLUSTER + name + post;
    var t := ARN_HEAD + u;
    assert t == ARN_HEAD + region + ":" + account + ARN_CLUSTER + name + post;
    assert t[..|ARN_HEAD|] == ARN_HEAD;
    assert t[|ARN_HEAD|..] == u;
    MatchRegionComplete(region, account, name, post);
  }

  /** The ARN of a cluster: `arn:aws:eks:<region>:<account>:cluster/<name>`. */
  function Arn(region: string, account: string, name: string): (arn: string)
    ensures StartsWith(arn, ARN_HEAD) && EndsWith(arn, name)
  {
    ARN_HEAD + region + ":" + account + ARN_CLUSTER + name
  }

  /** A context named by the full ARN of a cluster stands for that cluster's name. */
  lemma FullArnName(region: string, account: string, name: string)
    requires |region| > 0 && ':' !in region
    requires |account| > 0 && forall i :: 0 <= i < |account| ==> IsDigit(account[i])
    requires '\n' !in name
    ensures ParsedClusterName(Arn(region, account, name)) == name
  {
    var s := Arn(region, account, name);
    MatchArnComplete(region, account, name, "");
    assert s + "" == s;
    assert s[0..] == s;
  }

  /**
   * Parsing is not idempotent: an ARN whose cluster part is itself an ARN gives that inner
   * ARN, which a second parse would cut down again; the once-only flag of
   * `EksAuth.ClusterName` is what keeps the name stable.
   */
  lemma ReparsingChangesNestedArn(region: string, account: string, name: string)
    requires |region| > 0 && ':' !in region && '\n' !in region
    requires |account| > 0 && forall i :: 0 <= i < |account| ==> IsDigit(account[i])
    requires '\n' !in name
    ensures var inner := Arn(region, account, name);
      ParsedClusterName(Arn(region, account, inner)) == inner && ParsedClusterName(inner) == name
  {
    var inner := Arn(region, account, name);
    assert '\n' !in account by {
      forall i | 0 <= i < |account| ensures account[i] != '\n' { assert IsDigit(account[i]); }
    }
    NotInConcat(ARN_HEAD, region, '\n');
    NotInConcat(ARN_HEAD + region, ":", '\n');
    NotInConcat(ARN_HEAD + region + ":", account, '\n');
    NotInConcat(ARN_HEAD + region + ":" + account, ARN_CLUSTER, '\n');
    NotInConcat(ARN_HEAD + region + ":" + account + ARN_CLUSTER, name, '\n');
    FullArnName(region, account, name);
    FullArnName(region, account, inner);
  }

  // ---------------------------------------------------------------------------
  // IAM and EC2 records, as the SDK lists them
  // ---------------------------------------------------------------------------

  datatype IamRole = IamRole(name: string, arn: string)
  datatype IamUser = IamUser(name: string, arn: string)
  datatype IamGroup = IamGroup(name: string, users: seq<IamUser>)
  datatype InstanceProfile = InstanceProfile(arn: string, roles: seq<IamRole>)
  datatype Instance = Instance(tags: Dict<string>, stateName: string, profileArn: string)

  /** The two kinds of mapping entry; `groups` holds the RBAC group as it was given. */
  datatype MapRole = MapRole(rolearn: string, username: string, groups: seq<Json>)
  datatype MapUser = MapUser(userarn: string, username: string, groups: seq<Json>)

  const NODE_USERNAME: string := "system:node:{{EC2PrivateDNSName}}"
  const NODE_GROUP: string := "system:masters"

  /** The EC2 filter `tag:kubernetes.io/cluster/<name>` with value `owned`. */
  predicate OwnedBy(i: Instance, clusterName: string) {
    Get(i.tags, "kubernetes.io/cluster/" + clusterName) == Some("owned")
  }

  /** A running node of the cluster whose instance profile is `p`. */
  predicate RunsWithProfile(i: Instance, p: InstanceProfile, clusterName: string) {
    OwnedBy(i, clusterName) && i.stateName == "running" && i.profileArn == p.arn
  }

  /** The role ARNs attached, through their instance profile, to running nodes of the cluster. */
  function NodeRoleArns(instances: seq<Instance>, profiles: seq<InstanceProfile>, clusterName: string): (arns: set<string>)
    ensures forall a :: a in arns ==> exists p, r :: p in profiles && r in p.roles && r.arn == a
    ensures (forall i :: i in instances ==> !OwnedBy(i, clusterName) || i.stateName != "running") ==> arns == {}
  {
    set i, p, r | i in instances && p in profiles && r in p.roles && RunsWithProfile(i, p, clusterName) :: r.arn
  }

  function NodeRole(arn: string): (e: MapRole)
    ensures e.rolearn == arn && e.username == NODE_USERNAME && e.groups == [JString(NODE_GROUP)]
  {
    MapRole(arn, NODE_USERNAME, [JString(NODE_GROUP)])
  }

  function NodeRoles(arns: seq<string>): (es: seq<MapRole>)
    ensures |es| == |arns|
    ensures forall i :: 0 <= i < |arns| ==> es[i] == NodeRole(arns[i])
  {
    seq(|arns|, i requires 0 <= i < |arns| => NodeRole(arns[i]))
  }

  predicate NoDuplicates(s: seq<string>) {
    forall i, j :: 0 <= i < j < |s| ==> s[i] != s[j]
  }

  /** Walks a set: each element once, in an order the set does not fix. */
  method Enumerate(elements: set<string>) returns (order: seq<string>)
    ensures NoDuplicates(order)
    ensures forall a :: a in order <==> a in elements
  {
    var rest := elements;
    order := [];
    while rest != {}
      invariant rest <= elements
      invariant forall a :: a in order ==> a in elements && a !in rest
      invariant forall a :: a in elements ==> a in order || a in rest
      invariant NoDuplicates(order)
      decreases |rest|
    {
      var a :| a in rest;
      order := order + [a];
      rest := rest - {a};
    }
  }

  /** The entry of an IAM role mapped onto an RBAC group: the role's ARN and name. */
  function RoleEntry(r: IamRole, group: Json): (e: MapRole)
    ensures e.rolearn == r.arn && e.username == r.name && e.groups == [group]
  {
    MapRole(r.arn, r.name, [group])
  }

  /** The entries one `(IAM role name, RBAC group)` mapping gives, in IAM listing order. */
  function RolesNamed(all: seq<IamRole>, mapping: (Json, Json)): (es: seq<MapRole>)
    ensures |es| <= |all|
    ensures forall e :: e in es <==> exists r :: r in all && JString(r.name) == mapping.0 && e == RoleEntry(r, mapping.1)
    decreases |all|
  {
    if |all| == 0 then []
    else
      var init, last := all[..|all| - 1], all[|all| - 1];
      assert all == init + [last];
      RolesNamed(init, mapping) + (if JString(last.name) == mapping.0 then [RoleEntry(last, mapping.1)] else [])
  }

  /** `_build_roles`: one entry per (mapping, IAM role of that name), mapping by mapping. */
  function RoleAssignments(mappings: seq<(Json, Json)>, all: seq<IamRole>): (es: seq<MapRole>)
    ensures forall e :: e in es <==>
      exists m, r :: m in mappings && r in all && JString(r.name) == m.0 && e == RoleEntry(r, m.1)
    decreases |mappings|
  {
    if |mappings| == 0 then []
    else
      var init, last := mappings[..|mappings| - 1], mappings[|mappings| - 1];
      assert mappings == init + [last];
      RoleAssignments(init, all) + RolesNamed(all, last)
  }

  /** The mappings' entries keep the mappings' order. */
  lemma {:induction false} RoleAssignmentsAppend(m1: seq<(Json, Json)>, m2: seq<(Json, Json)>, all: seq<IamRole>)
    ensures RoleAssignments(m1 + m2, all) == RoleAssignments(m1, all) + RoleAssignments(m2, all)
    decreases |m2|
  {
    if |m2| > 0 {
      var init := m2[..|m2| - 1];
      assert (m1 + m2)[..|m1 + m2| - 1] == m1 + init;
      RoleAssignmentsAppend(m1, init, all);
    } else {
      assert m1 + m2 == m1;
    }
  }

  function UserEntry(u: IamUser, group: Json): (e: MapUser)
    ensures e.userarn == u.arn && e.username == u.name && e.groups == [group]
  {
    MapUser(u.arn, u.name, [group])
  }

  /** The members of one IAM group when the mapping names it, in membership order. */
  function Members(g: IamGroup, mapping: (Json, Json)): (es: seq<MapUser>)
    ensures JString(g.name) != mapping.0 ==> es == []
    ensures JString(g.name) == mapping.0 ==> |es| == |g.users| && forall i :: 0 <= i < |g.users| ==> es[i] == UserEntry(g.users[i], mapping.1)
  {
    if JString(g.name) == mapping.0 then seq(|g.users|, i requires 0 <= i < |g.users| => UserEntry(g.users[i], mapping.1))
    else []
  }

  /** The entries one IAM group gives, mapping by mapping. */
  function GroupAssignments(g: IamGroup, mappings: seq<(Json, Json)>): (es: seq<MapUser>)
    ensures forall e :: e in es <==>
      exists m, u :: m in mappings && u in g.users && JString(g.name) == m.0 && e == UserEntry(u, m.1)
    decreases |mappings|
  {
    if |mappings| == 0 then []
    else
      var init, last := mappings[..|mappings| - 1], mappings[|mappings| - 1];
      assert mappings == init + [last];
      var es := GroupAssignments(g, init) + Members(g, last);
      assert forall e :: e in Members(g, last) <==> exists u :: u in g.users && JString(g.name) == last.0 && e == UserEntry(u, last.1) by {
        forall e | e in Members(g, last) ensures exists u :: u in g.users && JString(g.name) == last.0 && e == UserEntry(u, last.1) {
          var i :| 0 <= i < |Members(g, last)| && Members(g, last)[i] == e;
          assert g.users[i] in g.users;
        }
        forall u | u in g.users && JString(g.name) == last.0 ensures UserEntry(u, last.1) in Members(g, last) {
          var i :| 0 <= i < |g.users| && g.users[i] == u;
          assert Members(g, last)[i] == UserEntry(u, last.1);
        }
      }
      es
  }

  /** `_users_from_groups`: the IAM groups in listing order, each with its matching mappings. */
  function UserAssignments(all: seq<IamGroup>, mappings: seq<(Json, Json)>): (es: seq<MapUser>)
    ensures forall e :: e in es <==>
      exists g, m, u :: g in all && m in mappings && u in g.users && JString(g.name) == m.0 && e == UserEntry(u, m.1)
    decreases |all|
  {
    if |all| == 0 then []
    else
      var init, last := all[..|all| - 1], all[|all| - 1];
      assert all == init + [last];
      UserAssignments(init, mappings) + GroupAssignments(last, mappings)
  }

  /** The entries are ordered by IAM group. */
  lemma {:induction false} UserAssignmentsAppend(g1: seq<IamGroup>, g2: seq<IamGroup>, mappings: seq<(Json, Json)>)
    ensures UserAssignments(g1 + g2, mappings) == UserAssignments(g1, mappings) + UserAssignments(g2, mappings)
    decreases |g2|
  {
    if |g2| > 0 {
      var init := g2[..|g2| - 1];
      assert (g1 + g2)[..|g1 + g2| - 1] == g1 + init;
      UserAssignmentsAppend(g1, init, mappings);
    } else {
      assert g1 + g2 == g1;
    }
  }

  // ---------------------------------------------------------------------------
  // The aws-auth ConfigMap
  // ---------------------------------------------------------------------------

  /** A value under `data`: the template's empty text, or the (rendered) list of entries. */
  datatype DataValue = Text(text: string) | RolesYaml(roles: seq<MapRole>) | UsersYaml(users: seq<MapUser>)

  datatype ConfigMap = ConfigMap(apiVersion: string, kind: string, metadata: Dict<string>, data: Dict<DataValue>)

  const DOCUMENT: ConfigMap := ConfigMap("v1", "ConfigMap",
    [("name", "aws-auth"), ("namespace", "kube-system")],
    [("mapRoles", Text("")), ("mapUsers", Text(""))])

  /**
   * The document `__init__` leaves: the template with `mapRoles` always filled, and
   * `mapUsers` filled when there are users and removed when there are none.
   */
  function AssembledDocument(roles: seq<MapRole>, users: seq<MapUser>): (d: ConfigMap)
    ensures d.apiVersion == DOCUMENT.apiVersion && d.kind == DOCUMENT.kind && d.metadata == DOCUMENT.metadata
    ensures Get(d.data, "mapRoles") == Some(RolesYaml(roles))
    ensures |users| > 0 ==> Get(d.data, "mapUsers") == Some(UsersYaml(users))
    ensures Keys(d.data) == if |users| > 0 then ["mapRoles", "mapUsers"] else ["mapRoles"]
  {
    var data := Put(DOCUMENT.data, "mapRoles", RolesYaml(roles));
    assert "mapRoles" != "mapUsers" by { assert "mapRoles"[3] != "mapUsers"[3]; }
    assert Keys(DOCUMENT.data) == ["mapRoles", "mapUsers"];
    assert Keys(data) == ["mapRoles", "mapUsers"];
    assert Keys(Remove(data, "mapUsers")) == ["mapRoles"] by {
      assert Remove(data[1..], "mapUsers") == [];
      assert Remove(data, "mapUsers") == [data[0]] + Remove(data[1..], "mapUsers");
    }
    DOCUMENT.(data := if |users| > 0 then Put(data, "mapUsers", UsersYaml(users)) else Remove(data, "mapUsers"))
  }

  // ---------------------------------------------------------------------------
  // EksAuth
  // ---------------------------------------------------------------------------

  /** Why construction stops with `click.BadParameter`. */
  datatype BadParameter = NoClientConfig(clusterName: string) | ClusterNotFound(clusterName: string)

  class EksAuth {
    var clusterName: string
    /** `_valid['cluster_name']`: the name has been parsed once. */
    var nameParsed: bool
    /** `_valid['cluster_exists']`. */
    var clusterExists: bool
    var clusterRoleArn: string
    var roles: seq<MapRole>
    var users: seq<MapUser>
    var doc: ConfigMap

    constructor (clusterName: string)
      ensures this.clusterName == clusterName && !nameParsed && !clusterExists && clusterRoleArn == ""
      ensures roles == [] && users == [] && doc == DOCUMENT
    {
      this.clusterName := clusterName;
      nameParsed := false;
      clusterExists := false;
      clusterRoleArn := "";
      roles := [];
      users := [];
      doc := DOCUMENT;
    }

    /** The `cluster_name` property: parses the name on first use only. */
    method ClusterName() returns (name: string)
      modifies this`clusterName, this`nameParsed
      ensures name == if old(nameParsed) then old(clusterName) else ParsedClusterName(old(clusterName))
      ensures clusterName == name && nameParsed
    {
      name := clusterName;
      if !nameParsed {
        var found := Search(clusterName, MatchArn);
        if found.Some? {
          clusterName := found.value.1;
          name := clusterName;
        }
        nameParsed := true;
      }
    }

    /** `_set_cluster_role_arn`: `describe_cluster` (`None`: not found) on the parsed name. */
    method SetClusterRoleArn(describe: string -> Option<string>) returns (found: bool)
      modifies this`clusterName, this`nameParsed, this`clusterExists, this`clusterRoleArn
      ensures clusterName == (if old(nameParsed) then old(clusterName) else ParsedClusterName(old(clusterName)))
      ensures nameParsed
      ensures found <==> describe(clusterName).Some?
      ensures found ==> clusterExists && clusterRoleArn == describe(clusterName).value
      ensures !found ==> clusterExists == old(clusterExists) && clusterRoleArn == old(clusterRoleArn)
    {
      var name := ClusterName();
      match describe(name)
      case None =>
        found := false;
      case Some(arn) =>
        clusterExists := true;
        clusterRoleArn := arn;
        found := true;
    }

    /** `_load_node_role`: one entry per distinct node role ARN, in the set's iteration order. */
    method LoadNodeRole(instances: seq<Instance>, profiles: seq<InstanceProfile>) returns (order: seq<string>)
      modifies this`roles
      ensures roles == old(roles) + NodeRoles(order)
      ensures NoDuplicates(order)
      ensures forall a :: a in order <==> a in NodeRoleArns(instances, profiles, clusterName)
    {
      order := Enumerate(NodeRoleArns(instances, profiles, clusterName));
      roles := roles + NodeRoles(order);
    }

    /** `_build_roles`. */
    method BuildRoles(mappings: seq<(Json, Json)>, all: seq<IamRole>)
      modifies this`roles
      ensures roles == old(roles) + RoleAssignments(mappings, all)
    {
      roles := roles + RoleAssignments(mappings, all);
    }

    /** `_users_from_groups`. */
    method UsersFromGroups(all: seq<IamGroup>, mappings: seq<(Json, Json)>)
      modifies this`users
      ensures users == old(users) + UserAssignments(all, mappings)
    {
      users := users + UserAssignments(all, mappings);
    }

    /** The part of `__init__` after the cluster is known: node roles, group users, mapped roles. */
    method Populate(instances: seq<Instance>, profiles: seq<InstanceProfile>, iamRoles: seq<IamRole>,
                    iamGroups: seq<IamGroup>, group: seq<(Json, Json)>, role: seq<(Json, Json)>)
      returns (order: seq<string>)
      requires roles == [] && users == []
      modifies this`roles, this`users
      ensures NoDuplicates(order)
      ensures forall x :: x in order <==> x in NodeRoleArns(instances, profiles, clusterName)
      ensures roles == NodeRoles(order) + RoleAssignments(role, iamRoles)
      ensures users == UserAssignments(iamGroups, group)
    {
      order := LoadNodeRole(instances, profiles);
      assert [] + NodeRoles(order) == NodeRoles(order);
      UsersFromGroups(iamGroups, group);
      assert [] + UserAssignments(iamGroups, group) == UserAssignments(iamGroups, group);
      BuildRoles(role, iamRoles);
    }

    /** The document assembly at the end of `__init__`. */
    method AssembleDocument()
      modifies this`doc
      ensures doc == AssembledDocument(roles, users)
    {
      doc := DOCUMENT;
      doc := doc.(data := Put(doc.data, "mapRoles", RolesYaml(roles)));
      if |users| > 0 {
        doc := doc.(data := Put(doc.data, "mapUsers", UsersYaml(users)));
      } else {
        doc := doc.(data := Remove(doc.data, "mapUsers"));
      }
    }
  }

  /**
   * `EksAuth(...)`: the kube context must exist and `describe_cluster` (`None`: not found)
   * must know the parsed name. The node roles come first, then the mapped IAM roles.
   */
  method NewEksAuth(clusterName: string, hasKubeContext: bool, describe: string -> Option<string>,
                    instances: seq<Instance>, profiles: seq<InstanceProfile>, iamRoles: seq<IamRole>, iamGroups: seq<IamGroup>,
                    group: seq<(Json, Json)>, role: seq<(Json, Json)>)
    returns (r: Result<EksAuth, BadParameter>, nodeOrder: seq<string>)
    ensures !hasKubeContext ==> r == Err(NoClientConfig(clusterName))
    ensures hasKubeContext && describe(ParsedClusterName(clusterName)).None? ==>
      r == Err(ClusterNotFound(ParsedClusterName(clusterName)))
    ensures hasKubeContext && describe(ParsedClusterName(clusterName)).Some? ==> r.Ok?
    ensures r.Ok? ==> var a, name := r.value, ParsedClusterName(clusterName);
      && fresh(a) && a.clusterName == name && a.nameParsed && a.clusterExists
      && a.clusterRoleArn == describe(name).value
      && NoDuplicates(nodeOrder) && (forall x :: x in nodeOrder <==> x in NodeRoleArns(instances, profiles, name))
      && a.roles == NodeRoles(nodeOrder) + RoleAssignments(role, iamRoles)
      && a.users == UserAssignments(iamGroups, group)
      && a.doc == AssembledDocument(a.roles, a.users)
  {
    nodeOrder := [];
    if !hasKubeContext {
      return Err(NoClientConfig(clusterName)), nodeOrder;
    }
    var a := new EksAuth(clusterName);
    var found := a.SetClusterRoleArn(describe);
    if !found {
      return Err(ClusterNotFound(a.clusterName)), nodeOrder;
    }
    nodeOrder := a.Populate(instances, profiles, iamRoles, iamGroups, group, role);
    a.AssembleDocument();
    r := Ok(a);
  }

  // ---------------------------------------------------------------------------
  // Folding the JSON configuration into the parameters
  // ---------------------------------------------------------------------------

  /** The exceptions that escape `_ingest_json_config`. */
  datatype IngestError = TypeError | KeyError

  /** The parameters the JSON configuration can change. */
  datatype ParamState = ParamState(group: seq<(Json, Json)>, role: seq<(Json, Json)>, clusterName: Json)

  /** The keys `_ingest_json_config` has an ingestor for. */
  const INGESTOR_KEYS: seq<string> := ["iam-groups", "iam-users", "iam-roles", "cluster-name"]

  /** `(group, role) for group in members`. */
  function PairedWith(members: seq<Json>, role: Json): (ps: seq<(Json, Json)>)
    ensures |ps| == |members|
    ensures forall i :: 0 <= i < |members| ==> ps[i] == (members[i], role)
  {
    seq(|members|, i requires 0 <= i < |members| => (members[i], role))
  }

  /** `(role, role) for role in members`: the loop variable shadows the argument. */
  function PairedWithSelf(members: seq<Json>): (ps: seq<(Json, Json)>)
    ensures |ps| == |members|
    ensures forall i :: 0 <= i < |members| ==> ps[i] == (members[i], members[i])
  {
    seq(|members|, i requires 0 <= i < |members| => (members[i], members[i]))
  }

  /** Where a fold has got to: the parameters, the unknown keys warned about, an exception. */
  datatype Run = Run(st: ParamState, warned: seq<string>, failure: Option<IngestError>)

  /** `ingestors[perm_type](role, members)` inside its `try ... except KeyError`. */
  function Dispatch(st: ParamState, role: Json, permType: string, members: Json): (r: Run)
    ensures r.warned == if permType in INGESTOR_KEYS then [] else [permType]
    ensures r.failure.Some? ==> r.failure == Some(TypeError) && r.st == st
    ensures r.st.group != st.group ==> permType == "iam-groups"
    ensures r.st.role != st.role ==> permType == "iam-roles"
    ensures r.st.clusterName != st.clusterName ==> permType == "cluster-name"
  {
    if permType == "iam-groups" then
      (match Iterate(members)
       case None => Run(st, [], Some(TypeError))
       case Some(ms) => Run(st.(group := st.group + PairedWith(ms, role)), [], None))
    else if permType == "iam-users" then
      Run(st, [], None)
    else if permType == "iam-roles" then
      (match Iterate(members)
       case None => Run(st, [], Some(TypeError))
       case Some(ms) => Run(st.(role := PairedWithSelf(ms)), [], None))
    else if permType == "cluster-name" then
      Run(if Falsy(st.clusterName) then st.(clusterName := members) else st, [], None)
    else
      Run(st, [permType], None)
  }

  /** The keys of `items` that have no ingestor, in order. */
  function UnknownKeys(items: Dict<Json>): (ks: seq<string>)
    ensures forall i :: 0 <= i < |ks| ==> ks[i] !in INGESTOR_KEYS
    decreases |items|
  {
    if |items| == 0 then []
    else
      var last := items[|items| - 1].0;
      UnknownKeys(items[..|items| - 1]) + (if last in INGESTOR_KEYS then [] else [last])
  }

  /** `for perm_type, members in el.items()`: stops at the first exception. */
  function ItemsRun(st: ParamState, role: Json, items: Dict<Json>): (r: Run)
    ensures r.failure.None? ==> r.warned == UnknownKeys(items)
    ensures forall i :: 0 <= i < |r.warned| ==> r.warned[i] !in INGESTOR_KEYS
    decreases |items|
  {
    if |items| == 0 then Run(st, [], None)
    else
      var prev := ItemsRun(st, role, items[..|items| - 1]);
      if prev.failure.Some? then prev
      else
        var last := items[|items| - 1];
        var step := Dispatch(prev.st, role, last.0, last.1);
        Run(step.st, prev.warned + step.warned, step.failure)
  }

  /**
   * One element of the configuration list: an object gives up its `role` (a missing one is a
   * `KeyError`) and its other keys are dispatched; `list.pop('role')` raises `TypeError`;
   * any other value has no `pop` and is skipped.
   */
  function ElementRun(st: ParamState, el: Json): (r: Run)
    ensures !el.JObject? && !el.JArray? ==> r == Run(st, [], None)
    ensures forall i :: 0 <= i < |r.warned| ==> r.warned[i] !in INGESTOR_KEYS
  {
    match el
    case JObject(m) =>
      (match Get(m, "role")
       case None => Run(st, [], Some(KeyError))
       case Some(role) => ItemsRun(st, role, Remove(m, "role")))
    case JArray(_) => Run(st, [], Some(TypeError))
    case _ => Run(st, [], None)
  }

  /** `for el in ctx.obj.inbound`: stops at the first exception. */
  function ElementsRun(st: ParamState, els: seq<Json>): (r: Run)
    ensures forall i :: 0 <= i < |r.warned| ==> r.warned[i] !in INGESTOR_KEYS
    decreases |els|
  {
    if |els| == 0 then Run(st, [], None)
    else
      var prev := ElementsRun(st, els[..|els| - 1]);
      if prev.failure.Some? then prev
      else
        var step := ElementRun(prev.st, els[|els| - 1]);
        Run(step.st, prev.warned + step.warned, step.failure)
  }

  /** `_ingest_json_config`: a value that cannot be iterated raises `TypeError` at once. */
  function ConfigRun(st: ParamState, inbound: Json): (r: Run)
    ensures forall i :: 0 <= i < |r.warned| ==> r.warned[i] !in INGESTOR_KEYS
    ensures Iterate(inbound).None? ==> r == Run(st, [], Some(TypeError))
  {
    match Iterate(inbound)
    case None => Run(st, [], Some(TypeError))
    case Some(els) => ElementsRun(st, els)
  }

  /** Once an exception is raised, the remaining items are not looked at. */
  lemma {:induction false} ItemsRunStops(st: ParamState, role: Json, items: Dict<Json>, j: nat)
    requires j <= |items| && ItemsRun(st, role, items[..j]).failure.Some?
    ensures ItemsRun(st, role, items) == ItemsRun(st, role, items[..j])
    decreases |items| - j
  {
    if j < |items| {
      assert items[..j + 1][..j] == items[..j];
      assert ItemsRun(st, role, items[..j + 1]) == ItemsRun(st, role, items[..j]);
      ItemsRunStops(st, role, items, j + 1);
    } else {
      assert items[..j] == items;
    }
  }

  /** Once an exception is raised, the remaining elements are not looked at. */
  lemma {:induction false} ElementsRunStops(st: ParamState, els: seq<Json>, j: nat)
    requires j <= |els| && ElementsRun(st, els[..j]).failure.Some?
    ensures ElementsRun(st, els) == ElementsRun(st, els[..j])
    decreases |els| - j
  {
    if j < |els| {
      assert els[..j + 1][..j] == els[..j];
      assert ElementsRun(st, els[..j + 1]) == ElementsRun(st, els[..j]);
      ElementsRunStops(st, els, j + 1);
    } else {
      assert els[..j] == els;
    }
  }

  /** Parameters that hold through every dispatch hold through a whole fold. */
  predicate Keeps(before: ParamState, after: ParamState) {
    && StartsWithSeq(after.group, before.group)
    && (!Falsy(before.clusterName) ==> after.clusterName == before.clusterName)
  }

  lemma KeepsTransitive(a: ParamState, b: ParamState, c: ParamState)
    requires Keeps(a, b) && Keeps(b, c)
    ensures Keeps(a, c)
  {
    assert c.group[..|a.group|] == c.group[..|b.group|][..|a.group|];
  }

  lemma DispatchKeeps(st: ParamState, role: Json, permType: string, members: Json)
    ensures Keeps(st, Dispatch(st, role, permType, members).st)
  {
    var r := Dispatch(st, role, permType, members);
    if r.st.group != st.group {
      assert r.st.group == st.group + PairedWith(Iterate(members).value, role);
      assert r.st.group[..|st.group|] == st.group;
    }
  }

  lemma {:induction false} ItemsRunKeeps(st: ParamState, role: Json, items: Dict<Json>)
    ensures Keeps(st, ItemsRun(st, role, items).st)
    decreases |items|
  {
    if |items| > 0 {
      var prev := ItemsRun(st, role, items[..|items| - 1]);
      ItemsRunKeeps(st, role, items[..|items| - 1]);
      if prev.failure.None? {
        var last := items[|items| - 1];
        DispatchKeeps(prev.st, role, last.0, last.1);
        KeepsTransitive(st, prev.st, Dispatch(prev.st, role, last.0, last.1).st);
      }
    } else {
      assert st.group[..|st.group|] == st.group;
    }
  }

  lemma ElementRunKeeps(st: ParamState, el: Json)
    ensures Keeps(st, ElementRun(st, el).st)
  {
    assert st.group[..|st.group|] == st.group;
    if el.JObject? && Get(el.members, "role").Some? {
      ItemsRunKeeps(st, Get(el.members, "role").value, Remove(el.members, "role"));
    }
  }

  lemma {:induction false} ElementsRunKeeps(st: ParamState, els: seq<Json>)
    ensures Keeps(st, ElementsRun(st, els).st)
    decreases |els|
  {
    if |els| > 0 {
      var prev := ElementsRun(st, els[..|els| - 1]);
      ElementsRunKeeps(st, els[..|els| - 1]);
      if prev.failure.None? {
        ElementRunKeeps(prev.st, els[|els| - 1]);
        KeepsTransitive(st, prev.st, ElementRun(prev.st, els[|els| - 1]).st);
      }
    } else {
      assert st.group[..|st.group|] == st.group;
    }
  }

  /**
   * The configuration only appends to the groups given on the command line, and a cluster
   * name already set (truthy) is never replaced.
   */
  lemma ConfigRunKeeps(st: ParamState, inbound: Json)
    ensures StartsWithSeq(ConfigRun(st, inbound).st.group, st.group)
    ensures !Falsy(st.clusterName) ==> ConfigRun(st, inbound).st.clusterName == st.clusterName
  {
    assert st.group[..|st.group|] == st.group;
    if Iterate(inbound).Some? {
      ElementsRunKeeps(st, Iterate(inbound).value);
    }
  }

  /**
   * `iam-roles` replaces the roles with `(member, member)` pairs: the element's own `role`
   * plays no part, whatever it is.
   */
  lemma RolesIgnoreTheirRole(st: ParamState, role1: Json, role2: Json, members: Json)
    requires Iterate(members).Some?
    ensures Dispatch(st, role1, "iam-roles", members) == Dispatch(st, role2, "iam-roles", members)
    ensures var r := Dispatch(st, role1, "iam-roles", members).st.role;
      |r| == |Iterate(members).value| && forall i :: 0 <= i < |r| ==> r[i].0 == r[i].1 == Iterate(members).value[i]
  {
  }

  /**
   * `iam-groups` appends one `(member, role)` pair per member, after the existing groups,
   * and an empty cluster name is filled by the first `cluster-name` entry.
   */
  lemma GroupsAndClusterName(st: ParamState, role: Json, members: Json)
    requires Iterate(members).Some?
    ensures var g := Dispatch(st, role, "iam-groups", members).st.group;
      && |g| == |st.group| + |Iterate(members).value|
      && g[..|st.group|] == st.group
      && forall i :: |st.group| <= i < |g| ==> g[i] == (Iterate(members).value[i - |st.group|], role)
    ensures Falsy(st.clusterName) ==> Dispatch(st, role, "cluster-name", members).st.clusterName == members
  {
    var g := Dispatch(st, role, "iam-groups", members).st.group;
    assert g == st.group + PairedWith(Iterate(members).value, role);
  }

  /** The command-line parameters `_ingest_json_config` writes into. */
  class Params {
    var group: seq<(Json, Json)>
    var role: seq<(Json, Json)>
    var clusterName: Json

    function State(): (st: ParamState)
      reads this
      ensures st.group == group && st.role == role && st.clusterName == clusterName
    {
      ParamState(group, role, clusterName)
    }

    constructor (group: seq<(Json, Json)>, role: seq<(Json, Json)>, clusterName: Json)
      ensures State() == ParamState(group, role, clusterName)
    {
      this.group := group;
      this.role := role;
      this.clusterName := clusterName;
    }

    /** `_ingest_groups`. */
    method IngestGroups(role: Json, members: Json) returns (failure: Option<IngestError>)
      modifies this`group
      ensures Run(State(), [], failure) == Dispatch(old(State()), role, "iam-groups", members)
    {
      failure := None;
      match Iterate(members)
      case None => failure := Some(TypeError);
      case Some(ms) => group := group + PairedWith(ms, role);
    }

    /** `_ingest_roles`. */
    method IngestRoles(role: Json, members: Json) returns (failure: Option<IngestError>)
      modifies this`role
      ensures Run(State(), [], failure) == Dispatch(old(State()), role, "iam-roles", members)
    {
      failure := None;
      match Iterate(members)
      case None => failure := Some(TypeError);
      case Some(ms) => this.role := PairedWithSelf(ms);
    }

    /** `_ingest_cluster_name`. */
    method IngestClusterName(name: Json)
      modifies this`clusterName
      ensures Run(State(), [], None) == Dispatch(old(State()), JNull, "cluster-name", name)
    {
      if Falsy(clusterName) {
        clusterName := name;
      }
    }

    /** One `perm_type: members` entry; `_ingest_users` does nothing. */
    method IngestEntry(role: Json, permType: string, members: Json) returns (warned: seq<string>, failure: Option<IngestError>)
      modifies this`group, this`role, this`clusterName
      ensures Run(State(), warned, failure) == Dispatch(old(State()), role, permType, members)
    {
      warned, failure := [], None;
      if permType == "iam-groups" {
        failure := IngestGroups(role, members);
      } else if permType == "iam-users" {
      } else if permType == "iam-roles" {
        failure := IngestRoles(role, members);
      } else if permType == "cluster-name" {
        IngestClusterName(members);
      } else {
        warned := [permType];
      }
    }

    /** One element of the configuration list. */
    method IngestElement(el: Json) returns (warned: seq<string>, failure: Option<IngestError>)
      modifies this`group, this`role, this`clusterName
      ensures Run(State(), warned, failure) == ElementRun(old(State()), el)
    {
      warned, failure := [], None;
      match el
      case JObject(m) =>
        var found := Get(m, "role");
        if found.None? {
          return [], Some(KeyError);
        }
        var role := found.value;
        var items := Remove(m, "role");
        ghost var st0 := State();
        var j := 0;
        while j < |items|
          invariant 0 <= j <= |items|
          invariant Run(State(), warned, None) == ItemsRun(st0, role, items[..j])
        {
          assert items[..j + 1][..j] == items[..j];
          var w, f := IngestEntry(role, items[j].0, items[j].1);
          warned := warned + w;
          if f.Some? {
            failure := f;
            ItemsRunStops(st0, role, items, j + 1);
            return;
          }
          j := j + 1;
        }
        assert items[..j] == items;
      case JArray(_) =>
        failure := Some(TypeError);
      case _ =>
    }

    /** `_ingest_json_config`. */
    method IngestJsonConfig(inbound: Json) returns (warned: seq<string>, failure: Option<IngestError>)
      modifies this`group, this`role, this`clusterName
      ensures Run(State(), warned, failure) == ConfigRun(old(State()), inbound)
    {
      var els := Iterate(inbound);
      if els.None? {
        return [], Some(TypeError);
      }
      warned, failure := IngestElements(els.value);
    }

    /** The loop over the configuration list. */
    method IngestElements(elements: seq<Json>) returns (warned: seq<string>, failure: Option<IngestError>)
      modifies this`group, this`role, this`clusterName
      ensures Run(State(), warned, failure) == ElementsRun(old(State()), elements)
    {
      warned, failure := [], None;
      ghost var st0 := State();
      var i := 0;
      while i < |elements|
        invariant 0 <= i <= |elements|
        invariant Run(State(), warned, None) == ElementsRun(st0, elements[..i])
      {
        assert elements[..i + 1][..i] == elements[..i];
        var w, f := IngestElement(elements[i]);
        warned := warned + w;
        if f.Some? {
          failure := f;
          ElementsRunStops(st0, elements, i + 1);
          return;
        }
        i := i + 1;
      }
      assert elements[..i] == elements;
    }
  }
}
