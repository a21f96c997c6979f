/**
 * The helpers of `env_kube_sps/util.py`: the `K=V` line pattern, label and tag
 * dictionaries, fixed-size chunking, the EKS bearer token and the two STS request
 * handlers that carry the cluster name into a header.
 */
module Util {
  import opened Wrappers
  import opened Bytes
  import opened Strings
  import opened PyDict
  import Utf8
  import Base64

  const TOKEN_PREFIX: string := "k8s-aws-v1."
  const CLUSTER_NAME_HEADER: string := "x-k8s-aws-id"

  // ---------------------------------------------------------------------------
  // KEY_VALUE_REX = ^\s*([^=]+)\s*=\s*(.+)\s*$   (no re.MULTILINE, so one match at most)
  // ---------------------------------------------------------------------------

  /** The position of the last character that is not a line feed. */
  function LastNotNewline(t: string): (r: Option<nat>)
    ensures r.Some? ==> r.value < |t| && t[r.value] != '\n'
    ensures r.Some? ==> forall j :: r.value < j < |t| ==> t[j] == '\n'
    ensures r.None? ==> forall j :: 0 <= j < |t| ==> t[j] == '\n'
    decreases |t|
  {
    if |t| == 0 then None
    else if t[|t| - 1] != '\n' then Some(|t| - 1)
    else LastNotNewline(t[..|t| - 1])
  }

  /** The end of the line that starts at `w`: the first `'\n'` at or after it, or the end of `t`. */
  function LineEnd(t: string, w: nat): (n: nat)
    requires w <= |t|
    ensures w <= n <= |t|
    ensures '\n' !in t[w..n]
    ensures n < |t| ==> t[n] == '\n'
  {
    match IndexOf(t[w..], '\n')
    case None => |t|
    case Some(j) =>
      assert t[w..w + j] == t[w..][..j];
      w + j
  }

  /**
   * The first group, `\s*([^=]+)` before the first `=`: greedy leading whitespace, given
   * back one character when the text before `=` is all whitespace.
   */
  function KeyGroup(p: string): (k: string)
    requires |p| > 0
    ensures 0 < |k| <= |p|
    ensures k == p[|p| - |k|..]
    ensures AllSpace(p[..|p| - |k|])
  {
    var a := if LeadingSpaces(p) < |p| then LeadingSpaces(p) else |p| - 1;
    assert p[..a] == p[..LeadingSpaces(p)][..a];
    p[a..]
  }

  /**
   * The second group, `\s*(.+)\s*$` after the first `=`. After the leading whitespace the
   * value runs to the end of its line, and what follows must be whitespace. When everything
   * after `=` is whitespace, backtracking leaves the last character that is not a line
   * feed as the value.
   */
  function ValueGroup(t: string): (v: Option<string>)
    ensures v.Some? ==> |v.value| > 0 && '\n' !in v.value
  {
    var w := LeadingSpaces(t);
    if w < |t| then
      var n := LineEnd(t, w);
      if AllSpace(t[n..]) then
        assert t[w] != '\n';
        Some(t[w..n])
      else None
    else
      match LastNotNewline(t)
      case None => None
      case Some(j) => Some([t[j]])
  }

  /** The match once the text is cut at its first `=` into `p` and `t`. */
  function MatchAt(p: string, t: string): (r: Option<(string, string)>)
    requires '=' !in p
    ensures r.Some? ==> |r.value.0| > 0 && '=' !in r.value.0
    ensures r.Some? ==> |r.value.1| > 0 && '\n' !in r.value.1
  {
    if |p| == 0 then None
    else
      match ValueGroup(t)
      case None => None
      case Some(v) =>
        var k := KeyGroup(p);
        assert '=' !in k by { assert k == p[|p| - |k|..]; }
        Some((k, v))
  }

  /** `KEY_VALUE_REX.findall(s)`: the one `(key, value)` match, or none. */
  function ParseKeyValue(s: string): (r: Option<(string, string)>)
    ensures '=' !in s ==> r.None?
    ensures r.Some? ==> |r.value.0| > 0 && '=' !in r.value.0
    ensures r.Some? ==> |r.value.1| > 0 && '\n' !in r.value.1
  {
    match IndexOf(s, '=')
    case None => None
    case Some(i) => MatchAt(s[..i], s[i + 1..])
  }

  lemma ParseKeyValueCut(p: string, t: string)
    requires '=' !in p
    ensures ParseKeyValue(p + "=" + t) == MatchAt(p, t)
  {
    var s := p + "=" + t;
    IndexOfAfterPrefix(p, '=', t);
    assert s == p + ['='] + t;
    assert s[..|p|] == p;
    assert s[|p| + 1..] == t;
  }

  lemma ValueGroupSound(t: string) returns (mid: string, post: string)
    requires ValueGroup(t).Some?
    ensures t == mid + ValueGroup(t).value + post
    ensures AllSpace(mid) && AllSpace(post)
  {
    var v := ValueGroup(t).value;
    var w := LeadingSpaces(t);
    if w < |t| {
      var n := LineEnd(t, w);
      mid, post := t[..w], t[n..];
      assert t == mid + v + post;
    } else {
      var j := LastNotNewline(t).value;
      mid, post := t[..j], t[j + 1..];
      assert t == mid + v + post;
      forall m | 0 <= m < |post| ensures IsSpace(post[m]) {
        assert post[m] == t[..w][j + 1 + m];
      }
      forall m | 0 <= m < |mid| ensures IsSpace(mid[m]) {
        assert mid[m] == t[..w][m];
      }
    }
  }

  lemma MatchAtSound(p: string, t: string) returns (pre: string, mid: string, post: string)
    requires '=' !in p && MatchAt(p, t).Some?
    ensures p == pre + MatchAt(p, t).value.0
    ensures t == mid + MatchAt(p, t).value.1 + post
    ensures AllSpace(pre) && AllSpace(mid) && AllSpace(post)
  {
    var k := KeyGroup(p);
    pre := p[..|p| - |k|];
    mid, post := ValueGroupSound(t);
  }

  /**
   * What a match means: the line is whitespace, a key without `=`, `=`, whitespace, a
   * value without line break, and whitespace.
   */
  lemma ParseKeyValueSound(s: string) returns (pre: string, mid: string, post: string)
    requires ParseKeyValue(s).Some?
    ensures s == pre + ParseKeyValue(s).value.0 + "=" + mid + ParseKeyValue(s).value.1 + post
    ensures AllSpace(pre) && AllSpace(mid) && AllSpace(post)
  {
    var i := IndexOf(s, '=').value;
    var p, t := s[..i], s[i + 1..];
    assert s == p + "=" + t;
    ParseKeyValueCut(p, t);
    pre, mid, post := MatchAtSound(p, t);
    var k, v := MatchAt(p, t).value.0, MatchAt(p, t).value.1;
    Regroup(pre, k, "=", mid, v, post);
  }

  lemma Regroup(a: string, b: string, c: string, d: string, e: string, f: string)
    ensures (a + b) + c + (d + e + f) == a + b + c + d + e + f
  {
  }

  lemma ValueGroupComplete(mid: string, v: string, post: string)
    requires AllSpace(mid) && AllSpace(post)
    requires |v| > 0 && '\n' !in v
    ensures ValueGroup(mid + v + post).Some?
  {
    var t := mid + v + post;
    var w := LeadingSpaces(t);
    assert t[..|mid|] == mid;
    LeadingSpacesCover(t, |mid|);
    var e := |mid| + |v|;
    if w < |t| {
      var n := LineEnd(t, w);
      assert n >= e;
      forall m | 0 <= m < |t| - n ensures IsSpace(t[n..][m]) {
        assert t[n..][m] == post[n - e + m];
      }
    } else {
      assert t[|mid|] == v[0];
    }
  }

  /** Conversely, every line of that shape matches. */
  lemma ParseKeyValueComplete(pre: string, k: string, mid: string, v: string, post: string)
    requires AllSpace(pre) && AllSpace(mid) && AllSpace(post)
    requires |k| > 0 && '=' !in k
    requires |v| > 0 && '\n' !in v
    ensures ParseKeyValue(pre + k + "=" + mid + v + post).Some?
  {
    forall m | 0 <= m < |pre + k| ensures (pre + k)[m] != '=' {
      if m < |pre| { assert IsSpace(pre[m]); }
    }
    ParseKeyValueCut(pre + k, mid + v + post);
    assert pre + k + "=" + mid + v + post == (pre + k) + "=" + (mid + v + post);
    ValueGroupComplete(mid, v, post);
  }

  /** A key and a value that start with a non-space character come back as they were written. */
  lemma ParseKeyValueRoundTrip(k: string, v: string)
    requires |k| > 0 && '=' !in k && !IsSpace(k[0])
    requires |v| > 0 && '\n' !in v && !IsSpace(v[0])
    ensures ParseKeyValue(k + "=" + v) == Some((k, v))
  {
    ParseKeyValueCut(k, v);
    assert LeadingSpaces(k) == 0;
    assert KeyGroup(k) == k[0..] == k;
    assert LeadingSpaces(v) == 0;
    assert LineEnd(v, 0) == |v|;
    assert v[|v|..] == "";
    assert ValueGroup(v) == Some(v[0..|v|]);
    assert v[0..|v|] == v;
  }

  /** A line whose first `=` is followed by nothing but line feeds yields no pair. */
  lemma ParseKeyValueNoValue(k: string, breaks: string)
    requires '=' !in k
    requires forall j :: 0 <= j < |breaks| ==> breaks[j] == '\n'
    ensures ParseKeyValue(k + "=" + breaks).None?
  {
    ParseKeyValueCut(k, breaks);
    if |breaks| > 0 {
      assert LeadingSpaces(breaks) == |breaks| by {
        assert AllSpace(breaks[..|breaks|]) by { assert breaks[..|breaks|] == breaks; }
        LeadingSpacesCover(breaks, |breaks|);
      }
    }
  }

  // ---------------------------------------------------------------------------
  // Dictionaries built from `K=V` lines
  // ---------------------------------------------------------------------------

  /** Line `line` yields key `k`, which is not among the excluded names. */
  predicate Yields(line: string, excluded: seq<string>, k: string) {
    ParseKeyValue(line).Some? && ParseKeyValue(line).value.0 == k && k !in excluded
  }

  /**
   * `{K: V for el in lines for K, V in KEY_VALUE_REX.findall(el) if K not in excluded}`:
   * each match assigned in line order.
   */
  function CollectPairs(lines: seq<string>, excluded: seq<string>): (d: Dict<string>)
    ensures DistinctKeys(d)
    ensures forall i :: 0 <= i < |d| ==> d[i].0 !in excluded
    decreases |lines|
  {
    if |lines| == 0 then []
    else
      var d := CollectPairs(lines[..|lines| - 1], excluded);
      match ParseKeyValue(lines[|lines| - 1])
      case Some((k, v)) => if k in excluded then d else Put(d, k, v)
      case None => d
  }

  lemma CollectPairsStep(lines: seq<string>, excluded: seq<string>, k: string)
    requires |lines| > 0
    ensures k in Keys(CollectPairs(lines, excluded)) <==>
      k in Keys(CollectPairs(lines[..|lines| - 1], excluded)) || Yields(lines[|lines| - 1], excluded, k)
  {
    var d := CollectPairs(lines[..|lines| - 1], excluded);
    var r := ParseKeyValue(lines[|lines| - 1]);
    if r.Some? && r.value.0 !in excluded {
      assert CollectPairs(lines, excluded) == Put(d, r.value.0, r.value.1);
    } else {
      assert CollectPairs(lines, excluded) == d;
    }
  }

  /** Every key some line yields is in the dictionary. */
  lemma {:induction false} CollectPairsKeyFrom(lines: seq<string>, excluded: seq<string>, i: nat, k: string)
    requires i < |lines| && Yields(lines[i], excluded, k)
    ensures k in Keys(CollectPairs(lines, excluded))
    decreases |lines|
  {
    CollectPairsStep(lines, excluded, k);
    if i < |lines| - 1 {
      var init := lines[..|lines| - 1];
      assert init[i] == lines[i];
      CollectPairsKeyFrom(init, excluded, i, k);
    }
  }

  /** Every key in the dictionary comes from some line that yields it. */
  lemma {:induction false} CollectPairsKeySource(lines: seq<string>, excluded: seq<string>, k: string) returns (i: nat)
    requires k in Keys(CollectPairs(lines, excluded))
    ensures i < |lines| && Yields(lines[i], excluded, k)
    decreases |lines|
  {
    CollectPairsStep(lines, excluded, k);
    var init := lines[..|lines| - 1];
    if Yields(lines[|lines| - 1], excluded, k) {
      i := |lines| - 1;
    } else {
      i := CollectPairsKeySource(init, excluded, k);
      assert init[i] == lines[i];
    }
  }

  /** A key takes the value of the last line that yields it: later duplicates override earlier ones. */
  lemma {:induction false} CollectPairsLastWins(lines: seq<string>, excluded: seq<string>, i: nat, k: string, v: string)
    requires i < |lines| && ParseKeyValue(lines[i]) == Some((k, v)) && k !in excluded
    requires forall j :: i < j < |lines| ==> !Yields(lines[j], excluded, k)
    ensures Get(CollectPairs(lines, excluded), k) == Some(v)
    decreases |lines|
  {
    var init := lines[..|lines| - 1];
    if i < |lines| - 1 {
      assert init[i] == lines[i];
      forall j | i < j < |init| ensures !Yields(init[j], excluded, k) {
        assert init[j] == lines[j];
      }
      CollectPairsLastWins(init, excluded, i, k, v);
    }
  }

  /** `secret_labels()`: the `with_label` options as a dictionary. */
  function SecretLabels(withLabel: seq<string>): (d: Dict<string>)
    ensures DistinctKeys(d)
  {
    CollectPairs(withLabel, [])
  }

  // ---------------------------------------------------------------------------
  // dict2tags
  // ---------------------------------------------------------------------------

  /** An AWS tag, `{'Key': k, 'Value': v}`. */
  datatype Tag = Tag(key: string, value: string)

  /** `dict2tags(d)`: one tag per entry, in dictionary order. */
  function Dict2Tags(d: Dict<string>): (tags: seq<Tag>)
    ensures |tags| == |d|
    ensures forall i :: 0 <= i < |d| ==> tags[i].key == d[i].0 && tags[i].value == d[i].1
  {
    seq(|d|, i requires 0 <= i < |d| => Tag(d[i].0, d[i].1))
  }

  /** The dictionary a tag list describes, as `{t['Key']: t['Value'] for t in tags}`. */
  function Tags2Dict(tags: seq<Tag>): (d: Dict<string>)
    ensures DistinctKeys(d)
  {
    FromPairs(seq(|tags|, i requires 0 <= i < |tags| => (tags[i].key, tags[i].value)))
  }

  /** Assigning the entries of a dictionary in order into an empty one rebuilds it. */
  lemma {:induction false} FromPairsOfDict(d: Dict<string>)
    requires DistinctKeys(d)
    ensures FromPairs(d) == d
    decreases |d|
  {
    if |d| > 0 {
      var init := d[..|d| - 1];
      FromPairsOfDict(init);
      assert d[|d| - 1].0 !in Keys(init);
      assert d == init + [d[|d| - 1]];
    }
  }

  /** Mapping the tags back gives the original dictionary. */
  lemma Tags2DictOfDict2Tags(d: Dict<string>)
    requires DistinctKeys(d)
    ensures Tags2Dict(Dict2Tags(d)) == d
  {
    var tags := Dict2Tags(d);
    assert seq(|tags|, i requires 0 <= i < |tags| => (tags[i].key, tags[i].value)) == d;
    FromPairsOfDict(d);
  }

  // ---------------------------------------------------------------------------
  // chunk_sequence
  // ---------------------------------------------------------------------------

  /** The chunks of `s`: consecutive slices of `limit` elements, the last one possibly shorter. */
  function Chunks<T>(s: seq<T>, limit: nat): (cs: seq<seq<T>>)
    requires limit > 0
    decreases |s|
  {
    if |s| == 0 then []
    else if |s| <= limit then [s]
    else [s[..limit]] + Chunks(s[limit..], limit)
  }

  function Flatten<T>(cs: seq<seq<T>>): seq<T>
    decreases |cs|
  {
    if |cs| == 0 then [] else cs[0] + Flatten(cs[1..])
  }

  /** Concatenating the chunks gives back the sequence, in order. */
  lemma {:induction false} FlattenChunks<T>(s: seq<T>, limit: nat)
    requires limit > 0
    ensures Flatten(Chunks(s, limit)) == s
    decreases |s|
  {
    if |s| > limit {
      FlattenChunks(s[limit..], limit);
      assert Chunks(s, limit)[1..] == Chunks(s[limit..], limit);
      assert s == s[..limit] + s[limit..];
    } else if |s| > 0 {
      assert Chunks(s, limit)[1..] == [];
    }
  }

  /**
   * Every chunk is non-empty and has at most `limit` elements, all but the last exactly
   * `limit`; there are ceil(|s| / limit) of them, and none for an empty sequence.
   */
  lemma {:induction false} ChunkSizes<T>(s: seq<T>, limit: nat)
    requires limit > 0
    ensures var cs := Chunks(s, limit);
      && (forall i :: 0 <= i < |cs| ==> 0 < |cs[i]| <= limit)
      && (forall i :: 0 <= i < |cs| - 1 ==> |cs[i]| == limit)
      && (|s| == 0 <==> |cs| == 0)
      && (|s| > 0 ==> (|cs| - 1) * limit < |s| <= |cs| * limit)
    decreases |s|
  {
    var cs := Chunks(s, limit);
    if |s| > limit {
      var rest := Chunks(s[limit..], limit);
      ChunkSizes(s[limit..], limit);
      assert cs == [s[..limit]] + rest;
      assert forall i :: 1 <= i < |cs| ==> cs[i] == rest[i - 1];
      ChunkCountStep(|rest|, |cs|, limit, |s|);
    } else if |s| > 0 {
      assert cs == [s];
    }
  }

  /** One more full chunk in front: the bounds on the chunk count move up by one. */
  lemma ChunkCountStep(n: int, m: int, limit: int, len: int)
    requires m == n + 1
    requires (n - 1) * limit < len - limit <= n * limit
    ensures (m - 1) * limit < len <= m * limit
  {
    assert m * limit == n * limit + limit;
    assert n * limit == (n - 1) * limit + limit;
  }

  /** Every element of a chunk comes from the sequence. */
  lemma {:induction false} ChunkMembers<T>(s: seq<T>, limit: nat, i: nat, x: T)
    requires limit > 0 && i < |Chunks(s, limit)| && x in Chunks(s, limit)[i]
    ensures x in s
    decreases |s|
  {
    if |s| > limit && i > 0 {
      assert Chunks(s, limit)[i] == Chunks(s[limit..], limit)[i - 1];
      ChunkMembers(s[limit..], limit, i - 1, x);
    }
  }

  datatype ChunkError = RangeStepZero

  /**
   * `list(chunk_sequence(s, limit))`. A zero `limit` makes `range` raise `ValueError`;
   * a negative one gives an empty range.
   */
  method ChunkSequence<T>(s: seq<T>, limit: int) returns (r: Result<seq<seq<T>>, ChunkError>)
    ensures limit == 0 <==> r.Err?
    ensures limit < 0 ==> r == Ok([])
    ensures limit > 0 ==> r == Ok(Chunks(s, limit))
  {
    if limit == 0 {
      return Err(RangeStepZero);
    }
    if limit < 0 {
      return Ok([]);
    }
    var chunks: seq<seq<T>> := [];
    var top := 0;
    var el := 0;
    while el < |s|
      invariant el == top && 0 <= el
      invariant chunks + Chunks(s[if el <= |s| then el else |s|..], limit) == Chunks(s, limit)
      decreases |s| - el
    {
      var hi := if el + limit <= |s| then el + limit else |s|;
      ghost var rest := s[el..];
      if el + limit < |s| {
        assert rest[..limit] == s[top..hi];
        assert rest[limit..] == s[el + limit..];
        assert Chunks(rest, limit) == [s[top..hi]] + Chunks(s[el + limit..], limit);
      } else {
        assert rest == s[top..hi];
        assert Chunks(rest, limit) == [s[top..hi]];
        assert s[|s|..] == [];
      }
      chunks := chunks + [s[top..hi]];
      top := top + limit;
      el := el + limit;
    }
    assert s[|s|..] == [];
    assert chunks + [] == chunks;
    return Ok(chunks);
  }

  // ---------------------------------------------------------------------------
  // TokenGenerator.get_token
  // ---------------------------------------------------------------------------

  /** `TokenGenerator.get_token`: the prefix and the unpadded URL-safe base 64 of the URL's UTF-8. */
  function Token(url: string): (token: string)
    ensures StartsWith(token, TOKEN_PREFIX)
  {
    TOKEN_PREFIX + RStrip(Base64.Encode(Utf8.Encode(url)), '=')
  }

  /** What a reader of the token does with it: drop the prefix, restore the padding, decode. */
  function TokenUrl(token: string): Option<string> {
    if !StartsWith(token, TOKEN_PREFIX) then None
    else
      match Base64.Decode(Base64.Repad(token[|TOKEN_PREFIX|..]))
      case None => None
      case Some(bs) => Utf8.Decode(bs)
  }

  /** The token carries the unpadded encoding itself. */
  lemma TokenIsUnpadded(url: string)
    ensures Token(url) == TOKEN_PREFIX + Base64.Unpadded(Utf8.Encode(url))
  {
    var bs := Utf8.Encode(url);
    var u := Base64.Unpadded(bs);
    var e := Base64.Encode(bs);
    Base64.EncodeIsPadded(bs);
    assert e == u + e[|u|..];
    if |u| > 0 {
      assert Base64.InAlphabet(u[|u| - 1]);
    }
    RStripRun(u, '=', e[|u|..]);
  }

  /** After the prefix the token has no `=` and only characters of the URL-safe alphabet. */
  lemma TokenAlphabet(url: string)
    ensures forall i :: |TOKEN_PREFIX| <= i < |Token(url)| ==> Base64.InAlphabet(Token(url)[i])
    ensures '=' !in Token(url)[|TOKEN_PREFIX|..]
  {
    TokenIsUnpadded(url);
    AlphabetAfterPrefix(TOKEN_PREFIX, Base64.Unpadded(Utf8.Encode(url)));
  }

  lemma AlphabetAfterPrefix(p: string, u: string)
    requires forall i :: 0 <= i < |u| ==> Base64.InAlphabet(u[i])
    ensures forall i :: |p| <= i < |p + u| ==> Base64.InAlphabet((p + u)[i])
    ensures (p + u)[|p|..] == u && '=' !in u
  {
    assert (p + u)[|p|..] == u;
    assert !Base64.InAlphabet('=');
  }

  /** Re-padding and decoding the token's suffix returns the URL. */
  lemma TokenRoundTrip(url: string)
    ensures TokenUrl(Token(url)) == Some(url)
  {
    var bs := Utf8.Encode(url);
    TokenIsUnpadded(url);
    assert Token(url)[|TOKEN_PREFIX|..] == Base64.Unpadded(bs);
    Base64.RepadUnpadded(bs);
    Base64.DecodeEncode(bs);
    Utf8.DecodeEncode(url);
  }

  // ---------------------------------------------------------------------------
  // STSClientFactory._retrieve_cluster_name / _inject_cluster_name_header
  // ---------------------------------------------------------------------------

  const CLUSTER_NAME_PARAM: string := "ClusterName"
  const CLUSTER_CONTEXT_KEY: string := "eks_cluster"

  /** The `provide-client-params` handler: the `ClusterName` parameter moves into the request context. */
  function ClusterNameMoved(params: Dict<string>, context: Dict<string>): (r: (Dict<string>, Dict<string>))
    ensures Get(params, CLUSTER_NAME_PARAM).None? ==> r == (params, context)
    ensures DistinctKeys(params) ==> CLUSTER_NAME_PARAM !in Keys(r.0)
    ensures forall k :: k != CLUSTER_NAME_PARAM ==> Get(r.0, k) == Get(params, k)
    ensures Get(params, CLUSTER_NAME_PARAM).Some? ==>
      Get(r.1, CLUSTER_CONTEXT_KEY) == Get(params, CLUSTER_NAME_PARAM)
    ensures forall k :: k != CLUSTER_CONTEXT_KEY ==> Get(r.1, k) == Get(context, k)
  {
    match Get(params, CLUSTER_NAME_PARAM)
    case None => (params, context)
    case Some(name) => (Remove(params, CLUSTER_NAME_PARAM), Put(context, CLUSTER_CONTEXT_KEY, name))
  }

  /** The `before-sign` handler: the context's cluster name becomes the `x-k8s-aws-id` header. */
  function HeadersWithClusterName(context: Dict<string>, headers: Dict<string>): (h: Dict<string>)
    ensures Get(context, CLUSTER_CONTEXT_KEY).None? ==> h == headers
    ensures Get(context, CLUSTER_CONTEXT_KEY).Some? ==>
      Get(h, CLUSTER_NAME_HEADER) == Get(context, CLUSTER_CONTEXT_KEY)
    ensures forall k :: k != CLUSTER_NAME_HEADER ==> Get(h, k) == Get(headers, k)
  {
    match Get(context, CLUSTER_CONTEXT_KEY)
    case None => headers
    case Some(name) => Put(headers, CLUSTER_NAME_HEADER, name)
  }

  /** A `GetCallerIdentity` request on its way through the two handlers. */
  class StsRequest {
    var params: Dict<string>
    var context: Dict<string>
    var headers: Dict<string>

    constructor(params: Dict<string>, context: Dict<string>, headers: Dict<string>)
      ensures this.params == params && this.context == context && this.headers == headers
    {
      this.params := params;
      this.context := context;
      this.headers := headers;
    }

    /** `_retrieve_cluster_name(params, context)`: pops `ClusterName` and stores it in the context. */
    method RetrieveClusterName()
      modifies this
      ensures (params, context) == ClusterNameMoved(old(params), old(context))
      ensures headers == old(headers)
    {
      if CLUSTER_NAME_PARAM in Keys(params) {
        var name := Get(params, CLUSTER_NAME_PARAM).value;
        params := Remove(params, CLUSTER_NAME_PARAM);
        context := Put(context, CLUSTER_CONTEXT_KEY, name);
      }
    }

    /** `_inject_cluster_name_header(request)`: copies the context's cluster name into the headers. */
    method InjectClusterNameHeader()
      modifies this
      ensures headers == HeadersWithClusterName(old(context), old(headers))
      ensures params == old(params) && context == old(context)
    {
      if CLUSTER_CONTEXT_KEY in Keys(context) {
        headers := Put(headers, CLUSTER_NAME_HEADER, Get(context, CLUSTER_CONTEXT_KEY).value);
      }
    }
  }

  /**
   * Both handlers in turn: a `ClusterName` parameter ends up as the header and nowhere in
   * the parameters; without one the header is whatever the context already held.
   */
  lemma HandlersCarryClusterName(params: Dict<string>, context: Dict<string>, headers: Dict<string>)
    requires DistinctKeys(params)
    ensures var (p, c) := ClusterNameMoved(params, context);
      var h := HeadersWithClusterName(c, headers);
      && CLUSTER_NAME_PARAM !in Keys(p)
      && (Get(params, CLUSTER_NAME_PARAM).Some? ==> Get(h, CLUSTER_NAME_HEADER) == Get(params, CLUSTER_NAME_PARAM))
      && (Get(params, CLUSTER_NAME_PARAM).None? && Get(context, CLUSTER_CONTEXT_KEY).None? ==> h == headers)
      && (forall k :: k != CLUSTER_NAME_HEADER ==> Get(h, k) == Get(headers, k))
  {
  }
}
