/** The KMS alias lookup of `env_kube_sps/kms.py`. */
module Kms {
  import opened Context

  predicate Names(e: AliasEntry, alias: string) {
    e.Alias? && e.aliasName == alias
  }

  /** The `check` list: the entries, in order, that are truthy and carry the wanted alias name. */
  function Matching(aliases: seq<AliasEntry>, alias: string): (m: seq<AliasEntry>)
    ensures forall i :: 0 <= i < |m| ==> Names(m[i], alias)
    ensures |m| <= |aliases|
    decreases |aliases|
  {
    if |aliases| == 0 then []
    else (if Names(aliases[0], alias) then [aliases[0]] else []) + Matching(aliases[1..], alias)
  }

  /** An empty `check` list means no entry names the alias; a non-empty one, that some does. */
  lemma {:induction false} MatchingNonEmpty(aliases: seq<AliasEntry>, alias: string)
    ensures |Matching(aliases, alias)| > 0 <==> exists i :: 0 <= i < |aliases| && Names(aliases[i], alias)
    decreases |aliases|
  {
    if |aliases| > 0 {
      MatchingNonEmpty(aliases[1..], alias);
      if exists i :: 0 <= i < |aliases| && Names(aliases[i], alias) {
        var i :| 0 <= i < |aliases| && Names(aliases[i], alias);
        if i > 0 {
          assert Names(aliases[1..][i - 1], alias);
        }
      }
      if exists i :: 0 <= i < |aliases| - 1 && Names(aliases[1..][i], alias) {
        var i :| 0 <= i < |aliases| - 1 && Names(aliases[1..][i], alias);
        assert Names(aliases[i + 1], alias);
      }
    }
  }

  /** Filtering a concatenation is concatenating the filtered parts. */
  lemma {:induction false} MatchingAppend(a: seq<AliasEntry>, b: seq<AliasEntry>, alias: string)
    ensures Matching(a + b, alias) == Matching(a, alias) + Matching(b, alias)
    decreases |a|
  {
    if |a| > 0 {
      assert (a + b)[1..] == a[1..] + b;
      MatchingAppend(a[1..], b, alias);
    } else {
      assert a + b == b;
    }
  }

  /** The key id `check_key` stores: the first match's alias name, or `''` when nothing matches. */
  function KeyIdFor(aliases: seq<AliasEntry>, alias: string): (id: string)
    ensures |Matching(aliases, alias)| > 0 ==> id == alias
    ensures |Matching(aliases, alias)| == 0 ==> id == ""
  {
    var m := Matching(aliases, alias);
    if |m| > 0 then m[0].aliasName else ""
  }

  /** Once the alias has been seen, later fetches, duplicates included, keep the same key id. */
  lemma KeyIdStable(aliases: seq<AliasEntry>, fetched: seq<AliasEntry>, alias: string)
    requires |Matching(aliases, alias)| > 0
    ensures KeyIdFor(aliases + fetched, alias) == alias
    ensures |Matching(aliases + fetched, alias)| > 0
  {
    MatchingAppend(aliases, fetched, alias);
  }

  /**
   * `check_key()`: appends the fetched alias list to `kms_aliases`, then sets `keyid`
   * from the accumulated list; the result says whether the alias was found.
   */
  method CheckKey(ctx: Ctx, fetched: seq<AliasEntry>) returns (found: bool)
    modifies ctx`kmsAliases, ctx`keyid
    ensures ctx.kmsAliases == old(ctx.kmsAliases) + fetched
    ensures found <==> exists i :: 0 <= i < |ctx.kmsAliases| && Names(ctx.kmsAliases[i], ctx.kmsAlias)
    ensures ctx.keyid == (if found then ctx.kmsAlias else "")
  {
    ctx.kmsAliases := ctx.kmsAliases + fetched;
    var check := Matching(ctx.kmsAliases, ctx.kmsAlias);
    MatchingNonEmpty(ctx.kmsAliases, ctx.kmsAlias);
    if |check| > 0 {
      ctx.keyid := check[0].aliasName;
      found := true;
    } else {
      ctx.keyid := "";
      found := false;
    }
  }

  /**
   * `preflight()` returns the function `check_key` itself, uncalled: always truthy, and it
   * reads no state and fetches nothing.
   */
  function Preflight(): (truthy: bool)
    ensures truthy
  {
    true
  }
}
