/**
 * `ysplit`: splits a bundle of Kubernetes manifests into one file per document, naming each
 * file after a number for its kind (in order of first appearance), its kind and its name.
 */
module YSplit {
  import opened Wrappers
  import opened Strings
  import opened PyDict

  /** A document of the bundle: falsy (empty, `null`), or a manifest with a kind and a name. */
  datatype Document = Empty | Manifest(kind: string, name: string)

  /** `'%-.2d' % n`: at least two digits, zero-padded. */
  function Pad2(n: nat): (r: string)
    ensures |r| >= 2
    ensures forall i :: 0 <= i < |r| ==> IsDigit(r[i])
    ensures DecimalValue(r) == n
    ensures n >= 10 ==> r == Decimal(n)
  {
    DecimalRoundTrip(n);
    if n < 10 then
      var r := ['0', DigitChar(n)];
      assert r[..1] == ['0'] && r[..1][..0] == [];
      r
    else Decimal(n)
  }

  /** The file-name prefix of the `n`-th kind. */
  function KindPrefix(n: nat): (p: string)
    ensures EndsWith(p, "--") && p[..|p| - 2] == Pad2(n)
  {
    Pad2(n) + "--"
  }

  /** `f'{prefix}{kind}--{name}.yaml'`. */
  function FileName(n: nat, m: Document): (f: string)
    requires m.Manifest?
    ensures StartsWith(f, KindPrefix(n) + m.kind + "--" + m.name)
    ensures EndsWith(f, ".yaml")
    ensures |f| == |KindPrefix(n)| + |m.kind| + 2 + |m.name| + 5
  {
    KindPrefix(n) + m.kind + "--" + m.name + ".yaml"
  }

  /** `f'{file_path}/{doc_name}'`. */
  function DocPath(filePath: string, n: nat, m: Document): (p: string)
    requires m.Manifest?
    ensures StartsWith(p, filePath + "/") && p[|filePath| + 1..] == FileName(n, m)
  {
    filePath + "/" + FileName(n, m)
  }

  /** The manifests of the bundle, falsy documents dropped, in bundle order. */
  function Manifests(docs: seq<Document>): (ms: seq<Document>)
    ensures forall i :: 0 <= i < |ms| ==> ms[i].Manifest?
    ensures |ms| <= |docs|
    decreases |docs|
  {
    if |docs| == 0 then []
    else
      var init, last := docs[..|docs| - 1], docs[|docs| - 1];
      Manifests(init) + (if last.Manifest? then [last] else [])
  }

  /** Exactly the manifests of the bundle survive: none is dropped and nothing else is kept. */
  lemma {:induction false} ManifestsMembers(docs: seq<Document>)
    ensures forall d :: d in Manifests(docs) <==> d in docs && d.Manifest?
    decreases |docs|
  {
    if |docs| > 0 {
      var init, last := docs[..|docs| - 1], docs[|docs| - 1];
      ManifestsMembers(init);
      assert docs == init + [last];
      assert forall d :: d in docs <==> d in init || d == last;
    }
  }

  /** Filtering distributes over concatenation, so the manifests keep their bundle order. */
  lemma {:induction false} ManifestsAppend(a: seq<Document>, b: seq<Document>)
    ensures Manifests(a + b) == Manifests(a) + Manifests(b)
    decreases |b|
  {
    if |b| > 0 {
      var init, last := b[..|b| - 1], b[|b| - 1];
      ManifestsAppend(a, init);
      assert (a + b)[..|a + b| - 1] == a + init;
      assert (a + b)[|a + b| - 1] == last;
    } else {
      assert a + b == a;
    }
  }

  predicate HasKind(docs: seq<Document>, k: string) {
    exists j :: 0 <= j < |docs| && docs[j].Manifest? && docs[j].kind == k
  }

  /**
   * `kind_prefixes` after the documents, grown by `setdefault(kind, len(kind_prefixes))`:
   * the kinds in order of first appearance, each numbered by its position.
   */
  function KindNumbers(docs: seq<Document>): (kinds: Dict<nat>)
    ensures DistinctKeys(kinds)
    ensures |docs| > 0 && docs[|docs| - 1].Manifest? ==> docs[|docs| - 1].kind in Keys(kinds)
    decreases |docs|
  {
    if |docs| == 0 then []
    else
      var prev := KindNumbers(docs[..|docs| - 1]);
      var last := docs[|docs| - 1];
      if last.Empty? then prev else SetDefault(prev, last.kind, |prev|).0
  }

  /** Each kind's number is its position among the kinds, in order of first appearance. */
  lemma {:induction false} KindNumbersArePositions(docs: seq<Document>)
    ensures forall i :: 0 <= i < |KindNumbers(docs)| ==> KindNumbers(docs)[i].1 == i
    decreases |docs|
  {
    if |docs| > 0 {
      KindNumbersArePositions(docs[..|docs| - 1]);
    }
  }

  /** A kind is numbered exactly when some manifest of the bundle has it. */
  lemma {:induction false} KindNumbersHaveKinds(docs: seq<Document>, k: string)
    ensures k in Keys(KindNumbers(docs)) <==> HasKind(docs, k)
    decreases |docs|
  {
    if |docs| > 0 {
      var init, last := docs[..|docs| - 1], docs[|docs| - 1];
      KindNumbersHaveKinds(init, k);
      HasKindLast(docs, k);
      assert docs == init + [last];
      KindNumbersSnoc(init, last);
    }
  }

  lemma HasKindLast(docs: seq<Document>, k: string)
    requires |docs| > 0
    ensures HasKind(docs, k) <==>
      HasKind(docs[..|docs| - 1], k) || (docs[|docs| - 1].Manifest? && docs[|docs| - 1].kind == k)
  {
    var init := docs[..|docs| - 1];
    if HasKind(init, k) {
      var j :| 0 <= j < |init| && init[j].Manifest? && init[j].kind == k;
      assert docs[j] == init[j];
    }
    if HasKind(docs, k) && !(docs[|docs| - 1].Manifest? && docs[|docs| - 1].kind == k) {
      var j :| 0 <= j < |docs| && docs[j].Manifest? && docs[j].kind == k;
      assert j < |init|;
      assert init[j] == docs[j];
    }
  }

  lemma KindNumbersSnoc(docs: seq<Document>, d: Document)
    ensures KindNumbers(docs + [d]) ==
      if d.Empty? then KindNumbers(docs) else SetDefault(KindNumbers(docs), d.kind, |KindNumbers(docs)|).0
  {
    assert (docs + [d])[..|docs|] == docs;
  }

  /** Later documents never renumber a kind and never reorder the kinds seen so far. */
  lemma {:induction false} KindNumbersStable(docs: seq<Document>, more: seq<Document>, k: string)
    requires k in Keys(KindNumbers(docs))
    ensures Get(KindNumbers(docs + more), k) == Get(KindNumbers(docs), k)
    ensures StartsWithSeq(KindNumbers(docs + more), KindNumbers(docs))
    decreases |more|
  {
    if |more| == 0 {
      assert docs + more == docs;
      assert KindNumbers(docs)[..|KindNumbers(docs)|] == KindNumbers(docs);
    } else {
      var init, last := more[..|more| - 1], more[|more| - 1];
      assert docs + more == (docs + init) + [last];
      KindNumbersStable(docs, init, k);
      var base, prev := KindNumbers(docs), KindNumbers(docs + init);
      PutKeysKept(base, prev, k);
      KindNumbersSnocKeeps(docs + init, last, k);
      StartsWithSeqTransitive(KindNumbers(docs + more), prev, base);
    }
  }

  /** One more document keeps every numbered kind's number and the order of the kinds. */
  lemma {:induction false} KindNumbersSnocKeeps(docs: seq<Document>, d: Document, k: string)
    requires k in Keys(KindNumbers(docs))
    ensures Get(KindNumbers(docs + [d]), k) == Get(KindNumbers(docs), k)
    ensures StartsWithSeq(KindNumbers(docs + [d]), KindNumbers(docs))
  {
    KindNumbersSnoc(docs, d);
    var prev, all := KindNumbers(docs), KindNumbers(docs + [d]);
    if all != prev {
      assert all == prev + [(d.kind, |prev|)];
      assert all[..|prev|] == prev;
    } else {
      assert all[..|prev|] == prev;
    }
  }

  lemma StartsWithSeqTransitive<T>(a: seq<T>, b: seq<T>, c: seq<T>)
    requires StartsWithSeq(a, b) && StartsWithSeq(b, c)
    ensures StartsWithSeq(a, c)
  {
    assert a[..|c|] == b[..|b|][..|c|];
  }

  /** A key of a dict is a key of any dict that starts with it. */
  lemma PutKeysKept(base: Dict<nat>, d: Dict<nat>, k: string)
    requires StartsWithSeq(d, base) && k in Keys(base)
    ensures k in Keys(d)
  {
    var i :| 0 <= i < |base| && Keys(base)[i] == k;
    assert d[i] == base[i];
    assert Keys(d)[i] == k;
  }

  /** The number of a kind is the number of distinct kinds seen before its first manifest. */
  lemma FirstAppearanceNumber(docs: seq<Document>, j: nat)
    requires j < |docs| && docs[j].Manifest?
    requires !HasKind(docs[..j], docs[j].kind)
    ensures Get(KindNumbers(docs), docs[j].kind) == Some(|KindNumbers(docs[..j])|)
  {
    var k, pre, upto := docs[j].kind, docs[..j], docs[..j + 1];
    assert upto == pre + [docs[j]];
    FirstAppearanceStep(pre, docs[j]);
    KindNumbersStablePrefix(docs, j + 1, k);
  }

  lemma KindNumbersStablePrefix(docs: seq<Document>, n: nat, k: string)
    requires n <= |docs| && k in Keys(KindNumbers(docs[..n]))
    ensures Get(KindNumbers(docs), k) == Get(KindNumbers(docs[..n]), k)
  {
    KindNumbersStable(docs[..n], docs[n..], k);
    assert docs[..n] + docs[n..] == docs;
  }

  /** A manifest of a kind not seen before gets the next number. */
  lemma FirstAppearanceStep(docs: seq<Document>, d: Document)
    requires d.Manifest? && !HasKind(docs, d.kind)
    ensures Get(KindNumbers(docs + [d]), d.kind) == Some(|KindNumbers(docs)|)
    ensures d.kind in Keys(KindNumbers(docs + [d]))
  {
    KindNumbersHaveKinds(docs, d.kind);
    KindNumbersSnoc(docs, d);
  }

  /** The writes of the run, in order: a path for each manifest, with the manifest written there. */
  function Writes(filePath: string, docs: seq<Document>): (ws: seq<(string, Document)>)
    ensures |ws| == |Manifests(docs)|
    decreases |docs|
  {
    if |docs| == 0 then []
    else
      var init, last := docs[..|docs| - 1], docs[|docs| - 1];
      if last.Empty? then Writes(filePath, init)
      else
        var n := Get(KindNumbers(docs), last.kind).value;
        Writes(filePath, init) + [(DocPath(filePath, n, last), last)]
  }

  /** Where a manifest is written, once the bundle's kinds are numbered. */
  function PathIn(filePath: string, kinds: Dict<nat>, m: Document): (p: string)
    requires m.Manifest? && m.kind in Keys(kinds)
    ensures Get(kinds, m.kind).Some?
    ensures StartsWith(p, filePath + "/") && p[|filePath| + 1..] == FileName(Get(kinds, m.kind).value, m)
  {
    DocPath(filePath, Get(kinds, m.kind).value, m)
  }

  /**
   * Exactly one write per manifest, in bundle order; each goes to the path its kind's final
   * number and its own kind and name give, so equal kind and name mean equal path.
   */
  predicate WritesFollowManifests(filePath: string, docs: seq<Document>) {
    var ws, ms, kinds := Writes(filePath, docs), Manifests(docs), KindNumbers(docs);
    && |ws| == |ms|
    && forall i :: 0 <= i < |ms| ==> ms[i].kind in Keys(kinds) && ws[i] == (PathIn(filePath, kinds, ms[i]), ms[i])
  }

  lemma {:induction false} WritesPerManifest(filePath: string, docs: seq<Document>)
    ensures WritesFollowManifests(filePath, docs)
    decreases |docs|
  {
    if |docs| > 0 {
      var init, last := docs[..|docs| - 1], docs[|docs| - 1];
      assert docs == init + [last];
      WritesPerManifest(filePath, init);
      WritesPerManifestSnoc(filePath, init, last);
    }
  }

  /** The step of `WritesPerManifest`: one more document keeps the earlier writes and adds its own. */
  lemma WritesPerManifestSnoc(filePath: string, init: seq<Document>, last: Document)
    requires WritesFollowManifests(filePath, init)
    ensures WritesFollowManifests(filePath, init + [last])
  {
    var docs := init + [last];
    var ws, ms, kinds := Writes(filePath, docs), Manifests(docs), KindNumbers(docs);
    forall i | 0 <= i < |ms|
      ensures ms[i].kind in Keys(kinds) && ws[i] == (PathIn(filePath, kinds, ms[i]), ms[i])
    {
      if i < |Manifests(init)| {
        EarlierWriteKept(filePath, init, last, i);
      } else {
        ManifestsSnoc(init, last);
        NewWrite(filePath, init, last);
      }
    }
  }

  /** A write made before one more document is still the one its manifest's kind number gives. */
  lemma EarlierWriteKept(filePath: string, init: seq<Document>, last: Document, i: nat)
    requires |Writes(filePath, init)| == |Manifests(init)| && i < |Manifests(init)|
    requires Manifests(init)[i].kind in Keys(KindNumbers(init))
    requires Writes(filePath, init)[i] == (PathIn(filePath, KindNumbers(init), Manifests(init)[i]), Manifests(init)[i])
    ensures var docs := init + [last];
      var ws, ms, kinds := Writes(filePath, docs), Manifests(docs), KindNumbers(docs);
      i < |ms| && i < |ws| && ms[i].kind in Keys(kinds) && ws[i] == (PathIn(filePath, kinds, ms[i]), ms[i])
  {
    var m := Manifests(init)[i];
    ManifestsSnoc(init, last);
    WritesSnoc(filePath, init, last);
    assert Manifests(init + [last])[i] == m;
    assert Writes(filePath, init + [last])[i] == Writes(filePath, init)[i];
    EarlierPathKept(filePath, init, last, m);
  }

  /** A manifest added at the end is written last, to the path of its kind's number. */
  lemma NewWrite(filePath: string, init: seq<Document>, last: Document)
    requires |Writes(filePath, init)| == |Manifests(init)|
    requires last.Manifest?
    ensures var docs := init + [last];
      var ws, ms, kinds := Writes(filePath, docs), Manifests(docs), KindNumbers(docs);
      var i := |Manifests(init)|;
      i < |ms| && i < |ws| && ms[i].kind in Keys(kinds) && ws[i] == (PathIn(filePath, kinds, ms[i]), ms[i])
  {
    ManifestsSnoc(init, last);
    WritesSnoc(filePath, init, last);
    KindNumbersSnoc(init, last);
  }

  lemma ManifestsSnoc(docs: seq<Document>, d: Document)
    ensures Manifests(docs + [d]) == Manifests(docs) + (if d.Manifest? then [d] else [])
  {
    assert (docs + [d])[..|docs|] == docs;
  }

  /** A manifest numbered before one more document goes to the same path after it. */
  lemma EarlierPathKept(filePath: string, init: seq<Document>, last: Document, m: Document)
    requires m.Manifest? && m.kind in Keys(KindNumbers(init))
    ensures m.kind in Keys(KindNumbers(init + [last]))
    ensures PathIn(filePath, KindNumbers(init + [last]), m) == PathIn(filePath, KindNumbers(init), m)
  {
    KindNumbersSnocKeeps(init, last, m.kind);
    PutKeysKept(KindNumbers(init), KindNumbers(init + [last]), m.kind);
  }

  /** Falsy documents take no number: the kinds are numbered as in the bundle's manifests. */
  lemma {:induction false} EmptyDocumentsTakeNoNumber(docs: seq<Document>)
    ensures KindNumbers(docs) == KindNumbers(Manifests(docs))
    decreases |docs|
  {
    if |docs| > 0 {
      var init, last := docs[..|docs| - 1], docs[|docs| - 1];
      EmptyDocumentsTakeNoNumber(init);
      if last.Manifest? {
        assert Manifests(docs) == Manifests(init) + [last];
        KindNumbersSnoc(Manifests(init), last);
        assert KindNumbers(docs) == SetDefault(KindNumbers(init), last.kind, |KindNumbers(init)|).0;
      } else {
        assert Manifests(docs) == Manifests(init);
        assert KindNumbers(docs) == KindNumbers(init);
      }
    }
  }

  lemma WritesSnoc(filePath: string, docs: seq<Document>, d: Document)
    ensures Writes(filePath, docs + [d]) == if d.Empty? then Writes(filePath, docs)
      else Writes(filePath, docs) + [(DocPath(filePath, Get(KindNumbers(docs + [d]), d.kind).value, d), d)]
  {
    assert (docs + [d])[..|docs|] == docs;
  }

  /** Falsy documents cause no write: the bundle writes what its manifests write. */
  lemma {:induction false} EmptyDocumentsWriteNothing(filePath: string, docs: seq<Document>)
    ensures Writes(filePath, docs) == Writes(filePath, Manifests(docs))
    decreases |docs|
  {
    if |docs| > 0 {
      var init, last := docs[..|docs| - 1], docs[|docs| - 1];
      EmptyDocumentsWriteNothing(filePath, init);
      if last.Manifest? {
        assert Manifests(docs) == Manifests(init) + [last];
        WritesSnoc(filePath, Manifests(init), last);
        EmptyDocumentsTakeNoNumber(docs);
        assert Writes(filePath, docs) == Writes(filePath, init) + [(DocPath(filePath, Get(KindNumbers(docs), last.kind).value, last), last)];
      } else {
        assert Manifests(docs) == Manifests(init);
        assert Writes(filePath, docs) == Writes(filePath, init);
      }
    }
  }

  /** The files left behind: each path holds the last manifest written to it. */
  function Files(ws: seq<(string, Document)>): (files: map<string, Document>)
    ensures forall i :: 0 <= i < |ws| ==> ws[i].0 in files
    decreases |ws|
  {
    if |ws| == 0 then map[]
    else Files(ws[..|ws| - 1])[ws[|ws| - 1].0 := ws[|ws| - 1].1]
  }

  /** A write that no later write goes to the same path survives; the others are overwritten. */
  lemma {:induction false} LastWriteWins(ws: seq<(string, Document)>, i: nat)
    requires i < |ws|
    requires forall j :: i < j < |ws| ==> ws[j].0 != ws[i].0
    ensures Files(ws)[ws[i].0] == ws[i].1
    decreases |ws|
  {
    if i < |ws| - 1 {
      LastWriteWins(ws[..|ws| - 1], i);
    }
  }

  /** Two manifests with the same kind and name go to one path, and the later one stays. */
  lemma SameKindAndNameOverwrite(filePath: string, docs: seq<Document>, a: nat, b: nat)
    requires a < b < |Manifests(docs)|
    requires Manifests(docs)[a] == Manifests(docs)[b]
    ensures Writes(filePath, docs)[a].0 == Writes(filePath, docs)[b].0
  {
    WritesPerManifest(filePath, docs);
  }

  /** `DocPath` written out as `run` builds it. */
  lemma DocPathSpelled(filePath: string, n: nat, m: Document)
    requires m.Manifest?
    ensures DocPath(filePath, n, m) == filePath + "/" + (KindPrefix(n) + m.kind + "--" + m.name + ".yaml")
  {
  }

  /** What one more document does to the numbering and to the writes. */
  lemma RunStep(filePath: string, docs: seq<Document>, i: nat)
    requires i < |docs|
    ensures var prev, d := KindNumbers(docs[..i]), docs[i];
      && KindNumbers(docs[..i + 1]) == (if d.Empty? then prev else SetDefault(prev, d.kind, |prev|).0)
      && Writes(filePath, docs[..i + 1]) == if d.Empty? then Writes(filePath, docs[..i])
         else Writes(filePath, docs[..i]) + [(DocPath(filePath, SetDefault(prev, d.kind, |prev|).1, d), d)]
  {
    var pre, d := docs[..i], docs[i];
    assert docs[..i + 1] == pre + [d];
    KindNumbersSnoc(pre, d);
    WritesSnoc(filePath, pre, d);
  }

  /**
   * `run`: the loop over the bundle. `filePath` is the absolute output path; the result lists
   * the files written, in order, with the manifest each receives.
   */
  method Run(filePath: string, bundle: seq<Document>) returns (writes: seq<(string, Document)>)
    ensures writes == Writes(filePath, bundle)
  {
    var kindPrefixes: Dict<nat> := [];
    writes := [];
    for i := 0 to |bundle|
      invariant kindPrefixes == KindNumbers(bundle[..i])
      invariant writes == Writes(filePath, bundle[..i])
    {
      RunStep(filePath, bundle, i);
      var doc := bundle[i];
      if doc.Empty? {
        continue;
      }
      var thisKind := doc.kind;
      var number;
      var r := SetDefault(kindPrefixes, thisKind, |kindPrefixes|);
      kindPrefixes, number := r.0, r.1;
      var prefix := KindPrefix(number);
      var docName := prefix + doc.kind + "--" + doc.name + ".yaml";
      var docPath := filePath + "/" + docName;
      DocPathSpelled(filePath, number, doc);
      writes := writes + [(docPath, doc)];
    }
    assert bundle[..|bundle|] == bundle;
  }
}
