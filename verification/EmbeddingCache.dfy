/** The searcher's embedding cache, keyed by entry and validated by a fingerprint of what was embedded. */
module EmbeddingCache {
  import opened Options
  import opened Text

  const SEPARATOR: char := 0x1F as char

  /** A formatted time: it never holds the separator. */
  type Stamp = s: string | SEPARATOR !in s witness ""

  type Vector = seq<real>

  /** What is embedded for an entry, and when the entry last changed. */
  datatype Document = Document(key: string, text: string, updatedAt: Stamp)

  datatype CacheEntry = CacheEntry(fingerprint: string, vector: Vector)

  type Cache = map<string, CacheEntry>

  datatype Outcome = Failed | Vectors(vectors: seq<Vector>)

  type Embedder = seq<string> -> Outcome

  // ---------------------------------------------------------------------------
  // Documents
  // ---------------------------------------------------------------------------

  /** newMemorySearchDocument: value and evidence, or else the label, or else the key. */
  function NewDocument(key: string, value: string, title: string, summary: string, updatedAt: Stamp): Document {
    var v, s, l := Trim(value), Trim(summary), Trim(title);
    var text :=
      if v != "" && s != "" then v + " " + s
      else if v != "" then v
      else if s != "" then s
      else if l != "" then l
      else key;
    Document(key, text, updatedAt)
  }

  lemma PaddedByNothing(v: string, s: string)
    requires v != "" && s != "" && Trimmed(v) && Trimmed(s)
    ensures Trim(v + " " + s) != ""
  {
    var text := v + " " + s;
    assert text[0] == v[0] && text[|text| - 1] == s[|s| - 1];
  }

  /** A document is left out of semantic search only if its entry has nothing at all to embed. */
  lemma BlankIffNothingToEmbed(key: string, value: string, title: string, summary: string, updatedAt: Stamp)
    ensures IsBlank(NewDocument(key, value, title, summary, updatedAt)) <==>
            Trim(value) == "" && Trim(summary) == "" && Trim(title) == "" && Trim(key) == ""
  {
    TrimIdempotent(value);
    TrimIdempotent(summary);
    TrimIdempotent(title);
    if Trim(value) != "" && Trim(summary) != "" { PaddedByNothing(Trim(value), Trim(summary)); }
  }

  /** With a value, a document changes exactly when the evidence does, and the other way round; only an entry
      without both is searched by its label, and only one without a label by its key. */
  lemma TextFollowsTheEntry(key: string, value: string, title: string, summary: string, value': string,
                            title': string, summary': string, at: Stamp)
    ensures Trim(value) != "" ==>
              (NewDocument(key, value, title, summary, at) == NewDocument(key, value, title', summary', at) <==>
               Trim(summary) == Trim(summary'))
    ensures Trim(summary) != "" ==>
              (NewDocument(key, value, title, summary, at) == NewDocument(key, value', title', summary, at) <==>
               Trim(value) == Trim(value'))
    ensures Trim(value) == "" && Trim(summary) == "" ==>
              NewDocument(key, value, title, summary, at).text == if Trim(title) != "" then Trim(title) else key
  {
    var v, s := Trim(value), Trim(summary);
    if v != "" {
      forall t: string | t != "" ensures |v + " " + t| > |v| && (v + " " + t)[|v| + 1..] == t { }
    }
    if s != "" {
      forall t: string | t != "" ensures |t + " " + s| > |s| && (t + " " + s)[..|t|] == t { }
    }
  }

  function Fingerprint(d: Document): string {
    d.key + [SEPARATOR] + d.text + [SEPARATOR] + d.updatedAt
  }

  lemma EarlierSeparator(a: string, s: string, b: string, t: string)
    requires a + [SEPARATOR] + s == b + [SEPARATOR] + t && |a| < |b|
    ensures SEPARATOR in s
  {
    var x := a + [SEPARATOR] + s;
    assert x[|b|] == (b + [SEPARATOR] + t)[|b|];
    assert x[|b|] == s[|b| - |a| - 1];
  }

  /** The last separator splits a string in one way only. */
  lemma LastSeparator(a: string, s: Stamp, b: string, t: Stamp)
    requires a + [SEPARATOR] + s == b + [SEPARATOR] + t
    ensures a == b && s == t
  {
    var x, y := a + [SEPARATOR] + s, b + [SEPARATOR] + t;
    if |a| < |b| {
      EarlierSeparator(a, s, b, t);
    } else if |b| < |a| {
      EarlierSeparator(b, t, a, s);
    } else {
      assert a == x[..|a|] && b == y[..|b|];
      assert s == x[|a| + 1..] && t == y[|b| + 1..];
    }
  }

  /** For one key the fingerprint identifies the text, even when the text holds the separator. */
  lemma FingerprintIdentifiesText(d: Document, e: Document)
    requires d.key == e.key && Fingerprint(d) == Fingerprint(e)
    ensures d == e
  {
    var a, b := d.key + [SEPARATOR] + d.text, e.key + [SEPARATOR] + e.text;
    LastSeparator(a, d.updatedAt, b, e.updatedAt);
    assert d.text == a[|d.key| + 1..] && e.text == b[|e.key| + 1..];
  }

  /** Of two documents with one fingerprint the texts are equal if and only if the keys are. */
  lemma EqualFingerprintsDecideByKey(d: Document, e: Document)
    requires Fingerprint(d) == Fingerprint(e)
    ensures d.text == e.text <==> d.key == e.key
  {
    var a, b := d.key + [SEPARATOR] + d.text, e.key + [SEPARATOR] + e.text;
    LastSeparator(a, d.updatedAt, b, e.updatedAt);
    assert d.key == a[..|d.key|] && e.key == b[..|e.key|];
    assert d.text == a[|d.key| + 1..] && e.text == b[|e.key| + 1..];
  }

  /** Across keys it does not: the cache is right only because it compares both. */
  lemma FingerprintAloneIsAmbiguous()
    ensures exists d: Document, e: Document :: Fingerprint(d) == Fingerprint(e) && d.text != e.text
  {
    var d, e := Document("a" + [SEPARATOR] + "b", "c", ""), Document("a", "b" + [SEPARATOR] + "c", "");
    assert Fingerprint(d) == Fingerprint(e);
    assert d.text[0] == 'c' && e.text[0] == 'b';
  }

  // ---------------------------------------------------------------------------
  // One call
  // ---------------------------------------------------------------------------

  predicate IsCached(cache: Cache, d: Document) {
    d.key in cache && cache[d.key].fingerprint == Fingerprint(d)
  }

  predicate IsBlank(d: Document) {
    Trim(d.text) == ""
  }

  function Hits(cache: Cache, docs: seq<Document>): map<string, Vector> {
    if docs == [] then map[]
    else
      var before, d := Hits(cache, docs[..|docs| - 1]), docs[|docs| - 1];
      if !IsBlank(d) && IsCached(cache, d) then before[d.key := cache[d.key].vector] else before
  }

  function Missing(cache: Cache, docs: seq<Document>): seq<Document> {
    if docs == [] then []
    else
      var before, d := Missing(cache, docs[..|docs| - 1]), docs[|docs| - 1];
      if IsBlank(d) || IsCached(cache, d) then before else before + [d]
  }

  function Texts(docs: seq<Document>): seq<string> {
    seq(|docs|, i requires 0 <= i < |docs| => docs[i].text)
  }

  predicate Usable(vectors: seq<Vector>, i: nat) {
    i < |vectors| && vectors[i] != []
  }

  function StoreAll(cache: Cache, docs: seq<Document>, vectors: seq<Vector>): Cache {
    if docs == [] then cache
    else
      var n := |docs| - 1;
      var before := StoreAll(cache, docs[..n], vectors);
      if Usable(vectors, n) then before[docs[n].key := CacheEntry(Fingerprint(docs[n]), vectors[n])] else before
  }

  function ReturnAll(result: map<string, Vector>, docs: seq<Document>, vectors: seq<Vector>): map<string, Vector> {
    if docs == [] then result
    else
      var n := |docs| - 1;
      var before := ReturnAll(result, docs[..n], vectors);
      if Usable(vectors, n) then before[docs[n].key := vectors[n]] else before
  }

  datatype Reply = Reply(cache: Cache, result: Option<map<string, Vector>>)

  /** ensureDocumentEmbeddings. */
  function Ensure(cache: Cache, docs: seq<Document>, embedder: Embedder): Reply {
    var missing := Missing(cache, docs);
    if missing == [] then Reply(cache, Some(Hits(cache, docs)))
    else
      match embedder(Texts(missing))
      case Failed => Reply(cache, None)
      case Vectors(vectors) =>
        Reply(StoreAll(cache, missing, vectors), Some(ReturnAll(Hits(cache, docs), missing, vectors)))
  }

  // ---------------------------------------------------------------------------
  // Coherence
  // ---------------------------------------------------------------------------

  /** The embedder either fails or embeds each text by itself. */
  ghost predicate Faithful(embedder: Embedder, embed: string -> Vector) {
    forall texts :: embedder(texts).Vectors? ==> embedder(texts).vectors == EmbedEach(texts, embed)
  }

  ghost function EmbedEach(texts: seq<string>, embed: string -> Vector): seq<Vector> {
    seq(|texts|, i requires 0 <= i < |texts| => embed(texts[i]))
  }

  /** Whatever document a cached entry answers for, it holds that document's embedding. */
  ghost predicate Coherent(cache: Cache, embed: string -> Vector) {
    forall d: Document :: IsCached(cache, d) ==> cache[d.key].vector == embed(d.text) && embed(d.text) != []
  }

  lemma CoherentStore(cache: Cache, d: Document, embed: string -> Vector)
    requires Coherent(cache, embed) && embed(d.text) != []
    ensures Coherent(cache[d.key := CacheEntry(Fingerprint(d), embed(d.text))], embed)
  {
    var after := cache[d.key := CacheEntry(Fingerprint(d), embed(d.text))];
    forall e: Document | IsCached(after, e) ensures after[e.key].vector == embed(e.text) && embed(e.text) != [] {
      if e.key == d.key {
        FingerprintIdentifiesText(d, e);
      } else {
        assert IsCached(cache, e);
      }
    }
  }

  lemma {:induction false} StoreAllCoherent(cache: Cache, docs: seq<Document>, vectors: seq<Vector>,
                                            embed: string -> Vector)
    requires Coherent(cache, embed) && |docs| <= |vectors|
    requires forall i :: 0 <= i < |docs| ==> vectors[i] == embed(docs[i].text)
    ensures Coherent(StoreAll(cache, docs, vectors), embed)
  {
    if docs != [] {
      var n := |docs| - 1;
      StoreAllCoherent(cache, docs[..n], vectors, embed);
      if Usable(vectors, n) { CoherentStore(StoreAll(cache, docs[..n], vectors), docs[n], embed); }
    }
  }

  lemma EnsureKeepsCoherence(cache: Cache, docs: seq<Document>, embedder: Embedder, embed: string -> Vector)
    requires Coherent(cache, embed) && Faithful(embedder, embed)
    ensures Coherent(Ensure(cache, docs, embedder).cache, embed)
  {
    var missing := Missing(cache, docs);
    var outcome := embedder(Texts(missing));
    if missing != [] && outcome.Vectors? {
      StoreAllCoherent(cache, missing, outcome.vectors, embed);
    }
  }

  // ---------------------------------------------------------------------------
  // What is returned
  // ---------------------------------------------------------------------------

  ghost predicate DistinctKeys(docs: seq<Document>) {
    forall i, j :: 0 <= i < j < |docs| ==> docs[i].key != docs[j].key
  }

  ghost predicate Answers(d: Document, embed: string -> Vector) {
    !IsBlank(d) && embed(d.text) != []
  }

  /** The answer without any cache. */
  ghost predicate IsDirect(result: map<string, Vector>, docs: seq<Document>, embed: string -> Vector) {
    && (forall k :: k in result ==> exists d :: d in docs && d.key == k && Answers(d, embed))
    && (forall d :: d in docs && Answers(d, embed) ==> d.key in result && result[d.key] == embed(d.text))
  }

  lemma {:induction false} HitsEffect(cache: Cache, docs: seq<Document>, embed: string -> Vector)
    requires Coherent(cache, embed) && DistinctKeys(docs)
    ensures forall k :: k in Hits(cache, docs) ==>
            exists d :: d in docs && d.key == k && !IsBlank(d) && IsCached(cache, d)
    ensures forall d :: d in docs && !IsBlank(d) && IsCached(cache, d) ==>
              d.key in Hits(cache, docs) && Hits(cache, docs)[d.key] == embed(d.text)
  {
    if docs != [] {
      var init, d := docs[..|docs| - 1], docs[|docs| - 1];
      assert docs == init + [d];
      HitsEffect(cache, init, embed);
    }
  }

  lemma {:induction false} MissingMembers(cache: Cache, docs: seq<Document>, d: Document)
    ensures d in Missing(cache, docs) <==> d in docs && !IsBlank(d) && !IsCached(cache, d)
  {
    if docs != [] {
      var init, last := docs[..|docs| - 1], docs[|docs| - 1];
      assert docs == init + [last];
      MissingMembers(cache, init, d);
    }
  }

  lemma {:induction false} MissingDistinct(cache: Cache, docs: seq<Document>)
    requires DistinctKeys(docs)
    ensures DistinctKeys(Missing(cache, docs))
  {
    if docs != [] {
      var init, last := docs[..|docs| - 1], docs[|docs| - 1];
      MissingDistinct(cache, init);
      forall d | d in Missing(cache, init) ensures d.key != last.key { MissingMembers(cache, init, d); }
    }
  }

  lemma {:induction false} ReturnAllEffect(result: map<string, Vector>, docs: seq<Document>, vectors: seq<Vector>,
                                           embed: string -> Vector)
    requires DistinctKeys(docs) && |docs| <= |vectors|
    requires forall i :: 0 <= i < |docs| ==> vectors[i] == embed(docs[i].text)
    ensures forall k :: k in ReturnAll(result, docs, vectors) <==>
            k in result || exists d :: d in docs && d.key == k && embed(d.text) != []
    ensures forall d :: d in docs && embed(d.text) != [] ==> ReturnAll(result, docs, vectors)[d.key] == embed(d.text)
    ensures forall k :: k in result && (forall d :: d in docs ==> d.key != k) ==>
            ReturnAll(result, docs, vectors)[k] == result[k]
  {
    if docs != [] {
      var n := |docs| - 1;
      ReturnAllEffect(result, docs[..n], vectors, embed);
      assert docs == docs[..n] + [docs[n]];
    }
  }

  /** From a coherent cache a call answers exactly as embedding every document directly would. */
  lemma EnsureIsDirect(cache: Cache, docs: seq<Document>, embedder: Embedder, embed: string -> Vector)
    requires Coherent(cache, embed) && Faithful(embedder, embed) && DistinctKeys(docs)
    requires Ensure(cache, docs, embedder).result.Some?
    ensures IsDirect(Ensure(cache, docs, embedder).result.value, docs, embed)
  {
    var missing, hits := Missing(cache, docs), Hits(cache, docs);
    HitsEffect(cache, docs, embed);
    forall d ensures d in missing <==>
        d in docs && !IsBlank(d) && !IsCached(cache, d) { MissingMembers(cache, docs, d); }
    if missing != [] {
      MissingDistinct(cache, docs);
      var vectors := embedder(Texts(missing)).vectors;
      ReturnAllEffect(hits, missing, vectors, embed);
      AnswersAreDirect(cache, docs, missing, hits, ReturnAll(hits, missing, vectors), embed);
    }
  }

  lemma {:induction false} StoredAreCached(cache: Cache, docs: seq<Document>, vectors: seq<Vector>, d: Document)
    requires DistinctKeys(docs)
    ensures (forall i :: 0 <= i < |docs| ==> docs[i].key != d.key) && IsCached(cache, d) ==>
              IsCached(StoreAll(cache, docs, vectors), d)
    ensures forall i :: 0 <= i < |docs| && docs[i] == d && Usable(vectors, i) ==>
              IsCached(StoreAll(cache, docs, vectors), d)
  {
    if docs != [] {
      var n := |docs| - 1;
      StoredAreCached(cache, docs[..n], vectors, d);
      assert forall i :: 0 <= i < n ==> docs[..n][i] == docs[i];
    }
  }

  /** A call that succeeds embeds what it lacked once and for all: afterwards every document it answered for is
      cached, so asking again asks the embedder for nothing that has an embedding. */
  lemma CallWarmsTheCache(cache: Cache, docs: seq<Document>, embedder: Embedder, embed: string -> Vector)
    requires Coherent(cache, embed) && Faithful(embedder, embed) && DistinctKeys(docs)
    requires Ensure(cache, docs, embedder).result.Some?
    ensures var after := Ensure(cache, docs, embedder).cache;
            && (forall d :: d in docs && Answers(d, embed) ==> IsCached(after, d))
            && (forall d :: d in Missing(after, docs) ==> embed(d.text) == [])
  {
    var after, missing := Ensure(cache, docs, embedder).cache, Missing(cache, docs);
    MissingDistinct(cache, docs);
    forall d | d in docs && Answers(d, embed) ensures IsCached(after, d) {
      MissingMembers(cache, docs, d);
      if missing != [] {
        var vectors := embedder(Texts(missing)).vectors;
        StoredAreCached(cache, missing, vectors, d);
        if d in missing {
          var i :| 0 <= i < |missing| && missing[i] == d;
          assert vectors[i] == embed(d.text);
        } else {
          CachedIsNotMissing(cache, docs, d);
        }
      }
    }
    forall d | d in Missing(after, docs) ensures embed(d.text) == [] { MissingMembers(after, docs, d); }
  }

  lemma CachedIsNotMissing(cache: Cache, docs: seq<Document>, d: Document)
    requires DistinctKeys(docs) && d in docs && d !in Missing(cache, docs)
    ensures forall i :: 0 <= i < |Missing(cache, docs)| ==> Missing(cache, docs)[i].key != d.key
  {
    var missing := Missing(cache, docs);
    forall i | 0 <= i < |missing| ensures missing[i].key != d.key { MissingMembers(cache, docs, missing[i]); }
  }

  lemma AnswersAreDirect(cache: Cache, docs: seq<Document>, missing: seq<Document>,
                         hits: map<string, Vector>, result: map<string, Vector>, embed: string -> Vector)
    requires Coherent(cache, embed) && DistinctKeys(docs)
    requires forall d :: d in missing <==> d in docs && !IsBlank(d) && !IsCached(cache, d)
    requires forall k :: k in hits ==> exists d :: d in docs && d.key == k && !IsBlank(d) && IsCached(cache, d)
    requires forall d :: d in docs && !IsBlank(d) && IsCached(cache, d) ==>
             d.key in hits && hits[d.key] == embed(d.text)
    requires forall k :: k in result <==> k in hits || exists d :: d in missing && d.key == k && embed(d.text) != []
    requires forall d :: d in missing && embed(d.text) != [] ==> result[d.key] == embed(d.text)
    requires forall k :: k in hits && (forall d :: d in missing ==> d.key != k) ==> result[k] == hits[k]
    ensures IsDirect(result, docs, embed)
  {
    forall d | d in docs && Answers(d, embed) ensures d.key in result && result[d.key] == embed(d.text) {
      if IsCached(cache, d) {
        forall e | e in missing ensures e.key != d.key {
          if e.key == d.key { SameDocument(docs, d, e); }
        }
      }
    }
  }

  lemma SameDocument(docs: seq<Document>, d: Document, e: Document)
    requires DistinctKeys(docs) && d in docs && e in docs && d.key == e.key
    ensures d == e
  {
    var i :| 0 <= i < |docs| && docs[i] == d;
    var j :| 0 <= j < |docs| && docs[j] == e;
    assert i == j;
  }

  /** A call fails only when something was missing and the embedder failed, and then changes nothing. */
  lemma FailureChangesNothing(cache: Cache, docs: seq<Document>, embedder: Embedder)
    ensures Ensure(cache, docs, embedder).result.None? <==>
            (exists d :: d in docs && !IsBlank(d) && !IsCached(cache, d))
                && embedder(Texts(Missing(cache, docs))).Failed?
    ensures Ensure(cache, docs, embedder).result.None? ==> Ensure(cache, docs, embedder).cache == cache
  {
    var missing := Missing(cache, docs);
    forall d ensures d in missing <==>
        d in docs && !IsBlank(d) && !IsCached(cache, d) { MissingMembers(cache, docs, d); }
    if missing != [] { assert missing[0] in missing; }
  }

  // ---------------------------------------------------------------------------
  // Every sequence of calls
  // ---------------------------------------------------------------------------

  datatype Call = Call(docs: seq<Document>, embedder: Embedder)

  ghost function CacheAfter(calls: seq<Call>): Cache {
    if calls == [] then map[]
    else Ensure(CacheAfter(calls[..|calls| - 1]), calls[|calls| - 1].docs, calls[|calls| - 1].embedder).cache
  }

  ghost predicate AllFaithful(calls: seq<Call>, embed: string -> Vector) {
    forall i :: 0 <= i < |calls| ==> Faithful(calls[i].embedder, embed)
  }

  lemma {:induction false} CallsKeepCoherence(calls: seq<Call>, embed: string -> Vector)
    requires AllFaithful(calls, embed)
    ensures Coherent(CacheAfter(calls), embed)
  {
    if calls != [] {
      var init, c := calls[..|calls| - 1], calls[|calls| - 1];
      CallsKeepCoherence(init, embed);
      EnsureKeepsCoherence(CacheAfter(init), c.docs, c.embedder, embed);
    }
  }

  /** Whatever was searched before, with whatever documents and failures, the cache is never seen. */
  lemma CacheIsTransparent(earlier: seq<Call>, docs: seq<Document>, embedder: Embedder, embed: string -> Vector)
    requires AllFaithful(earlier, embed) && Faithful(embedder, embed) && DistinctKeys(docs)
    requires Ensure(CacheAfter(earlier), docs, embedder).result.Some?
    ensures IsDirect(Ensure(CacheAfter(earlier), docs, embedder).result.value, docs, embed)
  {
    CallsKeepCoherence(earlier, embed);
    EnsureIsDirect(CacheAfter(earlier), docs, embedder, embed);
  }

  /** After any calls a hit is the embedding of the document's current text, and a document of an entry that
      changed since it was cached is no hit. */
  lemma HitIsCurrent(earlier: seq<Call>, d: Document, e: Document, embed: string -> Vector)
    requires AllFaithful(earlier, embed) && IsCached(CacheAfter(earlier), d)
    ensures CacheAfter(earlier)[d.key].vector == embed(d.text) != []
    ensures e.key == d.key && e != d ==> !IsCached(CacheAfter(earlier), e)
  {
    CallsKeepCoherence(earlier, embed);
    if e.key == d.key && IsCached(CacheAfter(earlier), e) { FingerprintIdentifiesText(d, e); }
  }

  // ---------------------------------------------------------------------------
  // The searcher object
  // ---------------------------------------------------------------------------

  class MemorySearcher {
    var entryEmbedding: Cache

    constructor ()
      ensures entryEmbedding == CacheAfter([])
    {
      entryEmbedding := map[];
    }

    method CachedDocumentEmbedding(document: Document) returns (vector: Option<Vector>)
      ensures vector == if IsCached(entryEmbedding, document) then Some(entryEmbedding[document.key].vector) else None
    {
      if document.key !in entryEmbedding || entryEmbedding[document.key].fingerprint != Fingerprint(document) {
        return None;
      }
      return Some(entryEmbedding[document.key].vector);
    }

    /** The first loop: what the cache answers, and what is left to embed. */
    method Collect(documents: seq<Document>)
      returns (result: map<string, Vector>, texts: seq<string>, missing: seq<Document>)
      ensures result == Hits(entryEmbedding, documents)
      ensures missing == Missing(entryEmbedding, documents) && texts == Texts(missing)
    {
      result, texts, missing := map[], [], [];
      for i := 0 to |documents|
        invariant result == Hits(entryEmbedding, documents[..i])
        invariant missing == Missing(entryEmbedding, documents[..i]) && texts == Texts(missing)
      {
        assert documents[..i + 1][..i] == documents[..i];
        var document := documents[i];
        if Trim(document.text) != "" {
          var vector := CachedDocumentEmbedding(document);
          if vector.Some? {
            result := result[document.key := vector.value];
          } else {
            texts := texts + [document.text];
            missing := missing + [document];
          }
        }
      }
      assert documents[..|documents|] == documents;
    }

    method EnsureDocumentEmbeddings(documents: seq<Document>, embedder: Embedder)
      returns (reply: Option<map<string, Vector>>)
      modifies this
      ensures Reply(entryEmbedding, reply) == Ensure(old(entryEmbedding), documents, embedder)
    {
      var result, texts, missing := Collect(documents);
      if |texts| == 0 { return Some(result); }
      var outcome := embedder(texts);
      if outcome.Failed? { return None; }
      var vectors, hits := outcome.vectors, result;
      for i := 0 to |missing|
        invariant entryEmbedding == StoreAll(old(entryEmbedding), missing[..i], vectors)
        invariant result == ReturnAll(hits, missing[..i], vectors)
      {
        assert missing[..i + 1][..i] == missing[..i];
        var document := missing[i];
        if i < |vectors| && |vectors[i]| != 0 {
          entryEmbedding := entryEmbedding[document.key := CacheEntry(Fingerprint(document), vectors[i])];
          result := result[document.key := vectors[i]];
        }
      }
      assert missing[..|missing|] == missing;
      return Some(result);
    }
  }
}
