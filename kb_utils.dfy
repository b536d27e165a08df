/**
 * The knowledge-base cache: a process-wide map from community to its list
 * of documents, filled from the hosted database on load, appended to on
 * insert, and replaced by the fetched documents on every search.
 */
module KnowledgeBase {
  import opened Common

  /** A stored document; `content` is `None` on a record without that key. */
  datatype Doc = Doc(id: string, content: Option<string>, timestamp: int)

  /**
   * The shape of a `store` node as the database returns it: absent, an
   * array, an object keyed by push ids (its values in key order), or any
   * other value.
   */
  datatype StoreNode = Absent | AsList(items: seq<Doc>) | AsDict(items: seq<Doc>) | Malformed

  datatype ScoredDoc = ScoredDoc(doc: Doc, score: real)

  const DefaultTopK: int := 3

  /**
   * The documents a store node stands for: the values of an object, the
   * items of an array, and nothing for an absent or malformed node.
   */
  function DocsOf(node: StoreNode): (r: seq<Doc>)
    ensures node.AsList? || node.AsDict? ==> r == node.items
    ensures node.Absent? || node.Malformed? ==> r == []
  {
    match node
    case AsList(items) => items
    case AsDict(items) => items
    case _ => []
  }

  /** The similarity of a document to a query, both lower-cased; a missing content is "". */
  function DocScore(doc: Doc, query: string, ratio: (string, string) -> real): real {
    ratio(Lower(doc.content.GetOr("")), Lower(query))
  }

  /** One scored entry per document, in document order. */
  function ScoreAll(docs: seq<Doc>, query: string, ratio: (string, string) -> real): (r: seq<ScoredDoc>)
    ensures |r| == |docs|
    ensures forall i :: 0 <= i < |docs| ==> r[i] == ScoredDoc(docs[i], DocScore(docs[i], query, ratio))
  {
    if docs == [] then []
    else ScoreAll(docs[..|docs| - 1], query, ratio) + [ScoredDoc(docs[|docs| - 1], DocScore(docs[|docs| - 1], query, ratio))]
  }

  function ByScore(d: ScoredDoc): Rank { Rank(d.score, 0.0) }

  /** The `topK` best-scoring documents, best first, ties in document order. */
  function TopMatches(docs: seq<Doc>, query: string, ratio: (string, string) -> real, topK: int): (r: seq<ScoredDoc>)
    ensures topK >= 0 ==> |r| == Min(topK, |docs|)
    ensures topK < 0 ==> |r| == Max(|docs| + topK, 0)
    ensures forall d :: d in r ==> d.doc in docs && d.score == DocScore(d.doc, query, ratio)
    ensures forall i, j :: 0 <= i < j < |r| ==> r[i].score >= r[j].score
  {
    var scored := ScoreAll(docs, query, ratio);
    var sorted := SortBy(scored, ByScore);
    forall d | d in sorted ensures d.doc in docs && d.score == DocScore(d.doc, query, ratio) {
      assert d in scored;
      var i :| 0 <= i < |scored| && scored[i] == d;
    }
    PyPrefix(sorted, topK)
  }

  /**
   * A search keeps the `topK` best-scoring documents: scored documents only,
   * every one when `topK` allows, and none left out scores above one kept.
   */
  lemma TopMatchesKeepsBest(docs: seq<Doc>, query: string, ratio: (string, string) -> real, topK: int)
    ensures var r := TopMatches(docs, query, ratio, topK);
            var scored := ScoreAll(docs, query, ratio);
            multiset(r) <= multiset(scored) &&
            (topK >= |docs| ==> multiset(r) == multiset(scored)) &&
            forall x, m :: x in r && m in multiset(scored) - multiset(r) ==> x.score >= m.score
  {
    var scored := ScoreAll(docs, query, ratio);
    SortedPrefixKeepsBest(scored, ByScore, topK);
    assert TopMatches(docs, query, ratio, topK) == PyPrefix(SortBy(scored, ByScore), topK);
  }

  /** A search with the default `top_k` reports the three best documents, or all when there are fewer. */
  lemma DefaultSearchReportsThree(docs: seq<Doc>, query: string, ratio: (string, string) -> real)
    ensures |TopMatches(docs, query, ratio, DefaultTopK)| == Min(3, |docs|)
  {
  }

  /** With a similarity in [0, 1], every reported score is in [0, 1]. */
  lemma TopMatchesScoresInUnit(docs: seq<Doc>, query: string, ratio: (string, string) -> real, topK: int)
    requires forall a, b :: 0.0 <= ratio(a, b) <= 1.0
    ensures forall d :: d in TopMatches(docs, query, ratio, topK) ==> 0.0 <= d.score <= 1.0
  {
  }

  /** The scoring loop of a search. */
  method ScoreDocs(docs: seq<Doc>, query: string, ratio: (string, string) -> real)
    returns (scored: seq<ScoredDoc>)
    ensures scored == ScoreAll(docs, query, ratio)
  {
    scored := [];
    var i := 0;
    while i < |docs|
      invariant 0 <= i <= |docs|
      invariant scored == ScoreAll(docs[..i], query, ratio)
    {
      var doc := docs[i];
      var score := ratio(Lower(doc.content.GetOr("")), Lower(query));
      scored := scored + [ScoredDoc(doc, score)];
      i := i + 1;
      assert docs[..i - 1] == docs[..i][..i - 1];
    }
    assert docs[..i] == docs;
  }

  /** Content strips to "" exactly when blank; stripped non-blank content is non-blank and strips to itself. */
  lemma StrippedIsKept(content: string)
    ensures Strip(content) == "" <==> IsBlank(content)
    ensures !IsBlank(content) ==> !IsBlank(Strip(content)) && Strip(Strip(content)) == Strip(content)
  {
    StripEmptyIffBlank(content);
    StripEmptyIffBlank(Strip(content));
    StripIdempotent(content);
  }

  class KnowledgeBaseCache {
    /** `_kb_store[community]["store"]` */
    var stores: map<string, seq<Doc>>

    constructor ()
      ensures stores == map[]
    {
      stores := map[];
    }

    /** The cached documents of a community; none when it was never loaded. */
    function StoreOf(community: string): seq<Doc>
      reads this
    {
      if community in stores then stores[community] else []
    }

    /** The number of cached documents; 0 for a community never loaded. */
    function GetKbSize(community: string): (n: nat)
      reads this
      ensures community !in stores ==> n == 0
      ensures n == |StoreOf(community)|
    {
      if community in stores then |stores[community]| else 0
    }

    /**
     * Load a community's documents into the cache: the fetched store node's
     * documents, or no documents when the fetch fails or the node is absent
     * or malformed.
     */
    method InitKb(community: string, fetched: StoreNode, fetchFails: bool) returns (docs: seq<Doc>)
      modifies this
      ensures docs == (if fetchFails then [] else DocsOf(fetched))
      ensures stores == old(stores)[community := docs]
      ensures GetKbSize(community) == |docs|
    {
      if fetchFails {
        stores := stores[community := []];
        return [];
      }
      docs := DocsOf(fetched);
      stores := stores[community := docs];
    }

    /**
     * Append a document with the stripped content to the community's cached
     * store, whether or not the remote push succeeds; blank content is
     * refused and changes nothing.
     */
    method AddToKb(community: string, content: string, newId: string, now: int, pushFails: bool)
      returns (r: Option<Doc>)
      modifies this
      ensures IsBlank(content) ==> r == None && stores == old(stores)
      ensures !IsBlank(content) ==> r == Some(Doc(newId, Some(Strip(content)), now))
      ensures r.Some? ==> stores == old(stores)[community := old(StoreOf(community)) + [r.value]]
      ensures r.Some? ==> GetKbSize(community) == old(GetKbSize(community)) + 1
      ensures r.Some? ==> !IsBlank(r.value.content.value) && Strip(r.value.content.value) == r.value.content.value
      ensures forall c :: c != community ==> StoreOf(c) == old(StoreOf(c))
    {
      StrippedIsKept(content);
      var stripped := Strip(content);
      if content == "" || stripped == "" {
        return None;
      }
      var doc := Doc(newId, Some(stripped), now);
      // The push to the database is fire-and-forget: its failure does not
      // stop the local append.
      var docs := StoreOf(community);
      stores := stores[community := docs + [doc]];
      r := Some(doc);
      assert StoreOf(community) == docs + [doc];
      forall c | c != community
        ensures StoreOf(c) == old(StoreOf(c))
      {
        assert (c in stores) == (c in old(stores));
      }
    }

    /**
     * Reload the community's documents and return the `topK` most similar to
     * the query, best first. A failed fetch returns nothing and keeps the
     * cache; an empty fetch empties the cached store.
     */
    method SearchKb(community: string, query: string, topK: int, ratio: (string, string) -> real,
                    fetched: StoreNode, fetchFails: bool)
      returns (results: seq<ScoredDoc>)
      modifies this
      ensures fetchFails ==> results == [] && stores == old(stores)
      ensures !fetchFails ==> stores == old(stores)[community := DocsOf(fetched)]
      ensures !fetchFails ==> results == TopMatches(DocsOf(fetched), query, ratio, topK)
      ensures topK >= 0 ==> |results| <= topK
      ensures forall d :: d in results ==> d.doc in StoreOf(community)
      ensures forall i, j :: 0 <= i < j < |results| ==> results[i].score >= results[j].score
    {
      if fetchFails {
        return [];
      }
      if fetched.Absent? || (!fetched.Malformed? && fetched.items == []) {
        stores := stores[community := []];
        return [];
      }
      var docs := DocsOf(fetched);
      stores := stores[community := docs];
      if docs == [] {
        return [];
      }
      var scored := ScoreDocs(docs, query, ratio);
      results := PyPrefix(SortBy(scored, ByScore), topK);
      assert results == TopMatches(docs, query, ratio, topK);
    }
  }

  /** A search after an insert into an empty community finds only that document. */
  lemma SingleDocSearch(doc: Doc, query: string, ratio: (string, string) -> real, topK: int)
    requires topK >= 1
    ensures TopMatches([doc], query, ratio, topK) == [ScoredDoc(doc, DocScore(doc, query, ratio))]
  {
  }
}
