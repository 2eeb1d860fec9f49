/**
 * `Reranker.rerank` (src/reranker.py): asks the rerank backend for the best `top_n`
 * documents and keeps those it names, in their original order. The backend is an input
 * that answers a request with the indices of its results.
 */
module Reranker {
  import opened State

  datatype Request = Request(query: string, documents: seq<string>, topN: int)

  /** The documents kept, and the request sent (`None`: the backend was not called). */
  datatype Reranked = Reranked(docs: seq<string>, request: Option<Request>)

  function Min(a: int, b: int): int {
    if a <= b then a else b
  }

  /** The positions `0 <= i < n` that occur among the returned indices, ascending. */
  function Positions(n: nat, indices: seq<int>): (p: seq<nat>)
    ensures forall j :: 0 <= j < |p| ==> p[j] < n
    decreases n
  {
    if n == 0 then [] else Positions(n - 1, indices) + (if n - 1 in indices then [n - 1] else [])
  }

  /** `[s for i, s in enumerate(docs) if i in indices]`. */
  function Select(docs: seq<string>, indices: seq<int>): seq<string>
    decreases |docs|
  {
    if |docs| == 0 then []
    else Select(docs[..|docs| - 1], indices) + (if |docs| - 1 in indices then [docs[|docs| - 1]] else [])
  }

  /** An empty list is returned as it is, without a backend call; otherwise `top_n = min(k, len(docs))`. */
  function Rerank(docs: seq<string>, query: string, k: int, backend: Request -> seq<int>): (r: Reranked)
    ensures docs == [] ==> r.docs == [] && r.request == None
    ensures docs != [] ==> r.request == Some(Request(query, docs, Min(k, |docs|)))
    ensures docs != [] ==> r.docs == Select(docs, backend(r.request.value))
    ensures r.request.Some? ==> r.request.value.topN <= k && r.request.value.topN <= |docs|
  {
    if docs == [] then Reranked(docs, None)
    else
      var request := Request(query, docs, Min(k, |docs|));
      Reranked(Select(docs, backend(request)), Some(request))
  }

  /** The positions are strictly increasing and are exactly the valid returned indices. */
  lemma {:induction false} PositionsSpec(n: nat, indices: seq<int>)
    ensures forall j, l :: 0 <= j < l < |Positions(n, indices)| ==> Positions(n, indices)[j] < Positions(n, indices)[l]
    ensures forall i :: i in Positions(n, indices) <==> 0 <= i < n && i in indices
    decreases n
  {
    if n > 0 {
      PositionsSpec(n - 1, indices);
    }
  }

  /** The selection is the subsequence of `docs` at those positions: original order, not rank order. */
  lemma {:induction false} SelectAtPositions(docs: seq<string>, indices: seq<int>)
    ensures |Select(docs, indices)| == |Positions(|docs|, indices)|
    ensures forall j :: 0 <= j < |Select(docs, indices)| ==> Select(docs, indices)[j] == docs[Positions(|docs|, indices)[j]]
    decreases |docs|
  {
    if |docs| > 0 {
      var init := docs[..|docs| - 1];
      SelectAtPositions(init, indices);
      assert forall i :: 0 <= i < |init| ==> init[i] == docs[i];
    }
  }

  /** The order the backend ranks its results in does not matter, only which indices it names. */
  lemma {:induction false} SelectIgnoresRank(docs: seq<string>, indices: seq<int>, other: seq<int>)
    requires forall i :: i in indices <==> i in other
    ensures Select(docs, indices) == Select(docs, other)
    decreases |docs|
  {
    if |docs| > 0 {
      SelectIgnoresRank(docs[..|docs| - 1], indices, other);
    }
  }

  /** The valid indices among those returned. */
  function ValidIndices(n: nat, indices: seq<int>): set<int> {
    set i | 0 <= i < n && i in indices
  }

  lemma {:induction false} PositionsCount(n: nat, indices: seq<int>)
    ensures |Positions(n, indices)| == |ValidIndices(n, indices)|
    ensures |Positions(n, indices)| <= n
    decreases n
  {
    if n > 0 {
      PositionsCount(n - 1, indices);
      var prev := ValidIndices(n - 1, indices);
      if n - 1 in indices {
        assert ValidIndices(n, indices) == prev + {n - 1};
      } else {
        assert ValidIndices(n, indices) == prev;
      }
    }
  }

  lemma {:induction false} ValidIndicesCount(n: nat, indices: seq<int>)
    ensures |ValidIndices(n, indices)| <= |indices|
    decreases |indices|
  {
    if |indices| > 0 {
      var init := indices[..|indices| - 1];
      var last := indices[|indices| - 1];
      ValidIndicesCount(n, init);
      assert ValidIndices(n, indices) == ValidIndices(n, init) + (if 0 <= last < n then {last} else {});
    }
  }

  /**
   * At most `len(docs)` documents are kept: exactly as many as the distinct valid indices
   * the backend returned, so at most as many as it returned indices.
   */
  lemma SelectBounds(docs: seq<string>, indices: seq<int>)
    ensures |Select(docs, indices)| <= |docs|
    ensures |Select(docs, indices)| == |ValidIndices(|docs|, indices)|
    ensures |Select(docs, indices)| <= |indices|
  {
    SelectAtPositions(docs, indices);
    PositionsCount(|docs|, indices);
    ValidIndicesCount(|docs|, indices);
  }

  /** A backend that honours `top_n` makes the result at most `min(k, len(docs))` long. */
  lemma RerankBound(docs: seq<string>, query: string, k: int, backend: Request -> seq<int>)
    requires docs != [] ==> |backend(Request(query, docs, Min(k, |docs|)))| <= Min(k, |docs|)
    ensures |Rerank(docs, query, k, backend).docs| <= |docs|
    ensures docs != [] ==> |Rerank(docs, query, k, backend).docs| <= k
  {
    if docs != [] {
      SelectBounds(docs, backend(Request(query, docs, Min(k, |docs|))));
    }
  }

  /** Distinct documents stay distinct. */
  lemma SelectDistinct(docs: seq<string>, indices: seq<int>)
    requires forall i, j :: 0 <= i < j < |docs| ==> docs[i] != docs[j]
    ensures var r := Select(docs, indices); forall i, j :: 0 <= i < j < |r| ==> r[i] != r[j]
  {
    SelectAtPositions(docs, indices);
    PositionsSpec(|docs|, indices);
  }
}
