/**
 * The outer `LIMIT .. OFFSET ..` of the search query, applied to the rows
 * VECTOR_SEARCH returns, in the order it returns them.
 */
module ResultWindow {
  import opened Wrappers
  import opened SearchQuery

  function Min(a: nat, b: nat): nat {
    if a <= b then a else b
  }

  /** The rows an SQL `LIMIT limit OFFSET offset` keeps: skip `offset` rows by position, then keep at most `limit`. */
  function Window<T>(rows: seq<T>, limit: nat, offset: nat): (w: seq<T>)
    ensures |w| <= limit
    ensures offset < |rows| ==> |w| == Min(limit, |rows| - offset)
    ensures offset >= |rows| ==> w == []
    ensures forall i :: 0 <= i < |w| ==> offset + i < |rows| && w[i] == rows[offset + i]
  {
    if offset >= |rows| then [] else rows[offset..][..Min(limit, |rows| - offset)]
  }

  /** The rows the query text `q` returns when the vector search yields `ranked`; none if `q` is not of the search's shape. */
  function Answer<T>(q: string, ranked: seq<T>): Option<seq<T>>
  {
    match Decode(q)
    case None => None
    case Some(t) => Some(Window(ranked, t.limit, t.offset))
  }

  /** Skipping one row and keeping up to `limit` of the rest. */
  lemma WindowAfterFirst<T>(rows: seq<T>, limit: nat)
    ensures Window(rows, limit, 1) == if |rows| <= 1 then [] else rows[1..1 + Min(limit, |rows| - 1)]
  {
    if |rows| > 1 {
      assert rows[1..][..Min(limit, |rows| - 1)] == rows[1..1 + Min(limit, |rows| - 1)];
    }
  }

  /** Skipping one row of at most `limit` + 1 keeps all the others. */
  lemma WindowAllButFirst<T>(rows: seq<T>, limit: nat)
    requires |rows| <= limit + 1
    ensures Window(rows, limit, 1) == if rows == [] then [] else rows[1..]
  {
    WindowAfterFirst(rows, limit);
    if |rows| > 1 {
      assert Min(limit, |rows| - 1) == |rows| - 1;
      assert rows[1..1 + (|rows| - 1)] == rows[1..];
    }
  }

  /** The query's answer is its window: LIMIT matches OFFSET 1. */
  lemma AnswerIsWindow<T>(lon: string, lat: string, matches: nat, ranked: seq<T>)
    requires CoordinateText(lon) && CoordinateText(lat)
    ensures Answer(BuildQuery(lon, lat, matches), ranked) == Some(Window(ranked, matches, 1))
  {
    DecodeBuildQuery(lon, lat, matches);
  }

  /**
   * The search returns the ranked rows after the first one, and no more than
   * `matches` of them: the first row is dropped by its position alone.
   */
  lemma AnswerOfQuery<T>(lon: string, lat: string, matches: nat, ranked: seq<T>)
    requires CoordinateText(lon) && CoordinateText(lat)
    ensures Answer(BuildQuery(lon, lat, matches), ranked) ==
            Some(if |ranked| <= 1 then [] else ranked[1..1 + Min(matches, |ranked| - 1)])
  {
    AnswerIsWindow(lon, lat, matches, ranked);
    WindowAfterFirst(ranked, matches);
  }

  /**
   * Since top_k is matches + 1, the engine never yields more rows than the
   * LIMIT lets through after the OFFSET: every ranked row but the first is
   * returned, and `matches` of them when the engine fills top_k.
   */
  lemma AnswerDropsOnlyFirst<T>(lon: string, lat: string, matches: nat, ranked: seq<T>)
    requires CoordinateText(lon) && CoordinateText(lat)
    requires |ranked| <= matches + 1
    ensures Answer(BuildQuery(lon, lat, matches), ranked) == Some(if ranked == [] then [] else ranked[1..])
    ensures |ranked| == matches + 1 ==> |Answer(BuildQuery(lon, lat, matches), ranked).value| == matches
  {
    AnswerIsWindow(lon, lat, matches, ranked);
    WindowAllButFirst(ranked, matches);
  }

  /** With the slider at 0 the text says LIMIT 0, and nothing comes back whatever the engine ranks. */
  lemma ZeroMatchesAnswerNothing<T>(lon: string, lat: string, ranked: seq<T>)
    requires CoordinateText(lon) && CoordinateText(lat)
    ensures Answer(BuildQuery(lon, lat, 0), ranked) == Some([])
  {
    AnswerIsWindow(lon, lat, 0, ranked);
  }

  /**
   * A worked case: the point (36.8, -1.3) with 5 matches asks for top_k 6;
   * six rows ranked at distances 0, 0.12, 0.12, 0.31, 0.40, 0.55 come back
   * as the last five, tie included, in the engine's order.
   */
  lemma FiveMatchesExample()
    ensures Decode(BuildQuery("36.8", "-1.3", 5)).Some?
    ensures Decode(BuildQuery("36.8", "-1.3", 5)).value.search.topK == 6
    ensures Answer(BuildQuery("36.8", "-1.3", 5), [0.0, 0.12, 0.12, 0.31, 0.40, 0.55])
            == Some([0.12, 0.12, 0.31, 0.40, 0.55])
  {
    var ranked: seq<real> := [0.0, 0.12, 0.12, 0.31, 0.40, 0.55];
    assert CoordinateText("36.8") && CoordinateText("-1.3");
    DecodeBuildQuery("36.8", "-1.3", 5);
    AnswerDropsOnlyFirst("36.8", "-1.3", 5, ranked);
  }
}
