/**
 * The placeholder simple search: a service with no state whose `search`
 * returns three mock result lines for the query.
 *
 * The Rust file this models (src/search_service.rs) is not declared as a
 * module of the crate's main.rs; it is modelled as written.
 */
module SimpleSearch {
  import opened Wrappers
  import opened Results

  /** The service has no fields, so it has exactly one value. */
  datatype SearchService = SearchService {

    /** SearchService::new: sets up nothing. */
    static function New(): (s: SearchService)
    {
      SearchService
    }

    /** search: three mock lines, "Result 1/2/3 for '<query>'" in rank order. */
    function Search(query: string): (r: seq<string>)
      ensures |r| == 3
      ensures forall k {:trigger Parse(r[k])} :: 0 <= k < |r| ==> Parse(r[k]) == Some(Hit(Mock, k + 1, query))
    {
      var hits := [Hit(Mock, 1, query), Hit(Mock, 2, query), Hit(Mock, 3, query)];
      assert forall k :: 0 <= k < |hits| ==> hits[k] == Hit(Mock, k + 1, query);
      RenderEach(hits)
    }
  }

  /** The three mock lines, written out. */
  lemma SearchLines(s: SearchService, query: string)
    ensures s.Search(query)
         == ["Result 1 for '" + query + "'", "Result 2 for '" + query + "'", "Result 3 for '" + query + "'"]
  {
    assert Digit(1) == '1' && Digit(2) == '2' && Digit(3) == '3';
    var r := s.Search(query);
    assert r[0] == Render(Hit(Mock, 1, query));
    RenderLiteral(Hit(Mock, 1, query), "Result 1 for '");
    assert r[1] == Render(Hit(Mock, 2, query));
    RenderLiteral(Hit(Mock, 2, query), "Result 2 for '");
    assert r[2] == Render(Hit(Mock, 3, query));
    RenderLiteral(Hit(Mock, 3, query), "Result 3 for '");
  }

  /** Every mock line embeds the query unchanged. */
  lemma SearchLinesContainQuery(s: SearchService, query: string, k: nat)
    requires k < |s.Search(query)|
    ensures ContainsText(s.Search(query)[k], query)
  {
    var h := Hit(Mock, k + 1, query);
    var line := s.Search(query)[k];
    assert Parse(line) == Some(h);
    ParseRender(h);
    assert line == Render(h);
    RenderContainsQuery(h);
  }

  /** The results depend on the query alone, not on which service value answers. */
  lemma SearchDependsOnlyOnQuery(s: SearchService, t: SearchService, query: string)
    ensures s.Search(query) == t.Search(query)
    ensures s.Search(query) == SearchService.New().Search(query)
  {
  }

  /** The three mock lines are distinct, and none starts with a provider prefix ("Google " / "Amazon "). */
  lemma SearchLinesAreMockOnly(s: SearchService, query: string)
    ensures forall i, j :: 0 <= i < j < |s.Search(query)| ==> s.Search(query)[i] != s.Search(query)[j]
    ensures forall k :: 0 <= k < |s.Search(query)| ==> SourceOf(s.Search(query)[k]) == Mock
  {
    var r := s.Search(query);
    forall k | 0 <= k < |r|
      ensures Parse(r[k]) == Some(Hit(Mock, k + 1, query)) && SourceOf(r[k]) == Mock
    {
      assert Parse(r[k]) == Some(Hit(Mock, k + 1, query));
    }
  }
}
