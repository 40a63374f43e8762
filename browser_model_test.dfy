/**
 * Concrete sessions of the browser model, each starting from the state a
 * new browser window starts in: empty history, cursor -1, no current URL.
 */
module BrowserTests {
  import opened Browser

  /** Text without a protocol completes to its `http://` form. */
  method CompleteWhenNoProtocol(parse: string -> Option<Url>) returns (r: Option<Url>)
    requires parse("youtube.com").None?
    requires parse("http://youtube.com").Some?
    ensures r == parse("http://youtube.com")
  {
    var m := new Model([], -1, None);
    assert ProtocolPrefix + "youtube.com" == "http://youtube.com";
    r := m.CompleteURL(Some("youtube.com"), parse);
  }

  /** Text that parses as it is completes to itself, whatever the state. */
  method CompleteWhenAbsolute(s: string, parse: string -> Option<Url>) returns (r: Option<Url>)
    requires parse(s).Some?
    ensures r == parse(s)
  {
    var m := new Model([], -1, None);
    r := m.CompleteURL(Some(s), parse);
  }

  /** No text completes to no URL. */
  method CompleteWhenNull(parse: string -> Option<Url>) returns (r: Option<Url>)
    ensures r == None
  {
    var m := new Model([], -1, None);
    r := m.CompleteURL(None, parse);
  }

  /** Nothing visited: the frequently visited list is empty. */
  method MostFrequentWhenNoPageVisited() returns (top: seq<Url>)
    ensures top == []
  {
    var m := new Model([], -1, None);
    top := m.GetFiveMostFrequentURL();
  }

  /** One page visited: it is the whole frequently visited list. */
  method MostFrequentWhenOnePageVisited() returns (top: seq<Url>)
    ensures top == ["http://youtube.com"]
  {
    var m := new Model([], -1, None);
    m.RememberURL("http://youtube.com");
    top := m.GetFiveMostFrequentURL();
    assert top[0] in m.frequent;
  }

  /** A first visit to a URL adds it with count 1 to a table of single visits. */
  lemma FirstVisitCountsOne(counts: map<Url, nat>, u: Url)
    requires u !in counts
    requires forall v :: v in counts ==> counts[v] == 1
    ensures forall v :: v in Bump(counts, u) ==> Bump(counts, u)[v] == 1
  {
  }

  /** Six pages visited in turn, the last one twice: that one is listed. */
  method MostFrequentWhenSevenPagesVisited(pages: seq<Url>) returns (top: seq<Url>)
    requires |pages| == 6 && Distinct(pages)
    ensures pages[5] in top
  {
    var m := new Model([], -1, None);
    var visits := pages + [pages[5]];
    for k := 0 to 6
      invariant m.Valid()
      invariant forall v :: v in m.frequent <==> v in pages[..k]
      invariant forall v :: v in m.frequent ==> m.frequent[v] == 1
    {
      assert pages[..k + 1] == pages[..k] + [visits[k]];
      FirstVisitCountsOne(m.frequent, visits[k]);
      m.RememberURL(visits[k]);
    }
    m.RememberURL(visits[6]);
    top := m.GetFiveMostFrequentURL();
    StrictlyMostVisitedIsListed(top, m.frequent, pages[5]);
  }

  /**
   * A, B, A visited: A has been counted twice and B once, and with fewer than
   * five URLs the list comes least visited first.
   */
  method MostFrequentWhenRevisited(a: Url, b: Url) returns (top: seq<Url>)
    requires a != b
    ensures top == [b, a]
  {
    var m := new Model([], -1, None);
    m.RememberURL(a);
    assert m.frequent == map[a := 1];
    m.RememberURL(b);
    assert m.frequent == map[a := 1, b := 1];
    m.RememberURL(a);
    assert m.frequent == map[a := 2, b := 1];
    assert |m.frequent| == 2;
    top := m.GetFiveMostFrequentURL();
    assert |top| == 2 && top[0] != top[1];
    assert top[0] in m.frequent && top[1] in m.frequent;
    assert m.frequent[top[0]] <= m.frequent[top[1]];
  }

  /** Forward from the only page stays on it. */
  method NextWhenNoNextURL() returns (r: Option<Url>)
    ensures r == Some("http://naver.com")
  {
    var m := new Model([], -1, None);
    m.RememberURL("http://naver.com");
    r := m.GetNextURL(1);
  }

  /** Back from the only page stays on it. */
  method NextWhenNoPreviousURL() returns (r: Option<Url>)
    ensures r == Some("http://naver.com")
  {
    var m := new Model([], -1, None);
    m.RememberURL("http://naver.com");
    r := m.GetNextURL(-1);
  }

  /** Back or forward before any visit fails. */
  method NextWhenNothingVisited(backOrForth: int) returns (r: Option<Url>)
    ensures r == None
  {
    var m := new Model([], -1, None);
    r := m.GetNextURL(backOrForth);
  }

  /**
   * A, B, C visited, back twice, then D visited: B and C are gone, and
   * forward from D stays on D.
   */
  method BranchDiscardsForwardHistory() returns (history: seq<Url>, r: Option<Url>)
    ensures history == ["http://a.com", "http://d.com"]
    ensures r == Some("http://d.com")
  {
    var m := new Model([], -1, None);
    m.RememberURL("http://a.com");
    m.RememberURL("http://b.com");
    m.RememberURL("http://c.com");
    assert m.history == ["http://a.com", "http://b.com", "http://c.com"] && m.index == 2;
    var back := m.GetNextURL(-1);
    back := m.GetNextURL(-1);
    assert m.index == 0 && m.history[..1] == ["http://a.com"];
    m.RememberURL("http://d.com");
    history := m.history;
    r := m.GetNextURL(1);
  }

  /** Setting the favorite twice keeps only the second page. */
  method FavoriteSetTwice() returns (favorite: Option<Url>)
    ensures favorite == Some("http://b.com")
  {
    var m := new Model([], -1, None);
    m.RememberURL("http://a.com");
    m.SetMyFavoriteToCurrentPage();
    m.RememberURL("http://b.com");
    m.SetMyFavoriteToCurrentPage();
    favorite := m.GetMyFavorite();
  }

  /** Home is the page current when it was set, not the page current now. */
  method HomeIsASnapshot() returns (home: Option<Url>)
    ensures home == Some("http://a.com")
  {
    var m := new Model([], -1, None);
    m.RememberURL("http://a.com");
    m.SetHomeToCurrentPage();
    m.RememberURL("http://b.com");
    home := m.GetHome();
  }

  /**
   * Back and forward move only the cursor: after visits A, B and a move back
   * to A, the current URL is still B, so home is set to B and text is
   * completed relative to B.
   */
  method HomeAfterBack(parse: string -> Option<Url>)
    returns (back: Option<Url>, home: Option<Url>, completed: Option<Url>)
    requires parse("page").None? && parse("http://page").None?
    ensures back == Some("http://a.com")
    ensures home == Some("http://b.com")
    ensures completed == parse("http://b.com/page")
  {
    var m := new Model([], -1, None);
    m.RememberURL("http://a.com");
    m.RememberURL("http://b.com");
    back := m.GetNextURL(-1);
    m.SetHomeToCurrentPage();
    home := m.GetHome();
    assert ProtocolPrefix + "page" == "http://page";
    assert m.current.value + "/" + "page" == "http://b.com/page";
    completed := m.CompleteURL(Some("page"), parse);
  }
}
