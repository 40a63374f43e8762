/**
 * The back-end state of a minimal web browser: a navigation history with a
 * cursor, a visit count per URL, a home slot and a favorite slot, plus the
 * heuristic that turns typed text into a URL.
 *
 * A URL is represented by its text form (what `toString` gives back), and
 * parsing text into a URL is an uninterpreted function `parse` supplied by
 * the caller: `parse(s) == None` stands for a `MalformedURLException`.
 */
module Browser {

  datatype Option<T> = None | Some(value: T)

  /** A URL, by its text form. */
  type Url = string

  /** The scheme that URL completion prefixes to text that does not parse. */
  const ProtocolPrefix: string := "http://"

  /** How many URLs the most-frequently-visited list holds at most. */
  const TopCount: nat := 5

  function Min(a: int, b: int): int { if a <= b then a else b }

  // ---------------------------------------------------------------------
  // URL completion

  /** The texts URL completion tries, in order, for the typed text `s`. */
  function Candidates(s: string, current: Option<Url>): seq<string>
  {
    [s, ProtocolPrefix + s] + if current.Some? then [current.value + "/" + s] else []
  }

  /** The parse of the first text in `cands` that parses, if any. */
  function FirstParse(cands: seq<string>, parse: string -> Option<Url>): (r: Option<Url>)
    ensures r.None? <==> forall i :: 0 <= i < |cands| ==> parse(cands[i]).None?
    ensures r.Some? ==>
      exists i :: 0 <= i < |cands| && r == parse(cands[i]) &&
        forall j :: 0 <= j < i ==> parse(cands[j]).None?
    decreases |cands|
  {
    if cands == [] then None
    else if parse(cands[0]).Some? then parse(cands[0])
    else
      var r := FirstParse(cands[1..], parse);
      assert forall i :: 1 <= i < |cands| ==> cands[i] == cands[1..][i - 1];
      r
  }

  // ---------------------------------------------------------------------
  // Visit counts and their ranking

  /** The visit-count table after one more visit of `u`. */
  function Bump(counts: map<Url, nat>, u: Url): (r: map<Url, nat>)
    ensures r.Keys == counts.Keys + {u}
    ensures r[u] == if u in counts then counts[u] + 1 else 1
    ensures forall v :: v in counts && v != u ==> r[v] == counts[v]
  {
    if u in counts then counts[u := counts[u] + 1] else counts[u := 1]
  }

  predicate Distinct(s: seq<Url>)
  {
    forall i, j :: 0 <= i < j < |s| ==> s[i] != s[j]
  }

  predicate AllCounted(s: seq<Url>, counts: map<Url, nat>)
  {
    forall i :: 0 <= i < |s| ==> s[i] in counts
  }

  /** Counts do not decrease along `s`. */
  predicate Ascending(s: seq<Url>, counts: map<Url, nat>)
    requires AllCounted(s, counts)
  {
    forall i, j :: 0 <= i < j < |s| ==> counts[s[i]] <= counts[s[j]]
  }

  /** Counts do not increase along `s`. */
  predicate Descending(s: seq<Url>, counts: map<Url, nat>)
    requires AllCounted(s, counts)
  {
    forall i, j :: 0 <= i < j < |s| ==> counts[s[i]] >= counts[s[j]]
  }

  /**
   * What the most-frequently-visited list promises: min(5, #URLs) distinct
   * visited URLs. With at least five URLs they are the most visited ones,
   * most visited first; with fewer, they are all URLs, least visited first.
   * Ties are ranked in no particular order.
   */
  predicate IsTopFive(top: seq<Url>, counts: map<Url, nat>)
  {
    && |top| == Min(TopCount, |counts|)
    && Distinct(top)
    && AllCounted(top, counts)
    && (|counts| >= TopCount ==>
          && Descending(top, counts)
          && forall u, i :: u in counts && u !in top && 0 <= i < |top| ==> counts[u] <= counts[top[i]])
    && (|counts| < TopCount ==>
          && Ascending(top, counts)
          && forall u :: u in counts ==> u in top)
  }

  /** A URL visited strictly more often than every other is always listed. */
  lemma StrictlyMostVisitedIsListed(top: seq<Url>, counts: map<Url, nat>, u: Url)
    requires IsTopFive(top, counts)
    requires u in counts
    requires forall v :: v in counts && v != u ==> counts[v] < counts[u]
    ensures u in top
  {
    if |counts| >= TopCount && top[0] != u {
      assert counts[top[0]] < counts[u];
    }
  }

  /**
   * Inserts `u` into a list sorted by ascending count, after every entry of
   * equal count, as a stable sort places a later entry.
   */
  function InsertByCount(s: seq<Url>, u: Url, counts: map<Url, nat>): (r: seq<Url>)
    requires u in counts && AllCounted(s, counts) && Ascending(s, counts)
    ensures |r| == |s| + 1
    ensures forall x :: x in r <==> x == u || x in s
    ensures AllCounted(r, counts) && Ascending(r, counts)
    ensures Distinct(s) && u !in s ==> Distinct(r)
  {
    if s == [] || counts[u] < counts[s[0]] then [u] + s
    else
      var rest := InsertByCount(s[1..], u, counts);
      assert forall x :: x in s[1..] ==> counts[s[0]] <= counts[x];
      assert Distinct(s) ==> s[0] !in s[1..];
      [s[0]] + rest
  }

  /**
   * The keys of `counts`, ordered by ascending count. Keys are taken in an
   * unspecified order (that of a hash map's entry set) and sorted stably.
   */
  method SortByCount(counts: map<Url, nat>) returns (list: seq<Url>)
    ensures AllCounted(list, counts) && Ascending(list, counts) && Distinct(list)
    ensures forall u :: u in counts <==> u in list
    ensures |list| == |counts|
  {
    list := [];
    var rest := counts.Keys;
    while rest != {}
      invariant AllCounted(list, counts) && Ascending(list, counts) && Distinct(list)
      invariant forall u :: u in counts <==> u in list || u in rest
      invariant forall u :: u in rest ==> u !in list
      invariant |list| + |rest| == |counts|
      decreases |rest|
    {
      var u :| u in rest;
      list := InsertByCount(list, u, counts);
      rest := rest - {u};
    }
  }

  /**
   * The last five entries of a list of all URLs sorted by ascending count,
   * taken from the end, are a most-frequently-visited list.
   */
  lemma TailIsTopFive(list: seq<Url>, counts: map<Url, nat>, top: seq<Url>)
    requires AllCounted(list, counts) && Ascending(list, counts) && Distinct(list)
    requires forall u :: u in counts <==> u in list
    requires |list| == |counts| >= TopCount
    requires |top| == TopCount
    requires forall m :: 0 <= m < |top| ==> top[m] == list[|list| - 1 - m]
    ensures IsTopFive(top, counts)
  {
    var n := |list|;
    assert forall j :: n - TopCount <= j < n ==> list[j] == top[n - 1 - j];
    forall u, m | u in counts && u !in top && 0 <= m < |top|
      ensures counts[u] <= counts[top[m]]
    {
      var k :| 0 <= k < n && list[k] == u;
    }
  }

  // ---------------------------------------------------------------------
  // The state object

  class Model {
    var history: seq<Url>
    var index: int
    var current: Option<Url>
    var home: Option<Url>
    var favorite: Option<Url>
    var frequent: map<Url, nat>

    /** The cursor is a valid index, or -1 on an empty history; counts are positive. */
    ghost predicate Valid()
      reads this
    {
      && -1 <= index < |history|
      && (index == -1 ==> history == [])
      && forall u :: u in frequent ==> frequent[u] >= 1
    }

    /** Every URL in the history has been counted. */
    ghost predicate Tracked()
      reads this
    {
      forall i :: 0 <= i < |history| ==> history[i] in frequent
    }

    constructor (history: seq<Url>, index: int, currentURL: Option<Url>)
      ensures this.history == history && this.index == index && current == currentURL
      ensures frequent == map[] && home == None && favorite == None
      ensures Valid() <==> -1 <= index < |history| && (index == -1 ==> history == [])
      ensures history == [] ==> Tracked()
    {
      this.history := history;
      this.index := index;
      current := currentURL;
      frequent := map[];
      home := None;
      favorite := None;
    }

    /** The most frequently visited URLs; the state is left as it is. */
    method GetFiveMostFrequentURL() returns (top: seq<Url>)
      ensures IsTopFive(top, frequent)
    {
      var list := SortByCount(frequent);
      var n := |list|;
      top := [];
      if n >= TopCount {
        var i := n;
        while i > n - TopCount
          invariant n - TopCount <= i <= n
          invariant |top| == n - i
          invariant forall m :: 0 <= m < |top| ==> top[m] == list[n - 1 - m]
        {
          top := top + [list[i - 1]];
          i := i - 1;
        }
        TailIsTopFive(list, frequent, top);
      } else {
        for k := 0 to n
          invariant top == list[..k]
        {
          top := top + [list[k]];
        }
        assert top == list;
      }
    }

    /** Whether a forward move is possible from the cursor. */
    function HasNext(): (r: bool)
      reads this
      requires Valid()
      ensures r <==> 0 <= index + 1 < |history|
    {
      index < |history| - 1
    }

    /**
     * Records a visit of `u`: counts it, discards any forward branch, appends
     * it to the history and moves the cursor onto it.
     */
    method RememberURL(u: Url)
      requires Valid()
      modifies this`current, this`frequent, this`history, this`index
      ensures Valid() && (old(Tracked()) ==> Tracked())
      ensures current == Some(u)
      ensures frequent == Bump(old(frequent), u)
      ensures history == old(history)[..old(index) + 1] + [u]
      ensures index == old(index) + 1 == |history| - 1
    {
      current := Some(u);
      frequent := Bump(frequent, u);
      if HasNext() {
        history := history[..index + 1];
      }
      history := history + [current.value];
      index := index + 1;
    }

    /**
     * Moves the cursor by `backOrForth` and returns the URL there; a move
     * out of range is undone and the URL at the cursor is returned instead.
     * `None` stands for the out-of-range failure on an empty history.
     */
    method GetNextURL(backOrForth: int) returns (r: Option<Url>)
      requires Valid()
      modifies this`index
      ensures Valid() && (old(Tracked()) ==> Tracked())
      ensures 0 <= old(index) + backOrForth < |history| ==>
        index == old(index) + backOrForth && r == Some(history[index])
      ensures !(0 <= old(index) + backOrForth < |history|) ==>
        index == old(index) && r == if history == [] then None else Some(history[index])
      ensures r.None? <==> history == []
      ensures current == old(current)
    {
      index := index + backOrForth;
      if 0 <= index < |history| {
        return Some(history[index]);
      }
      index := index - backOrForth;
      if 0 <= index < |history| {
        return Some(history[index]);
      }
      return None;
    }

    /**
     * Completes typed text into a URL: the text as it is, then with the
     * default protocol prefixed, then relative to the current URL. The
     * relative attempt needs a current URL.
     */
    function CompleteURL(possible: Option<string>, parse: string -> Option<Url>): (r: Option<Url>)
      reads this
      requires (possible.Some? && parse(possible.value).None? &&
                parse(ProtocolPrefix + possible.value).None?) ==> current.Some?
      ensures possible.None? ==> r.None?
      ensures possible.Some? ==> r == FirstParse(Candidates(possible.value, current), parse)
    {
      match possible
      case None => None
      case Some(s) =>
        if parse(s).Some? then parse(s)
        else if parse(ProtocolPrefix + s).Some? then parse(ProtocolPrefix + s)
        else
          ghost var cands := Candidates(s, current);
          assert FirstParse(cands, parse) == FirstParse(cands[1..], parse);
          assert FirstParse(cands[1..], parse) == FirstParse(cands[2..], parse);
          assert cands[2..] == [current.value + "/" + s];
          parse(current.value + "/" + s)
    }

    method SetHomeToCurrentPage()
      modifies this`home
      ensures home == current
    {
      home := current;
    }

    function GetHome(): Option<Url>
      reads this
    {
      home
    }

    function GetMyFavorite(): Option<Url>
      reads this
    {
      favorite
    }

    method SetMyFavoriteToCurrentPage()
      modifies this`favorite
      ensures favorite == current
    {
      favorite := current;
    }
  }
}
