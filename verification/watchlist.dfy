/** The watchlist panel (src/components/Watchlist/index.tsx): the coins on
    the watchlist, the case-insensitive search for coins to add (at most five
    results), and the small state machine of the search box. Adding and
    removing coins are callbacks of the parent and appear here only as the
    coin id handed to them. */
module Watchlist {
  import opened Common
  import opened Types

  /** The most search results shown. */
  const MaxResults: nat := 5

  /** `watchlistCoins`: the market rows whose id is on the watchlist, in
      market order. */
  function WatchlistCoins(cryptoData: seq<CryptoData>, watchlist: seq<string>): (r: seq<CryptoData>)
    ensures forall c :: c in r <==> c in cryptoData && c.id in watchlist
    ensures forall c :: multiset(r)[c] == if c.id in watchlist then multiset(cryptoData)[c] else 0
    ensures IsSubsequence(r, cryptoData)
  {
    var watched := (c: CryptoData) => c.id in watchlist;
    FilterContents(cryptoData, watched);
    Filter(cryptoData, watched)
  }

  /** The search term occurs, ignoring ASCII case, in the coin's name or in
      its symbol. */
  predicate MatchesTerm(c: CryptoData, term: string)
  {
    Includes(ToLower(c.name), ToLower(term)) || Includes(ToLower(c.symbol), ToLower(term))
  }

  /** A coin the search may offer: not yet watched, and matching the term. */
  predicate IsCandidate(c: CryptoData, watchlist: seq<string>, term: string)
  {
    c.id !in watchlist && MatchesTerm(c, term)
  }

  /** The candidates in market order: the `filter` before the `slice`. */
  function Candidates(cryptoData: seq<CryptoData>, watchlist: seq<string>, term: string): (r: seq<CryptoData>)
    ensures forall c :: c in r <==> c in cryptoData && IsCandidate(c, watchlist, term)
    ensures forall c :: multiset(r)[c] == if IsCandidate(c, watchlist, term) then multiset(cryptoData)[c] else 0
    ensures IsSubsequence(r, cryptoData)
  {
    var candidate := (c: CryptoData) => IsCandidate(c, watchlist, term);
    FilterContents(cryptoData, candidate);
    Filter(cryptoData, candidate)
  }

  /** `searchResults`: the first five candidates in market order. Fewer than
      five results means every candidate is among them. */
  function SearchResults(cryptoData: seq<CryptoData>, watchlist: seq<string>, term: string): (r: seq<CryptoData>)
    ensures r <= Candidates(cryptoData, watchlist, term)
    ensures |r| == if |Candidates(cryptoData, watchlist, term)| < MaxResults
                   then |Candidates(cryptoData, watchlist, term)| else MaxResults
    ensures forall k :: 0 <= k < |r| ==> r[k].id !in watchlist && MatchesTerm(r[k], term)
    ensures IsSubsequence(r, cryptoData)
    ensures |r| < MaxResults ==>
              forall c :: c in cryptoData && IsCandidate(c, watchlist, term) ==> c in r
  {
    var all := Candidates(cryptoData, watchlist, term);
    TakeFilterSubsequence(cryptoData, (c: CryptoData) => IsCandidate(c, watchlist, term), MaxResults);
    var r := Take(all, MaxResults);
    assert forall k :: 0 <= k < |r| ==> r[k] == all[k] && all[k] in all;
    assert |r| < MaxResults ==> r == all;
    r
  }

  /** No coin is both on the watchlist and offered by the search. */
  lemma WatchedNeverOffered(cryptoData: seq<CryptoData>, watchlist: seq<string>, term: string)
    ensures forall c :: c in WatchlistCoins(cryptoData, watchlist) ==> c !in SearchResults(cryptoData, watchlist, term)
  {
  }

  /** The empty string occurs in every string, so an empty term matches
      every coin. */
  lemma EmptyTermMatches(c: CryptoData)
    ensures MatchesTerm(c, "")
  {
  }

  /** The search ignores the case of the term: a term and its lower-case
      form give the same results. */
  lemma {:induction false} SearchIgnoresCase(cryptoData: seq<CryptoData>, watchlist: seq<string>, term: string)
    ensures SearchResults(cryptoData, watchlist, term) == SearchResults(cryptoData, watchlist, ToLower(term))
  {
    ToLowerIdempotent(term);
    assert Candidates(cryptoData, watchlist, term) == Candidates(cryptoData, watchlist, ToLower(term)) by {
      FilterCongruent(cryptoData,
                      (c: CryptoData) => IsCandidate(c, watchlist, term),
                      (c: CryptoData) => IsCandidate(c, watchlist, ToLower(term)));
    }
  }

  // ----- the search box -----

  /** The search box: the term typed and whether the box is open. */
  datatype SearchState = SearchState(term: string, isSearching: bool)

  const InitialSearch := SearchState("", false)

  /** The search button opens a closed box and closes an open one, keeping
      the term. */
  function ToggleSearch(s: SearchState): (r: SearchState)
    ensures r.term == s.term
    ensures r.isSearching != s.isSearching
  {
    s.(isSearching := !s.isSearching)
  }

  /** Toggling twice restores the box. */
  lemma ToggleTwice(s: SearchState)
    ensures ToggleSearch(ToggleSearch(s)) == s
  {
  }

  /** Typing replaces the term. */
  function EditTerm(s: SearchState, text: string): (r: SearchState)
    ensures r.term == text && r.isSearching == s.isSearching
  {
    s.(term := text)
  }

  /** The clear button is shown only in an open box with a non-empty term. */
  predicate ShowsClearButton(s: SearchState)
  {
    s.isSearching && s.term != ""
  }

  /** The clear button empties the term and leaves the box open. */
  function ClearTerm(s: SearchState): (r: SearchState)
    requires ShowsClearButton(s)
    ensures r.term == "" && r.isSearching
    ensures !ShowsClearButton(r)
  {
    s.(term := "")
  }

  /** The results on screen: the search results, shown only while the box
      is open, the term non-empty and there is at least one result. */
  function VisibleResults(cryptoData: seq<CryptoData>, watchlist: seq<string>, s: SearchState): (r: seq<CryptoData>)
    ensures !s.isSearching || s.term == "" ==> r == []
    ensures s.isSearching && s.term != "" ==> r == SearchResults(cryptoData, watchlist, s.term)
    ensures |r| <= MaxResults
    ensures forall k :: 0 <= k < |r| ==> IsCandidate(r[k], watchlist, s.term)
  {
    var results := SearchResults(cryptoData, watchlist, s.term);
    if s.isSearching && s.term != "" && |results| > 0 then results else []
  }

  /** Picking a result: the coin id handed to `onAddToWatchlist`, and the
      box after the click. */
  datatype Pick = Pick(added: string, after: SearchState)

  /** Clicking a visible result adds its coin, clears the term and closes
      the box. */
  function PickResult(cryptoData: seq<CryptoData>, watchlist: seq<string>, s: SearchState, k: nat): (p: Pick)
    requires k < |VisibleResults(cryptoData, watchlist, s)|
    ensures p.added == VisibleResults(cryptoData, watchlist, s)[k].id
    ensures p.added !in watchlist
    ensures exists c :: c in cryptoData && c.id == p.added && IsCandidate(c, watchlist, s.term)
    ensures p.after == InitialSearch
  {
    var results := VisibleResults(cryptoData, watchlist, s);
    SubsequenceMembers(results, cryptoData);
    assert results[k] in results;
    Pick(results[k].id, SearchState("", false))
  }

  /** Once the parent appends the picked id to the watchlist, the coin is
      on the watchlist panel and no longer offered by any search. */
  lemma PickedCoinMoves(cryptoData: seq<CryptoData>, watchlist: seq<string>, s: SearchState, k: nat)
    requires k < |VisibleResults(cryptoData, watchlist, s)|
    ensures var c := VisibleResults(cryptoData, watchlist, s)[k];
      var w := watchlist + [PickResult(cryptoData, watchlist, s, k).added];
      c in WatchlistCoins(cryptoData, w)
      && forall term :: c !in SearchResults(cryptoData, w, term)
  {
    var results := VisibleResults(cryptoData, watchlist, s);
    SubsequenceMembers(results, cryptoData);
    assert results[k] in results;
  }
}
