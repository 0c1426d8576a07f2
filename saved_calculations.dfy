/** The saved-calculations panel: the list stored under
    "adsense-saved-calculations", delete by id, and the search filter. */
module SavedCalculations {
  import opened JsValues
  import opened Seqs
  import opened Text

  datatype SavedResults = SavedResults(
    dailyEarnings: real, monthlyEarnings: real, yearlyEarnings: real, rpm: real)

  /** A saved record; `pageViews` is the parse of the stored page-view text. */
  datatype SavedCalculation = SavedCalculation(
    id: int, date: string, pageViews: Number, ctr: real, cpc: real,
    niche: string, geography: string, results: SavedResults)

  /** `calculations.filter((calc) => calc.id !== id)`. */
  function WithoutId(s: seq<SavedCalculation>, id: int): seq<SavedCalculation> {
    Filter(s, (c: SavedCalculation) => c.id != id)
  }

  /** Delete drops every record with the id and keeps every other record, in
      the original order. */
  lemma DeleteKeepsOthersInOrder(s: seq<SavedCalculation>, id: int)
    ensures forall c :: c in WithoutId(s, id) <==> c in s && c.id != id
    ensures IsSubsequence(WithoutId(s, id), s)
  {
    FilterIsSubsequence(s, (c: SavedCalculation) => c.id != id);
  }

  /** Number of records carrying the id. */
  function CountId(s: seq<SavedCalculation>, id: int): nat {
    CountWhere(s, (c: SavedCalculation) => c.id == id)
  }

  /** Delete shrinks the list by the number of records with that id. */
  lemma {:induction false} DeleteLength(s: seq<SavedCalculation>, id: int)
    ensures |WithoutId(s, id)| == |s| - CountId(s, id)
  {
    FilterLength(s, (c: SavedCalculation) => c.id != id, (c: SavedCalculation) => c.id == id);
  }

  /** Deleting an id that no record carries leaves the list unchanged. */
  lemma DeleteAbsent(s: seq<SavedCalculation>, id: int)
    requires forall k :: 0 <= k < |s| ==> s[k].id != id
    ensures WithoutId(s, id) == s
  {
    FilterKeepsAll(s, (c: SavedCalculation) => c.id != id);
  }

  /** Deleting the same id twice is the same as deleting it once. */
  lemma DeleteTwice(s: seq<SavedCalculation>, id: int)
    ensures WithoutId(WithoutId(s, id), id) == WithoutId(s, id)
  {
    FilterIdempotent(s, (c: SavedCalculation) => c.id != id);
  }

  /** The search: the lower-cased niche or geography includes the
      lower-cased term. */
  predicate MatchesSearch(c: SavedCalculation, term: string) {
    Includes(Lower(c.niche), Lower(term)) || Includes(Lower(c.geography), Lower(term))
  }

  function SearchResults(s: seq<SavedCalculation>, term: string): seq<SavedCalculation> {
    Filter(s, (c: SavedCalculation) => MatchesSearch(c, term))
  }

  /** A record is listed iff it is saved and matches the search; the listing
      keeps the saved order. */
  lemma SearchIsOrderedFilter(s: seq<SavedCalculation>, term: string)
    ensures forall c :: c in SearchResults(s, term) <==> c in s && MatchesSearch(c, term)
    ensures IsSubsequence(SearchResults(s, term), s)
  {
    FilterIsSubsequence(s, (c: SavedCalculation) => MatchesSearch(c, term));
  }

  /** An empty search lists every saved record. */
  lemma EmptySearchListsAll(s: seq<SavedCalculation>)
    ensures SearchResults(s, "") == s
  {
    forall k | 0 <= k < |s| ensures MatchesSearch(s[k], "") {
      IncludesEmpty(Lower(s[k].niche));
    }
    FilterKeepsAll(s, (c: SavedCalculation) => MatchesSearch(c, ""));
  }

  /** The search ignores the letter case of the term. */
  lemma SearchIgnoresCase(c: SavedCalculation, term: string)
    ensures MatchesSearch(c, term) <==> MatchesSearch(c, Lower(term))
  {
    LowerIdempotent(term);
  }

  class Panel {
    var calculations: seq<SavedCalculation>
    var searchTerm: string
    /** The "adsense-saved-calculations" entry of local storage. */
    var stored: Option<seq<SavedCalculation>>

    constructor (storage: Option<seq<SavedCalculation>>)
      ensures calculations == [] && searchTerm == "" && stored == storage
    {
      calculations, searchTerm, stored := [], "", storage;
    }

    /** The mount effect: a stored list replaces the in-memory one. */
    method Load()
      modifies this`calculations
      ensures calculations == if stored.Some? then stored.value else old(calculations)
    {
      if stored.Some? {
        calculations := stored.value;
      }
    }

    method SetSearchTerm(term: string)
      modifies this`searchTerm
      ensures searchTerm == term
    {
      searchTerm := term;
    }

    /** `deleteCalculation`: drop the records with that id and write the new
        list to storage. */
    method DeleteCalculation(id: int)
      modifies this`calculations, this`stored
      ensures calculations == WithoutId(old(calculations), id)
      ensures stored == Some(calculations)
    {
      var updated := Filter(calculations, (c: SavedCalculation) => c.id != id);
      calculations := updated;
      stored := Some(updated);
    }

    /** `filteredCalculations`: the records the panel lists. */
    function FilteredCalculations(): (listed: seq<SavedCalculation>)
      reads this
      ensures forall c :: c in listed <==> c in calculations && MatchesSearch(c, searchTerm)
      ensures IsSubsequence(listed, calculations)
      ensures searchTerm == "" ==> listed == calculations
    {
      SearchIsOrderedFilter(calculations, searchTerm);
      EmptySearchListsAll(calculations);
      SearchResults(calculations, searchTerm)
    }
  }
}
