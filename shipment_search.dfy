/** The search-and-sort both shipment lists apply before paging: keep the
    shipments one of whose text fields includes the search term, compared
    in lower case, and order the survivors newest first by createdAt. The
    shipments page searches productId, source, destination and status; the
    dashboard list searches the first three only. */
module ShipmentSearch {
  import opened Text
  import opened Schema
  import Sequences

  /** field.toLowerCase().includes(term.toLowerCase()): the lower-case term
      occurs somewhere in the lower-case field; the empty term matches every
      field. */
  predicate FieldMatches(field: string, term: string)
    ensures FieldMatches(field, term) <==> exists i :: OccursAt(ToLowerCase(field), ToLowerCase(term), i)
    ensures term == "" ==> FieldMatches(field, term)
  {
    IncludesIffOccurs(ToLowerCase(field), ToLowerCase(term));
    Includes(ToLowerCase(field), ToLowerCase(term))
  }

  /** The shipments page's test: productId, source, destination or status;
      the empty term matches every shipment. */
  predicate MatchesWithStatus(s: Shipment, term: string)
    ensures term == "" ==> MatchesWithStatus(s, term)
  {
    FieldMatches(s.productId, term) || FieldMatches(s.source, term)
    || FieldMatches(s.destination, term) || FieldMatches(s.status, term)
  }

  /** The dashboard list's test: productId, source or destination; the
      empty term matches every shipment. */
  predicate MatchesWithoutStatus(s: Shipment, term: string)
    ensures term == "" ==> MatchesWithoutStatus(s, term)
  {
    FieldMatches(s.productId, term) || FieldMatches(s.source, term)
    || FieldMatches(s.destination, term)
  }

  /** The sort key of (a, b) => b.createdAt - a.createdAt: ascending in the
      negated creation time is newest first. */
  function NewestFirstKey(s: Shipment): int {
    -s.createdAt
  }

  /** shipments.filter(matches).sort(newest first): a reordering of the
      matching shipments, ordered by the sort key. */
  function Search(shipments: seq<Shipment>, matches: Shipment -> bool): (r: seq<Shipment>)
    ensures multiset(r) == multiset(Sequences.Filter(shipments, matches))
    ensures Sequences.SortedBy(r, NewestFirstKey)
  {
    Sequences.SortBy(Sequences.Filter(shipments, matches), NewestFirstKey)
  }

  /** The result holds exactly the matching shipments, each as often as in
      the input, and none that does not match. */
  lemma SearchKeepsExactlyTheMatches(shipments: seq<Shipment>, matches: Shipment -> bool)
    ensures forall s ::
      multiset(Search(shipments, matches))[s] == (if matches(s) then multiset(shipments)[s] else 0)
    ensures forall s :: s in Search(shipments, matches) ==> matches(s)
    ensures |Search(shipments, matches)| <= |shipments|
  {
    var kept := Sequences.Filter(shipments, matches);
    assert multiset(Search(shipments, matches)) == multiset(kept);
    forall s | s in Search(shipments, matches)
      ensures matches(s)
    {
      assert s in multiset(kept);
    }
  }

  /** The result is ordered newest first. */
  lemma SearchIsNewestFirst(shipments: seq<Shipment>, matches: Shipment -> bool)
    ensures var r := Search(shipments, matches);
      forall i, j :: 0 <= i < j < |r| ==> r[i].createdAt >= r[j].createdAt
  {
    var r := Search(shipments, matches);
    assert Sequences.SortedBy(r, NewestFirstKey);
    forall i, j | 0 <= i < j < |r|
      ensures r[i].createdAt >= r[j].createdAt
    {
      assert NewestFirstKey(r[i]) <= NewestFirstKey(r[j]);
    }
  }

  /** Matching shipments created at the same moment keep their order from
      the input: for every value k of the sort key (k is -createdAt), the
      shipments with that key appear in the result in the order the filter
      passed them on, which is their order in the input list. */
  lemma SearchKeepsTiesInOrder(shipments: seq<Shipment>, matches: Shipment -> bool, k: int)
    ensures Sequences.WithKey(Search(shipments, matches), NewestFirstKey, k)
      == Sequences.WithKey(Sequences.Filter(shipments, matches), NewestFirstKey, k)
    ensures Sequences.WithKey(Search(shipments, matches), NewestFirstKey, k)
      == Sequences.Filter(Sequences.WithKey(shipments, NewestFirstKey, k), matches)
  {
    Sequences.SortByStable(Sequences.Filter(shipments, matches), NewestFirstKey, k);
    Sequences.FilterWithKey(shipments, matches, NewestFirstKey, k);
  }

  /** With an empty search box every shipment is listed: the result is the
      input reordered. */
  lemma EmptyTermListsEverything(shipments: seq<Shipment>, term: string)
    requires term == ""
    ensures multiset(Search(shipments, s => MatchesWithStatus(s, term))) == multiset(shipments)
    ensures multiset(Search(shipments, s => MatchesWithoutStatus(s, term))) == multiset(shipments)
  {
    forall s: Shipment
      ensures MatchesWithStatus(s, term) && MatchesWithoutStatus(s, term)
    {
      IncludesEmpty(ToLowerCase(s.productId));
    }
    Sequences.FilterKeepingAll(shipments, s => MatchesWithStatus(s, term));
    Sequences.FilterKeepingAll(shipments, s => MatchesWithoutStatus(s, term));
  }

  /** The search ignores case: two terms with the same lower-case form
      select the same shipments. */
  lemma SearchIgnoresCase(s: Shipment, term: string, other: string)
    requires ToLowerCase(term) == ToLowerCase(other)
    ensures MatchesWithStatus(s, term) <==> MatchesWithStatus(s, other)
    ensures MatchesWithoutStatus(s, term) <==> MatchesWithoutStatus(s, other)
  {
  }

  /** The two tests differ only on the status: the dashboard list finds a
      shipment exactly when the shipments page does and the match is not on
      the status alone. */
  lemma DashboardSkipsStatus(s: Shipment, term: string)
    ensures MatchesWithoutStatus(s, term) ==> MatchesWithStatus(s, term)
    ensures MatchesWithStatus(s, term) && !FieldMatches(s.status, term) ==> MatchesWithoutStatus(s, term)
  {
  }

  /** Example: the term "DELAYED" finds a delayed shipment on the shipments
      page through its status, while the dashboard list, which does not
      search the status, passes over a delayed shipment whose other fields
      do not mention it. */
  lemma StatusSearchExample(s: Shipment, term: string)
    requires term == "DELAYED" && s.status == Delayed
    requires s.productId == "P-1" && s.source == "Berlin" && s.destination == "Paris"
    ensures MatchesWithStatus(s, term)
    ensures !MatchesWithoutStatus(s, term)
  {
    assert ToLowerCase(term) == Delayed;
    assert IsPrefix(ToLowerCase(term), ToLowerCase(s.status));
    IncludesIffOccurs(ToLowerCase(s.productId), ToLowerCase(term));
    IncludesIffOccurs(ToLowerCase(s.source), ToLowerCase(term));
    IncludesIffOccurs(ToLowerCase(s.destination), ToLowerCase(term));
  }
}
