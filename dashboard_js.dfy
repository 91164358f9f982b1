/**
 * The plain character list page: the characters whose name or description matches the
 * search term, and the "no match" notice. The fetch is not modelled; the entries and the
 * loading flag are inputs.
 */
module DashboardJs {
  import opened Lists
  import Dashboard

  type Entry = (string, Dashboard.CharacterInfo)

  predicate EntryMatches(e: Entry, term: string)
  {
    Dashboard.Matches(e.1.name, term) || Dashboard.Matches(e.1.description, term)
  }

  /** `filteredCharacters`: the matching entries, in order; all of them for an empty term. */
  function FilteredCharacters(entries: seq<Entry>, term: string): (r: seq<Entry>)
    ensures forall e :: e in r <==> e in entries && EntryMatches(e, term)
    ensures IsSubseq(r, entries)
    ensures term == "" ==> r == entries
  {
    var p := (e: Entry) => EntryMatches(e, term);
    FilterIff(p, entries);
    FilterIsSubseq(p, entries);
    if term == "" then
      forall e | e in entries ensures p(e) { Dashboard.EmptyTermMatches(e.1.name); }
      FilterAll(p, entries);
      Filter(p, entries)
    else Filter(p, entries)
  }

  /** The notice is rendered when nothing is left after filtering and loading is over. */
  predicate ShowsNoMatch(entries: seq<Entry>, term: string, loading: bool)
  {
    |FilteredCharacters(entries, term)| == 0 && !loading
  }

  /** The notice shows exactly when loading is over and no entry matches. */
  lemma NoMatchIff(entries: seq<Entry>, term: string, loading: bool)
    ensures ShowsNoMatch(entries, term, loading)
      <==> !loading && forall i :: 0 <= i < |entries| ==> !EntryMatches(entries[i], term)
  {
    var r := FilteredCharacters(entries, term);
    if r != [] {
      assert r[0] in r;
    }
    if exists i :: 0 <= i < |entries| && EntryMatches(entries[i], term) {
      var i :| 0 <= i < |entries| && EntryMatches(entries[i], term);
      assert entries[i] in r;
    }
  }
}
