/** The browser window the pages share: `localStorage` as a map from keys to stored
    values, and the log of events dispatched on `window`. `JSON.stringify`/`JSON.parse`
    are taken to round-trip a stored country list, so the list itself is stored. */
module Storage {
  import opened Common

  /** A stored value: the text a view counter wrote (its `parseInt`, None for NaN), or a
      JSON country list. */
  datatype Stored = CountText(count: Option<int>) | CountryList(countries: seq<Country>)

  /** The events the saved-countries pages listen to. */
  datatype EventName = SavedCountriesUpdated | StorageChanged

  const SavedKey: string := "savedCountries"

  /** `JSON.parse(localStorage.getItem("savedCountries") || "[]")`. */
  function SavedList(storage: map<string, Stored>): (r: seq<Country>)
    ensures SavedKey !in storage ==> r == []
  {
    if SavedKey in storage && storage[SavedKey].CountryList? then storage[SavedKey].countries else []
  }

  /** `saved.some((c) => c.cca3 === country.cca3)`; an absent code equals an absent code
      (`undefined === undefined`). */
  predicate IsSaved(saved: seq<Country>, c: Country)
    ensures c in saved ==> IsSaved(saved, c)
    ensures IsSaved(saved, c) ==> saved != []
  {
    exists i :: 0 <= i < |saved| && saved[i].cca3 == c.cca3
  }

  /** The list `handleSaveCountry` leaves in storage: unchanged when a stored entry shares
      the code, otherwise the country appended. */
  function SaveResult(saved: seq<Country>, c: Country): (r: seq<Country>)
    ensures IsSaved(r, c)
    ensures |r| == if IsSaved(saved, c) then |saved| else |saved| + 1
    ensures r[..|saved|] == saved
    ensures !IsSaved(saved, c) ==> r[|saved|] == c
  {
    if IsSaved(saved, c) then saved
    else
      assert (saved + [c])[|saved|] == c;
      saved + [c]
  }

  /** Saving a country a second time changes nothing, whatever the stored list. */
  lemma SaveIdempotent(saved: seq<Country>, c: Country)
    ensures SaveResult(SaveResult(saved, c), c) == SaveResult(saved, c)
  {
  }

  /** No two stored entries share a code. */
  predicate DistinctCodes(saved: seq<Country>) {
    forall i, j :: 0 <= i < j < |saved| ==> saved[i].cca3 != saved[j].cca3
  }

  /** Saving never creates a duplicate code, and a second save of the same country changes nothing. */
  lemma SaveKeepsCodesDistinct(saved: seq<Country>, c: Country)
    requires DistinctCodes(saved)
    ensures DistinctCodes(SaveResult(saved, c))
    ensures SaveResult(SaveResult(saved, c), c) == SaveResult(saved, c)
  {
    if !IsSaved(saved, c) {
      var r := saved + [c];
      forall i, j | 0 <= i < j < |r| ensures r[i].cca3 != r[j].cca3 {
        if j == |saved| {
          assert r[i] == saved[i];
        }
      }
    }
  }

  /** With `cca3` absent from a country and from any one stored entry, the country already
      counts as saved, whatever its name. */
  lemma AbsentCodesCollide(saved: seq<Country>, c: Country, i: nat)
    requires i < |saved| && saved[i].cca3.None? && c.cca3.None?
    ensures IsSaved(saved, c)
    ensures SaveResult(saved, c) == saved
  {
  }

  class Window {
    var storage: map<string, Stored>
    var events: seq<EventName>  // events dispatched on `window`, oldest first

    constructor (initial: map<string, Stored>)
      ensures storage == initial && events == []
    {
      storage, events := initial, [];
    }

    /** The storage write and dispatch of `handleSaveCountry`: append and announce only
        when no stored entry shares the code. */
    method SaveCountry(c: Country) returns (added: bool)
      modifies this
      ensures added <==> !IsSaved(SavedList(old(storage)), c)
      ensures added ==> storage == old(storage)[SavedKey := CountryList(SaveResult(SavedList(old(storage)), c))]
      ensures !added ==> storage == old(storage)
      ensures SavedList(storage) == SaveResult(SavedList(old(storage)), c)
      ensures events == if added then old(events) + [SavedCountriesUpdated] else old(events)
    {
      var saved := SavedList(storage);
      added := !IsSaved(saved, c);
      if added {
        saved := saved + [c];
        storage := storage[SavedKey := CountryList(saved)];
        events := events + [SavedCountriesUpdated];
      }
    }

    /** Another tab rewrites the saved list; this window receives a `storage` event. */
    method WriteFromOtherTab(saved: seq<Country>)
      modifies this
      ensures storage == old(storage)[SavedKey := CountryList(saved)]
      ensures events == old(events) + [StorageChanged]
    {
      storage := storage[SavedKey := CountryList(saved)];
      events := events + [StorageChanged];
    }
  }
}
