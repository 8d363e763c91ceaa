/** Resolving the country named in the URL (`CountryDetail`, identical in versions 1, 2
    and 3): `countries.find(c => c.name.common.toLowerCase() === countryName.toLowerCase())`
    after a "not loaded yet" check. `toLowerCase` is a parameter: its Unicode case mapping
    is not modelled. */
module Resolver {
  import opened Common

  /** The page's outcomes: "Loading...", "Country not found.", the country's page, or a
      render that throws because the search reached a record without `name.common`. */
  datatype Resolution = Pending | NotFound | Found(country: Country) | Throws

  /** The search's test for one record (only defined for a named record). */
  predicate NameMatches(c: Country, urlName: string, lower: string -> string)
    requires c.name.Some?
  {
    lower(c.name.value) == lower(urlName)
  }

  /** Record `i` is passed over by `find`: named and not matching. */
  predicate Skipped(c: Country, urlName: string, lower: string -> string) {
    c.name.Some? && !NameMatches(c, urlName, lower)
  }

  /** `find` over a loaded list. */
  function Find(cs: seq<Country>, urlName: string, lower: string -> string): (r: Resolution)
    ensures r != Pending
    ensures r.Found? <==> exists i :: 0 <= i < |cs| && cs[i].name.Some? && NameMatches(cs[i], urlName, lower)
                                    && (forall j :: 0 <= j < i ==> Skipped(cs[j], urlName, lower))
    ensures r.Found? ==> exists i :: 0 <= i < |cs| && cs[i] == r.country
                                    && cs[i].name.Some? && NameMatches(cs[i], urlName, lower)
                                    && (forall j :: 0 <= j < i ==> Skipped(cs[j], urlName, lower))
    ensures r == NotFound <==> forall j :: 0 <= j < |cs| ==> Skipped(cs[j], urlName, lower)
    ensures r == Throws <==> exists i :: 0 <= i < |cs| && cs[i].name.None?
                                    && (forall j :: 0 <= j < i ==> Skipped(cs[j], urlName, lower))
  {
    if cs == [] then NotFound
    else if cs[0].name.None? then Throws
    else if NameMatches(cs[0], urlName, lower) then Found(cs[0])
    else
      var r := Find(cs[1..], urlName, lower);
      assert forall i :: 1 <= i < |cs| ==> cs[i] == cs[1..][i - 1];
      r
  }

  /** `if (!countries || countries.length === 0)` then "Loading...", else the search. */
  function Resolve(countries: Option<seq<Country>>, urlName: string, lower: string -> string): (r: Resolution)
    ensures r == Pending <==> countries.None? || countries.value == []
    ensures countries.Some? && countries.value != [] ==> r == Find(countries.value, urlName, lower)
  {
    if countries.None? || countries.value == [] then Pending
    else Find(countries.value, urlName, lower)
  }

  /** The search is exact equality after case-folding: a country whose folded name differs
      from the folded URL name is never the result, however much of it the URL name shares. */
  lemma ResolveIsExactMatch(countries: Option<seq<Country>>, urlName: string, lower: string -> string)
    ensures Resolve(countries, urlName, lower).Found? ==>
              var c := Resolve(countries, urlName, lower).country;
              c.name.Some? && lower(c.name.value) == lower(urlName) && c in countries.value
  {
  }

  /** Pending and NotFound are different outcomes: a loaded list never gives Pending, and
      the empty or missing list never gives NotFound. */
  lemma PendingDistinctFromNotFound(countries: Option<seq<Country>>, urlName: string, lower: string -> string)
    ensures Resolve(countries, urlName, lower) == NotFound ==> countries.Some? && |countries.value| > 0
    ensures countries.Some? && |countries.value| > 0 ==> Resolve(countries, urlName, lower) != Pending
  {
  }

  /** Case-folding of one ASCII letter. */
  function LowerChar(ch: char): char {
    if 'A' <= ch <= 'Z' then (ch as int + 32) as char else ch
  }

  /** Case-folding of ASCII letters; an instance of `toLowerCase` for the examples below. */
  function AsciiLower(s: string): (r: string)
    ensures |r| == |s|
    ensures forall i :: 0 <= i < |s| ==> r[i] == LowerChar(s[i])
  {
    seq(|s|, i requires 0 <= i < |s| => LowerChar(s[i]))
  }

  function Named(n: string): Country {
    Country(Some(n), None, None, None, None, None)
  }

  /** "canada" finds "Canada"; "Atlantis" and the prefix "Can" find nothing; a list not yet
      loaded is pending. */
  lemma ResolveExamples()
    ensures Resolve(Some([Named("Canada")]), "canada", AsciiLower) == Found(Named("Canada"))
    ensures Resolve(Some([Named("Canada")]), "Atlantis", AsciiLower) == NotFound
    ensures Resolve(Some([Named("Canada")]), "Can", AsciiLower) == NotFound
    ensures Resolve(Some([]), "canada", AsciiLower) == Pending
  {
    assert AsciiLower("Canada") == AsciiLower("canada");
    assert AsciiLower("Atlantis")[0] != AsciiLower("Canada")[0];
  }
}
