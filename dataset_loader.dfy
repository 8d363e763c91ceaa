/** Loading the country list once per session (`App` in versions 1 and 3): fetch the
    remote list, sort it by `name.common`, and on any failure in that chain sort a copy of
    the bundled `localData` instead. The fetch is an input: the outcome of the whole
    `fetch(...).then(res => res.json())` chain. */
module DatasetLoader {
  import opened Common
  import opened NameOrder

  /** What `res.json()` produced. */
  datatype Payload = NotAnArray | Entities(items: seq<Country>)

  /** The fetch chain: a network or JSON failure, or a decoded payload. */
  datatype FetchOutcome = FetchFailed | Fetched(payload: Payload)

  /** Whether the comparator `a.name.common.localeCompare(b.name.common)` throws while
      sorting `cs`: it throws on an entity without `name.common`, and a sort of two or
      more entities compares every one of them. */
  predicate SortThrows(cs: seq<Country>)
    ensures SortThrows(cs) ==> exists i :: 0 <= i < |cs| && cs[i].name.None?
    ensures |cs| <= 1 ==> !SortThrows(cs)
  {
    |cs| >= 2 && exists i :: 0 <= i < |cs| && cs[i].name.None?
  }

  /** The remote payload is kept: it decoded to an array and sorting it did not throw. */
  predicate RemoteAccepted(f: FetchOutcome) {
    f.Fetched? && f.payload.Entities? && !SortThrows(f.payload.items)
  }

  /** The list the effect hands to `setCountries`, or None when the fallback's own sort
      throws inside the `catch` handler (the rejection is then unhandled and nothing is set). */
  function Loaded(f: FetchOutcome, localData: seq<Country>, le: Collation): (r: Option<seq<Country>>)
    ensures r.None? <==> !RemoteAccepted(f) && SortThrows(localData)
  {
    if RemoteAccepted(f) then Some(SortByName(f.payload.items, le))
    else if SortThrows(localData) then None
    else Some(SortByName(localData, le))
  }

  /** Every list the loader stores is the payload (when accepted) or `localData`, put in
      name order by a stable sort: sorted, a permutation, and ties keep their order. The copy
      `[...localData]` is what gets sorted, so `localData` itself is a value left as it was. */
  lemma LoadedIsStableSortOfSource(f: FetchOutcome, localData: seq<Country>, le: Collation, k: string)
    requires TotalPreorder(le)
    requires Loaded(f, localData, le).Some?
    ensures var r := Loaded(f, localData, le).value;
            var src := if RemoteAccepted(f) then f.payload.items else localData;
            && Sorted(r, le)
            && multiset(r) == multiset(src)
            && Rank(r, k, le) == Rank(src, k, le)
  {
    var src := if RemoteAccepted(f) then f.payload.items else localData;
    SortByNameSorted(src, le);
    SortByNameStable(src, k, le);
  }

  /** A successful empty payload is stored as it is: there is no emptiness check and no fallback. */
  lemma EmptyPayloadAccepted(localData: seq<Country>, le: Collation)
    ensures Loaded(Fetched(Entities([])), localData, le) == Some([])
  {
    assert RemoteAccepted(Fetched(Entities([])));
  }

  /** Any failure of the chain (network, JSON, a payload that is not an array, a comparator
      that throws) falls back to the bundled data; with named bundled entities that never fails,
      and a non-empty bundle gives a non-empty list. */
  lemma FallbackWhenRemoteRejected(f: FetchOutcome, localData: seq<Country>, le: Collation)
    requires !RemoteAccepted(f)
    requires forall i :: 0 <= i < |localData| ==> localData[i].name.Some?
    ensures Loaded(f, localData, le).Some?
    ensures multiset(Loaded(f, localData, le).value) == multiset(localData)
    ensures |Loaded(f, localData, le).value| == |localData|
  {
    var r := Loaded(f, localData, le).value;
    assert |multiset(r)| == |r| && |multiset(localData)| == |localData|;
  }

  /** `App` of version 1: only a `countries` state; routes render at once with `[]`. */
  class AppV1 {
    var countries: seq<Country>

    constructor ()
      ensures countries == []
    {
      countries := [];
    }

    /** The effect's promise chain settles. */
    method Settle(f: FetchOutcome, localData: seq<Country>, le: Collation)
      modifies this
      ensures Loaded(f, localData, le).Some? ==> countries == Loaded(f, localData, le).value
      ensures Loaded(f, localData, le).None? ==> countries == old(countries)
    {
      var r := Loaded(f, localData, le);
      if r.Some? {
        countries := r.value;
      }
    }
  }

  /** `App` of version 3: `countries` plus a `loading` flag that gates the routes. */
  class AppV3 {
    var countries: seq<Country>
    var loading: bool

    constructor ()
      ensures countries == [] && loading
    {
      countries, loading := [], true;
    }

    /** Routes (and so the resolver) render only once loading is over. */
    predicate RoutesRendered()
      reads this
    {
      !loading
    }

    /** The effect's promise chain settles: both the success and the fallback path store
        the list and clear `loading`; a throwing fallback leaves the state as it was. */
    method Settle(f: FetchOutcome, localData: seq<Country>, le: Collation)
      modifies this
      ensures Loaded(f, localData, le).Some? ==> countries == Loaded(f, localData, le).value && RoutesRendered()
      ensures Loaded(f, localData, le).None? ==> countries == old(countries) && loading == old(loading)
    {
      var r := Loaded(f, localData, le);
      if r.Some? {
        countries := r.value;
        loading := false;
      }
    }
  }
}
