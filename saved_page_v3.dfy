/** `SavedCountries` of version 3: the saved names come from the server, and each name
    is looked up one at a time, keeping the first hit or a placeholder in its place. The
    names reply and every lookup's reply are inputs. */
module SavedPageV3 {
  import opened Common
  import Cards

  /** One element of the saved-names array. */
  datatype Entry =
    | Text(text: string)
    | Record(countryName: Option<string>, country: Option<string>, name: Option<string>)  // `country_name`, `country`, `name`
    | NoFields  // null, a number, a boolean: no name can be read from it

  /** The name an entry is looked up by: a string is its own name (the empty one is falsy),
      a record gives the first truthy of `country_name`, `country`, `name`. */
  function EntryName(e: Entry): (r: Option<string>)
    ensures r.Some? ==> r.value != ""
    ensures e.Text? ==> (r.Some? <==> e.text != "") && (r.Some? ==> r.value == e.text)
    ensures e.Record? && Truthy(e.countryName) ==> r == e.countryName
    ensures e.Record? && !Truthy(e.countryName) && Truthy(e.country) ==> r == e.country
    ensures e.Record? && !Truthy(e.countryName) && !Truthy(e.country) ==>
              r == (if Truthy(e.name) then e.name else None)
    ensures e.NoFields? ==> r.None?
  {
    match e
    case Text(s) => if s != "" then Some(s) else None
    case Record(a, b, c) =>
      if Truthy(a) then a
      else if Truthy(b) then b
      else if Truthy(c) then c
      else None
    case NoFields => None
  }

  /** What `/api/get-all-saved-countries` gave: the request, `response.json()` or the read of
      `countries` on `null` threw; an array; or another value and its `countries` field
      (None when absent or falsy). */
  datatype NamesReply = NamesFailed | NamesArray(items: seq<Entry>) | NamesValue(countries: Option<seq<Entry>>)

  /** `Array.isArray(data) ? data : data.countries || []`, and `[]` in the `catch`. */
  function SavedNames(reply: NamesReply): (r: seq<Entry>)
    ensures reply.NamesFailed? ==> r == []
    ensures reply.NamesArray? ==> r == reply.items
    ensures reply.NamesValue? ==> r == reply.countries.GetOr([])
  {
    match reply
    case NamesFailed => []
    case NamesArray(items) => items
    case NamesValue(cs) => cs.GetOr([])
  }

  /** What one name lookup gave: the request or `response.json()` threw, or the JSON value
      (Some list for an array, None for anything else). */
  datatype LookupReply = LookupFailed | LookupJson(matches: Option<seq<Country>>)

  /** The stand-in record pushed when a lookup finds nothing. */
  function Placeholder(name: string): (c: Country)
    ensures c.name == Some(name) && c.flag.None?
  {
    Country(Some(name), None, Some(["No capital"]), Some("No region"), Some(Label("No data")), None)
  }

  /** A lookup's contribution: the first element of a non-empty array, else the placeholder. */
  function Detail(name: string, reply: LookupReply): (c: Country)
    ensures reply.LookupJson? && reply.matches.Some? && |reply.matches.value| > 0 ==> c == reply.matches.value[0]
    ensures !(reply.LookupJson? && reply.matches.Some? && |reply.matches.value| > 0) ==> c == Placeholder(name)
  {
    if reply.LookupJson? && reply.matches.Some? && |reply.matches.value| > 0 then reply.matches.value[0]
    else Placeholder(name)
  }

  /** The list the loop builds; `replies[i]` is what the lookup of entry `i` returns (it is
      only asked for when the entry has a name). */
  function Enriched(entries: seq<Entry>, replies: seq<LookupReply>): (r: seq<Country>)
    requires |replies| == |entries|
    ensures |r| <= |entries|
    ensures forall i :: 0 <= i < |entries| ==> EntryName(entries[i]).None? ==> |r| < |entries|
  {
    if entries == [] then []
    else
      var n := |entries| - 1;
      Enriched(entries[..n], replies[..n])
        + (if EntryName(entries[n]).Some? then [Detail(EntryName(entries[n]).value, replies[n])] else [])
  }

  /** The positions of the entries that have a name, in increasing order. */
  function NameableIndices(entries: seq<Entry>): (r: seq<nat>)
    ensures forall k :: 0 <= k < |r| ==> r[k] < |entries| && EntryName(entries[r[k]]).Some?
    ensures forall k, l :: 0 <= k < l < |r| ==> r[k] < r[l]
    ensures forall i :: 0 <= i < |entries| && EntryName(entries[i]).Some? ==> i in r
  {
    if entries == [] then []
    else
      var n := |entries| - 1;
      var prefix := NameableIndices(entries[..n]);
      assert forall i :: 0 <= i < n ==> entries[..n][i] == entries[i];
      prefix + (if EntryName(entries[n]).Some? then [n] else [])
  }

  /** One element per nameable entry and in the entries' order: element `k` is the detail
      of the `k`-th nameable entry, under its name and its lookup's reply. */
  lemma {:induction false} EnrichedFollowsEntries(entries: seq<Entry>, replies: seq<LookupReply>)
    requires |replies| == |entries|
    ensures |Enriched(entries, replies)| == |NameableIndices(entries)|
    ensures forall k :: 0 <= k < |NameableIndices(entries)| ==>
              var i := NameableIndices(entries)[k];
              Enriched(entries, replies)[k] == Detail(EntryName(entries[i]).value, replies[i])
  {
    if entries != [] {
      var n := |entries| - 1;
      EnrichedFollowsEntries(entries[..n], replies[..n]);
      var idx, pre := NameableIndices(entries), NameableIndices(entries[..n]);
      var out, preOut := Enriched(entries, replies), Enriched(entries[..n], replies[..n]);
      forall k | 0 <= k < |idx|
        ensures out[k] == Detail(EntryName(entries[idx[k]]).value, replies[idx[k]])
      {
        if k < |pre| {
          assert idx[k] == pre[k] && out[k] == preOut[k];
          assert entries[..n][pre[k]] == entries[pre[k]] && replies[..n][pre[k]] == replies[pre[k]];
        }
      }
    }
  }

  /** Every placeholder in the output is a failed lookup: an element differing from what the
      lookup returned first carries the entry's own name. */
  lemma PlaceholderKeepsName(name: string, reply: LookupReply)
    ensures Detail(name, reply).name == Some(name) || (reply.LookupJson? && reply.matches.Some? && Detail(name, reply) in reply.matches.value)
  {
  }

  /** A placeholder's card shows the name it was saved under and the fixed defaults. */
  lemma PlaceholderCard(name: string, fmt: int -> string)
    requires name != ""
    ensures Cards.CardV3(Placeholder(name), fmt) == Cards.CardView(name, "No capital", "No region", "No data", Cards.NoFlagBox)
  {
  }

  /** `fetchFullCountryData`: the loop over the names, pushing one element per nameable entry. */
  method FetchFullCountryData(entries: seq<Entry>, replies: seq<LookupReply>) returns (details: seq<Country>)
    requires |replies| == |entries|
    ensures details == Enriched(entries, replies)
  {
    details := [];
    var i := 0;
    while i < |entries|
      invariant i <= |entries|
      invariant details == Enriched(entries[..i], replies[..i])
    {
      assert entries[..i + 1][..i] == entries[..i] && replies[..i + 1][..i] == replies[..i];
      var name := EntryName(entries[i]);
      if name.Some? {
        details := details + [Detail(name.value, replies[i])];
      }
      i := i + 1;
    }
    assert entries[..i] == entries && replies[..i] == replies;
  }

  class SavedCountriesV3 {
    var savedCountryNames: seq<Entry>
    var savedCountries: seq<Country>
    var loading: bool

    /** `useState([])` twice and `useState(true)`. */
    constructor ()
      ensures savedCountryNames == [] && savedCountries == [] && loading
    {
      savedCountryNames, savedCountries, loading := [], [], true;
    }

    /** `loadSavedCountryNames`, from its start to its end: names normalised, loading off. */
    method LoadSavedCountryNames(reply: NamesReply)
      modifies this`savedCountryNames, this`loading
      ensures savedCountryNames == SavedNames(reply) && !loading
    {
      loading := true;
      savedCountryNames := SavedNames(reply);
      loading := false;
    }

    /** The enrichment effect up to its first lookup: no names clears the list without any
        lookup; otherwise loading is switched on. */
    method BeginEnrichment()
      modifies this`savedCountries, this`loading
      ensures savedCountryNames == [] ==> savedCountries == [] && loading == old(loading)
      ensures savedCountryNames != [] ==> savedCountries == old(savedCountries) && loading
    {
      if |savedCountryNames| == 0 {
        savedCountries := [];
        return;
      }
      loading := true;
    }

    /** The lookups done: the enriched list is set and loading switched off. */
    method CompleteEnrichment(replies: seq<LookupReply>)
      requires savedCountryNames != [] && |replies| == |savedCountryNames|
      modifies this`savedCountries, this`loading
      ensures savedCountries == Enriched(savedCountryNames, replies) && !loading
    {
      var details := FetchFullCountryData(savedCountryNames, replies);
      savedCountries := details;
      loading := false;
    }
  }
}
