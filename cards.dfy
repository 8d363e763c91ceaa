/** The country card (`CountryCard` of versions 0 and 3) and the version-3 card list
    (`CountryCardList`). `toLocaleString` on a number and `encodeURIComponent` are
    parameters: number formatting and URI escaping are not modelled. */
module Cards {
  import opened Common

  /** The flag area: an image with its source, or the grey "No flag available" box. */
  datatype Flag = Image(src: string) | NoFlagBox

  /** The text a card shows, and its flag area. */
  datatype CardView = CardView(name: string, capital: string, region: string, population: string, flag: Flag)

  /** `country.capital?.[0]`: absent for a missing or empty array. */
  function FirstCapital(c: Country): (r: Option<string>)
    ensures r.Some? <==> c.capital.Some? && |c.capital.value| > 0
    ensures r.Some? ==> r.value == c.capital.value[0]
  {
    if c.capital.Some? && |c.capital.value| > 0 then Some(c.capital.value[0]) else None
  }

  /** `country.population?.toLocaleString()`: a number is formatted, a text stays as it is. */
  function PopulationText(p: Option<Population>, fmt: int -> string): (r: Option<string>)
    ensures r.None? <==> p.None?
  {
    match p
    case None => None
    case Some(Number(n)) => Some(fmt(n))
    case Some(Label(t)) => Some(t)
  }

  /** The card with its four text fields defaulted by `||` and the given flag area. */
  function WithDefaults(c: Country, fmt: int -> string, flag: Flag): (v: CardView)
    ensures v.name == (if Truthy(c.name) then c.name.value else "No name")
    ensures v.capital == (if Truthy(FirstCapital(c)) then FirstCapital(c).value else "No capital")
    ensures v.region == (if Truthy(c.region) then c.region.value else "No region")
    ensures v.population == (if Truthy(PopulationText(c.population, fmt)) then PopulationText(c.population, fmt).value else "No data")
    ensures c.population.None? ==> v.population == "No data"
    ensures v.flag == flag
  {
    CardView(
      OrElse(c.name, "No name"),
      OrElse(FirstCapital(c), "No capital"),
      OrElse(c.region, "No region"),
      OrElse(PopulationText(c.population, fmt), "No data"),
      flag)
  }

  /** Version 3: the image only for a truthy `flags.png`, the placeholder box otherwise. */
  function CardV3(c: Country, fmt: int -> string): (v: CardView)
    ensures v.flag.Image? <==> Truthy(c.flag)
    ensures v.flag.Image? ==> v.flag.src == c.flag.value
  {
    WithDefaults(c, fmt, if Truthy(c.flag) then Image(c.flag.value) else NoFlagBox)
  }

  /** Version 0: an image is always rendered, with `flags.png || ""` as its source. */
  function CardV0(c: Country, fmt: int -> string): (v: CardView)
    ensures v.flag.Image?
    ensures v.flag.src == "" || c.flag == Some(v.flag.src)
  {
    WithDefaults(c, fmt, Image(OrElse(c.flag, "")))
  }

  /** The two versions show the same text; version 3 shows an image exactly when
      version 0's source is non-empty, and the same source. */
  lemma CardVersionsAgree(c: Country, fmt: int -> string)
    ensures CardV3(c, fmt).(flag := NoFlagBox) == CardV0(c, fmt).(flag := NoFlagBox)
    ensures CardV3(c, fmt).flag.Image? <==> CardV0(c, fmt).flag.src != ""
    ensures CardV3(c, fmt).flag.Image? ==> CardV3(c, fmt).flag == CardV0(c, fmt).flag
  {
  }

  /** A numeric population is shown formatted whenever the formatted text is non-empty (so
      0, formatted "0", is shown, not "No data"); only a missing population shows "No data".
      Every field present and non-empty is shown as it is, whatever the population. */
  lemma PresentFieldsShown(c: Country, fmt: int -> string)
    ensures c.population.Some? && c.population.value.Number? && fmt(c.population.value.n) != "" ==>
              CardV3(c, fmt).population == fmt(c.population.value.n) && CardV0(c, fmt).population == fmt(c.population.value.n)
    ensures c.population.None? ==> CardV3(c, fmt).population == "No data"
    ensures Truthy(c.name) ==> CardV3(c, fmt).name == c.name.value
    ensures Truthy(c.region) ==> CardV3(c, fmt).region == c.region.value
    ensures Truthy(FirstCapital(c)) ==> CardV3(c, fmt).capital == FirstCapital(c).value
  {
  }

  /** A list item's React key. React compares keys by their string form, so `IndexKey(3)`
      and `NameKey("3")` would be one key to it; the model keeps them apart. */
  datatype ListKey = CodeKey(code: string) | NameKey(name: string) | IndexKey(index: nat)

  /** `country.cca3 || country.name?.common || idx`. */
  function KeyFor(c: Country, idx: nat): (k: ListKey)
    ensures Truthy(c.cca3) ==> k == CodeKey(c.cca3.value)
    ensures !Truthy(c.cca3) && Truthy(c.name) ==> k == NameKey(c.name.value)
    ensures !Truthy(c.cca3) && !Truthy(c.name) ==> k == IndexKey(idx)
  {
    if Truthy(c.cca3) then CodeKey(c.cca3.value)
    else if Truthy(c.name) then NameKey(c.name.value)
    else IndexKey(idx)
  }

  /** An element of the list: a card, possibly wrapped in a link carrying a key of its own. */
  datatype Element = CardElement(key: ListKey, view: CardView) | LinkElement(key: ListKey, to: string, child: Element)

  /** `/country/${encodeURIComponent(country.name?.common)}`; a missing name is passed as
      `undefined`, which converts to the text "undefined". */
  function LinkPath(c: Country, encode: string -> string): (p: string)
    ensures |p| >= |"/country/"| && p[..|"/country/"|] == "/country/"
    ensures c.name.Some? ==> p[|"/country/"|..] == encode(c.name.value)
    ensures c.name.None? ==> p[|"/country/"|..] == encode("undefined")
  {
    "/country/" + encode(c.name.GetOr("undefined"))
  }

  /** The element for item `idx`: card and link are keyed by the same expression. */
  function Item(c: Country, idx: nat, withLinks: bool, encode: string -> string, fmt: int -> string): (e: Element)
    ensures e.LinkElement? <==> withLinks
    ensures e.LinkElement? ==> e.child.CardElement? && e.child.key == e.key
  {
    var card := CardElement(KeyFor(c, idx), CardV3(c, fmt));
    if withLinks then LinkElement(KeyFor(c, idx), LinkPath(c, encode), card) else card
  }

  /** `data.map(...)`; an absent `withLinks` defaults to true. */
  function CardList(data: seq<Country>, withLinks: Option<bool>, encode: string -> string, fmt: int -> string): (r: seq<Element>)
    ensures |r| == |data|
  {
    seq(|data|, i requires 0 <= i < |data| => Item(data[i], i, withLinks.GetOr(true), encode, fmt))
  }

  /** The card inside an element. */
  function CardOf(e: Element): CardView
    decreases e
  {
    match e
    case CardElement(_, v) => v
    case LinkElement(_, _, child) => CardOf(child)
  }

  /** One element per country, in order: element `i` shows country `i`'s card under its
      key, wrapped in a link to its page exactly when links are on (by default). */
  lemma CardListShowsEach(data: seq<Country>, withLinks: Option<bool>, encode: string -> string, fmt: int -> string, i: nat)
    requires i < |data|
    ensures CardOf(CardList(data, withLinks, encode, fmt)[i]) == CardV3(data[i], fmt)
    ensures CardList(data, withLinks, encode, fmt)[i].key == KeyFor(data[i], i)
    ensures CardList(data, withLinks, encode, fmt)[i].LinkElement? <==> withLinks != Some(false)
    ensures CardList(data, withLinks, encode, fmt)[i].LinkElement? ==>
              CardList(data, withLinks, encode, fmt)[i].to == LinkPath(data[i], encode)
  {
  }

  /** Keys are unique (as React requires) when every country has its own non-empty code. */
  lemma {:induction false} KeysDistinct(data: seq<Country>, withLinks: Option<bool>, encode: string -> string, fmt: int -> string)
    requires forall i :: 0 <= i < |data| ==> Truthy(data[i].cca3)
    requires forall i, j :: 0 <= i < j < |data| ==> data[i].cca3 != data[j].cca3
    ensures forall i, j :: 0 <= i < j < |data| ==>
              CardList(data, withLinks, encode, fmt)[i].key != CardList(data, withLinks, encode, fmt)[j].key
  {
    var r := CardList(data, withLinks, encode, fmt);
    forall i, j | 0 <= i < j < |data| ensures r[i].key != r[j].key {
      assert r[i].key == CodeKey(data[i].cca3.value);
      assert r[j].key == CodeKey(data[j].cca3.value);
    }
  }
}
