/** Values shared by every page of the country browser. */
module Common {

  /** `undefined`/`null` versus a present value. */
  datatype Option<+T> = None | Some(value: T) {
    function GetOr(default: T): T {
      match this
      case Some(v) => v
      case None => default
    }
  }

  /** An optional string is truthy when present and non-empty. */
  predicate Truthy(s: Option<string>) {
    s.Some? && s.value != ""
  }

  /** JavaScript's `s || fallback` on an optional string: a missing value and the
      empty string (the only falsy string) both give the fallback. */
  function OrElse(s: Option<string>, fallback: string): (r: string)
    ensures r == fallback || (s == Some(r) && r != "")
    ensures s.Some? && s.value != "" ==> r == s.value
  {
    if s.Some? && s.value != "" then s.value else fallback
  }

  /** A `population` field: normally a number, but the placeholder entities of the
      saved-countries page put the text 'No data' there. */
  datatype Population = Number(n: int) | Label(text: string)

  /** One country record as the pages read it (fields absent from a record are None). */
  datatype Country = Country(
    name: Option<string>,          // name.common; None when `name` or `name.common` is absent
    cca3: Option<string>,          // three-letter code
    capital: Option<seq<string>>,  // the `capital` array
    region: Option<string>,
    population: Option<Population>,
    flag: Option<string>           // flags.png; None when `flags` or `flags.png` is absent or null
  )
}
