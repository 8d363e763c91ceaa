/** `CountryDetail` of version 3: the view count now comes from a server POST, guarded by
    a `hasFetched` ref that is set before the request and never reset; the reply text is
    parsed into a count that is never NaN. The saved flag still lives in `localStorage`.
    The POST and its reply are inputs: the request's outcome is a value. */
module CountryDetailV3 {
  import opened Common
  import opened Storage
  import opened Resolver

  /** `Number(x)` of one value; None is NaN. Only integral values are modelled. */
  type Num = Option<int>

  /** The reply body as `updateCount` sees it. */
  datatype Reply =
    | NotJson(asNumber: Num)                // `JSON.parse(text)` threw; `Number(text)`
    | JsonObject(fields: map<string, Num>)  // a non-null object (arrays too): `Number()` of each own field
    | JsonOther(asNumber: Num)              // a JSON number, string, boolean or null: `Number(data)`

  /** The whole `try` block: the request (or building it) threw, or a reply arrived. */
  datatype UpdateOutcome = RequestFailed | Replied(reply: Reply)

  /** `count` before the final `isNaN` check: the `count` field wins over `newCount`;
      an object with neither gives 0, a non-numeric non-object gives 0. */
  function ParsedCount(r: Reply): (n: Num)
    ensures n.None? ==> r.JsonObject? && (if "count" in r.fields then r.fields["count"].None?
                                          else "newCount" in r.fields && r.fields["newCount"].None?)
    ensures !r.JsonObject? ==> n == Some(r.asNumber.GetOr(0))
  {
    match r
    case JsonObject(f) =>
      if "count" in f then f["count"]
      else if "newCount" in f then f["newCount"]
      else Some(0)
    case JsonOther(v) => if v.Some? then v else Some(0)
    case NotJson(v) => if v.Some? then v else Some(0)
  }

  /** Some number carried by the reply equals `n`. */
  predicate Carries(r: Reply, n: int) {
    match r
    case JsonObject(f) => exists k :: k in f && f[k] == Some(n)
    case JsonOther(v) => v == Some(n)
    case NotJson(v) => v == Some(n)
  }

  /** `setViewCount(isNaN(count) ? 0 : count)`, or `setViewCount(0)` in the outer `catch`:
      the count shown after an update is a number, either one the reply carried or 0. */
  function CountAfterUpdate(o: UpdateOutcome): (n: int)
    ensures n == 0 || (o.Replied? && Carries(o.reply, n))
    ensures o.RequestFailed? ==> n == 0
    ensures o.Replied? && !o.reply.JsonObject? ==> n == o.reply.asNumber.GetOr(0)
    ensures o.Replied? && o.reply.JsonObject? && "count" in o.reply.fields ==> n == o.reply.fields["count"].GetOr(0)
  {
    match o
    case RequestFailed => 0
    case Replied(r) =>
      var c := ParsedCount(r);
      if c.Some? then
        assert r.JsonObject? && c.value != 0 ==> ("count" in r.fields && r.fields["count"] == c) || ("newCount" in r.fields && r.fields["newCount"] == c);
        c.value
      else 0
  }

  /** A `count` field decides, whether or not `newCount` is there; a NaN in it gives 0, not
      the other field. */
  lemma CountFieldWins(f: map<string, Num>)
    requires "count" in f
    ensures CountAfterUpdate(Replied(JsonObject(f))) == f["count"].GetOr(0)
  {
  }

  /** A reply with `newCount` only shows it; an object with neither field shows 0. */
  lemma NewCountFallback(f: map<string, Num>)
    requires "count" !in f
    ensures CountAfterUpdate(Replied(JsonObject(f))) == if "newCount" in f then f["newCount"].GetOr(0) else 0
  {
  }

  datatype CountEvent = EffectRun | ReplyArrived(outcome: UpdateOutcome)

  /** The counter's state: `hasFetched.current`, the number of POSTs started, whether one
      awaits its reply, and `viewCount` (None is `null`, shown as "Loading..."). */
  datatype CountState = CountState(hasFetched: bool, posts: nat, awaiting: bool, viewCount: Option<int>)

  /** `useRef(false)`, `useState(null)`. */
  const Initial: CountState := CountState(false, 0, false, None)

  /** An effect run (mount, StrictMode's re-run, a new `countryName` or `countries`) starts
      the POST only while `hasFetched` is off, setting it first; a reply sets the count. A
      reply without a request in flight cannot happen and leaves the state unchanged. */
  function Step(s: CountState, e: CountEvent): (r: CountState)
    ensures r.posts <= s.posts + 1
    ensures s.hasFetched ==> r.hasFetched && r.posts == s.posts
    ensures r.posts == s.posts + 1 <==> e == EffectRun && !s.hasFetched
    ensures e.ReplyArrived? && s.awaiting ==> !r.awaiting && r.viewCount == Some(CountAfterUpdate(e.outcome))
  {
    match e
    case EffectRun =>
      if s.hasFetched then s
      else CountState(true, s.posts + 1, true, None)
    case ReplyArrived(o) =>
      if s.awaiting then s.(awaiting := false, viewCount := Some(CountAfterUpdate(o))) else s
  }

  /** The state after trace `t`: a trace posts once exactly when it turns the flag on, and
      once the flag is on no trace posts again. */
  function Run(s: CountState, t: seq<CountEvent>): (r: CountState)
    ensures s.hasFetched ==> r.hasFetched
    ensures r.posts == s.posts + (if r.hasFetched && !s.hasFetched then 1 else 0)
  {
    if t == [] then s else Step(Run(s, t[..|t| - 1]), t[|t| - 1])
  }

  /** At most one POST per instance, and `null` means exactly "no reply yet". */
  ghost predicate Consistent(s: CountState) {
    && s.posts == (if s.hasFetched then 1 else 0)
    && (s.awaiting ==> s.hasFetched)
    && (s.viewCount.None? <==> !s.hasFetched || s.awaiting)
  }

  /** Whatever the sequence of effect runs and replies, an instance posts at most once,
      exactly when some effect ran, and shows a number once its reply came. */
  lemma {:induction false} RunPostsOnce(t: seq<CountEvent>)
    ensures Consistent(Run(Initial, t))
    ensures Run(Initial, t).posts == if EffectRun in t then 1 else 0
  {
    if t != [] {
      var u := t[..|t| - 1];
      RunPostsOnce(u);
      assert t == u + [t[|t| - 1]];
      assert EffectRun in t <==> EffectRun in u || t[|t| - 1] == EffectRun;
    }
  }

  /** "Loading..." while `viewCount` is null, otherwise the count with its unit. */
  datatype CountLine = LoadingCount | Viewed(count: int, unit: string)

  function ViewedLine(viewCount: Option<int>): (l: CountLine)
    ensures l == LoadingCount <==> viewCount.None?
    ensures l.Viewed? ==> l.count == viewCount.value && (l.unit == "time" <==> l.count == 1)
  {
    if viewCount.None? then LoadingCount
    else Viewed(viewCount.value, if viewCount.value == 1 then "time" else "times")
  }

  /** A version-3 list (its request asks only for name, flags, population, region and
      capital, so no record has `cca3`): once any of its countries is stored, every one of
      them reads as saved and saving another changes nothing. */
  lemma OneSaveMarksAll(countries: seq<Country>, stored: seq<Country>, i: nat, j: nat)
    requires forall k :: 0 <= k < |countries| ==> countries[k].cca3.None?
    requires i < |countries| && j < |countries|
    ensures IsSaved(SaveResult(stored, countries[i]), countries[j])
    ensures SaveResult(SaveResult(stored, countries[i]), countries[j]) == SaveResult(stored, countries[i])
  {
    var r := SaveResult(stored, countries[i]);
    var w :| 0 <= w < |r| && r[w].cca3 == countries[i].cca3;
    AbsentCodesCollide(r, countries[j], w);
  }

  /** One mounted instance of the page. */
  class CountryDetailV3 {
    const window: Window
    const resolution: Resolution  // what this render's search found
    var hasFetched: bool
    var posts: nat
    var awaiting: bool
    var viewCount: Option<int>
    var isSaved: bool

    function State(): CountState
      reads this
    {
      CountState(hasFetched, posts, awaiting, viewCount)
    }

    constructor (w: Window, r: Resolution)
      ensures window == w && resolution == r
      ensures State() == Initial && !isSaved
    {
      window, resolution := w, r;
      hasFetched, posts, awaiting, viewCount, isSaved := false, 0, false, None, false;
    }

    /** The count effect. */
    method RunCountEffect()
      modifies this`hasFetched, this`posts, this`awaiting, this`viewCount
      ensures State() == Step(old(State()), EffectRun)
    {
      if hasFetched {
        return;
      }
      hasFetched := true;
      viewCount := None;
      posts, awaiting := posts + 1, true;
    }

    /** `updateCount` resumes with the request's outcome. */
    method ReceiveReply(o: UpdateOutcome)
      requires awaiting
      modifies this`awaiting, this`viewCount
      ensures State() == Step(old(State()), ReplyArrived(o))
    {
      awaiting := false;
      viewCount := Some(CountAfterUpdate(o));
    }

    /** The saved-flag effect: only when the search found the country. */
    method CheckSaved()
      modifies this`isSaved
      ensures resolution.Found? ==> isSaved == IsSaved(SavedList(window.storage), resolution.country)
      ensures !resolution.Found? ==> isSaved == old(isSaved)
    {
      if resolution.Found? {
        isSaved := IsSaved(SavedList(window.storage), resolution.country);
      }
    }

    /** `handleSaveCountry`; its button renders only for a found country. */
    method HandleSave()
      requires resolution.Found?
      modifies this`isSaved, window
      ensures IsSaved(SavedList(old(window.storage)), resolution.country) ==> window.storage == old(window.storage)
      ensures !IsSaved(SavedList(old(window.storage)), resolution.country) ==>
                window.storage == old(window.storage)[SavedKey := CountryList(SaveResult(SavedList(old(window.storage)), resolution.country))]
      ensures SavedList(window.storage) == SaveResult(SavedList(old(window.storage)), resolution.country)
      ensures window.events == old(window.events) + (if IsSaved(SavedList(old(window.storage)), resolution.country) then [] else [SavedCountriesUpdated])
      ensures isSaved == (old(isSaved) || !IsSaved(SavedList(old(window.storage)), resolution.country))
    {
      var added := window.SaveCountry(resolution.country);
      if added {
        isSaved := true;
      }
    }
  }
}
