/** `CountryDetail` of version 2: the per-country view counter kept in `localStorage`,
    incremented from a deferred callback behind the `hasIncremented` guard, and the
    saved flag. React's scheduling is replaced by explicit events: `EffectRun` is one run
    of the counter effect (StrictMode runs it twice on mount; a new `countryName` that
    resolves to the same country runs it again), `TimerFire` is one of the
    `setTimeout(..., 0)` callbacks it scheduled. The counter key is fixed per instance. */
module CountryDetailV2 {
  import opened Common
  import opened Storage

  const CountKeyPrefix: string := "country-view-count-"

  /** `country-view-count-${country.name.common}`. */
  function CountKey(name: string): (k: string)
    ensures |k| == |CountKeyPrefix| + |name| && k[..|CountKeyPrefix|] == CountKeyPrefix && k[|CountKeyPrefix|..] == name
  {
    CountKeyPrefix + name
  }

  /** A counter key is never the saved-list key, so counters and the saved list never
      overwrite each other. */
  lemma CountKeyNotSavedKey(name: string)
    ensures CountKey(name) != SavedKey
  {
    assert |CountKey(name)| >= |CountKeyPrefix| > |SavedKey|;
  }

  /** `parseInt(localStorage.getItem(key) || "0", 10)`; None is NaN. */
  function ReadCount(storage: map<string, Stored>, key: string): (n: Option<int>)
    ensures key !in storage ==> n == Some(0)
  {
    if key !in storage then Some(0)
    else match storage[key]
      case CountText(n) => n
      case CountryList(_) => None
  }

  /** `n + k` where NaN absorbs. */
  function Add(n: Option<int>, k: nat): (r: Option<int>)
    ensures r.Some? <==> n.Some?
    ensures n.Some? ==> r.value - n.value == k
  {
    if n.Some? then Some(n.value + k) else None
  }

  datatype CounterEvent = EffectRun | TimerFire

  /** The counter's observable state: the stored count, the shown `viewCount`, the guard
      `hasIncremented.current` and the number of scheduled callbacks not yet run. */
  datatype Counter = Counter(stored: Option<int>, shown: Option<int>, incremented: bool, pending: nat)

  /** State right after mounting: the shown count is read from storage, the guard is off. */
  function Mounted(stored: Option<int>): Counter {
    Counter(stored, stored, false, 0)
  }

  /** One event: an effect run resets the guard and schedules one callback; a callback
      acts only while the guard is off, writing stored + 1, showing it and setting the guard. */
  function Step(s: Counter, e: CounterEvent): (r: Counter)
    requires e == TimerFire ==> s.pending > 0
    ensures e == EffectRun ==> !r.incremented && r.stored == s.stored && r.pending == s.pending + 1
    ensures e == TimerFire ==> r.incremented && r.pending == s.pending - 1
    ensures e == TimerFire ==> r.stored == (if s.incremented then s.stored else Add(s.stored, 1))
  {
    match e
    case EffectRun => s.(incremented := false, pending := s.pending + 1)
    case TimerFire =>
      if s.incremented then s.(pending := s.pending - 1)
      else Counter(Add(s.stored, 1), Add(s.stored, 1), true, s.pending - 1)
  }

  /** Callbacks scheduled and not yet run after trace `t`, starting from `p`. */
  function Outstanding(p: nat, t: seq<CounterEvent>): int {
    if t == [] then p
    else Outstanding(p, t[..|t| - 1]) + (if t[|t| - 1] == EffectRun then 1 else -1)
  }

  /** Every callback in `t` was scheduled by an earlier effect run (or was pending at the start). */
  predicate Feasible(p: nat, t: seq<CounterEvent>) {
    t == [] || (Feasible(p, t[..|t| - 1]) && (t[|t| - 1] == TimerFire ==> Outstanding(p, t[..|t| - 1]) > 0))
  }

  /** The state after replaying trace `t`. */
  function Run(s: Counter, t: seq<CounterEvent>): (r: Counter)
    requires Feasible(s.pending, t)
    ensures r.pending == Outstanding(s.pending, t)
  {
    if t == [] then s
    else Step(Run(s, t[..|t| - 1]), t[|t| - 1])
  }

  lemma {:induction false} FeasiblePrefix(p: nat, t: seq<CounterEvent>, i: nat)
    requires i <= |t| && Feasible(p, t)
    ensures Feasible(p, t[..i])
    decreases |t|
  {
    if i < |t| {
      assert t[..|t| - 1][..i] == t[..i];
      FeasiblePrefix(p, t[..|t| - 1], i);
    } else {
      assert t[..i] == t;
    }
  }

  /** The number of places where an effect run is directly followed by a callback. */
  function EffectThenFire(t: seq<CounterEvent>): nat {
    if |t| < 2 then 0
    else EffectThenFire(t[..|t| - 1]) + (if t[|t| - 2] == EffectRun && t[|t| - 1] == TimerFire then 1 else 0)
  }

  /** The guard as an event: on is like a callback having just run, off like an effect run. */
  function GuardAsEvent(s: Counter): CounterEvent {
    if s.incremented then TimerFire else EffectRun
  }

  /** The stored count grows by exactly the number of callbacks that directly follow an
      effect run: extra effect runs before the callbacks, and extra callbacks after the
      first, add nothing. */
  lemma {:induction false} RunIncrements(s: Counter, t: seq<CounterEvent>)
    requires Feasible(s.pending, t)
    ensures Run(s, t).stored == Add(s.stored, EffectThenFire([GuardAsEvent(s)] + t))
    ensures Run(s, t).incremented == (([GuardAsEvent(s)] + t)[|t|] == TimerFire)
  {
    if t != [] {
      var u := t[..|t| - 1];
      var e := t[|t| - 1];
      RunIncrements(s, u);
      var l := [GuardAsEvent(s)] + t;
      assert l[..|l| - 1] == [GuardAsEvent(s)] + u;
      assert l[|l| - 2] == ([GuardAsEvent(s)] + u)[|u|];
    }
  }

  /** Two effect runs before their callbacks (StrictMode's double run) count one view;
      a callback between them lets the second run count another. */
  lemma StrictModeTraces(stored: Option<int>)
    ensures Feasible(0, [EffectRun, EffectRun, TimerFire, TimerFire])
    ensures Feasible(0, [EffectRun, TimerFire, EffectRun, TimerFire])
    ensures Run(Mounted(stored), [EffectRun, EffectRun, TimerFire, TimerFire]).stored == Add(stored, 1)
    ensures Run(Mounted(stored), [EffectRun, TimerFire, EffectRun, TimerFire]).stored == Add(stored, 2)
  {
    var E, F := EffectRun, TimerFire;
    assert [E][..0] == [] && [E, E][..1] == [E] && [E, F][..1] == [E];
    assert [E, E, F][..2] == [E, E] && [E, F, E][..2] == [E, F];
    assert [E, E, F, F][..3] == [E, E, F] && [E, F, E, F][..3] == [E, F, E];
    assert Outstanding(0, []) == 0;
    assert Outstanding(0, [E]) == 1;
    assert Outstanding(0, [E, E]) == 2;
    assert Outstanding(0, [E, F]) == 0;
    assert Outstanding(0, [E, E, F]) == 1;
    assert Outstanding(0, [E, F, E]) == 1;
    assert Feasible(0, []);
    assert Feasible(0, [E]);
    assert Feasible(0, [E, E]) && Feasible(0, [E, F]);
    assert Feasible(0, [E, E, F]) && Feasible(0, [E, F, E]);
    RunIncrements(Mounted(stored), [E, E, F, F]);
    RunIncrements(Mounted(stored), [E, F, E, F]);
    assert [E, E, E, F, F][..4] == [E, E, E, F] && [E, E, E, F][..3] == [E, E, E] && [E, E, E][..2] == [E, E];
    assert EffectThenFire([E, E]) == 0;
    assert EffectThenFire([E, E, E]) == 0;
    assert EffectThenFire([E, E, E, F]) == 1;
    assert EffectThenFire([E, E, E, F, F]) == 1;
    assert [E] + [E, E, F, F] == [E, E, E, F, F];
    assert [E, E, F, E, F][..4] == [E, E, F, E] && [E, E, F, E][..3] == [E, E, F] && [E, E, F][..2] == [E, E];
    assert EffectThenFire([E, E, F]) == 1;
    assert EffectThenFire([E, E, F, E]) == 1;
    assert EffectThenFire([E, E, F, E, F]) == 2;
    assert [E] + [E, F, E, F] == [E, E, F, E, F];
  }

  /** Once a callback has counted the view, the page shows exactly the stored count. */
  lemma {:induction false} ShownMatchesStored(s: Counter, t: seq<CounterEvent>)
    requires Feasible(s.pending, t)
    requires s.incremented ==> s.shown == s.stored
    ensures Run(s, t).incremented ==> Run(s, t).shown == Run(s, t).stored
  {
    if t != [] {
      ShownMatchesStored(s, t[..|t| - 1]);
    }
  }

  /** `viewCount === 1 ? "time" : "times"`. */
  function CountUnit(viewCount: Option<int>): (u: string)
    ensures u == "time" <==> viewCount == Some(1)
    ensures u == "time" || u == "times"
  {
    if viewCount == Some(1) then "time" else "times"
  }

  /** One mounted instance of the page for a country the resolver found. */
  class CountryDetailV2 {
    const window: Window
    const country: Country
    const key: string
    var viewCount: Option<int>
    var hasIncremented: bool
    var pendingTimers: nat
    var isSaved: bool

    function State(): Counter
      reads this, window
    {
      Counter(ReadCount(window.storage, key), viewCount, hasIncremented, pendingTimers)
    }

    /** Mounting: `useState(() => parseInt(...))`, `useRef(false)`, `useState(false)`. */
    constructor (w: Window, c: Country)
      requires c.name.Some?
      ensures window == w && country == c && key == CountKey(c.name.value)
      ensures State() == Mounted(ReadCount(w.storage, key)) && !isSaved
    {
      window, country, key := w, c, CountKey(c.name.value);
      viewCount := ReadCount(w.storage, CountKey(c.name.value));
      hasIncremented, pendingTimers, isSaved := false, 0, false;
    }

    /** The counter effect: reset the guard, schedule one callback. */
    method RunCountEffect()
      modifies this
      ensures State() == Step(old(State()), EffectRun)
      ensures isSaved == old(isSaved)
    {
      hasIncremented := false;
      pendingTimers := pendingTimers + 1;
    }

    /** One scheduled callback runs: read-increment-write of the stored count, once per guard reset. */
    method FireTimer()
      requires pendingTimers > 0
      modifies this, window`storage
      ensures State() == Step(old(State()), TimerFire)
      ensures old(hasIncremented) ==> window.storage == old(window.storage)
      ensures !old(hasIncremented) ==> window.storage == old(window.storage)[key := CountText(Add(ReadCount(old(window.storage), key), 1))]
      ensures isSaved == old(isSaved)
    {
      pendingTimers := pendingTimers - 1;
      if !hasIncremented {
        var current := Add(ReadCount(window.storage, key), 1);
        window.storage := window.storage[key := CountText(current)];
        viewCount := current;
        hasIncremented := true;
      }
    }

    /** Delivering a trace of events, in order. */
    method Replay(trace: seq<CounterEvent>)
      requires Feasible(pendingTimers, trace)
      modifies this, window`storage
      ensures State() == Run(old(State()), trace)
      ensures window.storage - {key} == old(window.storage) - {key}
      ensures isSaved == old(isSaved)
    {
      ghost var s0 := State();
      var i := 0;
      while i < |trace|
        invariant i <= |trace|
        invariant Feasible(s0.pending, trace[..i])
        invariant State() == Run(s0, trace[..i])
        invariant window.storage - {key} == old(window.storage) - {key}
        invariant isSaved == old(isSaved)
      {
        FeasiblePrefix(s0.pending, trace, i + 1);
        assert trace[..i + 1][..i] == trace[..i];
        if trace[i] == EffectRun {
          RunCountEffect();
        } else {
          FireTimer();
        }
        i := i + 1;
      }
      assert trace[..i] == trace;
    }

    /** The saved-flag effect: `saved.some((c) => c.cca3 === country.cca3)`. */
    method CheckSaved()
      modifies this`isSaved
      ensures isSaved == IsSaved(SavedList(window.storage), country)
    {
      isSaved := IsSaved(SavedList(window.storage), country);
    }

    /** `handleSaveCountry`: append and announce only when no stored entry shares the code. */
    method HandleSave()
      modifies this`isSaved, window
      ensures IsSaved(SavedList(old(window.storage)), country) ==> window.storage == old(window.storage)
      ensures !IsSaved(SavedList(old(window.storage)), country) ==>
                window.storage == old(window.storage)[SavedKey := CountryList(SaveResult(SavedList(old(window.storage)), country))]
      ensures SavedList(window.storage) == SaveResult(SavedList(old(window.storage)), country)
      ensures window.events == old(window.events) + (if IsSaved(SavedList(old(window.storage)), country) then [] else [SavedCountriesUpdated])
      ensures isSaved == (old(isSaved) || !IsSaved(SavedList(old(window.storage)), country))
    {
      var added := window.SaveCountry(country);
      if added {
        isSaved := true;
      }
    }
  }
}
