/** `SavedCountries` of version 2: the saved list is read from `localStorage` on mount and
    re-read on every `savedCountriesUpdated` or `storage` event while mounted. */
module SavedPageV2 {
  import opened Common
  import opened Storage
  import CountryDetailV2

  /** What the section renders: the "not saved" message, or one card per stored country. */
  datatype SavedSection = NothingSaved | Cards(countries: seq<Country>)

  function Section(saved: seq<Country>): (r: SavedSection)
    ensures r == NothingSaved <==> saved == []
    ensures r.Cards? ==> r.countries == saved
  {
    if |saved| == 0 then NothingSaved else Cards(saved)
  }

  /** After a save the section shows cards, and the saved country's code is among them. */
  lemma SectionAfterSave(stored: seq<Country>, c: Country)
    ensures Section(SaveResult(stored, c)).Cards?
    ensures IsSaved(Section(SaveResult(stored, c)).countries, c)
    ensures !IsSaved(stored, c) ==> c in Section(SaveResult(stored, c)).countries
  {
  }

  const Listened: set<EventName> := {SavedCountriesUpdated, StorageChanged}

  class SavedCountriesV2 {
    const window: Window
    var savedCountries: seq<Country>
    var listeners: set<EventName>  // event names `loadSavedCountries` is registered for

    /** `useState([])`, before the mount effect. */
    constructor (w: Window)
      ensures window == w && savedCountries == [] && listeners == {}
    {
      window, savedCountries, listeners := w, [], {};
    }

    /** The mount effect: the initial load, then both listeners registered. */
    method Mount()
      modifies this
      ensures savedCountries == SavedList(window.storage)
      ensures listeners == Listened
    {
      savedCountries := SavedList(window.storage);
      listeners := Listened;
    }

    /** The effect's cleanup: both listeners removed. */
    method Unmount()
      modifies this`listeners
      ensures listeners == {}
    {
      listeners := {};
    }

    /** The window delivers event `e`: a registered listener reloads the list exactly as stored. */
    method Deliver(e: EventName)
      modifies this`savedCountries
      ensures e in listeners ==> savedCountries == SavedList(window.storage)
      ensures e !in listeners ==> savedCountries == old(savedCountries)
    {
      if e in listeners {
        savedCountries := SavedList(window.storage);
      }
    }

    /** What the page renders: the section for its current list. */
    function View(): SavedSection
      reads this
    {
      Section(savedCountries)
    }
  }

  /** Saving on the detail page while this page is mounted: the events the save dispatches
      are delivered to the page, which then shows exactly the stored list, saved country
      included. After unmounting nothing is reloaded. */
  method SaveWhileMounted(detail: CountryDetailV2.CountryDetailV2, page: SavedCountriesV2)
    requires detail.window == page.window
    requires page.listeners == Listened
    requires page.savedCountries == SavedList(page.window.storage)
    modifies detail`isSaved, page.window, page`savedCountries
    ensures page.savedCountries == SavedList(page.window.storage)
    ensures page.savedCountries == SaveResult(SavedList(old(page.window.storage)), detail.country)
    ensures IsSaved(page.savedCountries, detail.country)
    ensures !IsSaved(SavedList(old(page.window.storage)), detail.country) ==> detail.country in page.savedCountries
    ensures page.View() == Section(SaveResult(SavedList(old(page.window.storage)), detail.country))
  {
    var before := |page.window.events|;
    detail.HandleSave();
    var i := before;
    while i < |page.window.events|
      invariant before <= i <= |page.window.events|
      invariant page.window.events[before..] == [] || page.window.events[before..] == [SavedCountriesUpdated]
      invariant page.savedCountries == SavedList(page.window.storage) || i == before
      invariant i == before ==> page.savedCountries == SavedList(old(page.window.storage))
      invariant page.listeners == Listened
      invariant SavedList(page.window.storage) == SaveResult(SavedList(old(page.window.storage)), detail.country)
      invariant |page.window.events| == before ==> SavedList(page.window.storage) == SavedList(old(page.window.storage))
    {
      page.Deliver(page.window.events[i]);
      i := i + 1;
    }
  }
}
