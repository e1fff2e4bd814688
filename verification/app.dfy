/** The page-level view state of the front end (App.tsx) and the navigation handlers that set it (components/Layout.tsx). */
module AppState {
  import opened Types
  import opened Catalog
  import Constants

  /** Which main panel is shown. */
  datatype View = ServicesView | BookingsView

  class App {
    /** The catalogue the page lists: the bundled services. */
    const catalogue: seq<ServiceItem>
    var activeCategory: string
    var activeView: View
    var searchQuery: string
    var activeLocation: string
    var lang: Language
    var isAuthOpen: bool

    /** The filter inputs the page currently holds. */
    function CurrentFilters(): Filters
      reads this
    {
      Filters(activeCategory, searchQuery, activeLocation)
    }

    /** The services listed on the page for the current state. */
    function FilteredServices(): seq<ServiceItem>
      reads this
    {
      Visible(catalogue, CurrentFilters())
    }

    /** The string table for the current language. */
    function Strings(): map<string, string>
      reads this
    {
      Constants.UiStrings(lang)
    }

    /** The first render: every filter open, services shown, Bengali, login closed. */
    constructor ()
      ensures catalogue == Constants.Services
      ensures CurrentFilters() == Unrestricted
      ensures activeView == ServicesView && lang == Bn && !isAuthOpen
    {
      catalogue := Constants.Services;
      activeCategory := AllCategories;
      activeView := ServicesView;
      searchQuery := "";
      activeLocation := AllAreas;
      lang := Bn;
      isAuthOpen := false;
    }

    method ToggleLanguage()
      modifies this
      ensures lang == Catalog.ToggleLanguage(old(lang))
      ensures CurrentFilters() == old(CurrentFilters())
      ensures activeView == old(activeView) && isAuthOpen == old(isAuthOpen)
    {
      lang := Catalog.ToggleLanguage(lang);
    }

    method SetSearchQuery(query: string)
      modifies this
      ensures CurrentFilters() == old(CurrentFilters()).(query := query)
      ensures activeView == old(activeView) && lang == old(lang) && isAuthOpen == old(isAuthOpen)
    {
      searchQuery := query;
    }

    method SetLocation(location: string)
      modifies this
      ensures CurrentFilters() == old(CurrentFilters()).(location := location)
      ensures activeView == old(activeView) && lang == old(lang) && isAuthOpen == old(isAuthOpen)
    {
      activeLocation := location;
    }

    /** The sidebar's "all services" entry and each category entry: select it and show the services panel. */
    method SelectCategory(category: string)
      modifies this
      ensures CurrentFilters() == old(CurrentFilters()).(category := category)
      ensures activeView == ServicesView
      ensures lang == old(lang) && isAuthOpen == old(isAuthOpen)
    {
      activeCategory := category;
      activeView := ServicesView;
    }

    /** The sidebar's "my bookings" entry. */
    method ShowBookings()
      modifies this
      ensures activeView == BookingsView
      ensures CurrentFilters() == old(CurrentFilters())
      ensures lang == old(lang) && isAuthOpen == old(isAuthOpen)
    {
      activeView := BookingsView;
    }

    /** The "clear filters" button: the full catalogue is listed again. */
    method ClearFilters()
      modifies this
      ensures CurrentFilters() == Unrestricted
      ensures FilteredServices() == catalogue
      ensures activeView == old(activeView) && lang == old(lang) && isAuthOpen == old(isAuthOpen)
    {
      activeCategory := AllCategories;
      searchQuery := "";
      activeLocation := AllAreas;
      UnrestrictedShowsAll(catalogue);
    }

    method SetAuthOpen(open: bool)
      modifies this
      ensures isAuthOpen == open
      ensures CurrentFilters() == old(CurrentFilters())
      ensures activeView == old(activeView) && lang == old(lang)
    {
      isAuthOpen := open;
    }
  }

  /** Whenever every filter is open (the first render, and after "clear filters"), the whole catalogue is listed. */
  lemma UnrestrictedListsCatalogue(app: App)
    requires app.CurrentFilters() == Unrestricted
    ensures app.FilteredServices() == app.catalogue
  {
    UnrestrictedShowsAll(app.catalogue);
  }
}
