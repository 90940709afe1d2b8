/** The search bar: three inputs (query, category, location) and a Search button that
    hands the three to the page's `onSearch` callback and then clears them. */
module SearchBar {
  import opened Wrappers

  /** The arguments of one `onSearch(query, category, location)` call. */
  datatype SearchCall = SearchCall(query: string, category: string, location: string)

  class SearchBarState {
    /** Whether the page passed an `onSearch` callback. */
    const hasOnSearch: bool
    var query: string
    var category: string
    var location: string

    constructor (hasOnSearch: bool)
      ensures this.hasOnSearch == hasOnSearch
      ensures query == "" && category == "" && location == ""
    {
      this.hasOnSearch := hasOnSearch;
      query, category, location := "", "", "";
    }

    /** The query input. */
    method SetQuery(v: string)
      modifies this
      ensures query == v && category == old(category) && location == old(location)
    {
      query := v;
    }

    /** The category select. */
    method SetCategory(v: string)
      modifies this
      ensures category == v && query == old(query) && location == old(location)
    {
      category := v;
    }

    /** The location input. */
    method SetLocation(v: string)
      modifies this
      ensures location == v && query == old(query) && category == old(category)
    {
      location := v;
    }

    /** `handleSearch`: with a callback, it is called with the current three values, then
        the three fields are cleared; without one nothing happens. */
    method HandleSearch() returns (call: Option<SearchCall>)
      modifies this
      ensures hasOnSearch ==> call == Some(SearchCall(old(query), old(category), old(location)))
      ensures hasOnSearch ==> query == "" && category == "" && location == ""
      ensures !hasOnSearch ==>
        call.None? && query == old(query) && category == old(category) && location == old(location)
    {
      if hasOnSearch {
        call := Some(SearchCall(query, category, location));
        query := "";
        category := "";
        location := "";
      } else {
        call := None;
      }
    }
  }
}
