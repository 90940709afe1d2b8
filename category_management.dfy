/** The administrator's category manager: the category counts are fetched once, then
    searched by name, filtered by a listing-count threshold and shown ten at a time. */
module CategoryManagement {
  import opened Wrappers
  import opened Text
  import opened Paging

  /** A record of the category-counts response: the category (`_id`) and its count. */
  datatype CategoryCount = CategoryCount(id: string, count: int)

  /** A category as the view holds it. */
  datatype Category = Category(name: string, count: int)

  /** The threshold filter of the dropdown. */
  datatype FilterMode = All | High | Low

  /** The listing count that separates `high` from `low`. */
  const Threshold: int := 50

  /** `data.map(cat => ({ name: cat._id, count: cat.count }))`. */
  function ToCategories(data: seq<CategoryCount>): (r: seq<Category>)
    ensures |r| == |data|
    ensures forall i :: 0 <= i < |data| ==> r[i] == Category(data[i].id, data[i].count)
  {
    if data == [] then [] else [Category(data[0].id, data[0].count)] + ToCategories(data[1..])
  }

  /** The two per-item tests the view applies. */
  datatype Criterion = NameContains(term: string) | CountIn(mode: FilterMode)

  predicate Holds(k: Criterion, c: Category)
  {
    match k
    case NameContains(term) => Includes(Lower(c.name), Lower(term))
    case CountIn(mode) =>
      match mode
      case High => c.count >= Threshold
      case Low => c.count < Threshold
      case All => true
  }

  /** `s.filter(c => Holds(k, c))`. */
  function Keep(s: seq<Category>, k: Criterion): (r: seq<Category>)
    ensures |r| <= |s|
    ensures forall c :: c in r ==> c in s && Holds(k, c)
  {
    if s == [] then []
    else if Holds(k, s[0]) then [s[0]] + Keep(s[1..], k)
    else Keep(s[1..], k)
  }

  /** The search step: categories whose lower-cased name contains the lower-cased term. */
  function Search(s: seq<Category>, term: string): seq<Category>
  {
    Keep(s, NameContains(term))
  }

  /** The threshold step. */
  function ApplyFilter(s: seq<Category>, mode: FilterMode): seq<Category>
  {
    Keep(s, CountIn(mode))
  }

  /** The list the view paginates: search first, then the threshold filter. */
  function Filtered(categories: seq<Category>, term: string, mode: FilterMode): seq<Category>
  {
    ApplyFilter(Search(categories, term), mode)
  }

  /** `a` is `b` with some items left out, the rest in their original order. */
  predicate SubsequenceOf(a: seq<Category>, b: seq<Category>)
    decreases |b|
  {
    if a == [] then true
    else if b == [] then false
    else (a[0] == b[0] && SubsequenceOf(a[1..], b[1..])) || SubsequenceOf(a, b[1..])
  }

  // ---------------------------------------------------------------------------
  // Keeping by one criterion

  /** `Keep` keeps every occurrence of an item that passes and none of one that fails. */
  lemma {:induction false} KeepCounts(s: seq<Category>, k: Criterion)
    ensures forall c :: multiset(Keep(s, k))[c] == if Holds(k, c) then multiset(s)[c] else 0
  {
    if s != [] {
      KeepCounts(s[1..], k);
      assert s == [s[0]] + s[1..];
    }
  }

  /** `Keep` preserves the order of what it keeps. */
  lemma {:induction false} KeepOrdered(s: seq<Category>, k: Criterion)
    ensures SubsequenceOf(Keep(s, k), s)
  {
    if s != [] {
      KeepOrdered(s[1..], k);
      if Holds(k, s[0]) {
        var r := Keep(s, k);
        assert r[0] == s[0] && r[1..] == Keep(s[1..], k);
      } else {
        SkipHead(Keep(s[1..], k), s);
      }
    }
  }

  lemma SkipHead(a: seq<Category>, b: seq<Category>)
    requires b != [] && SubsequenceOf(a, b[1..])
    ensures SubsequenceOf(a, b)
  {
  }

  /** A criterion every item passes keeps the whole list. */
  lemma {:induction false} KeepEverything(s: seq<Category>, k: Criterion)
    requires forall c :: c in s ==> Holds(k, c)
    ensures Keep(s, k) == s
  {
    if s != [] {
      assert forall c :: c in s[1..] ==> c in s;
      KeepEverything(s[1..], k);
    }
  }

  /** Keeping by two criteria does not depend on their order. */
  lemma {:induction false} KeepCommutes(s: seq<Category>, a: Criterion, b: Criterion)
    ensures Keep(Keep(s, a), b) == Keep(Keep(s, b), a)
  {
    if s != [] {
      KeepCommutes(s[1..], a, b);
    }
  }

  /** Keeping by one criterion twice is keeping by it once. */
  lemma KeepIdempotent(s: seq<Category>, k: Criterion)
    ensures Keep(Keep(s, k), k) == Keep(s, k)
  {
    KeepEverything(Keep(s, k), k);
  }

  // ---------------------------------------------------------------------------
  // The search and threshold filters

  /** Search keeps exactly the categories whose lower-cased name contains the lower-cased
      term, every occurrence of them, in their original order. */
  lemma SearchSpec(s: seq<Category>, term: string)
    ensures forall c :: c in Search(s, term) <==> c in s && Includes(Lower(c.name), Lower(term))
    ensures forall c :: multiset(Search(s, term))[c] == (if Includes(Lower(c.name), Lower(term)) then multiset(s)[c] else 0)
    ensures SubsequenceOf(Search(s, term), s)
  {
    KeepCounts(s, NameContains(term));
    KeepOrdered(s, NameContains(term));
    forall c | c in s && Includes(Lower(c.name), Lower(term))
      ensures c in Search(s, term)
    {
      assert multiset(Search(s, term))[c] == multiset(s)[c] > 0;
    }
  }

  /** Searching for the empty term keeps every category, in order. */
  lemma EmptySearchKeepsAll(s: seq<Category>)
    ensures Search(s, "") == s
  {
    forall c | c in s ensures Holds(NameContains(""), c) {
      IncludesEmpty(Lower(c.name));
    }
    KeepEverything(s, NameContains(""));
  }

  /** `high` keeps exactly the categories counted at least 50, `low` exactly those below
      50, `all` keeps everything; each keeps every occurrence, in order. */
  lemma FilterSpec(s: seq<Category>, mode: FilterMode)
    ensures forall c :: c in ApplyFilter(s, mode) <==> c in s && match mode
      case High => c.count >= 50
      case Low => c.count < 50
      case All => true
    ensures forall c :: multiset(ApplyFilter(s, mode))[c] == if Holds(CountIn(mode), c) then multiset(s)[c] else 0
    ensures SubsequenceOf(ApplyFilter(s, mode), s)
    ensures mode == All ==> ApplyFilter(s, mode) == s
  {
    KeepCounts(s, CountIn(mode));
    KeepOrdered(s, CountIn(mode));
    forall c | c in s && Holds(CountIn(mode), c)
      ensures c in ApplyFilter(s, mode)
    {
      assert multiset(ApplyFilter(s, mode))[c] == multiset(s)[c] > 0;
    }
    if mode == All {
      KeepEverything(s, CountIn(All));
    }
  }

  /** `high` and `low` split a list between them: no category is in both, and together
      they hold every item of the list exactly once. */
  lemma HighLowPartition(s: seq<Category>)
    ensures multiset(ApplyFilter(s, High)) + multiset(ApplyFilter(s, Low)) == multiset(s)
    ensures |ApplyFilter(s, High)| + |ApplyFilter(s, Low)| == |s|
    ensures forall c :: !(c in ApplyFilter(s, High) && c in ApplyFilter(s, Low))
  {
    KeepCounts(s, CountIn(High));
    KeepCounts(s, CountIn(Low));
    var h, l := multiset(ApplyFilter(s, High)), multiset(ApplyFilter(s, Low));
    assert h + l == multiset(s) by {
      forall c ensures (h + l)[c] == multiset(s)[c] {}
    }
    assert |h + l| == |multiset(s)|;
  }

  /** Searching and filtering commute, and each is idempotent. */
  lemma FiltersCommuteAndSettle(s: seq<Category>, term: string, mode: FilterMode)
    ensures ApplyFilter(Search(s, term), mode) == Search(ApplyFilter(s, mode), term)
    ensures Search(Search(s, term), term) == Search(s, term)
    ensures ApplyFilter(ApplyFilter(s, mode), mode) == ApplyFilter(s, mode)
  {
    KeepCommutes(s, NameContains(term), CountIn(mode));
    KeepIdempotent(s, NameContains(term));
    KeepIdempotent(s, CountIn(mode));
  }

  /** The empty search with the `all` filter shows the fetched list unchanged. */
  lemma UnfilteredIsIdentity(s: seq<Category>)
    ensures Filtered(s, "", All) == s
  {
    EmptySearchKeepsAll(s);
    FilterSpec(s, All);
  }

  // ---------------------------------------------------------------------------
  // Page controls

  /** The previous-page button is disabled on the first page. */
  predicate PrevDisabled(page: int)
  {
    page == 1
  }

  /** The next-page button is disabled on the last page and when there is no page. */
  predicate NextDisabled(page: int, totalPages: nat)
  {
    page == totalPages || totalPages == 0
  }

  /** On a page the view can be on, the previous button is enabled exactly when there is an
      earlier page, the next button exactly when there is a later one, and the window shown
      is empty only when the filtered list is. */
  lemma PageControlsSpec(s: seq<Category>, page: int)
    requires 1 <= page <= Max(1, TotalPages(|s|))
    ensures !PrevDisabled(page) <==> page > 1
    ensures !NextDisabled(page, TotalPages(|s|)) <==> page < TotalPages(|s|)
    ensures Window(s, page) == [] <==> s == []
  {
    WindowSpec(s, page);
  }

  /** The category manager's state. */
  class CategoryManager {
    var categories: seq<Category>
    var loading: bool
    var currentPage: int
    var searchTerm: string
    var filter: FilterMode
    var showFilter: bool

    /** The page is always one the controls can reach; before the one fetch completes
        no category has been loaded. */
    ghost predicate Valid()
      reads this
    {
      && 1 <= currentPage <= Max(1, TotalPages(|Filtered(categories, searchTerm, filter)|))
      && (loading ==> categories == [])
    }

    function Shown(): seq<Category>
      reads this
    {
      Window(Filtered(categories, searchTerm, filter), currentPage)
    }

    function Pages(): nat
      reads this
    {
      TotalPages(|Filtered(categories, searchTerm, filter)|)
    }

    /** The state on mount. */
    constructor ()
      ensures Valid()
      ensures categories == [] && loading && currentPage == 1
      ensures searchTerm == "" && filter == All && !showFilter
    {
      categories, loading, currentPage := [], true, 1;
      searchTerm, filter, showFilter := "", All, false;
    }

    /** The mount effect's one fetch completes: on success the records are mapped to
        categories, on failure the (empty) list is kept; loading ends either way. */
    method FinishFetch(reply: Reply<seq<CategoryCount>>)
      requires Valid() && loading
      modifies this
      ensures Valid() && !loading
      ensures categories == if reply.Success? then ToCategories(reply.data) else old(categories)
      ensures currentPage == old(currentPage) && searchTerm == old(searchTerm)
      ensures filter == old(filter) && showFilter == old(showFilter)
    {
      if reply.Success? {
        categories := ToCategories(reply.data);
      }
      loading := false;
    }

    /** Typing in the search box: the term changes and the view returns to page 1. */
    method SetSearchTerm(term: string)
      requires Valid()
      modifies this
      ensures Valid()
      ensures searchTerm == term && currentPage == 1
      ensures categories == old(categories) && loading == old(loading)
      ensures filter == old(filter) && showFilter == old(showFilter)
    {
      searchTerm := term;
      currentPage := 1;
    }

    /** The filter button opens or closes the dropdown. */
    method ToggleFilterMenu()
      requires Valid()
      modifies this
      ensures Valid()
      ensures showFilter == !old(showFilter)
      ensures categories == old(categories) && loading == old(loading)
      ensures currentPage == old(currentPage) && searchTerm == old(searchTerm) && filter == old(filter)
    {
      showFilter := !showFilter;
    }

    /** Choosing `all`, `high` or `low`: the filter changes, the dropdown closes and the
        view returns to page 1. */
    method ChooseFilter(mode: FilterMode)
      requires Valid()
      modifies this
      ensures Valid()
      ensures filter == mode && !showFilter && currentPage == 1
      ensures categories == old(categories) && loading == old(loading) && searchTerm == old(searchTerm)
    {
      filter := mode;
      showFilter := false;
      currentPage := 1;
    }

    /** The previous-page button: one page back, unless it is disabled. */
    method PreviousPage()
      requires Valid()
      modifies this
      ensures Valid()
      ensures currentPage == if PrevDisabled(old(currentPage)) then old(currentPage) else old(currentPage) - 1
      ensures categories == old(categories) && loading == old(loading)
      ensures searchTerm == old(searchTerm) && filter == old(filter) && showFilter == old(showFilter)
    {
      if !PrevDisabled(currentPage) {
        currentPage := currentPage - 1;
      }
    }

    /** The next-page button: one page on, unless it is disabled. */
    method NextPage()
      requires Valid()
      modifies this
      ensures Valid()
      ensures currentPage == if NextDisabled(old(currentPage), Pages()) then old(currentPage) else old(currentPage) + 1
      ensures categories == old(categories) && loading == old(loading)
      ensures searchTerm == old(searchTerm) && filter == old(filter) && showFilter == old(showFilter)
    {
      if !NextDisabled(currentPage, Pages()) {
        currentPage := currentPage + 1;
      }
    }
  }

  /** In every reachable state the shown window holds at most ten categories and is empty
      only when nothing passes the search and the filter. */
  lemma ShownWindow(m: CategoryManager)
    requires m.Valid()
    ensures |m.Shown()| <= ItemsPerPage
    ensures m.Shown() == [] <==> Filtered(m.categories, m.searchTerm, m.filter) == []
  {
    var s := Filtered(m.categories, m.searchTerm, m.filter);
    WindowSpec(s, m.currentPage);
    PageControlsSpec(s, m.currentPage);
  }
}
