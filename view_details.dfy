/** The business detail page reached from the search results. The listing normally
    arrives with the navigation; only when it does not is it fetched by id. */
module ViewDetails {
  import opened Wrappers
  import opened Listing
  import opened DetailView

  /** Descriptions longer than this are cut on this page. */
  const DescriptionLimit: nat := 100

  /** The error the page records when the fetch fails. */
  const FetchError: string := "Business not found"

  /** The message shown when there is no business and no error text. */
  const NotFoundFallback: string := "Business not found."

  datatype PageState = PageState(
    business: Option<Business>,
    loading: bool,
    error: Option<string>,
    expanded: bool)

  /** The state on mount: the business from the navigation state, if any; loading exactly
      when there is none. */
  function Initial(passed: Option<Business>): (s: PageState)
    ensures s.business == passed
    ensures s.loading <==> passed.None?
    ensures s.error.None? && !s.expanded
  {
    PageState(passed, passed.None?, None, false)
  }

  /** The not-found message: `error || "Business not found."`. */
  function NotFoundMessage(error: Option<string>): string
  {
    if error.Some? && error.value != "" then error.value else NotFoundFallback
  }

  /** The screen rendered in state `s`. */
  function Render(s: PageState): (screen: Screen)
    ensures screen.Loading? <==> s.loading
    ensures screen.NotFound? <==> !s.loading && ((s.error.Some? && s.error.value != "") || s.business.None?)
    ensures screen.NotFound? ==> screen.message == NotFoundMessage(s.error)
    ensures screen.Details? ==>
      s.business.Some? && screen.content == ContentOf(s.business.value, DescriptionLimit, s.expanded)
  {
    if s.loading then Loading
    else if (s.error.Some? && s.error.value != "") || s.business.None? then NotFound(NotFoundMessage(s.error))
    else Details(ContentOf(s.business.value, DescriptionLimit, s.expanded))
  }

  /** Once a business is shown, its description is the full text when expanded or at most
      100 characters long, and otherwise its first 100 characters and "..." (103 in all);
      the toggle appears exactly for descriptions longer than 100 characters, reads
      "See Less" when expanded and "See More" when not, and its label switches when
      `expanded` flips. */
  lemma ShownContent(s: PageState)
    requires Render(s).Details?
    ensures var c, d := Render(s).content, s.business.value.description;
      && (s.expanded || !(d.Some? && |d.value| > 100) ==> c.description == Displayed(d))
      && (!s.expanded && d.Some? && |d.value| > 100 ==>
            c.description == d.value[..100] + "..." && |c.description| == 103)
      && (c.toggle.Some? <==> d.Some? && |d.value| > 100)
      && (c.toggle.Some? ==>
            c.toggle.value == (if s.expanded then "See Less" else "See More") &&
            Render(s.(expanded := !s.expanded)).content.toggle.value != c.toggle.value)
      && c.hours == HoursTable()
  {
  }

  /** One run of the mount effect (it runs again whenever `business` changes): when no
      business is held it fetches one and records it, or on failure records the error;
      otherwise it only ends loading. The flag says whether a request was issued. */
  function Effect(s: PageState, reply: Reply<Business>): (r: (PageState, bool))
    ensures r.1 <==> s.business.None?
    ensures !r.0.loading && r.0.expanded == s.expanded
    ensures s.business.Some? ==> r.0 == s.(loading := false)
    ensures s.business.None? && reply.Success? ==> r.0.business == Some(reply.data) && r.0.error == s.error
    ensures s.business.None? && reply.Failure? ==> r.0.business.None? && r.0.error == Some(FetchError)
  {
    if s.business.None? then
      match reply
      case Success(b) => (s.(business := Some(b), loading := false), true)
      case Failure(_) => (s.(error := Some(FetchError), loading := false), true)
    else (s.(loading := false), false)
  }

  /** From mount to a settled page: a request is issued exactly when no business came with
      the navigation; afterwards the page shows the passed or fetched business, or, after a
      failed fetch, "Business not found"; the effect's re-run issues no further request. */
  lemma Lifecycle(passed: Option<Business>, reply: Reply<Business>, again: Reply<Business>)
    ensures Render(Initial(passed)) == Loading <==> passed.None?
    ensures Effect(Initial(passed), reply).1 <==> passed.None?
    ensures Render(Effect(Initial(passed), reply).0) ==
      if passed.Some? then Details(ContentOf(passed.value, DescriptionLimit, false))
      else if reply.Success? then Details(ContentOf(reply.data, DescriptionLimit, false))
      else NotFound(FetchError)
    ensures Effect(Initial(passed), reply).0.business.Some? ==>
      !Effect(Effect(Initial(passed), reply).0, again).1 &&
      Effect(Effect(Initial(passed), reply).0, again).0 == Effect(Initial(passed), reply).0
  {
  }

  /** The page as a component whose state React updates in place. */
  class ViewDetailsPage {
    var business: Option<Business>
    var loading: bool
    var error: Option<string>
    var expanded: bool

    function State(): PageState
      reads this
    {
      PageState(business, loading, error, expanded)
    }

    function CurrentScreen(): Screen
      reads this
    {
      Render(State())
    }

    constructor (passed: Option<Business>)
      ensures State() == Initial(passed)
    {
      business := passed;
      loading := passed.None?;
      error := None;
      expanded := false;
    }

    /** Runs the effect for the route's `id`; `reply` is what the network answers if a
        request is issued. The request, when there is one, is for that `id`. */
    method RunEffect(id: string, reply: Reply<Business>) returns (request: Option<string>)
      modifies this
      ensures (State(), request.Some?) == Effect(old(State()), reply)
      ensures request.Some? ==> request.value == id
    {
      if business.None? {
        request := Some(id);
        match reply {
          case Success(b) => business := Some(b);
          case Failure(_) => error := Some(FetchError);
        }
        loading := false;
      } else {
        request := None;
        loading := false;
      }
    }

    /** The See More / See Less button flips `expanded` and nothing else. */
    method Toggle()
      modifies this
      ensures State() == old(State()).(expanded := !old(expanded))
    {
      expanded := !expanded;
    }
  }
}
