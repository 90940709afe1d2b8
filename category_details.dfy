/** The business detail page reached from a category listing. It always fetches the
    listing by id, and cuts long descriptions at 150 characters. */
module CategoryDetails {
  import opened Wrappers
  import opened Listing
  import opened DetailView

  /** `DESCRIPTION_LIMIT`. */
  const DescriptionLimit: nat := 150

  const NotFoundText: string := "Business not found."

  datatype PageState = PageState(business: Option<Business>, loading: bool, expanded: bool)

  /** The state on mount: no business, loading, collapsed. */
  const Initial: PageState := PageState(None, true, false)

  /** The effect starts a fetch for the current id: loading is set. */
  function BeginFetch(s: PageState): PageState
  {
    s.(loading := true)
  }

  /** The fetch completes: the business is replaced by the response on success and kept
      as it was on failure; loading ends either way. */
  function FinishFetch(s: PageState, reply: Reply<Business>): (r: PageState)
    ensures !r.loading && r.expanded == s.expanded
    ensures reply.Success? ==> r.business == Some(reply.data)
    ensures reply.Failure? ==> r.business == s.business
  {
    match reply
    case Success(b) => s.(business := Some(b), loading := false)
    case Failure(_) => s.(loading := false)
  }

  // ---------------------------------------------------------------------------
  // The description as the page computes it

  /** `expanded || description?.length <= 150 ? description : description.slice(0, 150) + "..."`.
      `None` stands for the TypeError thrown when the description is missing: then
      `undefined <= 150` is false and `.slice` is called on `undefined`. */
  function DescriptionAsWritten(desc: Option<string>, expanded: bool): Option<string>
  {
    if expanded || (desc.Some? && |desc.value| <= DescriptionLimit) then Some(Displayed(desc))
    else if desc.None? then None
    else Some(desc.value[..DescriptionLimit] + "...")
  }

  /** The outcome of rendering as the page is written: a screen, or the TypeError. */
  datatype Rendered = Shows(screen: Screen) | TypeError

  function RenderAsWritten(s: PageState): Rendered
  {
    if s.loading then Shows(Loading)
    else if s.business.None? then Shows(NotFound(NotFoundText))
    else
      var b := s.business.value;
      match DescriptionAsWritten(b.description, s.expanded)
      case None => TypeError
      case Some(text) =>
        Shows(Details(ContentOf(b, DescriptionLimit, s.expanded).(description := text)))
  }

  /** As written, rendering fails exactly for a loaded listing without a description that
      is not expanded; in every other state it shows what `Render` shows. */
  lemma AsWrittenFailsWithoutDescription(s: PageState)
    ensures RenderAsWritten(s) == TypeError <==>
      !s.loading && s.business.Some? && s.business.value.description.None? && !s.expanded
    ensures RenderAsWritten(s) != TypeError ==> RenderAsWritten(s) == Shows(Render(s))
  {
  }

  /** A concrete input: a fetched listing with no description, on the first render after
      loading, makes the page as written throw. */
  lemma AsWrittenCounterexample()
    ensures RenderAsWritten(PageState(Some(Business("b1", "Cafe", "Food", None, "Main St", "123", "a@b.c", "", "", None, "approved")), false, false)) == TypeError
  {
  }

  // ---------------------------------------------------------------------------
  // The page as evidently intended

  /** The screen rendered in state `s`, with a missing description displayed as nothing
      and no toggle, as the `?.` in the source intends. */
  function Render(s: PageState): (screen: Screen)
    ensures screen.Loading? <==> s.loading
    ensures screen.NotFound? <==> !s.loading && s.business.None?
    ensures screen.NotFound? ==> screen.message == NotFoundText
    ensures screen.Details? ==>
      s.business.Some? && screen.content == ContentOf(s.business.value, DescriptionLimit, s.expanded)
    ensures screen.Details? && s.business.value.description.None? ==>
      screen.content.description == "" && screen.content.toggle.None?
  {
    if s.loading then Loading
    else if s.business.None? then NotFound(NotFoundText)
    else Details(ContentOf(s.business.value, DescriptionLimit, s.expanded))
  }

  /** Once a business is shown, its description is the full text when expanded or at most
      150 characters long, otherwise its first 150 characters and "..."; a missing
      description shows nothing. The toggle appears exactly for descriptions longer than
      150 characters, and flipping `expanded` switches its label. */
  lemma ShownContent(s: PageState)
    requires Render(s).Details?
    ensures var c, d := Render(s).content, s.business.value.description;
      && (s.expanded || !(d.Some? && |d.value| > 150) ==> c.description == Displayed(d))
      && (!s.expanded && d.Some? && |d.value| > 150 ==>
            c.description == d.value[..150] + "..." && |c.description| == 153)
      && (d.None? ==> c.description == "")
      && (c.toggle.Some? <==> d.Some? && |d.value| > 150)
      && (c.toggle.Some? ==>
            c.toggle.value == (if s.expanded then "See Less" else "See More") &&
            Render(s.(expanded := !s.expanded)).content.toggle.value != c.toggle.value)
  {
  }

  /** Every listing the page shows comes with the same hours table as the other detail
      page: Monday to Sunday, Sunday closed, Saturday 10 to 4, the other days 9 to 6. */
  lemma HoursShown(s: PageState)
    requires Render(s).Details?
    ensures var t := Render(s).content.hours;
      && t == HoursTable() && |t| == 7
      && t[6] == (Sunday, "Closed") && t[5] == (Saturday, "10:00 AM - 4:00 PM")
      && forall i :: 0 <= i < 5 ==> t[i].1 == "9:00 AM - 6:00 PM"
  {
  }

  /** From mount to a settled page: loading first, then the fetched listing, or
      "Business not found." when the first fetch fails. A failed fetch for a later id keeps
      the listing shown before. */
  lemma Lifecycle(reply: Reply<Business>, s: PageState)
    ensures Render(Initial) == Loading
    ensures Render(FinishFetch(BeginFetch(Initial), reply)) ==
      if reply.Success? then Details(ContentOf(reply.data, DescriptionLimit, false))
      else NotFound(NotFoundText)
    ensures Render(BeginFetch(s)) == Loading
    ensures reply.Failure? ==> FinishFetch(BeginFetch(s), reply).business == s.business
  {
  }

  /** The page as a component whose state React updates in place. */
  class CategoryDetailsPage {
    var business: Option<Business>
    var loading: bool
    var expanded: bool

    function State(): PageState
      reads this
    {
      PageState(business, loading, expanded)
    }

    function CurrentScreen(): Screen
      reads this
    {
      Render(State())
    }

    constructor ()
      ensures State() == Initial
    {
      business, loading, expanded := None, true, false;
    }

    /** The effect (on mount and whenever the id changes) starts its fetch: the request
        is for the route's `id`. */
    method StartFetch(id: string) returns (request: string)
      modifies this
      ensures State() == BeginFetch(old(State()))
      ensures request == id
    {
      loading := true;
      request := id;
    }

    /** The fetch started by the effect completes with `reply`. */
    method CompleteFetch(reply: Reply<Business>)
      modifies this
      ensures State() == FinishFetch(old(State()), reply)
    {
      if reply.Success? {
        business := Some(reply.data);
      }
      loading := false;
    }

    /** The See More / See Less button flips `expanded` and nothing else. */
    method Toggle()
      modifies this
      ensures State() == old(State()).(expanded := !old(expanded))
    {
      expanded := !expanded;
    }
  }
}
