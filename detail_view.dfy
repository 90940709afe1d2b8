/** What the two business detail pages have in common: the screens they choose between,
    the truncated description with its See More / See Less toggle, the main image with
    its fallback, and the fixed table of opening hours. */
module DetailView {
  import opened Wrappers
  import opened Listing

  datatype Weekday = Monday | Tuesday | Wednesday | Thursday | Friday | Saturday | Sunday

  /** The days of the hours table, in the order the table lists them. */
  const Week: seq<Weekday> := [Monday, Tuesday, Wednesday, Thursday, Friday, Saturday, Sunday]

  /** The opening hours shown for one day. */
  function Hours(day: Weekday): string
  {
    if day == Sunday then "Closed"
    else if day == Saturday then "10:00 AM - 4:00 PM"
    else "9:00 AM - 6:00 PM"
  }

  /** The hours table: one row per day, Monday first; Sunday is the one closed day,
      Saturday opens 10 to 4 and the five weekdays 9 to 6. */
  function HoursTable(): (t: seq<(Weekday, string)>)
    ensures |t| == 7
    ensures forall i :: 0 <= i < |t| ==> t[i].0 == Week[i]
    ensures forall i, j :: 0 <= i < j < |t| ==> t[i].0 != t[j].0
    ensures forall i :: 0 <= i < |t| ==> (t[i].1 == "Closed" <==> t[i].0 == Sunday)
    ensures forall i :: 0 <= i < |t| ==> (t[i].1 == "10:00 AM - 4:00 PM" <==> t[i].0 == Saturday)
    ensures forall i :: 0 <= i < |t| ==> (t[i].1 == "9:00 AM - 6:00 PM" <==> t[i].0 != Saturday && t[i].0 != Sunday)
  {
    seq(|Week|, i requires 0 <= i < |Week| => (Week[i], Hours(Week[i])))
  }

  /** What React renders for a description that may be missing: nothing, or its text. */
  function Displayed(desc: Option<string>): string
  {
    if desc.Some? then desc.value else ""
  }

  /** The description is longer than the page's limit (`description?.length > limit`);
      only then is the See More / See Less toggle shown. */
  predicate ToggleShown(desc: Option<string>, limit: nat)
  {
    desc.Some? && |desc.value| > limit
  }

  /** The description as displayed: in full when expanded or not longer than `limit`,
      otherwise its first `limit` characters followed by "...". */
  function Shorten(desc: Option<string>, limit: nat, expanded: bool): (r: string)
    ensures expanded ==> r == Displayed(desc)
    ensures !ToggleShown(desc, limit) ==> r == Displayed(desc)
    ensures !expanded && ToggleShown(desc, limit) ==>
      |r| == limit + 3 && r[..limit] == desc.value[..limit] && r[limit..] == "..."
    ensures !expanded ==> |r| <= limit + 3
  {
    if !expanded && ToggleShown(desc, limit) then desc.value[..limit] + "..." else Displayed(desc)
  }

  /** The toggle is shown whenever expanding changes what is displayed, and when the
      description is long, collapsing cuts it unless its tail is exactly "...". */
  lemma ToggleMatters(desc: Option<string>, limit: nat)
    ensures Shorten(desc, limit, false) != Shorten(desc, limit, true) ==> ToggleShown(desc, limit)
    ensures ToggleShown(desc, limit) && desc.value[limit..] != "..." ==>
      Shorten(desc, limit, false) != Shorten(desc, limit, true)
  {
  }

  /** The label of the toggle. */
  function ToggleLabel(expanded: bool): string
  {
    if expanded then "See Less" else "See More"
  }

  /** The main image, `business?.images?.[0] || '/placeholder.jpg'`: the first image when
      there is one and it is not the empty string, otherwise the placeholder. */
  function MainImage(images: Option<seq<string>>): (r: string)
    ensures images.Some? && |images.value| > 0 && images.value[0] != "" ==> r == images.value[0]
    ensures !(images.Some? && |images.value| > 0) ==> r == "/placeholder.jpg"
    ensures images.Some? && |images.value| > 0 && images.value[0] == "" ==> r == "/placeholder.jpg"
  {
    if images.Some? && |images.value| > 0 && images.value[0] != "" then images.value[0]
    else "/placeholder.jpg"
  }

  /** The content of a detail page once a business is shown. */
  datatype Content = Content(
    name: string,
    category: string,
    image: string,
    description: string,
    toggle: Option<string>,
    hours: seq<(Weekday, string)>)

  /** The three screens a detail page chooses between. */
  datatype Screen = Loading | NotFound(message: string) | Details(content: Content)

  /** The content shown for business `b`, with the description cut at `limit`. */
  function ContentOf(b: Business, limit: nat, expanded: bool): Content
  {
    Content(
      b.name, b.category, MainImage(b.images), Shorten(b.description, limit, expanded),
      if ToggleShown(b.description, limit) then Some(ToggleLabel(expanded)) else None,
      HoursTable())
  }
}
