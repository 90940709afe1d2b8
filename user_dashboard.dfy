/** The user's dashboard: the user's listings, fetched from the server one page at a
    time, with an edit dialog, deletion and the card shown for each listing. */
module UserDashboard {
  import opened Wrappers
  import opened Listing
  import opened Paging

  /** Listings requested per page (`limit=4`). */
  const PageLimit: int := 4

  /** The card image used when a listing has no image. */
  const PlaceholderImage: string := "https://via.placeholder.com/80"

  /** The query of `GET user/ads/businesses?page=&limit=`. */
  datatype Query = Query(page: int, limit: int)

  /** The body of a successful page fetch. */
  datatype PageResponse = PageResponse(businesses: seq<Business>, page: int, pages: int, total: int)

  /** The edit dialog's form. */
  datatype EditForm = EditForm(
    name: string,
    category: string,
    description: Option<string>,
    address: string,
    phone: string,
    email: string)

  datatype FormField = NameField | CategoryField | DescriptionField | AddressField | PhoneField | EmailField

  const EmptyForm: EditForm := EditForm("", "", Some(""), "", "", "")

  // ---------------------------------------------------------------------------
  // The listing card

  datatype Colour = Green | Red | Yellow

  /** The colour of the status line: green for `approved`, red for `rejected`, yellow for
      any other status. */
  function StatusColour(status: string): (c: Colour)
    ensures c == Green <==> status == "approved"
    ensures c == Red <==> status == "rejected"
    ensures c == Yellow <==> status != "approved" && status != "rejected"
  {
    if status == "approved" then Green else if status == "rejected" then Red else Yellow
  }

  /** The card image: `images[0]` when the listing has a non-empty image list (even if that
      entry is the empty string), otherwise the placeholder. */
  function CardImage(images: Option<seq<string>>): (r: string)
    ensures images.Some? && |images.value| > 0 ==> r == images.value[0]
    ensures !(images.Some? && |images.value| > 0) ==> r == PlaceholderImage
  {
    if images.Some? && |images.value| > 0 then images.value[0] else PlaceholderImage
  }

  // ---------------------------------------------------------------------------
  // Edit form and list update

  /** The form `handleEdit` fills from a listing. */
  function FormOf(b: Business): EditForm
  {
    EditForm(b.name, b.category, b.description, b.address, b.phone, b.email)
  }

  /** The value of one form field. */
  function Value(f: EditForm, field: FormField): Option<string>
  {
    match field
    case NameField => Some(f.name)
    case CategoryField => Some(f.category)
    case DescriptionField => f.description
    case AddressField => Some(f.address)
    case PhoneField => Some(f.phone)
    case EmailField => Some(f.email)
  }

  /** `handleEdit` copies exactly the name, category, description, address, phone and email:
      each field of the form is the listing's, and two listings give the same form exactly
      when they agree on those six. */
  lemma FormOfCopiesSixFields(b: Business, b': Business)
    ensures Value(FormOf(b), NameField) == Some(b.name)
    ensures Value(FormOf(b), CategoryField) == Some(b.category)
    ensures Value(FormOf(b), DescriptionField) == b.description
    ensures Value(FormOf(b), AddressField) == Some(b.address)
    ensures Value(FormOf(b), PhoneField) == Some(b.phone)
    ensures Value(FormOf(b), EmailField) == Some(b.email)
    ensures FormOf(b) == FormOf(b') <==>
      b.name == b'.name && b.category == b'.category && b.description == b'.description &&
      b.address == b'.address && b.phone == b'.phone && b.email == b'.email
  {
  }

  /** `setFormData({ ...formData, [field]: value })`: that field takes the typed value and
      no other field changes. */
  function WithField(f: EditForm, field: FormField, v: string): (r: EditForm)
    ensures Value(r, field) == Some(v)
    ensures forall g :: g != field ==> Value(r, g) == Value(f, g)
  {
    match field
    case NameField => f.(name := v)
    case CategoryField => f.(category := v)
    case DescriptionField => f.(description := Some(v))
    case AddressField => f.(address := v)
    case PhoneField => f.(phone := v)
    case EmailField => f.(email := v)
  }

  /** `bs.map(b => b._id === id ? updated : b)`. */
  function ReplaceById(bs: seq<Business>, id: string, updated: Business): (r: seq<Business>)
    ensures |r| == |bs|
    ensures forall i :: 0 <= i < |bs| ==> r[i] == if bs[i].id == id then updated else bs[i]
  {
    if bs == [] then [] else [if bs[0].id == id then updated else bs[0]] + ReplaceById(bs[1..], id, updated)
  }

  /** Replacing twice is replacing once, and a list without the id is left as it is. */
  lemma ReplaceByIdSettles(bs: seq<Business>, id: string, updated: Business)
    ensures ReplaceById(ReplaceById(bs, id, updated), id, updated) == ReplaceById(bs, id, updated)
    ensures (forall i :: 0 <= i < |bs| ==> bs[i].id != id) ==> ReplaceById(bs, id, updated) == bs
  {
  }

  // ---------------------------------------------------------------------------
  // Page buttons

  /** The previous button's update, `Math.max(1, p - 1)`: never below page 1. */
  function PrevPage(p: int): (r: int)
    ensures r >= 1
    ensures p > 1 ==> r == p - 1
    ensures p <= 1 ==> r == 1
  {
    Max(1, p - 1)
  }

  /** The next button's update, `Math.min(pages, p + 1)`: never past the last page. */
  function NextPage(p: int, pages: int): (r: int)
    ensures r <= pages
    ensures p < pages ==> r == p + 1
    ensures p >= pages ==> r == pages
  {
    Min(pages, p + 1)
  }

  predicate PrevDisabled(page: int) { page == 1 }

  predicate NextDisabled(page: int, pages: int) { page == pages }

  /** Between page 1 and the last page, both buttons keep the page in range, move it by
      exactly one, and are disabled exactly when clicking them would change nothing. */
  lemma PageButtonsSpec(p: int, pages: int)
    requires 1 <= p <= pages
    ensures 1 <= PrevPage(p) <= pages && 1 <= NextPage(p, pages) <= pages
    ensures PrevDisabled(p) <==> PrevPage(p) == p
    ensures NextDisabled(p, pages) <==> NextPage(p, pages) == p
    ensures !PrevDisabled(p) ==> PrevPage(p) == p - 1
    ensures !NextDisabled(p, pages) ==> NextPage(p, pages) == p + 1
  {
    if p == 1 {
      assert PrevPage(p) == 1;
    } else {
      assert PrevPage(p) == p - 1;
    }
    if p == pages {
      assert NextPage(p, pages) == pages;
    } else {
      assert NextPage(p, pages) == p + 1;
    }
  }

  // ---------------------------------------------------------------------------
  // The component

  class Dashboard {
    var businesses: seq<Business>
    var page: int
    var pages: int
    var total: int
    var loading: bool
    var editingBiz: Option<Business>
    var formData: EditForm

    constructor ()
      ensures businesses == [] && page == 1 && pages == 1 && total == 0 && !loading
      ensures editingBiz.None? && formData == EmptyForm
    {
      businesses, page, pages, total := [], 1, 1, 0;
      loading, editingBiz, formData := false, None, EmptyForm;
    }

    /** `fetchBusinesses(pageNum)` starts: loading is set and the page is requested. */
    method StartFetch(pageNum: int) returns (q: Query)
      modifies this
      ensures q == Query(pageNum, PageLimit) && loading
      ensures businesses == old(businesses) && page == old(page) && pages == old(pages) && total == old(total)
      ensures editingBiz == old(editingBiz) && formData == old(formData)
    {
      loading := true;
      q := Query(pageNum, PageLimit);
    }

    /** The fetch completes: on success the list, page, page count and total come from the
        response; on failure they are kept. Loading ends either way. */
    method FinishFetch(reply: Reply<PageResponse>)
      modifies this
      ensures !loading
      ensures reply.Success? ==>
        businesses == reply.data.businesses && page == reply.data.page &&
        pages == reply.data.pages && total == reply.data.total
      ensures reply.Failure? ==>
        businesses == old(businesses) && page == old(page) && pages == old(pages) && total == old(total)
      ensures editingBiz == old(editingBiz) && formData == old(formData)
    {
      if reply.Success? {
        businesses := reply.data.businesses;
        page := reply.data.page;
        pages := reply.data.pages;
        total := reply.data.total;
      }
      loading := false;
    }

    /** The effect on `[user, page]`: the current page is fetched when a user is logged in. */
    method PageEffect(userPresent: bool) returns (q: Option<Query>)
      modifies this
      ensures q == if userPresent then Some(Query(old(page), PageLimit)) else None
      ensures loading == (userPresent || old(loading))
      ensures businesses == old(businesses) && page == old(page) && pages == old(pages) && total == old(total)
      ensures editingBiz == old(editingBiz) && formData == old(formData)
    {
      if userPresent {
        var r := StartFetch(page);
        q := Some(r);
      } else {
        q := None;
      }
    }

    /** The previous button (ignored while disabled). */
    method GoPrevious()
      modifies this
      ensures page == PrevPage(old(page))
      ensures businesses == old(businesses) && pages == old(pages) && total == old(total) && loading == old(loading)
      ensures editingBiz == old(editingBiz) && formData == old(formData)
    {
      if !PrevDisabled(page) {
        page := PrevPage(page);
      }
    }

    /** The next button (ignored while disabled). */
    method GoNext()
      modifies this
      ensures page == NextPage(old(page), pages)
      ensures businesses == old(businesses) && pages == old(pages) && total == old(total) && loading == old(loading)
      ensures editingBiz == old(editingBiz) && formData == old(formData)
    {
      if !NextDisabled(page, pages) {
        page := NextPage(page, pages);
      }
    }

    /** `handleEdit(biz)`: the dialog opens on the listing with its six fields in the form. */
    method Edit(biz: Business)
      modifies this
      ensures editingBiz == Some(biz) && formData == FormOf(biz)
      ensures businesses == old(businesses) && page == old(page) && pages == old(pages)
      ensures total == old(total) && loading == old(loading)
    {
      editingBiz := Some(biz);
      formData := FormOf(biz);
    }

    /** Typing into one field of the dialog. */
    method EditField(field: FormField, v: string)
      modifies this
      ensures formData == WithField(old(formData), field, v)
      ensures editingBiz == old(editingBiz) && businesses == old(businesses) && page == old(page)
      ensures pages == old(pages) && total == old(total) && loading == old(loading)
    {
      formData := WithField(formData, field, v);
    }

    /** The close and cancel buttons of the dialog. */
    method CloseEditor()
      modifies this
      ensures editingBiz.None? && formData == old(formData)
      ensures businesses == old(businesses) && page == old(page) && pages == old(pages)
      ensures total == old(total) && loading == old(loading)
    {
      editingBiz := None;
    }

    /** `handleUpdate`: the form is sent for the listing being edited. On success every
        entry with that id is replaced by the response and the dialog closes; on failure,
        or with no listing being edited (the TypeError is caught), nothing changes. */
    method Update(reply: Reply<Business>) returns (request: Option<(string, EditForm)>)
      modifies this
      ensures request == if old(editingBiz).Some? then Some((old(editingBiz).value.id, old(formData))) else None
      ensures old(editingBiz).Some? && reply.Success? ==>
        businesses == ReplaceById(old(businesses), old(editingBiz).value.id, reply.data) && editingBiz.None?
      ensures old(editingBiz).None? || reply.Failure? ==>
        businesses == old(businesses) && editingBiz == old(editingBiz)
      ensures formData == old(formData) && page == old(page) && pages == old(pages)
      ensures total == old(total) && loading == old(loading)
    {
      if editingBiz.None? {
        request := None;
        return;
      }
      var id := editingBiz.value.id;
      request := Some((id, formData));
      if reply.Success? {
        businesses := ReplaceById(businesses, id, reply.data);
        editingBiz := None;
      }
    }

    /** `handleDelete(id)`: without confirmation nothing is sent and nothing changes. When
        confirmed the delete is sent; after it succeeds the current page is fetched again,
        after it fails nothing changes. */
    method Delete(id: string, confirmed: bool, reply: Reply<()>)
      returns (deleteRequest: Option<string>, refetch: Option<Query>)
      modifies this
      ensures deleteRequest == if confirmed then Some(id) else None
      ensures refetch == if confirmed && reply.Success? then Some(Query(old(page), PageLimit)) else None
      ensures loading == (refetch.Some? || old(loading))
      ensures businesses == old(businesses) && page == old(page) && pages == old(pages) && total == old(total)
      ensures editingBiz == old(editingBiz) && formData == old(formData)
    {
      if !confirmed {
        deleteRequest, refetch := None, None;
        return;
      }
      deleteRequest := Some(id);
      if reply.Success? {
        var q := StartFetch(page);
        refetch := Some(q);
      } else {
        refetch := None;
      }
    }
  }
}
