/** The form that creates a business listing: its validation rules, the multipart payload
    it submits, its single image, and the error shown when submission fails. */
module PostAds {
  import opened Wrappers
  import opened Text

  /** A file chosen in the file input; its contents are not modelled. */
  datatype File = File(fileName: string, size: nat)

  datatype FormValues = FormValues(
    name: string,
    category: string,
    description: string,
    address: string,
    phone: string,
    email: string,
    website: string,
    logo: string,
    image: Option<File>)

  const InitialValues: FormValues := FormValues("", "", "", "", "", "", "", "", None)

  datatype Field = Name | Category | Description | Address | Phone | Email | Website | Logo

  function ValueOf(v: FormValues, f: Field): string
  {
    match f
    case Name => v.name
    case Category => v.category
    case Description => v.description
    case Address => v.address
    case Phone => v.phone
    case Email => v.email
    case Website => v.website
    case Logo => v.logo
  }

  /** The fields the schema marks `.required()`. */
  predicate Required(f: Field)
  {
    f != Website && f != Logo
  }

  // ---------------------------------------------------------------------------
  // Validation

  /** A rule of the schema that a form breaks. */
  datatype Violation =
    | Missing(field: Field)   // `.required()` on an empty value
    | NotDigits               // `.matches(/^[0-9]+$/)` on the phone
    | BadEmail                // `.email()`
    | BadUrl(field: Field)    // `.url()` on the website or the logo

  /** The text the schema attaches to each rule. */
  function Message(x: Violation): string
  {
    match x
    case Missing(Name) => "Business name is required"
    case Missing(Category) => "Category is required"
    case Missing(Description) => "Description is required"
    case Missing(Address) => "Address is required"
    case Missing(Phone) => "Phone is required"
    case Missing(Email) => "Email is required"
    case Missing(_) => ""
    case NotDigits => "Must be only digits"
    case BadEmail => "Invalid email format"
    case BadUrl(Logo) => "Must be a valid URL"
    case BadUrl(_) => "Invalid URL"
  }

  /** The field a rule belongs to. */
  function FieldOf(x: Violation): Field
  {
    match x
    case Missing(f) => f
    case NotDigits => Phone
    case BadEmail => Email
    case BadUrl(f) => f
  }

  /** Every rule the form breaks. The format checks of `.email()` and `.url()` are the
      library's; they are the parameters `emailOk` and `urlOk`. Formik hands an empty
      field to Yup as absent, and `.matches`, `.email()` and `.url()` accept an absent
      value, so on an empty field only `.required()` can fail. */
  function Violations(v: FormValues, emailOk: string -> bool, urlOk: string -> bool): set<Violation>
  {
    (set f: Field | Required(f) && ValueOf(v, f) == "" :: Missing(f))
    + (if v.phone == "" || MatchesDigits(v.phone) then {} else {NotDigits})
    + (if v.email == "" || emailOk(v.email) then {} else {BadEmail})
    + (if v.website == "" || urlOk(v.website) then {} else {BadUrl(Website)})
    + (if v.logo == "" || urlOk(v.logo) then {} else {BadUrl(Logo)})
  }

  /** The form is accepted exactly when the six required fields are non-empty, the phone is
      one or more decimal digits, the email passes its format check, and the website and
      logo are empty (both are optional) or pass theirs.
      In particular a form with any required field empty, or a phone with any non-digit, is
      rejected. */
  lemma ValidationSpec(v: FormValues, emailOk: string -> bool, urlOk: string -> bool)
    ensures Violations(v, emailOk, urlOk) == {} <==>
      && v.name != "" && v.category != "" && v.description != "" && v.address != ""
      && v.phone != "" && v.email != ""
      && (forall i :: 0 <= i < |v.phone| ==> IsDigit(v.phone[i]))
      && emailOk(v.email) && (v.website == "" || urlOk(v.website)) && (v.logo == "" || urlOk(v.logo))
    ensures forall f :: Missing(f) in Violations(v, emailOk, urlOk) <==> Required(f) && ValueOf(v, f) == ""
    ensures NotDigits in Violations(v, emailOk, urlOk) <==>
      v.phone != "" && exists i :: 0 <= i < |v.phone| && !IsDigit(v.phone[i])
  {
    MatchesDigitsSpec(v.phone);
    var errs := Violations(v, emailOk, urlOk);
    if errs == {} {
      forall f | Required(f) ensures ValueOf(v, f) != "" {
        assert Missing(f) !in errs;
      }
      assert ValueOf(v, Name) != "" && ValueOf(v, Category) != "" && ValueOf(v, Description) != "";
      assert ValueOf(v, Address) != "" && ValueOf(v, Phone) != "" && ValueOf(v, Email) != "";
    } else {
      var x :| x in errs;
      if x.Missing? {
        assert Required(x.field) && ValueOf(v, x.field) == "";
      }
    }
  }

  /** The message Formik shows under field `f` after validation, if any. */
  function FieldError(v: FormValues, emailOk: string -> bool, urlOk: string -> bool, f: Field): Option<string>
  {
    if Required(f) && ValueOf(v, f) == "" then Some(Message(Missing(f)))
    else if f == Phone && !MatchesDigits(v.phone) then Some(Message(NotDigits))
    else if f == Email && !emailOk(v.email) then Some(Message(BadEmail))
    else if (f == Website || f == Logo) && ValueOf(v, f) != "" && !urlOk(ValueOf(v, f)) then Some(Message(BadUrl(f)))
    else None
  }

  /** Whether the form breaks rule `x`, rule by rule. */
  predicate Breaks(v: FormValues, emailOk: string -> bool, urlOk: string -> bool, x: Violation)
  {
    match x
    case Missing(f) => Required(f) && ValueOf(v, f) == ""
    case NotDigits => v.phone != "" && !MatchesDigits(v.phone)
    case BadEmail => v.email != "" && !emailOk(v.email)
    case BadUrl(f) => (f == Website || f == Logo) && ValueOf(v, f) != "" && !urlOk(ValueOf(v, f))
  }

  /** `Violations` holds exactly the rules the form breaks. */
  lemma ViolationsBroken(v: FormValues, emailOk: string -> bool, urlOk: string -> bool, x: Violation)
    ensures x in Violations(v, emailOk, urlOk) <==> Breaks(v, emailOk, urlOk, x)
  {
    if x.Missing? {
      assert x in Violations(v, emailOk, urlOk) <==> Required(x.field) && ValueOf(v, x.field) == "";
    }
  }

  /** No field breaks two rules at once, so each field shows at most one message: the
      message of the one rule it breaks, and none when it breaks no rule. */
  lemma OneRulePerField(v: FormValues, emailOk: string -> bool, urlOk: string -> bool, x: Violation, y: Violation)
    requires x in Violations(v, emailOk, urlOk)
    ensures y in Violations(v, emailOk, urlOk) && FieldOf(x) == FieldOf(y) ==> x == y
    ensures FieldError(v, emailOk, urlOk, FieldOf(x)) == Some(Message(x))
  {
    ViolationsBroken(v, emailOk, urlOk, x);
    ViolationsBroken(v, emailOk, urlOk, y);
  }

  /** A field shows no message exactly when it breaks no rule. */
  lemma NoErrorWhenNoRuleBroken(v: FormValues, emailOk: string -> bool, urlOk: string -> bool, f: Field)
    ensures FieldError(v, emailOk, urlOk, f).None? <==>
      forall x :: x in Violations(v, emailOk, urlOk) ==> FieldOf(x) != f
  {
    forall x | x in Violations(v, emailOk, urlOk) ensures Breaks(v, emailOk, urlOk, x) {
      ViolationsBroken(v, emailOk, urlOk, x);
    }
    if FieldError(v, emailOk, urlOk, f).Some? {
      var x := if Required(f) && ValueOf(v, f) == "" then Missing(f)
        else if f == Phone then NotDigits
        else if f == Email then BadEmail
        else BadUrl(f);
      ViolationsBroken(v, emailOk, urlOk, x);
      assert x in Violations(v, emailOk, urlOk) && FieldOf(x) == f;
    }
  }

  // ---------------------------------------------------------------------------
  // Payload

  datatype PartValue = Text(text: string) | Attachment(file: File)

  /** One entry of a multipart body: a name and a value. */
  datatype Part = Part(key: string, value: PartValue)

  /** The names of the eight text fields, in the order they are appended. */
  const TextKeys: seq<string> := ["name", "category", "description", "address", "phone", "email", "website", "logo"]

  /** A `FormData` object: the entries appended so far, in order. */
  class FormData {
    var entries: seq<Part>

    constructor ()
      ensures entries == []
    {
      entries := [];
    }

    /** `formData.append(key, value)`. */
    method Append(key: string, value: PartValue)
      modifies this
      ensures entries == old(entries) + [Part(key, value)]
    {
      entries := entries + [Part(key, value)];
    }
  }

  /** The payload `onSubmit` assembles: the eight text fields in their fixed order, then the
      image when one is chosen. */
  function Payload(v: FormValues): (parts: seq<Part>)
    ensures |parts| == if v.image.Some? then 9 else 8
    ensures forall i :: 0 <= i < 8 ==> parts[i].key == TextKeys[i] && parts[i].value.Text?
    ensures v.image.Some? ==> parts[8] == Part("image", Attachment(v.image.value))
  {
    [ Part("name", Text(v.name)), Part("category", Text(v.category)),
      Part("description", Text(v.description)), Part("address", Text(v.address)),
      Part("phone", Text(v.phone)), Part("email", Text(v.email)),
      Part("website", Text(v.website)), Part("logo", Text(v.logo)) ]
    + (if v.image.Some? then [Part("image", Attachment(v.image.value))] else [])
  }

  /** The text of the first entry named `key`, or "" when there is none. */
  function TextAt(parts: seq<Part>, key: string): string
  {
    if parts == [] then ""
    else if parts[0].key == key && parts[0].value.Text? then parts[0].value.text
    else TextAt(parts[1..], key)
  }

  /** The file of the first entry named `key`, if any. */
  function FileAt(parts: seq<Part>, key: string): Option<File>
  {
    if parts == [] then None
    else if parts[0].key == key && parts[0].value.Attachment? then Some(parts[0].value.file)
    else FileAt(parts[1..], key)
  }

  /** How the server reads the multipart body back into a form. */
  function Decode(parts: seq<Part>): FormValues
  {
    FormValues(
      TextAt(parts, "name"), TextAt(parts, "category"), TextAt(parts, "description"),
      TextAt(parts, "address"), TextAt(parts, "phone"), TextAt(parts, "email"),
      TextAt(parts, "website"), TextAt(parts, "logo"), FileAt(parts, "image"))
  }

  /** The payload carries the whole form: reading it back gives the submitted values, the
      image included exactly when one was chosen. */
  lemma PayloadRoundTrip(v: FormValues)
    ensures Decode(Payload(v)) == v
    ensures FileAt(Payload(v), "image").Some? <==> v.image.Some?
  {
    var p := Payload(v);
    TextAtFirst(p, "name", 0);
    TextAtFirst(p, "category", 1);
    TextAtFirst(p, "description", 2);
    TextAtFirst(p, "address", 3);
    TextAtFirst(p, "phone", 4);
    TextAtFirst(p, "email", 5);
    TextAtFirst(p, "website", 6);
    TextAtFirst(p, "logo", 7);
    FileAtSkipsText(p, "image", 8);
    assert p[8..] == if v.image.Some? then [Part("image", Attachment(v.image.value))] else [];
  }

  /** `TextAt` finds the first entry with the key. */
  lemma {:induction false} TextAtFirst(parts: seq<Part>, key: string, i: nat)
    requires i < |parts| && parts[i].key == key && parts[i].value.Text?
    requires forall j :: 0 <= j < i ==> parts[j].key != key
    ensures TextAt(parts, key) == parts[i].value.text
  {
    if i > 0 {
      TextAtFirst(parts[1..], key, i - 1);
    }
  }

  /** `FileAt` passes over text entries. */
  lemma {:induction false} FileAtSkipsText(parts: seq<Part>, key: string, k: nat)
    requires k <= |parts|
    requires forall j :: 0 <= j < k ==> parts[j].value.Text?
    ensures FileAt(parts, key) == FileAt(parts[k..], key)
  {
    if k > 0 {
      FileAtSkipsText(parts[1..], key, k - 1);
      assert parts[1..][k - 1..] == parts[k..];
    }
  }

  /** The payload built by successive `append` calls, as `onSubmit` does. */
  method BuildFormData(v: FormValues) returns (fd: FormData)
    ensures fresh(fd)
    ensures fd.entries == Payload(v)
  {
    fd := new FormData();
    fd.Append("name", Text(v.name));
    fd.Append("category", Text(v.category));
    fd.Append("description", Text(v.description));
    fd.Append("address", Text(v.address));
    fd.Append("phone", Text(v.phone));
    fd.Append("email", Text(v.email));
    fd.Append("website", Text(v.website));
    fd.Append("logo", Text(v.logo));
    if v.image.Some? {
      fd.Append("image", Attachment(v.image.value));
    }
  }

  // ---------------------------------------------------------------------------
  // Submission error

  /** `err?.response?.data?.message || "Server error"`. */
  function SubmitErrorText(serverMessage: Option<string>): (r: string)
    ensures r != ""
    ensures serverMessage.Some? && serverMessage.value != "" ==> r == serverMessage.value
    ensures !(serverMessage.Some? && serverMessage.value != "") ==> r == "Server error"
  {
    if serverMessage.Some? && serverMessage.value != "" then serverMessage.value else "Server error"
  }

  // ---------------------------------------------------------------------------
  // The form component

  class PostAdForm {
    var values: FormValues
    var fieldErrors: set<Violation>
    var submitError: Option<string>
    var submitting: bool

    constructor ()
      ensures values == InitialValues && fieldErrors == {} && submitError.None? && !submitting
    {
      values, fieldErrors, submitError, submitting := InitialValues, {}, None, false;
    }

    /** `formik.handleChange` on one of the eight text inputs: only that field changes. */
    method SetText(f: Field, text: string)
      modifies this
      ensures ValueOf(values, f) == text
      ensures forall g :: g != f ==> ValueOf(values, g) == ValueOf(old(values), g)
      ensures values.image == old(values).image
      ensures fieldErrors == old(fieldErrors) && submitError == old(submitError) && submitting == old(submitting)
    {
      match f {
        case Name => values := values.(name := text);
        case Category => values := values.(category := text);
        case Description => values := values.(description := text);
        case Address => values := values.(address := text);
        case Phone => values := values.(phone := text);
        case Email => values := values.(email := text);
        case Website => values := values.(website := text);
        case Logo => values := values.(logo := text);
      }
    }

    /** `handleImageUpload`: the first chosen file becomes the image; with no file chosen
        nothing changes. */
    method SelectFiles(files: seq<File>)
      modifies this
      ensures values == if |files| > 0 then old(values).(image := Some(files[0])) else old(values)
      ensures fieldErrors == old(fieldErrors) && submitError == old(submitError) && submitting == old(submitting)
    {
      if |files| > 0 {
        values := values.(image := Some(files[0]));
      }
    }

    /** `removeImage`: the image is cleared and no other field changes. */
    method RemoveImage()
      modifies this
      ensures values == old(values).(image := None)
      ensures fieldErrors == old(fieldErrors) && submitError == old(submitError) && submitting == old(submitting)
    {
      values := values.(image := None);
    }

    /** Submitting: the form is validated and the validation errors replace the shown ones.
        A form that breaks a rule is not sent. A valid form is sent as `Payload(values)`;
        when the request fails the submit error is the server's message or "Server error".
        Either way `submitting` ends false. */
    method Submit(emailOk: string -> bool, urlOk: string -> bool, reply: Reply<()>)
      returns (request: Option<seq<Part>>)
      modifies this
      ensures fieldErrors == Violations(old(values), emailOk, urlOk)
      ensures request == if fieldErrors == {} then Some(Payload(old(values))) else None
      ensures submitError == if request.Some? && reply.Failure? then Some(SubmitErrorText(reply.serverMessage)) else None
      ensures values == old(values) && !submitting
    {
      fieldErrors := Violations(values, emailOk, urlOk);
      submitError := None;
      if fieldErrors != {} {
        request := None;
        submitting := false;
        return;
      }
      submitting := true;
      var fd := BuildFormData(values);
      request := Some(fd.entries);
      if reply.Failure? {
        submitError := Some(SubmitErrorText(reply.serverMessage));
      }
      submitting := false;
    }
  }
}
