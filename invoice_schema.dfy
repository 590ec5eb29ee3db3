/** Validation of the invoice form: `FormData.get` and the zod schemas `CreateInvoice`
    and `UpdateInvoice`, which are both `FormSchema` without its `id` and `date` keys. */
module InvoiceSchema {
  import opened Wrappers

  /** One entry of a submitted form: a text value or an uploaded file. */
  datatype FormEntry = TextEntry(text: string) | FileEntry(fileName: string)

  /** A submitted form: its entries in submission order (a name may repeat). */
  type FormData = seq<(string, FormEntry)>

  /** What `formData.get(name)` returns: `null`, a string or a `File`. */
  datatype FormValue = Missing | Str(s: string) | File(fileName: string)

  function ValueOf(e: FormEntry): FormValue {
    match e
    case TextEntry(t) => Str(t)
    case FileEntry(n) => File(n)
  }

  /** `formData.get(name)`: the value of the first entry with that name, or `null`. */
  function Get(form: FormData, name: string): (v: FormValue)
    ensures v.Missing? <==> forall i :: 0 <= i < |form| ==> form[i].0 != name
    ensures !v.Missing? ==> exists i :: 0 <= i < |form| && form[i].0 == name && v == ValueOf(form[i].1)
                                        && forall j :: 0 <= j < i ==> form[j].0 != name
  {
    if |form| == 0 then Missing
    else if form[0].0 == name then ValueOf(form[0].1)
    else
      var v := Get(form[1..], name);
      assert !v.Missing? ==> exists i :: 0 < i < |form| && form[i].0 == name && v == ValueOf(form[i].1)
                                         && forall j :: 0 <= j < i ==> form[j].0 != name by {
        if !v.Missing? {
          var k :| 0 <= k < |form| - 1 && form[1..][k].0 == name && v == ValueOf(form[1..][k].1)
                   && forall j :: 0 <= j < k ==> form[1..][j].0 != name;
          assert forall j :: 0 < j < k + 1 ==> form[j].0 == form[1..][j - 1].0;
        }
      }
      v
  }

  /** `z.enum(['pending', 'paid'])`. */
  datatype Status = Pending | Paid

  /** The fields the parse returns (no `id`, no `date`: both schemas omit them). */
  datatype InvoiceFields = InvoiceFields(customerId: string, amount: real, status: Status)

  /** Names of the form fields the schemas read, in schema order. */
  const CustomerIdField: string := "customerId"
  const AmountField: string := "amount"
  const StatusField: string := "status"

  /** `z.coerce.number()`: JavaScript's `Number(...)` on the raw value, then a check that
      the result is not `NaN`. Supplied by the caller; `None` stands for `NaN`. */
  type Coercion = FormValue -> Option<real>

  /** The points of `Number(...)` the model relies on: `Number(null)` and `Number("")`
      are 0, and a `File` becomes `NaN`. */
  ghost predicate NumberCoercion(coerce: Coercion) {
    coerce(Missing) == Some(0.0) && coerce(Str("")) == Some(0.0)
    && forall n :: coerce(File(n)) == None
  }

  /** `z.string()`: accepts a string, rejects `null` and a `File`. */
  function ParseString(v: FormValue): (r: Option<string>)
    ensures r.Some? <==> v.Str?
    ensures r.Some? ==> v == Str(r.value)
  {
    if v.Str? then Some(v.s) else None
  }

  /** `z.enum(['pending', 'paid'])`: accepts exactly those two strings. */
  function ParseStatus(v: FormValue): (r: Option<Status>)
    ensures r == Some(Pending) <==> v == Str("pending")
    ensures r == Some(Paid) <==> v == Str("paid")
    ensures r.None? <==> v != Str("pending") && v != Str("paid")
  {
    match v
    case Str(s) => if s == "pending" then Some(Pending) else if s == "paid" then Some(Paid) else None
    case _ => None
  }

  /** `CreateInvoice.parse({customerId, amount, status})` (and `UpdateInvoice.parse`, the
      same schema): every field is checked, and a failure lists every failing field in
      schema order, as the thrown error's issues do. */
  function Parse(customerId: FormValue, amount: FormValue, status: FormValue, coerce: Coercion)
    : (r: Result<InvoiceFields, seq<string>>)
    ensures r.Success? <==> customerId.Str? && coerce(amount).Some?
                            && (status == Str("pending") || status == Str("paid"))
    ensures r.Success? ==> r.value.customerId == customerId.s
                           && r.value.amount == coerce(amount).value
                           && (r.value.status == Pending <==> status == Str("pending"))
    ensures r.Failure? ==> r.error != []
                           && (CustomerIdField in r.error <==> !customerId.Str?)
                           && (AmountField in r.error <==> coerce(amount).None?)
                           && (StatusField in r.error <==> status != Str("pending") && status != Str("paid"))
  {
    var c, a, s := ParseString(customerId), coerce(amount), ParseStatus(status);
    if c.Some? && a.Some? && s.Some? then
      Success(InvoiceFields(c.value, a.value, s.value))
    else
      Failure((if c.None? then [CustomerIdField] else [])
              + (if a.None? then [AmountField] else [])
              + (if s.None? then [StatusField] else []))
  }

  /** The parse as both actions call it, on the three values read from the form. */
  function ParseForm(form: FormData, coerce: Coercion): Result<InvoiceFields, seq<string>> {
    Parse(Get(form, CustomerIdField), Get(form, AmountField), Get(form, StatusField), coerce)
  }

  /** Only the three schema fields are read: forms that agree on them parse alike, so an
      `id` or `date` entry in the form can never reach the result. */
  lemma ParseReadsOnlySchemaFields(f1: FormData, f2: FormData, coerce: Coercion)
    requires forall name :: name in {CustomerIdField, AmountField, StatusField} ==> Get(f1, name) == Get(f2, name)
    ensures ParseForm(f1, coerce) == ParseForm(f2, coerce)
  {
  }

  /** A missing `customerId` or `status` fails; an empty `customerId` passes. */
  lemma MissingFieldsFail(amount: FormValue, status: FormValue, coerce: Coercion)
    ensures Parse(Missing, amount, status, coerce).Failure?
    ensures Parse(Str(""), amount, Missing, coerce).Failure?
    ensures coerce(amount).Some? ==> Parse(Str(""), amount, Str("paid"), coerce).Success?
  {
  }

  /** The schema puts no bound on the amount: any number, zero and negatives included,
      passes. With JavaScript's `Number`, a missing amount passes as 0. */
  lemma AmountUnbounded(customerId: string, amount: FormValue, coerce: Coercion)
    requires coerce(amount).Some?
    ensures Parse(Str(customerId), amount, Str("pending"), coerce)
            == Success(InvoiceFields(customerId, coerce(amount).value, Pending))
    ensures NumberCoercion(coerce) ==>
            Parse(Str(customerId), Missing, Str("paid"), coerce) == Success(InvoiceFields(customerId, 0.0, Paid))
  {
  }
}
