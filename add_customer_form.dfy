/** The add-customer form: its fields, the validation that records an error
    message per offending field, the clearing of a field's error when the
    field is edited, and the customer record a valid form submits. */
module AddCustomerForm {
  import opened Wrappers
  import opened Seqs
  import opened Text
  import opened CollectionsTypes
  import opened CollectionsData

  datatype FormField = NameField | ContactNameField | EmailField | PhoneField
                     | GroupIdField | CustomerIdField | PricingPlanIdField | NotesField

  datatype FormData = FormData(
    name: string,
    contactName: string,
    email: string,
    phone: string,
    groupId: string,
    customerId: string,
    pricingPlanId: string,
    notes: string)

  /** The form as it opens: every field empty. */
  const InitialForm := FormData("", "", "", "", "", "", "", "")

  /** The error messages of the fields that can be in error; a field
      without an error has no entry (`None`). */
  datatype Errors = Errors(
    name: Option<string>,
    email: Option<string>,
    phone: Option<string>,
    groupId: Option<string>,
    customerId: Option<string>)

  /** The empty error record `{}`. */
  const NoErrors := Errors(None, None, None, None, None)

  /** `errors[field]`: the message of a field, none for fields that have no slot. */
  function ErrorOn(e: Errors, field: FormField): Option<string>
  {
    match field
    case NameField => e.name
    case EmailField => e.email
    case PhoneField => e.phone
    case GroupIdField => e.groupId
    case CustomerIdField => e.customerId
    case _ => None
  }

  /** `delete errors[field]`. */
  function WithoutError(e: Errors, field: FormField): Errors
  {
    match field
    case NameField => e.(name := None)
    case EmailField => e.(email := None)
    case PhoneField => e.(phone := None)
    case GroupIdField => e.(groupId := None)
    case CustomerIdField => e.(customerId := None)
    case _ => e
  }

  // ---------------------------------------------------------------------
  // Field patterns
  // ---------------------------------------------------------------------

  /** A non-empty run of the class `[^\s@]`. */
  ghost predicate PlainRun(s: string) {
    |s| > 0 && forall k :: 0 <= k < |s| ==> !IsWhitespace(s[k]) && s[k] != '@'
  }

  /** What `^[^\s@]+@[^\s@]+\.[^\s@]+$` accepts: three plain runs joined by
      '@' and '.'. */
  ghost predicate EmailPattern(s: string) {
    exists a, b, c :: PlainRun(a) && PlainRun(b) && PlainRun(c) && s == a + "@" + b + "." + c
  }

  /** The email test as the form runs it: an '@' that is the only one, a '.'
      at least two places after it and before the last character, and no
      whitespace anywhere. */
  predicate IsEmailLike(s: string) {
    exists i, j :: 0 < i && i + 1 < j && j + 1 < |s| && s[i] == '@' && s[j] == '.'
      && forall k :: 0 <= k < |s| ==> !IsWhitespace(s[k]) && (s[k] == '@' ==> k == i)
  }

  /** The test accepts exactly the strings the regular expression matches. */
  lemma EmailTestMatchesPattern(s: string)
    ensures IsEmailLike(s) <==> EmailPattern(s)
  {
    if IsEmailLike(s) {
      EmailLikeIsPattern(s);
    }
    if EmailPattern(s) {
      var a, b, c :| PlainRun(a) && PlainRun(b) && PlainRun(c) && s == a + "@" + b + "." + c;
      PatternIsEmailLike(a, b, c);
    }
  }

  lemma EmailLikeIsPattern(s: string)
    requires IsEmailLike(s)
    ensures EmailPattern(s)
  {
    var i, j :| 0 < i && i + 1 < j && j + 1 < |s| && s[i] == '@' && s[j] == '.'
      && forall k :: 0 <= k < |s| ==> !IsWhitespace(s[k]) && (s[k] == '@' ==> k == i);
    var a, b, c := s[..i], s[i + 1..j], s[j + 1..];
    assert s == a + "@" + b + "." + c;
    assert PlainRun(a) by {
      forall k | 0 <= k < |a| ensures !IsWhitespace(a[k]) && a[k] != '@' { assert a[k] == s[k]; }
    }
    assert PlainRun(b) by {
      forall k | 0 <= k < |b| ensures !IsWhitespace(b[k]) && b[k] != '@' { assert b[k] == s[i + 1 + k]; }
    }
    assert PlainRun(c) by {
      forall k | 0 <= k < |c| ensures !IsWhitespace(c[k]) && c[k] != '@' { assert c[k] == s[j + 1 + k]; }
    }
  }

  lemma PatternIsEmailLike(a: string, b: string, c: string)
    requires PlainRun(a) && PlainRun(b) && PlainRun(c)
    ensures IsEmailLike(a + "@" + b + "." + c)
  {
    var s := a + "@" + b + "." + c;
    var i, j := |a|, |a| + 1 + |b|;
    assert s[i] == '@' && s[j] == '.';
    forall k | 0 <= k < |s| ensures !IsWhitespace(s[k]) && (s[k] == '@' ==> k == i) {
      if k < i { assert s[k] == a[k]; }
      else if i < k < j { assert s[k] == b[k - i - 1]; }
      else if j < k { assert s[k] == c[k - j - 1]; }
    }
  }

  /** `^\d{10}$`: exactly ten ASCII digits. */
  predicate IsPhoneNumber(s: string) {
    |s| == 10 && forall k :: 0 <= k < |s| ==> IsDigit(s[k])
  }

  // ---------------------------------------------------------------------
  // Validation
  // ---------------------------------------------------------------------

  const NameRequired := "Name is required"
  const InvalidEmail := "Enter a valid email address"
  const InvalidPhone := "Enter a valid 10-digit phone number"

  /** The message for a missing customer id names the id as the template calls it. */
  function IdRequired(customerIdLabel: string): string {
    customerIdLabel + " is required"
  }

  /** The errors a form has: a message for each field whose check fails. */
  function FormErrors(form: FormData, customerIdLabel: string): Errors
  {
    Errors(
      name := if IsBlank(form.name) then Some(NameRequired) else None,
      email := if form.email != "" && !IsEmailLike(form.email) then Some(InvalidEmail) else None,
      phone := if form.phone != "" && !IsPhoneNumber(form.phone) then Some(InvalidPhone) else None,
      groupId := None,
      customerId := if IsBlank(form.customerId) then Some(IdRequired(customerIdLabel)) else None)
  }

  /** What the checks reject: a blank name or customer id, a non-empty email
      the regular expression rejects, a non-empty phone that is not ten
      digits; the group and the other fields are never in error. */
  lemma FormErrorsMeaning(form: FormData, customerIdLabel: string)
    ensures FormErrors(form, customerIdLabel).name.Some? <==> IsBlank(form.name)
    ensures FormErrors(form, customerIdLabel).customerId.Some? <==> IsBlank(form.customerId)
    ensures FormErrors(form, customerIdLabel).email.Some? <==> form.email != "" && !EmailPattern(form.email)
    ensures FormErrors(form, customerIdLabel).phone.Some? <==> form.phone != "" && !IsPhoneNumber(form.phone)
    ensures FormErrors(form, customerIdLabel).groupId.None?
    ensures var r := FormErrors(form, customerIdLabel);
      && (r.name.Some? ==> r.name.value == NameRequired)
      && (r.customerId.Some? ==> r.customerId.value == customerIdLabel + " is required")
      && (r.email.Some? ==> r.email.value == InvalidEmail)
      && (r.phone.Some? ==> r.phone.value == InvalidPhone)
  {
    EmailTestMatchesPattern(form.email);
  }

  /** `validateForm`'s checks: the error record filled in field by field. */
  method CollectErrors(form: FormData, customerIdLabel: string) returns (newErrors: Errors)
    ensures newErrors == FormErrors(form, customerIdLabel)
  {
    newErrors := NoErrors;
    if IsBlank(form.name) {
      newErrors := newErrors.(name := Some(NameRequired));
    }
    if IsBlank(form.customerId) {
      newErrors := newErrors.(customerId := Some(IdRequired(customerIdLabel)));
    }
    if form.email != "" && !IsEmailLike(form.email) {
      newErrors := newErrors.(email := Some(InvalidEmail));
    }
    if form.phone != "" && !IsPhoneNumber(form.phone) {
      newErrors := newErrors.(phone := Some(InvalidPhone));
    }
  }

  /** `if (errors[field])`: the field shows a (non-empty) message. */
  predicate ShowsError(e: Errors, field: FormField) {
    ErrorOn(e, field).Some? && ErrorOn(e, field).value != ""
  }

  /** A field edit drops that field's error when it shows one, and leaves
      every other error as it was. */
  function ClearError(errors: Errors, field: FormField): (r: Errors)
    ensures forall f :: f != field ==> ErrorOn(r, f) == ErrorOn(errors, f)
    ensures ShowsError(errors, field) ==> ErrorOn(r, field).None?
    ensures !ShowsError(errors, field) ==> r == errors
  {
    if ShowsError(errors, field) then WithoutError(errors, field) else errors
  }

  /** `{ ...prev, [field]: value }`. */
  function WithField(form: FormData, field: FormField, value: string): FormData
  {
    match field
    case NameField => form.(name := value)
    case ContactNameField => form.(contactName := value)
    case EmailField => form.(email := value)
    case PhoneField => form.(phone := value)
    case GroupIdField => form.(groupId := value)
    case CustomerIdField => form.(customerId := value)
    case PricingPlanIdField => form.(pricingPlanId := value)
    case NotesField => form.(notes := value)
  }

  /** Editing a field changes no other field's validity. */
  lemma EditKeepsOtherErrors(form: FormData, idLabel: string, field: FormField, value: string, other: FormField)
    requires other != field
    ensures ErrorOn(FormErrors(WithField(form, field, value), idLabel), other).Some? <==> ErrorOn(FormErrors(form, idLabel), other).Some?
  {
    var edited := WithField(form, field, value);
    match other
    case NameField => assert edited.name == form.name;
    case CustomerIdField => assert edited.customerId == form.customerId;
    case EmailField => assert edited.email == form.email;
    case PhoneField => assert edited.phone == form.phone;
    case _ =>
  }

  // ---------------------------------------------------------------------
  // The submitted customer
  // ---------------------------------------------------------------------

  /** The payload of ADD_CUSTOMER; the record id and the enrollment date
      come from the id generator and the clock. */
  function NewCustomer(form: FormData, id: string, enrollmentDate: string): (c: Customer)
    ensures c.name == Trim(form.name) && c.contactName == Trim(form.contactName)
    ensures c.email == Trim(form.email) && c.phone == Trim(form.phone)
    ensures c.customerId == Trim(form.customerId) && c.notes == Trim(form.notes)
    ensures c.groupId == form.groupId
    ensures c.pricingPlanId == if form.pricingPlanId == "" then None else Some(form.pricingPlanId)
    ensures c.status == Active && c.billingType == Standard && c.preferredChannel == WhatsApp
    ensures c.totalDue == 0 && c.totalPaid == 0 && c.totalOverdue == 0
    ensures c.customFields == map[] && c.familyLinkId == None
  {
    Customer(
      id := id,
      name := Trim(form.name),
      contactName := Trim(form.contactName),
      email := Trim(form.email),
      phone := Trim(form.phone),
      groupId := form.groupId,
      customerId := Trim(form.customerId),
      status := Active,
      enrollmentDate := enrollmentDate,
      billingType := Standard,
      pricingPlanId := if form.pricingPlanId == "" then None else Some(form.pricingPlanId),
      customFields := map[],
      familyLinkId := None,
      preferredChannel := WhatsApp,
      notes := Trim(form.notes),
      totalDue := 0,
      totalPaid := 0,
      totalOverdue := 0)
  }

  /** A form without errors yields a customer with a non-empty name and
      customer id, and an email and phone that are empty or exactly what was
      typed, in the accepted shapes. */
  lemma ValidFormGivesValidCustomer(form: FormData, idLabel: string, id: string, enrollmentDate: string)
    requires FormErrors(form, idLabel) == NoErrors
    ensures var c := NewCustomer(form, id, enrollmentDate);
      && c.name != "" && c.customerId != ""
      && (c.email == "" || (c.email == form.email && EmailPattern(c.email)))
      && (c.phone == "" || (c.phone == form.phone && IsPhoneNumber(c.phone)))
  {
    var e := FormErrors(form, idLabel);
    assert e.name.None? && e.customerId.None? && e.email.None? && e.phone.None?;
    EmailKept(form.email);
    PhoneKept(form.phone);
  }

  /** An email the form accepts is kept as typed by `trim`. */
  lemma EmailKept(email: string)
    requires email == "" || IsEmailLike(email)
    ensures Trim(email) == email
    ensures email == "" || EmailPattern(email)
  {
    if email == "" {
      TrimEmpty();
    } else {
      EmailLikeIsPattern(email);
      var i, j :| 0 < i && i + 1 < j && j + 1 < |email| && email[i] == '@' && email[j] == '.'
        && forall k :: 0 <= k < |email| ==> !IsWhitespace(email[k]) && (email[k] == '@' ==> k == i);
      TrimWithoutWhitespace(email);
    }
  }

  /** A phone number the form accepts is kept as typed by `trim`. */
  lemma PhoneKept(phone: string)
    requires phone == "" || IsPhoneNumber(phone)
    ensures Trim(phone) == phone
  {
    if phone == "" {
      TrimEmpty();
    } else {
      forall k | 0 <= k < |phone| ensures !IsWhitespace(phone[k]) {
        assert IsDigit(phone[k]);
      }
      TrimWithoutWhitespace(phone);
    }
  }

  /** A new customer owes nothing and is active: dispatching it leaves every
      amount of the statistics as it was and counts one more customer as
      paid on time (nothing due counts as paid in full). */
  lemma NewCustomerStats(s: State, form: FormData, id: string, enrollmentDate: string)
    ensures var before, after := ComputeCollectionStats(s.customers),
        ComputeCollectionStats(Reduce(s, AddCustomer(NewCustomer(form, id, enrollmentDate))).customers);
      && after.totalExpected == before.totalExpected
      && after.totalCollected == before.totalCollected
      && after.totalOverdue == before.totalOverdue
      && after.onTimeCount == before.onTimeCount + 1
      && after.overdueCount == before.overdueCount
      && after.pendingCount == before.pendingCount
  {
    var c := NewCustomer(form, id, enrollmentDate);
    NewCustomerCounts(c);
    AddCustomerStats(s, c);
  }

  /** An active customer who owes nothing counts in the statistics as paid
      in full, and neither overdue nor awaiting a first payment. */
  lemma NewCustomerCounts(c: Customer)
    requires c.status == Active && c.totalDue == 0 && c.totalPaid == 0 && c.totalOverdue == 0
    ensures CountsInStats(c) && OnTimeInStats(c) && !OverdueInStats(c) && !PendingInStats(c)
  {
  }

  // ---------------------------------------------------------------------
  // The form's state
  // ---------------------------------------------------------------------

  /** The modal: the form being filled in and the errors on show. */
  class CustomerForm {
    var form: FormData
    var errors: Errors

    constructor()
      ensures form == InitialForm && errors == NoErrors
    {
      form := InitialForm;
      errors := NoErrors;
    }

    /** `updateField`: store the value, and drop the field's error if it shows one. */
    method UpdateField(field: FormField, value: string)
      modifies this
      ensures form == WithField(old(form), field, value)
      ensures errors == ClearError(old(errors), field)
    {
      form := WithField(form, field, value);
      if ShowsError(errors, field) {
        errors := WithoutError(errors, field);
      }
    }

    /** `validateForm`: show the form's errors; valid when there are none. */
    method Validate(customerIdLabel: string) returns (ok: bool)
      modifies this
      ensures form == old(form) && errors == FormErrors(form, customerIdLabel)
      ensures ok <==> errors == NoErrors
    {
      errors := CollectErrors(form, customerIdLabel);
      ok := errors == NoErrors;
    }

    /** `handleSubmit`: the validation step (as in `Validate`) shows the
      form's errors, and nothing is dispatched unless there are none; a
      valid form dispatches its customer and the form is reset. */
    method Submit(customerIdLabel: string, id: string, enrollmentDate: string) returns (dispatched: Option<Customer>)
      modifies this
      ensures dispatched.Some? <==> FormErrors(old(form), customerIdLabel) == NoErrors
      ensures dispatched.Some? ==>
        dispatched.value == NewCustomer(old(form), id, enrollmentDate) && form == InitialForm && errors == NoErrors
      ensures dispatched.None? ==> form == old(form) && errors == FormErrors(old(form), customerIdLabel)
    {
      var submitted := form;
      var found := CollectErrors(submitted, customerIdLabel);
      if found == NoErrors {
        var c := NewCustomer(submitted, id, enrollmentDate);
        dispatched := Some(c);
        form := InitialForm;
        errors := NoErrors;
      } else {
        errors := found;
        dispatched := None;
      }
    }
  }
}
