/**
 * The add-cow form's validation schema, field by field.  Each field check
 * gives the error it reports, or `None` when the field is valid.  Parsing a
 * number is a parameter: `number(s)` is the value `Number(s)` gives, `None`
 * standing for NaN.
 */
module CowValidation {
  import opened Wrappers
  import opened CowTypes
  import opened JsString

  datatype FieldError =
    | EarTagRequired
    | EarTagExists
    | SexRequired
    | PenRequired
    | StatusRequired
    | StatusNotAllowed
    | WeightInvalid

  /** Some existing cow has exactly this ear tag (the comparison is case-sensitive). */
  predicate TagTaken(existing: seq<Cow>, tag: string) {
    exists i :: 0 <= i < |existing| && existing[i].earTag == tag
  }

  /** `earTag`: trimmed, required, and not already used by an existing cow. */
  function EarTagError(value: string, existing: seq<Cow>): (e: Option<FieldError>)
    ensures e == Some(EarTagRequired) <==> Blank(value)
    ensures e == Some(EarTagExists) <==> !Blank(value) && TagTaken(existing, Trim(value))
    ensures e.None? <==> !Blank(value) && !TagTaken(existing, Trim(value))
  {
    TrimEmptyIffBlank(value);
    var tag := Trim(value);
    if tag == "" then Some(EarTagRequired)
    else if TagTaken(existing, tag) then Some(EarTagExists)
    else None
  }

  /** `sex`: required, and one of `'Male'`, `'Female'` (both failures report the same error). */
  function SexError(value: string): (e: Option<FieldError>)
    ensures e.None? <==> value == "Male" || value == "Female"
    ensures e.Some? ==> e.value == SexRequired
  {
    if value == "" then Some(SexRequired)
    else if ParseSex(value).None? then Some(SexRequired)
    else None
  }

  /** `pen`: required after trimming. */
  function PenError(value: string): (e: Option<FieldError>)
    ensures e.None? <==> !Blank(value)
    ensures e.Some? ==> e.value == PenRequired
  {
    TrimEmptyIffBlank(value);
    if Trim(value) == "" then Some(PenRequired) else None
  }

  /** `status`: required, and one of `'Active'`, `'In Treatment'`, `'Deceased'`. */
  function StatusError(value: string): (e: Option<FieldError>)
    ensures e.None? <==> value == "Active" || value == "In Treatment" || value == "Deceased"
    ensures e == Some(StatusRequired) <==> value == ""
  {
    if value == "" then Some(StatusRequired)
    else if ParseStatus(value).None? then Some(StatusNotAllowed)
    else None
  }

  /** `weight`: empty is fine; otherwise it must parse to a number above zero. */
  function WeightError(value: string, number: string -> Option<real>): (e: Option<FieldError>)
    ensures e.None? <==> value == "" || (number(value).Some? && number(value).value > 0.0)
    ensures e.Some? ==> e.value == WeightInvalid
  {
    if value == "" then None
    else
      match number(value)
      case None => Some(WeightInvalid)
      case Some(n) => if n > 0.0 then None else Some(WeightInvalid)
  }

  /** The errors of the whole form, one slot per field. */
  datatype FormErrors = FormErrors(
    earTag: Option<FieldError>,
    sex: Option<FieldError>,
    pen: Option<FieldError>,
    status: Option<FieldError>,
    weight: Option<FieldError>)
  {
    predicate Valid() {
      earTag.None? && sex.None? && pen.None? && status.None? && weight.None?
    }
  }

  /** `createCowValidationSchema(existingCows)` applied to the form's values. */
  function ValidateForm(values: CowFormValues, existing: seq<Cow>, number: string -> Option<real>): (e: FormErrors)
    ensures e.status.None?
    ensures e.sex.None? <==> values.sex.ChosenSex?
    ensures e.pen.None? <==> !Blank(values.pen)
    ensures e.earTag.None? <==> !Blank(values.earTag) && !TagTaken(existing, Trim(values.earTag))
    ensures e.weight.None? <==>
      values.weight == "" || (number(values.weight).Some? && number(values.weight).value > 0.0)
  {
    FormSexTextParses(values.sex);
    StatusLabelPasses(values.status);
    FormErrors(
      EarTagError(values.earTag, existing),
      SexError(FormSexText(values.sex)),
      PenError(values.pen),
      StatusError(StatusLabel(values.status)),
      WeightError(values.weight, number))
  }

  /**
   * The form passes exactly when the tag is non-blank and new, a sex has been
   * chosen, the pen is non-blank and the weight is empty or positive; the
   * status selector can never fail.
   */
  lemma ValidFormIff(values: CowFormValues, existing: seq<Cow>, number: string -> Option<real>)
    ensures ValidateForm(values, existing, number).status.None?
    ensures ValidateForm(values, existing, number).Valid() <==>
      && !Blank(values.earTag)
      && !TagTaken(existing, Trim(values.earTag))
      && values.sex.ChosenSex?
      && !Blank(values.pen)
      && (values.weight == "" || (number(values.weight).Some? && number(values.weight).value > 0.0))
  {
    FormSexTextParses(values.sex);
    StatusLabelPasses(values.status);
  }

  /** Every status's spelling passes the status check. */
  lemma StatusLabelPasses(s: CowStatus)
    ensures StatusError(StatusLabel(s)).None?
  {
    LabelsRoundTrip(Male, s, Created);
  }

  /** Tags are compared exactly: the same letters in another case are a new tag. */
  lemma OtherCaseIsNewTag(cow: Cow)
    requires cow.earTag == "COW-001"
    ensures EarTagError("cow-001", [cow]).None?
  {
    LowerTagFacts(cow, "cow-001");
  }

  lemma LowerTagFacts(cow: Cow, value: string)
    requires cow.earTag == "COW-001" && value == "cow-001"
    ensures !Blank(value) && Trim(value) == value && !TagTaken([cow], value)
  {
    NonBlank(value);
    TrimUnchanged(value);
    TagDiffers(cow, value);
  }

  lemma NonBlank(value: string)
    requires value == "cow-001"
    ensures !Blank(value)
  {
    assert !IsSpace(value[0]);
  }

  lemma TagDiffers(cow: Cow, value: string)
    requires cow.earTag == "COW-001" && value == "cow-001"
    ensures !TagTaken([cow], value)
  {
    assert [cow][0].earTag[0] != value[0];
  }

  /** Surrounding white space does not make a tag new. */
  lemma PaddedTagExists(cow: Cow)
    requires cow.earTag == "COW-001"
    ensures EarTagError(" COW-001 ", [cow]) == Some(EarTagExists)
  {
    PaddedTagFacts(cow, " COW-001 ");
  }

  lemma PaddedTagFacts(cow: Cow, value: string)
    requires cow.earTag == "COW-001" && value == " COW-001 "
    ensures !Blank(value) && TagTaken([cow], Trim(value))
  {
    assert value == [' '] + cow.earTag + [' '];
    TrimPadding(' ', cow.earTag, ' ');
    assert !IsSpace(value[1]);
    assert [cow][0].earTag == Trim(value);
  }

  /** A tag of spaces only is missing. */
  lemma SpacesOnlyTagRequired(existing: seq<Cow>)
    ensures EarTagError("   ", existing) == Some(EarTagRequired)
  {
    var spaces := "   ";
    assert IsSpace(spaces[0]) && IsSpace(spaces[1]) && IsSpace(spaces[2]);
  }
}
