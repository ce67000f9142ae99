/**
 * The add-cow screen's logic: the initial form, the record built from a
 * valid form, the submit sequencing and the selection handlers.  The clock
 * is a parameter (`now`, an ISO date, and the two `Date.now()` ids), and so
 * is number parsing.
 */
module AddCow {
  import opened Wrappers
  import opened CowTypes
  import opened JsString
  import opened CowValidation
  import opened Storage
  import opened CowContext

  /** The form's starting values: empty tag, sex, pen and weight; status `'Active'`. */
  const InitialValues: CowFormValues := CowFormValues("", NoSex, "", Active, "")

  /** The untouched form fails exactly on the tag, the sex and the pen. */
  lemma InitialValuesNeedInput(existing: seq<Cow>, number: string -> Option<real>)
    ensures var e := ValidateForm(InitialValues, existing, number);
      && e.earTag == Some(EarTagRequired)
      && e.sex == Some(SexRequired)
      && e.pen == Some(PenRequired)
      && e.status.None? && e.weight.None?
  {
  }

  /** The weight stored for the form's weight text: absent when the field is empty. */
  function ParsedWeight(text: string, number: string -> Option<real>): (w: Option<real>)
    ensures text == "" ==> w.None?
    ensures text != "" ==> w == number(text)
  {
    if text == "" then None else number(text)
  }

  /** The record `handleSubmit` builds: trimmed tag and pen, one `Created` event dated `now`. */
  function NewCow(values: CowFormValues, now: string, cowId: string, eventId: string,
                  number: string -> Option<real>): (c: Cow)
    requires values.sex.ChosenSex?
    ensures c.id == cowId && c.earTag == Trim(values.earTag) && c.pen == Trim(values.pen)
    ensures c.sex == values.sex.sex && c.status == values.status
    ensures c.weight == ParsedWeight(values.weight, number) && c.dailyWeightGain.None?
    ensures c.createdAt == now && c.lastEventDate == now
    ensures |c.events| == 1
    ensures c.events[0] == CowEvent(eventId, Created, now, "Cow " + Trim(values.earTag) + " created", None)
  {
    var tag := Trim(values.earTag);
    var initialEvent := CowEvent(eventId, Created, now, "Cow " + tag + " created", None);
    Cow(cowId, tag, values.sex.sex, Trim(values.pen), values.status,
        ParsedWeight(values.weight, number), None, now, now, [initialEvent])
  }

  /**
   * A cow built from a form that passed validation has a well-formed history,
   * a non-empty tag that no existing cow has, a non-blank pen and a positive
   * weight when it has one; appending it keeps ear tags unique.
   */
  lemma ValidFormMakesGoodCow(values: CowFormValues, existing: seq<Cow>, now: string, cowId: string,
                              eventId: string, number: string -> Option<real>)
    requires ValidateForm(values, existing, number).Valid()
    ensures values.sex.ChosenSex?
    ensures var c := NewCow(values, now, cowId, eventId, number);
      && WellFormedHistory(c)
      && c.earTag != ""
      && (forall i :: 0 <= i < |existing| ==> existing[i].earTag != c.earTag)
      && c.pen != ""
      && (c.weight.Some? ==> c.weight.value > 0.0)
      && (UniqueTags(existing) ==> UniqueTags(existing + [c]))
  {
    ValidFormIff(values, existing, number);
    var c := NewCow(values, now, cowId, eventId, number);
    TrimEmptyIffBlank(values.earTag);
    TrimEmptyIffBlank(values.pen);
    if UniqueTags(existing) {
      var all := existing + [c];
      forall i, j | 0 <= i < j < |all| ensures all[i].earTag != all[j].earTag {
        if j == |existing| {
          assert all[i] == existing[i];
        }
      }
    }
  }

  /** The five selection buttons of the form. */
  datatype FieldHandler = SelectMale | SelectFemale | SelectActive | SelectInTreatment | SelectDeceased

  /** `createFieldHandlers`: each handler sets `sex` or `status` to its value and nothing else. */
  function ApplyHandler(h: FieldHandler, values: CowFormValues): (r: CowFormValues)
    ensures r.(sex := values.sex, status := values.status) == values
    ensures h == SelectMale || h == SelectFemale ==>
      r.status == values.status && FormSexText(r.sex) == if h == SelectMale then "Male" else "Female"
    ensures h == SelectActive || h == SelectInTreatment || h == SelectDeceased ==>
      r.sex == values.sex &&
      StatusLabel(r.status) == match h
        case SelectActive => "Active"
        case SelectInTreatment => "In Treatment"
        case _ => "Deceased"
  {
    match h
    case SelectMale => values.(sex := ChosenSex(Male))
    case SelectFemale => values.(sex := ChosenSex(Female))
    case SelectActive => values.(status := Active)
    case SelectInTreatment => values.(status := InTreatment)
    case SelectDeceased => values.(status := Deceased)
  }

  /** After a sex handler the form's sex check passes; the status check always passes. */
  lemma HandlersSatisfyChecks(h: FieldHandler, values: CowFormValues)
    ensures (h == SelectMale || h == SelectFemale) ==> SexError(FormSexText(ApplyHandler(h, values).sex)).None?
    ensures StatusError(StatusLabel(ApplyHandler(h, values).status)).None?
    ensures ApplyHandler(h, values).earTag == values.earTag && ApplyHandler(h, values).pen == values.pen
    ensures ApplyHandler(h, values).weight == values.weight
  {
  }

  /** The screen's submit state: Formik's `isSubmitting` and the navigation's back calls. */
  class AddCowForm {
    var submitting: bool
    var backCalls: nat
    const store: CowStore

    constructor (store: CowStore)
      ensures this.store == store && !submitting && backCalls == 0
    {
      this.store := store;
      submitting := false;
      backCalls := 0;
    }

    /**
     * `handleSubmit`, called by the form once validation passed: builds the
     * cow and adds it.  Submitting ends on both outcomes; the screen goes
     * back only when the add succeeded.
     */
    method HandleSubmit(values: CowFormValues, now: string, cowId: string, eventId: string,
                        number: string -> Option<real>, readOk: bool, writeOk: bool)
      requires values.sex.ChosenSex?
      modifies this, store, store.storage
      ensures !submitting
      ensures backCalls == old(backCalls) + (if writeOk then 1 else 0)
      ensures store.cows == if writeOk then old(store.cows) + [NewCow(values, now, cowId, eventId, number)] else old(store.cows)
      ensures store.storage.stored ==
        if writeOk then Some(ReadResult(old(store.storage.stored), readOk) + [NewCow(values, now, cowId, eventId, number)])
        else old(store.storage.stored)
      ensures store.filters == old(store.filters) && store.loading == old(store.loading)
    {
      var newCow := NewCow(values, now, cowId, eventId, number);
      var ok := store.AddCow(newCow, readOk, writeOk);
      if ok {
        submitting := false;
        backCalls := backCalls + 1;
      } else {
        submitting := false;
      }
    }

    /** `handleCancel`: goes back without saving. */
    method HandleCancel()
      modifies this
      ensures backCalls == old(backCalls) + 1 && submitting == old(submitting)
    {
      backCalls := backCalls + 1;
    }
  }
}
