/**
 * `useForm`: a form's field values, its per-field error messages, the set of
 * touched fields and the submitting flag, with the handlers that update them.
 * Each handler is a transition of a `FormState` snapshot; `FormHook` holds the
 * snapshot's fields and applies the transitions in place. The optional
 * `validate` callback is a pure function from values to error messages; the
 * `onSubmit` callback is recorded as the list of values it was called with.
 */
module Form {
  import opened Common

  /** A field's value: the text of an input, or the state of a checkbox. */
  datatype Value = Text(text: string) | Flag(on: bool)

  type Values = map<string, Value>

  /** Error messages by field; a field whose error was cleared maps to `None` (`null`). */
  type Errors = map<string, Option<string>>

  type Validator = Values -> Errors

  /** The parts of a change event the handler reads from `e.target`. */
  datatype ChangeEvent = ChangeEvent(name: string, value: string, isCheckbox: bool, checked: bool)

  datatype FormState = FormState(values: Values, errors: Errors, touched: set<string>, isSubmitting: bool)

  /** `errors[name]`, with a missing key read as `undefined`. */
  function ErrorOf(errors: Errors, name: string): (r: Option<string>)
    ensures name in errors ==> r == errors[name]
    ensures name !in errors ==> r == None
  {
    if name in errors then errors[name] else None
  }

  function Initial(initialValues: Values): (s: FormState)
    ensures s.values == initialValues && s.errors == map[] && s.touched == {} && !s.isSubmitting
  {
    FormState(initialValues, map[], {}, false)
  }

  /** `resetForm` */
  function Reset(s: FormState, initialValues: Values): (r: FormState)
    ensures r == Initial(initialValues)
  {
    FormState(initialValues, map[], {}, false)
  }

  /** The value a change event stores: `checked` for a checkbox, `value` otherwise. */
  function EventValue(e: ChangeEvent): (v: Value)
    ensures e.isCheckbox ==> v == Flag(e.checked)
    ensures !e.isCheckbox ==> v == Text(e.value)
  {
    if e.isCheckbox then Flag(e.checked) else Text(e.value)
  }

  /** A field that shows a message gets `null` in its place; any other field is left alone. */
  function ClearError(errors: Errors, name: string): (r: Errors)
    ensures Present(ErrorOf(errors, name)) ==> r == errors[name := None]
    ensures !Present(ErrorOf(errors, name)) ==> r == errors
    ensures !Present(ErrorOf(r, name))
  {
    if Present(ErrorOf(errors, name)) then errors[name := None] else errors
  }

  /** `setFieldValue(name, value)`: store the value and clear a shown error of that field. */
  function SetField(s: FormState, name: string, v: Value): (r: FormState)
    ensures r.values == s.values[name := v]
    ensures r.errors == ClearError(s.errors, name)
    ensures r.touched == s.touched && r.isSubmitting == s.isSubmitting
  {
    s.(values := s.values[name := v], errors := ClearError(s.errors, name))
  }

  /** `handleChange(e)` */
  function Change(s: FormState, e: ChangeEvent): FormState
  {
    SetField(s, e.name, EventValue(e))
  }

  /**
   * `handleBlur(e)`: mark the field touched; with a validator, take the field's
   * message from validating the current values when that message is truthy.
   */
  function Blur(s: FormState, name: string, validate: Option<Validator>): (r: FormState)
    ensures r.values == s.values && r.isSubmitting == s.isSubmitting
    ensures r.touched == s.touched + {name}
    ensures validate.Some? && Present(ErrorOf(validate.value(s.values), name)) ==>
              r.errors == s.errors[name := validate.value(s.values)[name]]
    ensures !(validate.Some? && Present(ErrorOf(validate.value(s.values), name))) ==> r.errors == s.errors
  {
    var touched := s.touched + {name};
    if validate.Some? && Present(ErrorOf(validate.value(s.values), name)) then
      s.(touched := touched, errors := s.errors[name := validate.value(s.values)[name]])
    else
      s.(touched := touched)
  }

  /** Submission goes ahead without a validator, or when the validator reports no key at all. */
  predicate Proceeds(s: FormState, validate: Option<Validator>)
  {
    validate.None? || |validate.value(s.values)| == 0
  }

  /**
   * `handleSubmit` up to the call of `onSubmit`: with a validator, its result
   * replaces the errors and every field of `values` becomes touched; then,
   * unless blocked, `isSubmitting` is raised.
   */
  function BeginSubmit(s: FormState, validate: Option<Validator>): (r: FormState)
    ensures r.values == s.values
    ensures validate.Some? ==> r.errors == validate.value(s.values) && r.touched == s.values.Keys
    ensures validate.None? ==> r.errors == s.errors && r.touched == s.touched
    ensures r.isSubmitting <==> Proceeds(s, validate) || s.isSubmitting
  {
    var validated :=
      if validate.Some? then s.(errors := validate.value(s.values), touched := s.values.Keys) else s;
    if Proceeds(s, validate) then validated.(isSubmitting := true) else validated
  }

  /** The `finally` of `handleSubmit`, reached whether `onSubmit` resolved or threw. */
  function FinishSubmit(s: FormState): (r: FormState)
    ensures r == s.(isSubmitting := false)
  {
    s.(isSubmitting := false)
  }

  /** `hasError(name)`: the field is touched and has a truthy message. */
  predicate HasError(s: FormState, name: string)
  {
    name in s.touched && Present(ErrorOf(s.errors, name))
  }

  /** `getErrorMessage(name)` */
  function ErrorMessage(s: FormState, name: string): (r: Option<string>)
    ensures r.Some? <==> HasError(s, name)
    ensures r.Some? ==> r.value != "" && Some(r.value) == ErrorOf(s.errors, name)
  {
    if HasError(s, name) then ErrorOf(s.errors, name) else None
  }

  // ===================== the hook object =====================

  class FormHook {
    const initialValues: Values
    const validate: Option<Validator>

    var values: Values
    var errors: Errors
    var touched: set<string>
    var isSubmitting: bool
    /** The values `onSubmit` was called with, in order. */
    var submitted: seq<Values>

    function State(): FormState
      reads this
    {
      FormState(values, errors, touched, isSubmitting)
    }

    method Install(s: FormState)
      modifies this
      ensures State() == s && submitted == old(submitted)
    {
      values, errors, touched, isSubmitting := s.values, s.errors, s.touched, s.isSubmitting;
    }

    constructor (initialValues: Values, validate: Option<Validator>)
      ensures this.initialValues == initialValues && this.validate == validate
      ensures State() == Initial(initialValues) && submitted == []
    {
      this.initialValues := initialValues;
      this.validate := validate;
      values, errors, touched, isSubmitting := initialValues, map[], {}, false;
      submitted := [];
    }

    method ResetForm()
      modifies this
      ensures State() == Reset(old(State()), initialValues) && submitted == old(submitted)
    {
      Install(Reset(State(), initialValues));
    }

    method HandleChange(e: ChangeEvent)
      modifies this
      ensures State() == Change(old(State()), e) && submitted == old(submitted)
    {
      Install(Change(State(), e));
    }

    method SetFieldValue(name: string, v: Value)
      modifies this
      ensures State() == SetField(old(State()), name, v) && submitted == old(submitted)
    {
      Install(SetField(State(), name, v));
    }

    method HandleBlur(name: string)
      modifies this
      ensures State() == Blur(old(State()), name, validate) && submitted == old(submitted)
    {
      Install(Blur(State(), name, validate));
    }

    /** `handleSubmit` up to `await onSubmit(values)`; `proceeds` says whether `onSubmit` is called. */
    method HandleSubmit() returns (proceeds: bool)
      modifies this
      ensures proceeds == Proceeds(old(State()), validate)
      ensures State() == BeginSubmit(old(State()), validate)
      ensures submitted == if proceeds then old(submitted) + [old(values)] else old(submitted)
    {
      proceeds := Proceeds(State(), validate);
      var vs := values;
      Install(BeginSubmit(State(), validate));
      if proceeds {
        submitted := submitted + [vs];
      }
    }

    /** `onSubmit` settled, by resolving or by throwing. */
    method SubmitSettled()
      modifies this
      ensures State() == FinishSubmit(old(State())) && submitted == old(submitted)
    {
      isSubmitting := false;
    }

    function GetErrorMessage(name: string): (r: Option<string>)
      reads this
      ensures r == ErrorMessage(State(), name)
    {
      ErrorMessage(State(), name)
    }
  }

  // ===================== properties =====================

  /** Editing a field hides its error and stores exactly the new value, leaving other fields alone. */
  lemma ChangeHidesError(s: FormState, e: ChangeEvent, other: string)
    requires other != e.name
    ensures var r := Change(s, e);
            !HasError(r, e.name) && ErrorMessage(r, e.name) == None
            && r.values[e.name] == EventValue(e)
            && (other in s.values <==> other in r.values)
            && (other in s.values ==> r.values[other] == s.values[other])
            && ErrorOf(r.errors, other) == ErrorOf(s.errors, other)
  {
  }

  /** A blocked submission shows every touched-and-invalid field's message. */
  lemma BlockedSubmitShowsErrors(s: FormState, v: Validator, name: string)
    requires !Proceeds(s, Some(v))
    requires name in s.values && Present(ErrorOf(v(s.values), name))
    ensures var r := BeginSubmit(s, Some(v));
            r.isSubmitting == s.isSubmitting
            && ErrorMessage(r, name) == v(s.values)[name]
  {
  }

  /** Submission is blocked by any reported key, even one whose message is `null` or "". */
  lemma NullMessageStillBlocks(s: FormState, v: Validator, name: string)
    requires v(s.values) == map[name := None]
    ensures !Proceeds(s, Some(v))
    ensures forall k :: !HasError(BeginSubmit(s, Some(v)), k)
  {
    assert name in v(s.values);
  }

  /** After a submission that went ahead with a validator, no field shows an error. */
  lemma SubmittedFormIsClean(s: FormState, v: Validator, name: string)
    requires Proceeds(s, Some(v))
    ensures var r := BeginSubmit(s, Some(v));
            r.isSubmitting && ErrorMessage(r, name) == None
  {
  }

  /** Without a validator, blurring only marks the field touched. */
  lemma BlurWithoutValidator(s: FormState, name: string)
    ensures Blur(s, name, None) == s.(touched := s.touched + {name})
  {
  }

  /** A full submit cycle returns `isSubmitting` to false. */
  lemma SubmitCycleEndsIdle(s: FormState, validate: Option<Validator>)
    ensures !FinishSubmit(BeginSubmit(s, validate)).isSubmitting
    ensures FinishSubmit(BeginSubmit(s, validate)).values == s.values
  {
  }

  /** Resetting twice is resetting once, whatever happened in between. */
  lemma ResetForgetsHistory(s: FormState, t: FormState, initialValues: Values)
    ensures Reset(s, initialValues) == Reset(t, initialValues)
    ensures forall name :: !HasError(Reset(s, initialValues), name)
  {
  }
}
