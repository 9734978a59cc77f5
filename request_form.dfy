/**
  * The requester's "Request Event" form: per-field validation, editing a
  * field, submitting, and opening/closing the dialog.
  */
module RequestForm {
  import opened Common
  import opened Text

  datatype Field = EventType | Venue | Date | Budget | Description

  /** The key of a field in `formData` and in the error object (the model keys both by `Field`). */
  function Key(f: Field): string
  {
    match f
    case EventType => "eventType"
    case Venue => "venue"
    case Date => "date"
    case Budget => "budget"
    case Description => "description"
  }

  /** The form's `formData`; every input holds a string. */
  datatype FormData = FormData(eventType: string, venue: string, date: string, budget: string, description: string)
  {
    function Get(f: Field): string
    {
      match f
      case EventType => eventType
      case Venue => venue
      case Date => date
      case Budget => budget
      case Description => description
    }

    function With(f: Field, v: string): (r: FormData)
      ensures r.Get(f) == v
      ensures forall g :: g != f ==> r.Get(g) == Get(g)
    {
      match f
      case EventType => this.(eventType := v)
      case Venue => this.(venue := v)
      case Date => this.(date := v)
      case Budget => this.(budget := v)
      case Description => this.(description := v)
    }
  }

  /** `INITIAL_FORM_STATE`. */
  const InitialForm := FormData("", "", "", "", "")

  /** The `{ type, content }` banner under the form. */
  datatype Message = Message(kind: string, content: string)

  const NoMessage := Message("", "")

  const MinDescriptionLength := 10

  /** `!isNaN(budget) && parseFloat(budget) > 0`, with numbers read as decimal integers. */
  predicate PositiveAmount(s: string)
  {
    var n := ParseInt(s); n.Some? && n.value > 0
  }

  /** The message `validateForm` records for one field, if that field fails. */
  function FieldError(d: FormData, f: Field): Option<string>
  {
    match f
    case EventType => if d.eventType == "" then Some("Event type is required") else None
    case Venue => if d.venue == "" then Some("Venue is required") else None
    case Date => if d.date == "" then Some("Date is required") else None
    case Budget =>
      if d.budget == "" then Some("Budget is required")
      else if !PositiveAmount(d.budget) then Some("Please enter a valid budget amount")
      else None
    case Description =>
      if d.description == "" then Some("Description is required")
      else if |d.description| < MinDescriptionLength then Some("Description must be at least 10 characters long")
      else None
  }

  /** The error object holds exactly field `f`'s message, if it has one. */
  predicate Records(errs: map<Field, string>, d: FormData, f: Field)
  {
    (f in errs <==> FieldError(d, f).Some?) && (f in errs ==> errs[f] == FieldError(d, f).value)
  }

  /**
    * The `newErrors` object `validateForm` builds: one conditional assignment per
    * field, in form order, each independent of the others.
    */
  function ValidationErrors(d: FormData): map<Field, string>
  {
    var e1 := Record(map[], EventType, FieldError(d, EventType));
    var e2 := Record(e1, Venue, FieldError(d, Venue));
    var e3 := Record(e2, Date, FieldError(d, Date));
    var e4 := Record(e3, Budget, FieldError(d, Budget));
    Record(e4, Description, FieldError(d, Description))
  }

  /** No field fails. */
  predicate FormValid(d: FormData)
  {
    forall f: Field :: FieldError(d, f).None?
  }

  /** One pass reports every failing field with its own message, and nothing else. */
  lemma ValidationErrorsComplete(d: FormData)
    ensures forall f :: Records(ValidationErrors(d), d, f)
  {
    var e := ValidationErrors(d);
    forall f ensures Records(e, d, f) {
      match f
      case EventType =>
      case Venue =>
      case Date =>
      case Budget =>
      case Description =>
    }
  }

  /** `validateForm` returns true exactly when no field fails. */
  lemma ValidationErrorsEmptyIff(d: FormData)
    ensures |ValidationErrors(d)| == 0 <==> FormValid(d)
  {
    var e := ValidationErrors(d);
    ValidationErrorsComplete(d);
    if FormValid(d) {
      forall f ensures f !in e {
        assert Records(e, d, f) && FieldError(d, f).None?;
      }
      assert e == map[];
    } else {
      var f :| FieldError(d, f).Some?;
      assert Records(e, d, f);
    }
  }

  /** The budget rules: required, then a number above zero; a positive number gives no entry. */
  lemma BudgetErrorCases(d: FormData)
    ensures d.budget == "" ==> FieldError(d, Budget) == Some("Budget is required")
    ensures d.budget != "" && (ParseInt(d.budget).None? || ParseInt(d.budget).value <= 0)
            ==> FieldError(d, Budget) == Some("Please enter a valid budget amount")
    ensures FieldError(d, Budget).None? <==> exists n :: n > 0 && ParseInt(d.budget) == Some(n)
  {
  }

  /** A budget typed as the decimal rendering of a positive integer passes; "0" or a negative one does not. */
  lemma BudgetOfRenderedNumber(d: FormData, n: int)
    requires d.budget == IntToString(n)
    ensures FieldError(d, Budget).None? <==> n > 0
  {
    ParseIntToString(n);
  }

  /** The description is checked for presence, then for at least ten characters, untrimmed. */
  lemma DescriptionErrorCases(d: FormData)
    ensures d.description == "" ==> FieldError(d, Description) == Some("Description is required")
    ensures 0 < |d.description| < 10 ==> FieldError(d, Description) == Some("Description must be at least 10 characters long")
    ensures |d.description| >= 10 ==> FieldError(d, Description).None?
    ensures d.venue != "" ==> FieldError(d, Venue).None?
    ensures d.date != "" ==> FieldError(d, Date).None?
  {
  }

  /** The request body sent to the backend; the budget goes as a number. */
  datatype RequestData = RequestData(eventType: string, venue: string, date: string, budget: int, description: string)

  /** The outcome of `api.safePost('/eventrequest', …)`: a body with `success`, or a thrown error. */
  datatype SubmitOutcome = Answered(success: bool, message: Option<string>) | Thrown(serverMessage: Option<string>)

  /** The state of the `EventRequestForm` component. */
  class EventRequestForm {
    var formData: FormData
    var loading: bool
    var message: Message
    var errors: map<Field, string>
    var isFormOpen: bool

    constructor ()
      ensures formData == InitialForm && !loading && message == NoMessage
      ensures errors == map[] && !isFormOpen
    {
      formData := InitialForm;
      loading := false;
      message := NoMessage;
      errors := map[];
      isFormOpen := false;
    }

    /** `validateForm`: check every field (not just the first failing one) and record the errors. */
    method ValidateForm() returns (valid: bool)
      modifies this`errors
      ensures errors == ValidationErrors(formData)
      ensures forall f :: Records(errors, formData, f)
      ensures valid <==> |errors| == 0
      ensures valid <==> FormValid(formData)
    {
      errors := ValidationErrors(formData);
      ValidationErrorsComplete(formData);
      ValidationErrorsEmptyIff(formData);
      valid := |errors| == 0;
    }

    /** `handleChange(field)`: store the value; an error shown on that field is blanked. */
    method HandleChange(f: Field, value: string)
      modifies this`formData, this`errors
      ensures formData == old(formData).With(f, value)
      ensures f in old(errors) && old(errors)[f] != "" ==> errors == old(errors)[f := ""]
      ensures !(f in old(errors) && old(errors)[f] != "") ==> errors == old(errors)
    {
      formData := formData.With(f, value);
      if f in errors && errors[f] != "" {
        errors := errors[f := ""];
      }
    }

    /**
      * `handleSubmit`: validate, and only a valid form is sent. A success resets
      * the form; a thrown error keeps it and shows the server's message or a fallback.
      */
    method HandleSubmit(outcome: SubmitOutcome) returns (sent: Option<RequestData>)
      modifies this`formData, this`errors, this`message, this`loading
      ensures forall f :: Records(errors, old(formData), f)
      ensures !FormValid(old(formData)) ==>
                sent == None && formData == old(formData) && loading == old(loading)
                && message == Message("error", "Please fix form errors")
      ensures FormValid(old(formData)) ==> !loading
      ensures FormValid(old(formData)) ==>
                ParseInt(old(formData).budget).Some?
                && sent == Some(RequestData(old(formData).eventType, old(formData).venue, old(formData).date,
                                            ParseInt(old(formData).budget).value, old(formData).description))
      ensures FormValid(old(formData)) && outcome.Answered? && outcome.success ==>
                formData == InitialForm && message == Message("success", Or(outcome.message, "Request submitted successfully!"))
      ensures FormValid(old(formData)) && outcome.Answered? && !outcome.success ==>
                formData == old(formData) && message == NoMessage
      ensures FormValid(old(formData)) && outcome.Thrown? ==>
                formData == old(formData) && message == Message("error", Or(outcome.serverMessage, "Failed to submit request"))
    {
      message := NoMessage;
      var valid := ValidateForm();
      if !valid {
        message := Message("error", "Please fix form errors");
        return None;
      }
      assert FieldError(formData, Budget).None?;
      var budget := ParseInt(formData.budget).value;
      var data := RequestData(formData.eventType, formData.venue, formData.date, budget, formData.description);
      sent := Some(data);
      loading := true;
      match outcome {
        case Answered(success, serverMessage) =>
          if success {
            message := Message("success", Or(serverMessage, "Request submitted successfully!"));
            formData := InitialForm;
          }
        case Thrown(serverMessage) =>
          message := Message("error", Or(serverMessage, "Failed to submit request"));
      }
      loading := false;
    }

    /** `openForm`. */
    method OpenForm()
      modifies this`isFormOpen, this`message, this`errors
      ensures isFormOpen && message == NoMessage && errors == map[]
    {
      isFormOpen := true;
      message := NoMessage;
      errors := map[];
    }

    /** `closeForm`: close the dialog and reset data, message and errors. */
    method CloseForm()
      modifies this`isFormOpen, this`formData, this`message, this`errors
      ensures !isFormOpen && formData == InitialForm && message == NoMessage && errors == map[]
    {
      isFormOpen := false;
      formData := InitialForm;
      message := NoMessage;
      errors := map[];
    }
  }

  /** Scenario: a complete form with a positive budget and a long enough description is valid. */
  lemma WeddingRequestValid()
    ensures FormValid(FormData("Wedding", "Hall A", "2025-12-01", "500", "A small reception"))
  {
    var d := FormData("Wedding", "Hall A", "2025-12-01", "500", "A small reception");
    assert ParseInt("500") == Some(500) by {
      assert NatToString(5) == "5";
      assert NatToString(50) == "50";
      assert IntToString(500) == "500";
      ParseIntToString(500);
    }
    forall f: Field ensures FieldError(d, f).None? {
    }
  }

  /** Scenario: a budget of "-10" is reported as an invalid amount, so the form is not sent. */
  lemma NegativeBudgetRejected()
    ensures FieldError(FormData("Wedding", "Hall A", "2025-12-01", "-10", "A small reception"), Budget)
         == Some("Please enter a valid budget amount")
  {
    ParseIntToString(-10);
  }
}
