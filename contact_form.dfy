/** The contact form component as an object: one field per piece of React state, and one
    method per event handler that updates those fields. Each method is specified by the
    transition of the same handler in FormModel, and keeps `Valid()`. */
module ContactFormComponent {
  import opened Optional
  import opened Strings
  import opened EmailPattern
  import opened Validation
  import opened FormModel

  class ContactForm {
    var name: string
    var email: string
    var message: string
    var isLoading: bool
    var successMessage: string
    var errors: map<string, string>

    /** The state the fields hold. */
    function State(): FormState
      reads this
    {
      FormState(name, email, message, isLoading, successMessage, errors)
    }

    predicate Valid()
      reads this
    {
      WellFormed(State())
    }

    /** The component on mount. */
    constructor ()
      ensures State() == Initial && Valid()
    {
      name, email, message := "", "", "";
      isLoading := false;
      successMessage := "";
      errors := map[];
    }

    method EditName(value: string)
      requires Valid()
      modifies this
      ensures Valid() && State() == NameEdited(old(State()), value)
    {
      TransitionsPreserveWellFormed(State(), value, false, Capture("", "", "", ""));
      name := value;
      if Shown(errors, "name") {
        errors := errors["name" := ""];
      }
    }

    method EditEmail(value: string)
      requires Valid()
      modifies this
      ensures Valid() && State() == EmailEdited(old(State()), value)
    {
      TransitionsPreserveWellFormed(State(), value, false, Capture("", "", "", ""));
      email := value;
      if Shown(errors, "email") {
        errors := errors["email" := ""];
      }
    }

    method EditMessage(value: string)
      requires Valid()
      modifies this
      ensures Valid() && State() == MessageEdited(old(State()), value)
    {
      TransitionsPreserveWellFormed(State(), value, false, Capture("", "", "", ""));
      message := value;
      if Shown(errors, "message") {
        errors := errors["message" := ""];
      }
    }

    /** `validateForm`: builds the error dictionary entry by entry from the current inputs.
        It changes nothing. */
    method ValidateForm() returns (newErrors: map<string, string>)
      ensures newErrors == Validate(name, email, message)
    {
      newErrors := map[];

      var trimmedName := Trim(name);
      if trimmedName == "" {
        newErrors := newErrors["name" := NameRequired];
      } else if Utf16Length(trimmedName) < 2 {
        newErrors := newErrors["name" := NameTooShort];
      }

      if Trim(email) == "" {
        newErrors := newErrors["email" := EmailRequired];
      } else if !LooksLikeEmail(email) {
        newErrors := newErrors["email" := EmailInvalid];
      }

      var trimmedMessage := Trim(message);
      if trimmedMessage == "" {
        newErrors := newErrors["message" := MessageRequired];
      } else if Utf16Length(trimmedMessage) < 10 {
        newErrors := newErrors["message" := MessageTooShort];
      }
    }

    /** `handleSubmit` up to its await. Returns the closure's view of the state when a send
        starts, and None when validation stopped it. Only callable while not pending: the
        submit button is disabled then. */
    method SubmitStart() returns (pending: Option<Capture>)
      requires Valid() && !isLoading
      modifies this
      ensures Valid() && (State(), pending) == SubmitStarted(old(State()))
    {
      TransitionsPreserveWellFormed(State(), "", false, Capture("", "", "", ""));
      var newErrors := ValidateForm();
      if |newErrors| > 0 {
        errors := newErrors;
        pending := None;
        return;
      }
      pending := Some(Capture(name, email, message, successMessage));
      isLoading := true;
      errors := map[];
    }

    /** `handleSubmit` after its await, given the outcome of the send and what SubmitStart
        captured. Returns whether the 5-second clear of the banner is scheduled. */
    method SubmitComplete(ok: bool, started: Capture) returns (clearScheduled: bool)
      requires Valid()
      modifies this
      ensures Valid() && (State(), clearScheduled) == SubmitCompleted(old(State()), ok, started)
    {
      TransitionsPreserveWellFormed(State(), "", ok, started);
      if ok {
        successMessage := SuccessText(started.name);
        name, email, message := "", "", "";
      } else {
        errors := map["submit" := SubmitFailed];
      }
      isLoading := false;
      clearScheduled := started.successMessage != "";
    }

    /** The scheduled clear of the banner, when its timer fires. */
    method ClearSuccess()
      requires Valid()
      modifies this
      ensures Valid() && State() == SuccessCleared(old(State()))
    {
      successMessage := "";
    }

    /** `handleReset`. Only callable while not pending: the reset button is disabled then. */
    method Reset()
      requires Valid() && !isLoading
      modifies this
      ensures Valid() && State() == ResetDone(old(State()))
    {
      name, email, message := "", "", "";
      errors := map[];
      successMessage := "";
    }
  }

  /** A session on a fresh form: filling it in validly and sending it successfully shows the
      banner for the typed name, empties the inputs, and schedules no clear. */
  method FreshSubmitSession(typedName: string, typedEmail: string, typedMessage: string)
      returns (banner: string, clearScheduled: bool)
    requires NameError(typedName) == None && EmailError(typedEmail) == None
    requires MessageError(typedMessage) == None
    ensures banner == SuccessText(typedName) && !clearScheduled
  {
    var form := new ContactForm();
    form.EditName(typedName);
    form.EditEmail(typedEmail);
    form.EditMessage(typedMessage);
    assert form.State() == FormState(typedName, typedEmail, typedMessage, false, "", map[]);
    AcceptedSubmit(form.State(), true, SubmitStarted(form.State()).0);
    var pending := form.SubmitStart();
    clearScheduled := form.SubmitComplete(true, pending.value);
    assert form.name == "" && form.email == "" && form.message == "";
    banner := form.successMessage;
  }
}
