/** The contact form's state and the effect of each event handler on it, as values. Each
    handler of the component is one transition; `handleSubmit` is two, because it suspends
    once (on the simulated send) between its first and its second half. */
module FormModel {
  import opened Optional
  import opened Validation

  /** The component state: the three inputs, the pending flag, the success banner text and the
      error dictionary (field keys, or the single key `submit`). */
  datatype FormState = FormState(
    name: string,
    email: string,
    message: string,
    isLoading: bool,
    successMessage: string,
    errors: map<string, string>)

  /** What `handleSubmit`'s closure saw when it began: the values it sends and the success
      banner of that render. Its second half works with these, not with the state current when
      the send completes. */
  datatype Capture = Capture(name: string, email: string, message: string, successMessage: string)

  /** The state on mount. */
  const Initial := FormState("", "", "", false, "", map[])

  const SubmitFailed := "Failed to send message. Please try again."

  function SuccessText(name: string): string {
    "Thank you " + name + "! Your message has been sent successfully!"
  }

  /** JavaScript truthiness of `errors[key]`: the key is present with a non-empty text. The
      change handlers test this, and the markup shows an error exactly when it holds. */
  predicate Shown(errors: map<string, string>, key: string) {
    key in errors && errors[key] != ""
  }

  /** A change handler's update of the errors: a shown entry for the edited field is blanked
      (the key stays, bound to ""), anything else is left alone. */
  function Blanked(errors: map<string, string>, key: string): map<string, string> {
    if Shown(errors, key) then errors[key := ""] else errors
  }

  /** `handleNameChange`. */
  function NameEdited(s: FormState, value: string): FormState {
    s.(name := value, errors := Blanked(s.errors, "name"))
  }

  /** `handleEmailChange`. */
  function EmailEdited(s: FormState, value: string): FormState {
    s.(email := value, errors := Blanked(s.errors, "email"))
  }

  /** `handleMessageChange`. */
  function MessageEdited(s: FormState, value: string): FormState {
    s.(message := value, errors := Blanked(s.errors, "message"))
  }

  /** `handleSubmit` up to its await: when the validator reports anything, its dictionary
      becomes the errors and no send starts; otherwise the form goes pending with no errors and
      the closure's view of the state is returned for the second half. */
  function SubmitStarted(s: FormState): (FormState, Option<Capture>) {
    var v := Validate(s.name, s.email, s.message);
    if |v| > 0 then
      (s.(errors := v), None)
    else
      (s.(isLoading := true, errors := map[]),
       Some(Capture(s.name, s.email, s.message, s.successMessage)))
  }

  /** `handleSubmit` after its await, with `ok` telling whether the send succeeded. Success sets
      the banner from the captured name and clears the inputs; failure sets the single `submit`
      error. Either way the form stops pending. The second component says whether the 5-second
      clear of the banner is scheduled, which the source decides from the banner text captured
      when the handler began. */
  function SubmitCompleted(s: FormState, ok: bool, c: Capture): (FormState, bool) {
    var t :=
      if ok then s.(successMessage := SuccessText(c.name), name := "", email := "", message := "")
      else s.(errors := map["submit" := SubmitFailed]);
    (t.(isLoading := false), c.successMessage != "")
  }

  /** The scheduled timer callback that hides the banner. */
  function SuccessCleared(s: FormState): FormState {
    s.(successMessage := "")
  }

  /** `handleReset`. */
  function ResetDone(s: FormState): FormState {
    s.(name := "", email := "", message := "", errors := map[], successMessage := "")
  }

  /** What every reachable state satisfies: the errors hold field keys only, or exactly the
      `submit` error, and a pending form has no errors. */
  predicate WellFormed(s: FormState) {
    && (s.errors.Keys <= FieldKeys || s.errors == map["submit" := SubmitFailed])
    && (s.isLoading ==> s.errors == map[])
  }

  lemma InitialWellFormed()
    ensures WellFormed(Initial)
  {
  }

  /** Every transition keeps the form well formed (submitting and resetting only while not
      pending, as their disabled buttons ensure). */
  lemma TransitionsPreserveWellFormed(s: FormState, value: string, ok: bool, c: Capture)
    requires WellFormed(s)
    ensures WellFormed(NameEdited(s, value))
    ensures WellFormed(EmailEdited(s, value))
    ensures WellFormed(MessageEdited(s, value))
    ensures !s.isLoading ==> WellFormed(SubmitStarted(s).0)
    ensures WellFormed(SubmitCompleted(s, ok, c).0)
    ensures WellFormed(SuccessCleared(s))
    ensures WellFormed(ResetDone(s))
  {
    ValidateEntries(s.name, s.email, s.message);
  }

  /** A field error and the `submit` error are never shown together. */
  lemma SubmitErrorExcludesFieldErrors(s: FormState, key: string)
    requires WellFormed(s) && Shown(s.errors, "submit") && key != "submit"
    ensures !Shown(s.errors, key)
  {
  }

  /** A change handler sets its field, hides that field's error, and changes nothing else:
      other fields, other entries, the pending flag and the banner stay as they were. */
  lemma EditChangesOnlyItsField(s: FormState, value: string)
    ensures var t := NameEdited(s, value);
      && t.name == value && !Shown(t.errors, "name") && t.errors.Keys == s.errors.Keys
      && (forall k | k in s.errors && k != "name" :: t.errors[k] == s.errors[k])
      && t == s.(name := value, errors := t.errors)
    ensures var t := EmailEdited(s, value);
      && t.email == value && !Shown(t.errors, "email") && t.errors.Keys == s.errors.Keys
      && (forall k | k in s.errors && k != "email" :: t.errors[k] == s.errors[k])
      && t == s.(email := value, errors := t.errors)
    ensures var t := MessageEdited(s, value);
      && t.message == value && !Shown(t.errors, "message") && t.errors.Keys == s.errors.Keys
      && (forall k | k in s.errors && k != "message" :: t.errors[k] == s.errors[k])
      && t == s.(message := value, errors := t.errors)
  {
  }

  /** A submit the validator rejects starts no send, changes only the errors, and afterwards an
      error is shown for exactly the fields whose rule fails, with that rule's message. */
  lemma RejectedSubmit(s: FormState)
    requires Validate(s.name, s.email, s.message) != map[]
    ensures SubmitStarted(s).1 == None
    ensures SubmitStarted(s).0 == s.(errors := Validate(s.name, s.email, s.message))
    ensures var e := SubmitStarted(s).0.errors;
      && (Shown(e, "name") <==> NameError(s.name).Some?)
      && (Shown(e, "email") <==> EmailError(s.email).Some?)
      && (Shown(e, "message") <==> MessageError(s.message).Some?)
      && (forall k | Shown(e, k) :: k in FieldKeys)
  {
    ValidateEntries(s.name, s.email, s.message);
    ValidateValuesNonEmpty(s.name, s.email, s.message);
  }

  /** A submit the validator accepts goes pending with no errors and captures the values typed
      before submitting. The inputs stay editable while the send is pending, so the completion
      may meet any state `u`: success shows the banner for the name captured at the start
      (whatever `u.name` is by then) and empties the inputs; failure sets exactly the `submit`
      error and keeps the inputs of `u`. Either way the form stops pending. Completing right
      after the start gives the fully determined states. */
  lemma AcceptedSubmit(s: FormState, ok: bool, u: FormState)
    requires NameError(s.name) == None && EmailError(s.email) == None
    requires MessageError(s.message) == None
    ensures var (t, p) := SubmitStarted(s);
      && p == Some(Capture(s.name, s.email, s.message, s.successMessage))
      && t == s.(isLoading := true, errors := map[])
    ensures var (t, p) := SubmitStarted(s); var w := SubmitCompleted(u, ok, p.value).0;
      && !w.isLoading
      && (ok ==> && w.successMessage == SuccessText(s.name)
                 && w.name == "" && w.email == "" && w.message == "" && w.errors == u.errors)
      && (!ok ==> && w.errors == map["submit" := SubmitFailed]
                  && w == u.(isLoading := false, errors := w.errors))
      && (u == t && ok ==> w == FormState("", "", "", false, SuccessText(s.name), map[]))
      && (u == t && !ok ==> w == s.(isLoading := false, errors := map["submit" := SubmitFailed]))
  {
    ValidateEmptyIff(s.name, s.email, s.message);
  }

  /** The banner's auto-clear is scheduled exactly when a banner was showing when the submit
      began, whatever the outcome and whatever the state (and its banner) when the send
      completes. */
  lemma ClearScheduledIff(s: FormState, ok: bool, u: FormState)
    requires NameError(s.name) == None && EmailError(s.email) == None
    requires MessageError(s.message) == None
    ensures var (t, p) := SubmitStarted(s);
      p.Some? && (SubmitCompleted(u, ok, p.value).1 <==> s.successMessage != "")
  {
    AcceptedSubmit(s, ok, u);
  }

  /** Filling in a fresh form with valid values and sending it successfully shows the banner
      but never schedules its clear, so the banner stays until the next submit or a reset. */
  lemma FirstSuccessNeverCleared(name: string, email: string, message: string)
    requires NameError(name) == None && EmailError(email) == None
    requires MessageError(message) == None
    ensures var s := MessageEdited(EmailEdited(NameEdited(Initial, name), email), message);
      var (t, p) := SubmitStarted(s);
      && p.Some?
      && var (u, scheduled) := SubmitCompleted(t, true, p.value);
      && u.successMessage == SuccessText(name) && !scheduled
  {
    var s := MessageEdited(EmailEdited(NameEdited(Initial, name), email), message);
    assert s == FormState(name, email, message, false, "", map[]);
    AcceptedSubmit(s, true, SubmitStarted(s).0);
  }

  /** A second successful send (made while the first banner is still up) does schedule the
      clear. */
  lemma SecondSuccessSchedulesClear(s: FormState)
    requires s.successMessage != ""
    requires NameError(s.name) == None && EmailError(s.email) == None
    requires MessageError(s.message) == None
    ensures var (t, p) := SubmitStarted(s);
      p.Some? && SubmitCompleted(t, true, p.value).1
  {
    AcceptedSubmit(s, true, SubmitStarted(s).0);
  }

  /** After a successful send the inputs are empty and the banner stays up. Typing a name of
      one letter, a valid address and a ten-character message and submitting again is rejected
      with the name error alone, while the banner of the first send is still shown: the form can
      show a field error and the success banner at the same time. (All three inputs are
      non-empty and the address is well formed, so the browser's own checks let this submit
      reach the handler.) */
  lemma BannerOutlivesRejectedSubmit(s: FormState)
    requires NameError(s.name) == None && EmailError(s.email) == None
    requires MessageError(s.message) == None
    ensures var (t, p) := SubmitStarted(s);
      p.Some? &&
      var u := SubmitCompleted(t, true, p.value).0;
      var typed := MessageEdited(EmailEdited(NameEdited(u, "A"), "a@b.co"), "1234567890");
      var (w, q) := SubmitStarted(typed);
      && q == None
      && w.successMessage == SuccessText(s.name)
      && w.errors == map["name" := NameTooShort]
  {
    AcceptedSubmit(s, true, SubmitStarted(s).0);
    NameExamples();
    EmailExamples();
    TenCharactersPass();
    ValidateEntries("A", "a@b.co", "1234567890");
    var v := Validate("A", "a@b.co", "1234567890");
    assert v.Keys == {"name"};
    assert v == map["name" := NameTooShort];
  }

  /** Reset empties the inputs, the errors and the banner and leaves the pending flag: from a
      non-pending state it returns the form to its initial state. Doing it twice is the same as
      doing it once. */
  lemma ResetProperties(s: FormState)
    ensures ResetDone(s) == Initial.(isLoading := s.isLoading)
    ensures !s.isLoading ==> ResetDone(s) == Initial
    ensures ResetDone(ResetDone(s)) == ResetDone(s)
    ensures !Shown(ResetDone(s).errors, "name") && !Shown(ResetDone(s).errors, "submit")
  {
  }
}
