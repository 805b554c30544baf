# Contact form: validator and handler state machine

A Dafny model of the contact form component `App` in `src/App.jsx`. The component keeps
three inputs (`name`, `email`, `message`), a pending flag (`isLoading`), a success banner
(`successMessage`) and an error dictionary (`errors`). Its client-side validator
(`validateForm`) maps the three inputs to a dictionary of field errors. Its event handlers update
the state: the three change handlers, the submit handler and the reset handler.

The model has five modules:

- `Strings` (strings.dfy): JavaScript white space, `String.prototype.trim` (`Trim`, built from
  the two index scans `TrimStart` and `TrimEnd`), and `length` in UTF-16 code units (`Utf16Length`).
- `EmailPattern` (email.dfy): the test `/\S+@\S+\.\S+/.test(email)` as two predicates.
  `PatternMatches` reads the pattern span by span. `LooksLikeEmail` is the shortest-match form
  the validator uses. They are proved equal.
- `Validation` (validation.dfy): the three field rules, the dictionary `Validate` builds from
  them, and the lemmas about it.
- `FormModel` (form_model.dfy): the state as a `FormState` value, one transition function per
  handler, the invariant `WellFormed`, and the lemmas that relate several transitions.
- `ContactFormComponent` (contact_form.dfy): class `ContactForm`, with one field per piece of
  React state and one method per handler. Each method updating the state ensures that the new
  `State()` is the matching `FormModel` transition of the old one, and that `Valid()` still holds.
  `ValidateForm` builds the dictionary by conditional assignments, as the source does. It is
  proved equal to `Validate` and changes nothing (it has no `modifies` clause).

Modelling choices:

- White space is ECMAScript's WhiteSpace and LineTerminator set: TAB, VT, FF, SP, NBSP, ZWNBSP,
  the other space separators of category Zs, LF, CR, LS and PS. Both `trim` and `\s`/`\S` use
  this set.
- `.length` counts UTF-16 code units. A Dafny `char` is a Unicode scalar value, so a character
  outside the Basic Multilingual Plane counts 2. For example, a name made of one emoji passes the
  two-character rule (`NameTooShortIff`).
- The email rule tests the untrimmed value (App.jsx line 65). `LooksLikeEmailIgnoresTrim` and
  `EmailIgnoresSurroundingSpace` prove that trimming first would not change the verdict.
- `handleSubmit` suspends once, at its `await`. It is split into `SubmitStart`, which returns
  the closure's view of the state (`Capture`), and `SubmitComplete(ok, started)`. `ok` is the
  outcome of the send. The catch branch is reachable in the model, though the simulated send
  never fails.
- The success message interpolates the name the closure captured, not the name current when the
  send completes. The inputs stay editable while the form is pending.
- The 5-second clear of the banner is returned as the flag `clearScheduled`. The timer's effect
  is the separate transition `ClearSuccess`. As the source does, the flag comes from the banner
  text captured when the handler began (lines 112-113), not from the new text. So the first
  successful send never schedules a clear (`FirstSuccessNeverCleared`).
- Both buttons are disabled while pending (lines 220, 236). This is the precondition
  `!isLoading` on `SubmitStart` and `Reset`.

Two behaviours of the code that follow from the above:

- The 5-second clear is scheduled only if a banner was already showing when the submit began
  (App.jsx:112-113). It does not depend on the outcome or on the banner at completion
  (`ClearScheduledIff`).
- Field errors and the success banner can be shown together. A successful send empties the
  inputs and leaves the banner up. A later submit that the validator rejects sets field errors
  and leaves the banner as it is. For example, typing the name "A" with a valid address and
  message gives "Name must be at least 2 characters" beside the banner
  (`BannerOutlivesRejectedSubmit`).

## Model

| member | source | states |
|---|---|---|
| `Strings.Trim` | src/App.jsx:57 | `trim` gives a slice of its input. Everything outside the slice is white space, the slice neither begins nor ends with white space, and it is empty iff the input is all white space. |
| `Strings.Utf16Length` | src/App.jsx:59 | `length` in code units lies between the character count and twice that. It equals the character count iff every character is in the Basic Multilingual Plane. |
| `EmailPattern.LooksLikeEmailIsPattern` | src/App.jsx:65 | The shortest-match test the validator uses holds iff some slice of the string reads as non-space run, `@`, non-space run, `.`, non-space run. Both directions are proved. |
| `EmailPattern.LooksLikeEmailIgnoresTrim` | src/App.jsx:63-65 | Testing the untrimmed value gives the same verdict as testing the trimmed one. |
| `EmailPattern.NotAnEmailFails` | src/App.jsx:65 | `"not-an-email"` fails the format test. |
| `EmailPattern.ShortAddressPasses` | src/App.jsx:65 | `"a@b.co"` passes the format test. |
| `Validation.ValidateEntries` | src/App.jsx:54-76 | The keys are a subset of {name, email, message}. Each key is present iff its own field's rule fails, and then it holds that rule's message. |
| `Validation.FieldsAreIndependent` | src/App.jsx:57-73 | All three fields are checked. A field's entry does not depend on the other two fields. |
| `Validation.ValidateEmptyIff` | src/App.jsx:54-76 | The dictionary is empty iff all three rules pass. |
| `Validation.ValidateValuesNonEmpty` | src/App.jsx:58-72 | Every message produced is non-empty, so the form displays every entry. |
| `Validation.NameRequiredIff` | src/App.jsx:57-58 | "Name is required" iff the name is all white space, including the empty name. |
| `Validation.NameTooShortIff` | src/App.jsx:59-60 | "Name must be at least 2 characters" iff the trimmed name is one BMP character. One astral character counts 2 and passes. |
| `Validation.NamePassesIff` | src/App.jsx:57-61 | No name error iff the trimmed name has at least 2 code units. |
| `Validation.EmailRequiredIff` | src/App.jsx:63-64 | "Email is required" iff the email is all white space. |
| `Validation.EmailFormatIff` | src/App.jsx:63-67 | "Please enter a valid email" iff the email is not blank and the pattern occurs nowhere in it. No email error iff the pattern occurs. |
| `Validation.EmailIgnoresSurroundingSpace` | src/App.jsx:63-67 | The email rule gives the same result for a value and for its trimmed form. |
| `Validation.MessageRequiredIff` | src/App.jsx:69-70 | "Message is required" iff the message is all white space. |
| `Validation.MessageLengthRule` | src/App.jsx:69-73 | No message error iff the trimmed message has at least ten code units. "Message must be at least 10 characters" iff the message is not blank and has fewer. So ten or more trimmed characters always pass, and for BMP text the threshold is exactly ten characters. |
| `Validation.NameExamples` | src/App.jsx:57-61 | `""` is required, `"A"` is too short, `" Al "` passes. |
| `Validation.EmailExamples` | src/App.jsx:63-67 | `""` is required, `"not-an-email"` is invalid, `"a@b.co"` passes. |
| `Validation.TenCharactersPass` | src/App.jsx:69-73 | `"1234567890"`, exactly ten characters, gives no message error. |
| `Validation.NineCharactersFail` | src/App.jsx:71-72 | `"123456789"` gives "Message must be at least 10 characters". |
| `Validation.FiveAstralCharactersPass` | src/App.jsx:71-72 | Five emoji are ten code units and give no message error. |
| `FormModel.InitialWellFormed` | src/App.jsx:6-13 | The state on mount satisfies the invariant. |
| `FormModel.TransitionsPreserveWellFormed` | src/App.jsx:38-125 | Every handler keeps the invariant. Errors hold field keys only, or exactly the `submit` error, and a pending form has no errors. |
| `FormModel.SubmitErrorExcludesFieldErrors` | src/App.jsx:106-108 | If the invariant holds and the `submit` error is shown, no field error is shown. |
| `FormModel.EditChangesOnlyItsField` | src/App.jsx:38-51 | A change handler sets its field and hides that field's error. The key stays, bound to "". Every other entry, other field, the pending flag and the banner are unchanged. |
| `FormModel.RejectedSubmit` | src/App.jsx:83-87 | If validation reports errors, no send starts and only `errors` changes, becoming the validator's dictionary. An error is then shown for exactly the failing fields. |
| `FormModel.AcceptedSubmit` | src/App.jsx:89-110 | A valid submit goes pending with empty errors and captures the values typed before it. The completion may meet any later state, since the inputs stay editable while pending. Success shows `"Thank you " + name + "! ..."` with the captured name, whatever the name is by then, and empties the inputs. Failure sets exactly the `submit` error and keeps the current inputs. Either way the form stops pending. |
| `FormModel.ClearScheduledIff` | src/App.jsx:112-113 | For a submit that passes validation, completing it in any later state schedules the banner's clear iff a banner was showing when the submit began. This holds for both outcomes. |
| `FormModel.FirstSuccessNeverCleared` | src/App.jsx:99-113 | A fresh form filled in validly and sent successfully shows the banner but schedules no clear. |
| `FormModel.SecondSuccessSchedulesClear` | src/App.jsx:112-113 | A successful send made while a banner is up does schedule the clear. |
| `FormModel.BannerOutlivesRejectedSubmit` | src/App.jsx:83-113 | After a successful send, typing name "A", email "a@b.co" and a ten-character message and submitting again goes through the handler. It is rejected with the name error alone, and the banner from the first send is still shown. |
| `FormModel.ResetProperties` | src/App.jsx:119-125 | Reset empties inputs, errors and banner and keeps the pending flag. From a non-pending state that is the initial state. Reset is idempotent. |
| `ContactFormComponent.ContactForm.constructor` | src/App.jsx:6-13 | The fields start as the initial state, which satisfies the invariant. |
| `ContactFormComponent.ContactForm.EditName` | src/App.jsx:38-41 | The new state is `NameEdited` of the old one. |
| `ContactFormComponent.ContactForm.EditEmail` | src/App.jsx:43-46 | The new state is `EmailEdited` of the old one. |
| `ContactFormComponent.ContactForm.EditMessage` | src/App.jsx:48-51 | The new state is `MessageEdited` of the old one. |
| `ContactFormComponent.ContactForm.ValidateForm` | src/App.jsx:54-76 | The dictionary built entry by entry equals `Validate` of the current inputs. The state does not change. |
| `ContactFormComponent.ContactForm.SubmitStart` | src/App.jsx:79-92 | New state and capture are `SubmitStarted` of the old state. Requires not pending. |
| `ContactFormComponent.ContactForm.SubmitComplete` | src/App.jsx:94-116 | New state and the clear-scheduled flag are `SubmitCompleted` of the old state, the outcome and the capture. |
| `ContactFormComponent.ContactForm.ClearSuccess` | src/App.jsx:113 | The timer callback empties the banner and nothing else. |
| `ContactFormComponent.ContactForm.Reset` | src/App.jsx:119-125 | The new state is `ResetDone` of the old one. Requires not pending. |
| `ContactFormComponent.FreshSubmitSession` | src/App.jsx:79-116 | A client of the class that fills in a fresh form validly and sends it successfully. It gets the banner for the typed name and no scheduled clear. |

## Left out

- The reveal-on-scroll effect (lines 16-35): it uses an IntersectionObserver over DOM nodes and is presentational only.
- The JSX markup and CSS classes (lines 127-244). Two facts from it are kept. An error is displayed exactly when its entry is non-empty (`Shown`). The submit and reset buttons are disabled while pending (lines 220, 236), which is the `!isLoading` precondition of `SubmitStart` and `Reset`.
- The browser's own constraint validation. The inputs carry `required` (lines 175, 186, 197), and the email input has `type="email"` (line 183). The browser blocks the submit event before `handleSubmit` runs when an input is empty or the address is malformed. `type="email"` also strips leading and trailing white space and newlines from the value. The model runs the handlers on every submit and on every typed value as given.
- Time: the 2000 ms simulated send and the 5000 ms delay are not modelled. The await becomes the split into `SubmitStart` and `SubmitComplete`. The delayed clear becomes the returned flag plus the `ClearSuccess` transition.
- `console.log` and `console.error` (lines 96, 107): these are output only.
- React's batching of setter calls, and closures other than the one captured by the submit handler. Each handler is a single atomic update of the current state.
- The full JavaScript regular-expression engine: the one pattern is a predicate.
- JavaScript strings holding lone surrogates: a Dafny `char` cannot be a surrogate code point.
- The `useRef` form handle (lines 14, 169): no logic uses it.
- `preventDefault` (line 80): it only stops the browser's native form submission.
