/** An optional value. */
module Optional {
  datatype Option<+T> = None | Some(value: T)
}

/** The contact form's client-side validator (`validateForm`): three independent field rules
    and the error dictionary they produce. */
module Validation {
  import opened Optional
  import opened Strings
  import opened EmailPattern

  const NameRequired := "Name is required"
  const NameTooShort := "Name must be at least 2 characters"
  const EmailRequired := "Email is required"
  const EmailInvalid := "Please enter a valid email"
  const MessageRequired := "Message is required"
  const MessageTooShort := "Message must be at least 10 characters"

  /** The keys the validator may produce. */
  const FieldKeys: set<string> := {"name", "email", "message"}

  /** JavaScript's `!s.trim()`: the trimmed string is empty, hence falsy. */
  predicate IsBlank(s: string) {
    Trim(s) == ""
  }

  /** The name rule: required, then at least 2 code units once trimmed. */
  function NameError(name: string): Option<string> {
    if IsBlank(name) then Some(NameRequired)
    else if Utf16Length(Trim(name)) < 2 then Some(NameTooShort)
    else None
  }

  /** The email rule: required (after trimming), then the format test on the untrimmed value. */
  function EmailError(email: string): Option<string> {
    if IsBlank(email) then Some(EmailRequired)
    else if !LooksLikeEmail(email) then Some(EmailInvalid)
    else None
  }

  /** The message rule: required, then at least 10 code units once trimmed. */
  function MessageError(message: string): Option<string> {
    if IsBlank(message) then Some(MessageRequired)
    else if Utf16Length(Trim(message)) < 10 then Some(MessageTooShort)
    else None
  }

  /** `m` with `key` bound to the rule's message when the rule failed. */
  function Record(m: map<string, string>, key: string, e: Option<string>): map<string, string> {
    if e.Some? then m[key := e.value] else m
  }

  /** The dictionary `validateForm` returns for the three field values. */
  function Validate(name: string, email: string, message: string): map<string, string> {
    Record(Record(Record(map[], "name", NameError(name)), "email", EmailError(email)),
           "message", MessageError(message))
  }

  /** Each key is present exactly when its own field's rule fails, and carries that rule's
      message; no other key is ever produced. */
  lemma ValidateEntries(name: string, email: string, message: string)
    ensures var v := Validate(name, email, message);
      && v.Keys <= FieldKeys
      && ("name" in v <==> NameError(name).Some?)
      && ("name" in v ==> v["name"] == NameError(name).value)
      && ("email" in v <==> EmailError(email).Some?)
      && ("email" in v ==> v["email"] == EmailError(email).value)
      && ("message" in v <==> MessageError(message).Some?)
      && ("message" in v ==> v["message"] == MessageError(message).value)
  {
  }

  /** Every field is checked whatever the others hold: a field's entry depends on that field
      alone. */
  lemma FieldsAreIndependent(name: string, email: string, message: string,
                             name': string, email': string, message': string)
    ensures var v, w := Validate(name, email, message), Validate(name, email', message');
      ("name" in v <==> "name" in w) && ("name" in v ==> v["name"] == w["name"])
    ensures var v, w := Validate(name, email, message), Validate(name', email, message');
      ("email" in v <==> "email" in w) && ("email" in v ==> v["email"] == w["email"])
    ensures var v, w := Validate(name, email, message), Validate(name', email', message);
      ("message" in v <==> "message" in w) && ("message" in v ==> v["message"] == w["message"])
  {
    ValidateEntries(name, email, message);
    ValidateEntries(name, email', message');
    ValidateEntries(name', email, message');
    ValidateEntries(name', email', message);
  }

  /** The dictionary is empty exactly when all three rules pass. */
  lemma ValidateEmptyIff(name: string, email: string, message: string)
    ensures Validate(name, email, message) == map[] <==>
      NameError(name) == None && EmailError(email) == None && MessageError(message) == None
  {
    ValidateEntries(name, email, message);
    var v := Validate(name, email, message);
    if NameError(name).Some? { assert "name" in v; }
    if EmailError(email).Some? { assert "email" in v; }
    if MessageError(message).Some? { assert "message" in v; }
  }

  /** Every value the validator produces is non-empty, so each entry is shown by the form. */
  lemma ValidateValuesNonEmpty(name: string, email: string, message: string)
    ensures forall k | k in Validate(name, email, message) :: Validate(name, email, message)[k] != ""
  {
    ValidateEntries(name, email, message);
  }

  /** A name is "required" exactly when it is all white space (the empty name included). */
  lemma NameRequiredIff(name: string)
    ensures NameError(name) == Some(NameRequired) <==> AllSpace(name)
  {
  }

  /** A name is "too short" exactly when, trimmed, it is a single character of the Basic
      Multilingual Plane; a longer trimmed name, or one astral character (two code units),
      passes. */
  lemma NameTooShortIff(name: string)
    ensures NameError(name) == Some(NameTooShort) <==>
      |Trim(name)| == 1 && Trim(name)[0] as int < 0x1_0000
  {
    var t := Trim(name);
    if |t| == 1 {
      assert t[1..] == [];
      assert Utf16Length(t) == CodeUnits(t[0]);
    }
  }

  /** A name passes exactly when it has at least 2 code units once trimmed. */
  lemma NamePassesIff(name: string)
    ensures NameError(name) == None <==> Utf16Length(Trim(name)) >= 2
  {
  }

  /** An email is "required" exactly when it is all white space. */
  lemma EmailRequiredIff(email: string)
    ensures EmailError(email) == Some(EmailRequired) <==> AllSpace(email)
  {
  }

  /** A non-blank email is rejected as invalid exactly when some-non-space@some-non-space
      .some-non-space occurs nowhere in it, and it passes exactly when that pattern occurs. */
  lemma EmailFormatIff(email: string)
    ensures EmailError(email) == Some(EmailInvalid) <==> !AllSpace(email) && !PatternMatches(email)
    ensures EmailError(email) == None <==> PatternMatches(email)
  {
    LooksLikeEmailIsPattern(email);
    if PatternMatches(email) {
      var i, a, d, e :| MatchSpans(email, i, a, d, e);
      assert !IsSpace(email[a]);
    }
  }

  /** Surrounding white space never changes the email verdict. */
  lemma EmailIgnoresSurroundingSpace(email: string)
    ensures EmailError(email) == EmailError(Trim(email))
  {
    LooksLikeEmailIgnoresTrim(email);
    var t := Trim(email);
    assert Trim(t) == t by {
      if t != [] {
        assert TrimStart(t) == 0;
        assert TrimEnd(t) == |t|;
      }
    }
  }

  /** A message is "required" exactly when it is all white space. */
  lemma MessageRequiredIff(message: string)
    ensures MessageError(message) == Some(MessageRequired) <==> AllSpace(message)
  {
  }

  /** A message passes exactly when it has at least ten code units once trimmed, and a
      non-blank message with fewer is "too short". So ten or more characters always pass, five
      astral characters (ten code units) pass too, and for text in the Basic Multilingual Plane
      the threshold is exactly ten characters. */
  lemma MessageLengthRule(message: string)
    ensures MessageError(message) == None <==> Utf16Length(Trim(message)) >= 10
    ensures MessageError(message) == Some(MessageTooShort) <==>
      !AllSpace(message) && Utf16Length(Trim(message)) < 10
    ensures |Trim(message)| >= 10 ==> MessageError(message) == None
    ensures InBmp(Trim(message)) ==>
      (MessageError(message) == None <==> |Trim(message)| >= 10)
    ensures !IsBlank(message) && InBmp(Trim(message)) && |Trim(message)| < 10 ==>
      MessageError(message) == Some(MessageTooShort)
  {
  }

  /** The name examples: empty, one letter, two letters inside spaces. */
  lemma NameExamples()
    ensures NameError("") == Some(NameRequired)
    ensures NameError("A") == Some(NameTooShort)
    ensures NameError(" Al ") == None
  {
    NameTooShortIff("A");
    assert SkipSpaceForward(" Al ", 1) == 1 && SkipSpaceBackward(" Al ", 1, 3) == 3;
    assert TrimStart(" Al ") == 1 && TrimEnd(" Al ") == 3;
    assert Trim(" Al ") == "Al";
    assert InBmp("Al");
  }

  /** The email examples: empty, no `@`, the shortest usual address. */
  lemma EmailExamples()
    ensures EmailError("") == Some(EmailRequired)
    ensures EmailError("not-an-email") == Some(EmailInvalid)
    ensures EmailError("a@b.co") == None
  {
    NotAnEmailFails();
    ShortAddressPasses();
    assert Trim("a@b.co") != "" by { assert !IsSpace("a@b.co"[0]); }
    assert Trim("not-an-email") != "" by { assert !IsSpace("not-an-email"[0]); }
  }

  /** Exactly ten characters pass the message rule. */
  lemma TenCharactersPass()
    ensures MessageError("1234567890") == None
  {
    MessageLengthRule("1234567890");
  }

  /** Nine characters fail the message rule. */
  lemma NineCharactersFail()
    ensures MessageError("123456789") == Some(MessageTooShort)
  {
    var short := "123456789";
    assert Trim(short) == short by {
      assert TrimStart(short) == 0 && TrimEnd(short) == 9;
    }
    assert InBmp(short);
    assert Utf16Length(short) == 9;
  }

  /** Five astral characters are ten code units, so they pass the message rule. */
  lemma FiveAstralCharactersPass()
    ensures MessageError("\U{1F600}\U{1F600}\U{1F600}\U{1F600}\U{1F600}") == None
  {
    var m := "\U{1F600}\U{1F600}\U{1F600}\U{1F600}\U{1F600}";
    assert Trim(m) == m by {
      assert TrimStart(m) == 0 && TrimEnd(m) == 5;
    }
    assert Utf16Length(m[4..]) == 2;
    assert Utf16Length(m[3..]) == 4;
    assert Utf16Length(m[2..]) == 6;
    assert Utf16Length(m[1..]) == 8;
    assert Utf16Length(m) == 10;
  }
}
