/** The contact page: the checks a message passes before it is kept, and the
    list of messages kept in local storage. */
module ContactForm {
  import opened Common

  const RequiredFieldsMessage: string := "Please fill in all required fields"
  const EmailMessage: string := "Please enter a valid email address"
  const PhoneMessage: string := "Please enter a valid phone number"
  const MessageLengthMessage: string := "Please provide a more detailed message (at least 10 characters)"
  const MinMessageLength: nat := 10
  const MinPhoneDigits: nat := 10
  const MaxPhoneDigits: nat := 15
  const PendingStatus: string := "pending"

  /** The six inputs, as their `value` strings. */
  datatype ContactData = ContactData(
    firstName: string,
    lastName: string,
    email: string,
    phone: string,
    subject: string,
    message: string)

  datatype ContactCheck = Accepted | Rejected(message: string)

  // ---------------------------------------------------------------------------
  // The email pattern

  predicate NoSpaceOrAt(t: string) {
    forall i :: 0 <= i < |t| ==> !IsJsWhitespace(t[i]) && t[i] != '@'
  }

  /** What `/^[^\s@]+@[^\s@]+\.[^\s@]+$/` accepts, read off the pattern: three
      non-empty runs free of whitespace and `@`, joined by `@` and by `.`. */
  ghost predicate EmailPattern(s: string) {
    exists a: string, b: string, c: string ::
      |a| > 0 && |b| > 0 && |c| > 0 && NoSpaceOrAt(a) && NoSpaceOrAt(b) && NoSpaceOrAt(c) &&
      s == a + "@" + b + "." + c
  }

  /** A `.` with something on either side of it. */
  predicate HasInnerDot(d: string) {
    exists j :: 1 <= j < |d| - 1 && d[j] == '.'
  }

  /** The same test, computed: no whitespace, a non-empty part before the
      first `@`, no further `@`, and a dot inside what follows. */
  predicate EmailValid(s: string) {
    NoWhitespace(s) &&
    match FirstIndex(s, (ch: char) => ch == '@')
    case None => false
    case Some(k) => k > 0 && NoSpaceOrAt(s[k + 1..]) && HasInnerDot(s[k + 1..])
  }

  /** The computed test is the pattern's. */
  lemma EmailValidIffPattern(s: string)
    ensures EmailValid(s) <==> EmailPattern(s)
  {
    if EmailValid(s) {
      EmailValidGivesPattern(s);
    }
    if EmailPattern(s) {
      var a: string, b: string, c: string :|
        |a| > 0 && |b| > 0 && |c| > 0 && NoSpaceOrAt(a) && NoSpaceOrAt(b) && NoSpaceOrAt(c) &&
        s == a + "@" + b + "." + c;
      PatternGivesEmailValid(a, b, c);
    }
  }

  lemma EmailValidGivesPattern(s: string)
    requires EmailValid(s)
    ensures EmailPattern(s)
  {
    var k := FirstIndex(s, (ch: char) => ch == '@').value;
    var d := s[k + 1..];
    var j :| 1 <= j < |d| - 1 && d[j] == '.';
    var a, b, c := s[..k], d[..j], d[j + 1..];
    assert NoSpaceOrAt(a) by {
      forall i | 0 <= i < |a| ensures !IsJsWhitespace(a[i]) && a[i] != '@' { assert a[i] == s[i]; }
    }
    assert NoSpaceOrAt(b) by {
      forall i | 0 <= i < |b| ensures !IsJsWhitespace(b[i]) && b[i] != '@' { assert b[i] == d[i]; }
    }
    assert NoSpaceOrAt(c) by {
      forall i | 0 <= i < |c| ensures !IsJsWhitespace(c[i]) && c[i] != '@' { assert c[i] == d[j + 1 + i]; }
    }
    assert d == b + "." + c;
    assert s == a + "@" + b + "." + c;
  }

  lemma PatternGivesEmailValid(a: string, b: string, c: string)
    requires |a| > 0 && |b| > 0 && |c| > 0 && NoSpaceOrAt(a) && NoSpaceOrAt(b) && NoSpaceOrAt(c)
    ensures EmailValid(a + "@" + b + "." + c)
  {
    var s := a + "@" + b + "." + c;
    var d := b + "." + c;
    assert s == a + "@" + d;
    assert NoWhitespace(s) by {
      forall i | 0 <= i < |s| ensures !IsJsWhitespace(s[i]) {
        if i < |a| { assert s[i] == a[i]; }
        else if i == |a| { assert s[i] == '@'; }
        else if i < |a| + 1 + |b| { assert s[i] == b[i - |a| - 1]; }
        else if i == |a| + 1 + |b| { assert s[i] == '.'; }
        else { assert s[i] == c[i - |a| - 2 - |b|]; }
      }
    }
    assert FirstIndex(s, (ch: char) => ch == '@') == Some(|a|) by {
      assert s[|a|] == '@';
      forall i | 0 <= i < |a| ensures s[i] != '@' { assert s[i] == a[i]; }
    }
    assert s[|a| + 1..] == d;
    assert NoSpaceOrAt(d) by {
      forall i | 0 <= i < |d| ensures !IsJsWhitespace(d[i]) && d[i] != '@' {
        if i < |b| { assert d[i] == b[i]; }
        else if i > |b| { assert d[i] == c[i - |b| - 1]; }
      }
    }
    assert d[|b|] == '.';
  }

  // ---------------------------------------------------------------------------
  // The checks

  predicate AllRequiredPresent(data: ContactData) {
    data.firstName != "" && data.lastName != "" && data.email != "" && data.subject != "" && data.message != ""
  }

  /** `data.phone && data.phone.trim()` guards the phone check; inside it,
      10 to 15 digits once every other character is dropped. */
  predicate PhoneAcceptable(phone: string) {
    Blank(phone) || MinPhoneDigits <= |StripNonDigits(phone)| <= MaxPhoneDigits
  }

  /** `validateContactForm`: the checks in their order; the first one that
      fails decides the single message shown. */
  function ValidateContactForm(data: ContactData): (r: ContactCheck)
    ensures r == Accepted <==>
              AllRequiredPresent(data) && EmailValid(data.email) && PhoneAcceptable(data.phone) &&
              |data.message| >= MinMessageLength
    ensures !AllRequiredPresent(data) ==> r == Rejected(RequiredFieldsMessage)
    ensures AllRequiredPresent(data) && !EmailValid(data.email) ==> r == Rejected(EmailMessage)
    ensures AllRequiredPresent(data) && EmailValid(data.email) && !PhoneAcceptable(data.phone) ==>
              r == Rejected(PhoneMessage)
    ensures AllRequiredPresent(data) && EmailValid(data.email) && PhoneAcceptable(data.phone) &&
              |data.message| < MinMessageLength ==>
              r == Rejected(MessageLengthMessage)
  {
    if !AllRequiredPresent(data) then Rejected(RequiredFieldsMessage)
    else if !EmailValid(data.email) then Rejected(EmailMessage)
    else if !Blank(data.phone) && !(MinPhoneDigits <= |StripNonDigits(data.phone)| <= MaxPhoneDigits) then
      Rejected(PhoneMessage)
    else if |data.message| < MinMessageLength then Rejected(MessageLengthMessage)
    else Accepted
  }

  /** The phone is optional: empty or whitespace-only passes; a phone of
      digits only passes exactly when it has 10 to 15 of them. */
  lemma PhoneIsOptional(phone: string)
    ensures AllWhitespace(phone) ==> PhoneAcceptable(phone)
    ensures AllDigits(phone) && phone != "" ==> (PhoneAcceptable(phone) <==> MinPhoneDigits <= |phone| <= MaxPhoneDigits)
  {
    StripNonDigitsFixesDigits(phone);
    if AllDigits(phone) && phone != "" {
      assert !IsJsWhitespace(phone[0]);
    }
  }

  /** A message from the form that passed the checks does hold a well-formed
      address by the pattern's own reading. */
  lemma AcceptedEmailMatchesPattern(data: ContactData)
    requires ValidateContactForm(data) == Accepted
    ensures EmailPattern(data.email)
  {
    EmailValidIffPattern(data.email);
  }

  // ---------------------------------------------------------------------------
  // The stored messages

  /** One entry of `contactMessages`: the form data, the time and the status. */
  datatype ContactRecord = ContactRecord(data: ContactData, timestamp: string, status: string)

  /** The list kept in local storage under `contactMessages`. */
  class MessageStore {
    var messages: seq<ContactRecord>

    constructor ()
      ensures messages == []
    {
      messages := [];
    }

    /** `saveContactMessage`: appends one pending record; `timestamp` stands
        for `new Date().toISOString()`. */
    method SaveContactMessage(data: ContactData, timestamp: string)
      modifies this
      ensures messages == old(messages) + [ContactRecord(data, timestamp, PendingStatus)]
    {
      messages := messages + [ContactRecord(data, timestamp, PendingStatus)];
    }

    /** `handleContactSubmission`: the checks, then the save when they pass. */
    method HandleContactSubmission(data: ContactData, timestamp: string) returns (r: ContactCheck)
      modifies this
      ensures r == ValidateContactForm(data)
      ensures r == Accepted ==> messages == old(messages) + [ContactRecord(data, timestamp, PendingStatus)]
      ensures r != Accepted ==> messages == old(messages)
    {
      r := ValidateContactForm(data);
      if r == Accepted {
        SaveContactMessage(data, timestamp);
      }
    }
  }
}
