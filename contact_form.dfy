/** The contact form (`ContactForm`): four fields with length and e-mail rules; a form
    that passes is sent and then cleared. */
module ContactForm {

  datatype ContactField = Name | Email | Company | Message

  /** The form's values; an untouched input submits the empty string. */
  datatype Contact = Contact(name: string, email: string, company: string, message: string)

  const EmptyContact := Contact("", "", "", "")

  function ContactMessage(f: ContactField): string {
    match f
    case Name => "Name must be at least 2 characters"
    case Email => "Please enter a valid email address"
    case Company => "Company name must be at least 2 characters"
    case Message => "Message must be at least 10 characters"
  }

  /** `contactSchema`'s rule for one field; `isEmail` stands for the e-mail check. */
  predicate ContactFieldOk(c: Contact, f: ContactField, isEmail: string -> bool) {
    match f
    case Name => |c.name| >= 2
    case Email => isEmail(c.email)
    case Company => |c.company| >= 2
    case Message => |c.message| >= 10
  }

  /** The errors the resolver reports: each failing field with its message. */
  function ContactErrors(c: Contact, isEmail: string -> bool): (r: map<ContactField, string>)
    ensures forall f :: f in r <==> !ContactFieldOk(c, f, isEmail)
    ensures forall f :: f in r ==> r[f] == ContactMessage(f)
  {
    map f: ContactField | !ContactFieldOk(c, f, isEmail) :: ContactMessage(f)
  }

  /** The browser's own constraint check, which runs before the resolver because the form
      does not set `noValidate`: name, e-mail and company are `required`, and the e-mail
      input is `type="email"`. `browserEmail` stands for the browser's e-mail syntax check;
      the message is not `required`. */
  predicate BrowserAccepts(c: Contact, browserEmail: string -> bool) {
    c.name != "" && c.company != "" && c.email != "" && browserEmail(c.email)
  }

  /** What pressing "Send Message" leads to: the browser stops the submit (no resolver
      errors appear), the resolver's errors are shown, or the values are handed to
      `onSubmit` together with the form's values once the call has finished. */
  datatype Outcome = Blocked
                   | Rejected(errors: map<ContactField, string>)
                   | Sent(data: Contact, after: Contact)

  /** The browser's check, then `handleSubmit(onSubmit)`: `onSubmit` runs only on a form
      that passes every rule, and the form is reset once it is done. */
  function Submit(c: Contact, browserEmail: string -> bool, isEmail: string -> bool)
    : (r: Outcome)
    ensures r.Blocked? <==> !BrowserAccepts(c, browserEmail)
    ensures r.Sent? <==> BrowserAccepts(c, browserEmail) && forall f :: ContactFieldOk(c, f, isEmail)
    ensures r.Sent? ==> r.data == c && r.after == EmptyContact
    ensures r.Rejected? ==> r.errors == ContactErrors(c, isEmail) && r.errors != map[]
  {
    var errs := ContactErrors(c, isEmail);
    if !BrowserAccepts(c, browserEmail) then
      Blocked
    else if errs == map[] then
      assert forall f :: ContactFieldOk(c, f, isEmail) by {
        forall f ensures ContactFieldOk(c, f, isEmail) {
          assert f !in errs;
        }
      }
      Sent(c, EmptyContact)
    else
      Rejected(errs)
  }

  /** A form is sent exactly when the browser lets it through, the name and company have
      at least two characters, the message at least ten, and the e-mail is accepted. When
      every address the schema accepts is non-empty and accepted by the browser too, the
      schema's rules alone decide. */
  lemma SubmitSentIff(c: Contact, browserEmail: string -> bool, isEmail: string -> bool)
    ensures Submit(c, browserEmail, isEmail).Sent? <==>
      BrowserAccepts(c, browserEmail)
      && |c.name| >= 2 && isEmail(c.email) && |c.company| >= 2 && |c.message| >= 10
    ensures (forall e :: isEmail(e) ==> e != "" && browserEmail(e)) ==>
      (Submit(c, browserEmail, isEmail).Sent? <==>
         |c.name| >= 2 && isEmail(c.email) && |c.company| >= 2 && |c.message| >= 10)
  {
    if |c.name| >= 2 && isEmail(c.email) && |c.company| >= 2 && |c.message| >= 10 {
      assert forall f :: ContactFieldOk(c, f, isEmail);
    } else {
      assert !ContactFieldOk(c, Name, isEmail) || !ContactFieldOk(c, Email, isEmail)
          || !ContactFieldOk(c, Company, isEmail) || !ContactFieldOk(c, Message, isEmail);
    }
  }

  /** Once the browser lets the form through, a nine-character message is refused with the
      message rule's text, whatever the other fields hold. */
  lemma NineCharacterMessageRefused(c: Contact, browserEmail: string -> bool,
                                    isEmail: string -> bool)
    requires BrowserAccepts(c, browserEmail)
    requires |c.message| == 9
    ensures Submit(c, browserEmail, isEmail).Rejected?
    ensures Submit(c, browserEmail, isEmail).errors[Message]
         == "Message must be at least 10 characters"
  {
    assert !ContactFieldOk(c, Message, isEmail);
  }

  /** The empty form never reaches the resolver: the browser stops it on the required name,
      so no error message appears. */
  lemma EmptyContactBlocked(browserEmail: string -> bool, isEmail: string -> bool)
    ensures Submit(EmptyContact, browserEmail, isEmail).Blocked?
  {
  }

  /** A one-letter name passes the browser's `required` check, so the schema refuses it. */
  lemma OneLetterNameRejected(c: Contact, browserEmail: string -> bool, isEmail: string -> bool)
    requires BrowserAccepts(c, browserEmail) && |c.name| == 1
    ensures Submit(c, browserEmail, isEmail).Rejected?
    ensures Submit(c, browserEmail, isEmail).errors[Name] == "Name must be at least 2 characters"
  {
    assert !ContactFieldOk(c, Name, isEmail);
  }
}
