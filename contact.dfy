/**
 * The contact page (pages/Contact.tsx): the message form with its checks, and the FAQ
 * accordion, of which at most one item is open.
 */
module Contact {
  import opened Wrappers
  import opened JsText
  import opened EmailPattern

  /** The message form's four fields. */
  datatype ContactData = ContactData(name: string, email: string, subject: string, message: string)

  const BlankContact := ContactData("", "", "", "")

  /** The inputs of the form, by their `name` attribute. */
  datatype ContactField = NameField | EmailField | SubjectField | MessageField

  /** `{...formData, [e.target.name]: e.target.value}`. */
  function WithField(d: ContactData, f: ContactField, value: string): ContactData
  {
    match f
    case NameField => d.(name := value)
    case EmailField => d.(email := value)
    case SubjectField => d.(subject := value)
    case MessageField => d.(message := value)
  }

  function FieldText(d: ContactData, f: ContactField): string
  {
    match f
    case NameField => d.name
    case EmailField => d.email
    case SubjectField => d.subject
    case MessageField => d.message
  }

  /** An input event sets the field it names to the value and keeps the other three. */
  lemma WithFieldChangesOnlyThatField(d: ContactData, f: ContactField, value: string, g: ContactField)
    ensures FieldText(WithField(d, f, value), g) == if g == f then value else FieldText(d, g)
  {
  }

  datatype StatusKind = SuccessStatus | ErrorStatus

  /** The banner above the form. */
  datatype Status = Status(kind: StatusKind, text: string)

  const RequiredMessage := "Name and Message are required."
  const InvalidEmailMessage := "Please enter a valid email address."
  const SentMessage := "Message sent! An admin will reply via WhatsApp/Email shortly."

  /** The checks of a submission, in order. */
  function ContactError(d: ContactData): Option<string>
  {
    if Trim(d.name) == "" || Trim(d.message) == "" then Some(RequiredMessage)
    else if !MatchesEmailPattern(d.email) then Some(InvalidEmailMessage)
    else None
  }

  /** The name and message are checked first, then the email; the subject plays no part. A
      submission passes exactly when name and message have a non-white-space character and
      the email has the accepted shape. */
  lemma ContactChecks(d: ContactData, subject: string)
    ensures ContactError(d) == Some(RequiredMessage) <==> IsBlank(d.name) || IsBlank(d.message)
    ensures ContactError(d) == Some(InvalidEmailMessage) <==>
      !IsBlank(d.name) && !IsBlank(d.message) && !HasEmailShape(d.email)
    ensures ContactError(d) == None <==> !IsBlank(d.name) && !IsBlank(d.message) && HasEmailShape(d.email)
    ensures ContactError(d.(subject := subject)) == ContactError(d)
  {
    TrimEmptyIffBlank(d.name);
    TrimEmptyIffBlank(d.message);
    EmailPatternIffShape(d.email);
  }

  /** The FAQ item receiving a click: it closes if it was the open one and opens otherwise. */
  function FaqToggled(active: Option<nat>, idx: nat): (r: Option<nat>)
    ensures r == None || r == Some(idx)
  {
    if active == Some(idx) then None else Some(idx)
  }

  /** A click closes the open item, opens any other, and afterwards the open item is the
      clicked one or none. Two clicks on the same item from a closed accordion close it
      again, and from an accordion with another item open leave the clicked item closed. */
  lemma FaqToggleSpec(active: Option<nat>, idx: nat)
    ensures FaqToggled(active, idx) == None <==> active == Some(idx)
    ensures active != Some(idx) ==> FaqToggled(active, idx) == Some(idx)
    ensures active != Some(idx) ==> FaqToggled(FaqToggled(active, idx), idx) == None
    ensures FaqToggled(FaqToggled(None, idx), idx) == None
  {
  }

  class ContactForm {
    var activeFaq: Option<nat>
    var data: ContactData
    var status: Option<Status>

    /** The first FAQ item starts open. */
    constructor ()
      ensures activeFaq == Some(0) && data == BlankContact && status == None
    {
      activeFaq := Some(0);
      data := BlankContact;
      status := None;
    }

    method HandleInputChange(f: ContactField, value: string)
      modifies this`data
      ensures data == WithField(old(data), f, value)
    {
      data := WithField(data, f, value);
    }

    /** `handleSubmit`: a failed check shows its message and keeps the form; a passing
        submission shows the sent message and clears all four fields. */
    method HandleSubmit()
      modifies this`data, this`status
      ensures var err := ContactError(old(data));
        (err.Some? ==> status == Some(Status(ErrorStatus, err.value)) && data == old(data)) &&
        (err.None? ==> status == Some(Status(SuccessStatus, SentMessage)) && data == BlankContact)
    {
      status := None;
      var err := ContactError(data);
      if err.Some? {
        status := Some(Status(ErrorStatus, err.value));
        return;
      }
      status := Some(Status(SuccessStatus, SentMessage));
      data := BlankContact;
    }

    method ToggleFaq(idx: nat)
      modifies this`activeFaq
      ensures activeFaq == FaqToggled(old(activeFaq), idx)
    {
      activeFaq := if activeFaq == Some(idx) then None else Some(idx);
    }
  }
}
