/**
 * The contact form (src/components/sections/Contact.tsx): its field updates, the
 * two-step submit (the status goes to loading at once; a later callback validates the
 * form as it was when submitted), the submit-disabled and message-shown rules, and the
 * sound toggle.
 */
module Contact {

  datatype FormData = FormData(name: string, email: string, subject: string, message: string)

  /** The `name` attributes of the form's four inputs. */
  datatype Field = Name | Email | Subject | Message

  datatype StatusKind = Idle | Loading | Success | Error

  datatype FormStatus = FormStatus(kind: StatusKind, message: string)

  const LOADING_MESSAGE: string := "Sending transmission..."
  const SUCCESS_MESSAGE: string := "Message received! The transponder snail is happy! \U{1F40C}"
  const ERROR_MESSAGE: string := "Please fill in all required fields!"

  /** Every field empty: the initial form and the form after a successful submit. */
  const EMPTY_FORM: FormData := FormData("", "", "", "")

  /** The initial status: idle, with no message. */
  const IDLE_STATUS: FormStatus := FormStatus(Idle, "")

  /** The value of one field. */
  function Get(f: FormData, field: Field): string
  {
    match field
    case Name => f.name
    case Email => f.email
    case Subject => f.subject
    case Message => f.message
  }

  /** `{ ...prev, [name]: value }`: the named field takes the value, the others keep theirs. */
  function WithField(f: FormData, field: Field, value: string): (r: FormData)
    ensures Get(r, field) == value
    ensures forall g :: g != field ==> Get(r, g) == Get(f, g)
  {
    match field
    case Name => f.(name := value)
    case Email => f.(email := value)
    case Subject => f.(subject := value)
    case Message => f.(message := value)
  }

  /** Name, email and message are all non-empty; the subject is optional. */
  predicate Complete(f: FormData)
  {
    f.name != "" && f.email != "" && f.message != ""
  }

  /** The subject never decides whether a form is complete. */
  lemma SubjectIsOptional(f: FormData, subject: string)
    ensures Complete(f.(subject := subject)) == Complete(f)
  {
  }

  /** The status the delayed callback sets for the submitted form. */
  function Outcome(submitted: FormData): (s: FormStatus)
    ensures s.kind == Success <==> Complete(submitted)
    ensures s.kind == Success || s.kind == Error
    ensures s.kind == Success ==> s.message == SUCCESS_MESSAGE
    ensures s.kind == Error ==> s.message == ERROR_MESSAGE
  {
    if Complete(submitted) then FormStatus(Success, SUCCESS_MESSAGE) else FormStatus(Error, ERROR_MESSAGE)
  }

  /** The submit button is disabled exactly while a submission is in flight. */
  predicate SubmitDisabled(s: FormStatus)
  {
    s.kind == Loading
  }

  /** A status message is rendered exactly when its text is non-empty. */
  predicate ShowsMessage(s: FormStatus)
  {
    s.message != ""
  }

  /** The idle status shows nothing; loading and both outcomes show their text. */
  lemma MessagesShown(f: FormData)
    ensures !ShowsMessage(IDLE_STATUS) && !SubmitDisabled(IDLE_STATUS)
    ensures ShowsMessage(FormStatus(Loading, LOADING_MESSAGE)) && SubmitDisabled(FormStatus(Loading, LOADING_MESSAGE))
    ensures ShowsMessage(Outcome(f)) && !SubmitDisabled(Outcome(f))
  {
  }

  /** The component's three state cells. */
  class ContactForm {
    var form: FormData
    var status: FormStatus
    var soundEnabled: bool

    constructor ()
      ensures form == EMPTY_FORM && status == IDLE_STATUS && !soundEnabled
    {
      form := EMPTY_FORM;
      status := IDLE_STATUS;
      soundEnabled := false;
    }

    /** A change event from the input named `field`. */
    method InputChange(field: Field, value: string)
      modifies this
      ensures form == WithField(old(form), field, value)
      ensures status == old(status) && soundEnabled == old(soundEnabled)
    {
      form := WithField(form, field, value);
    }

    /**
     * The submit handler's synchronous part: the status becomes loading. Its result is
     * the form data the delayed callback closes over.
     */
    method StartSubmit() returns (snapshot: FormData)
      modifies this
      ensures snapshot == form == old(form)
      ensures status == FormStatus(Loading, LOADING_MESSAGE)
      ensures soundEnabled == old(soundEnabled)
    {
      status := FormStatus(Loading, LOADING_MESSAGE);
      snapshot := form;
    }

    /**
     * The delayed callback, run with the form data captured at submit time: success
     * clears the form, whatever it holds by now; an error leaves it as it is.
     */
    method ResolveSubmit(snapshot: FormData)
      modifies this
      ensures status == Outcome(snapshot)
      ensures Complete(snapshot) ==> form == EMPTY_FORM
      ensures !Complete(snapshot) ==> form == old(form)
      ensures soundEnabled == old(soundEnabled)
    {
      if snapshot.name != "" && snapshot.email != "" && snapshot.message != "" {
        status := FormStatus(Success, SUCCESS_MESSAGE);
        form := EMPTY_FORM;
      } else {
        status := FormStatus(Error, ERROR_MESSAGE);
      }
    }

    method ToggleSound()
      modifies this
      ensures soundEnabled == !old(soundEnabled)
      ensures form == old(form) && status == old(status)
    {
      soundEnabled := !soundEnabled;
    }
  }
}
