/**
 * The contact form (`Contact`): four text fields, a submitting flag and an
 * idle/success/error status. The submit handler awaits a `fetch` to the hosted form
 * backend; it is modelled as `BeginSubmit` (before the await) and `CompleteSubmit` (the
 * outcome of the fetch, then the `finally` block). The 3-second timer that the `finally`
 * block schedules is the separate event `StatusTimerExpired`.
 */
module ContactForm {
  import opened Wrappers

  datatype Field = Name | Email | Subject | MessageText

  datatype FormData = FormData(name: string, email: string, subject: string, message: string)

  const EmptyForm := FormData("", "", "", "")

  datatype Status = Idle | Success | Error

  /** The outcome of the form backend's `fetch`: it threw, or a response arrived with its `ok` flag. */
  datatype Outcome = FetchThrew | Responded(ok: bool)

  /** The value of one field. */
  function Get(f: FormData, field: Field): string {
    match field
    case Name => f.name
    case Email => f.email
    case Subject => f.subject
    case MessageText => f.message
  }

  /** `{ ...prev, [field]: value }`: the edited field takes the value, the other three keep theirs. */
  function With(f: FormData, field: Field, value: string): (r: FormData)
    ensures Get(r, field) == value
    ensures forall g :: g != field ==> Get(r, g) == Get(f, g)
  {
    match field
    case Name => f.(name := value)
    case Email => f.(email := value)
    case Subject => f.(subject := value)
    case MessageText => f.(message := value)
  }

  /** The JSON object posted, `JSON.stringify(formData)`, as its members in order. */
  function Payload(f: FormData): (p: seq<(string, string)>)
    ensures |p| == 4 && p[0].0 == "name" && p[1].0 == "email" && p[2].0 == "subject" && p[3].0 == "message"
  {
    [("name", f.name), ("email", f.email), ("subject", f.subject), ("message", f.message)]
  }

  /** Reads a posted payload back into the four fields, as the form backend does. */
  function ParsePayload(p: seq<(string, string)>): Option<FormData> {
    if |p| == 4 && p[0].0 == "name" && p[1].0 == "email" && p[2].0 == "subject" && p[3].0 == "message"
    then Some(FormData(p[0].1, p[1].1, p[2].1, p[3].1))
    else None
  }

  /** The payload carries every field: reading it back gives the form that was posted. */
  lemma PayloadRoundTrip(f: FormData)
    ensures ParsePayload(Payload(f)) == Some(f)
  {
  }

  /** The banner under the form: shown exactly when the status is not idle, with the status's text. */
  function Banner(s: Status): (b: Option<string>)
    ensures b.None? <==> s == Idle
    ensures s == Success ==> b == Some("Message sent successfully!")
    ensures s == Error ==> b == Some("Something went wrong. Please try again.")
  {
    match s
    case Idle => None
    case Success => Some("Message sent successfully!")
    case Error => Some("Something went wrong. Please try again.")
  }

  /** The status and form after the fetch settles: success clears the form, any failure keeps it. */
  function Settle(form: FormData, outcome: Outcome): (r: (Status, FormData))
    ensures r.0 == Success <==> outcome == Responded(true)
    ensures r.0 != Success ==> r.0 == Error && r.1 == form
    ensures r.0 == Success ==> forall g :: Get(r.1, g) == ""
  {
    match outcome
    case Responded(true) => (Success, EmptyForm)
    case _ => (Error, form)
  }

  class Contact {
    var formData: FormData
    var isSubmitting: bool
    var submitStatus: Status

    constructor ()
      ensures formData == EmptyForm && !isSubmitting && submitStatus == Idle
    {
      formData := EmptyForm;
      isSubmitting := false;
      submitStatus := Idle;
    }

    /** The `onChange` of one input: that field takes the typed value, nothing else changes. */
    method Edit(field: Field, value: string)
      modifies this
      ensures formData == With(old(formData), field, value)
      ensures isSubmitting == old(isSubmitting) && submitStatus == old(submitStatus)
    {
      formData := With(formData, field, value);
    }

    /** `handleSubmit` up to the await: raises the submitting flag and posts the current fields. */
    method BeginSubmit() returns (payload: seq<(string, string)>)
      modifies this
      ensures isSubmitting
      ensures payload == Payload(formData)
      ensures formData == old(formData) && submitStatus == old(submitStatus)
    {
      isSubmitting := true;
      payload := Payload(formData);
    }

    /** `handleSubmit` after the await, through its `finally`: the status is settled and submitting ends on every path. */
    method CompleteSubmit(outcome: Outcome)
      modifies this
      ensures !isSubmitting
      ensures (submitStatus, formData) == Settle(old(formData), outcome)
    {
      if outcome == Responded(true) {
        submitStatus := Success;
        formData := EmptyForm;
      } else {
        submitStatus := Error;
      }
      isSubmitting := false;
    }

    /** The 3-second timer fires: the status returns to idle whatever it was; the fields are untouched. */
    method StatusTimerExpired()
      modifies this
      ensures submitStatus == Idle
      ensures formData == old(formData) && isSubmitting == old(isSubmitting)
    {
      submitStatus := Idle;
    }

    /** One whole submit with nothing in between. */
    method Submit(outcome: Outcome) returns (payload: seq<(string, string)>)
      modifies this
      ensures payload == Payload(old(formData))
      ensures !isSubmitting
      ensures (submitStatus, formData) == Settle(old(formData), outcome)
    {
      payload := BeginSubmit();
      CompleteSubmit(outcome);
    }
  }

  /** Re-typing a field's own value changes nothing, and edits of two different fields commute. */
  lemma {:induction false} EditsCommute(f: FormData, a: Field, x: string, b: Field, y: string)
    requires a != b
    ensures With(f, a, Get(f, a)) == f
    ensures With(With(f, a, x), b, y) == With(With(f, b, y), a, x)
  {
    match a
    case Name =>
    case Email =>
    case Subject =>
    case MessageText =>
  }

  /** Every settled submit shows a banner until the timer: the success text exactly when the backend answered ok. */
  lemma SettledSubmitShowsBanner(form: FormData, outcome: Outcome)
    ensures Banner(Settle(form, outcome).0) ==
      if outcome == Responded(true) then Some("Message sent successfully!")
      else Some("Something went wrong. Please try again.")
  {
  }
}
