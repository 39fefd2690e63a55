/**
 * The `/send_email` view (app.py:103-136): a chain of checks on the posted
 * JSON, each of which ends the request with a 400, and only then one attempt
 * to send the mail. The mail body comes from a template and is not modelled;
 * a message is its subject and its recipients.
 */
module SendEmail {
  import opened Wrappers
  import opened Json
  import opened Http

  const NoDataMessage := "No data provided"
  const NoRecipientsMessage := "No recipient emails provided"
  const InvalidAddressPrefix := "Invalid email address: "
  const NoResultsMessage := "No search results to include in the email."
  const SentMessage := "Email sent successfully!"
  const SendFailedMessage := "Failed to send email. Please try again later."

  /** The message handed to the mail library: `recipients` is passed on as the
      request gave it. */
  datatype Email = Email(subject: string, recipients: Value)

  /**
   * The mail server as app.py sees it: every attempt is recorded, and whether
   * an attempt goes through is fixed by `delivers`.
   */
  class Mailer {
    var attempts: seq<Email>
    const delivers: Email -> bool

    constructor (delivers: Email -> bool)
      ensures attempts == [] && this.delivers == delivers
    {
      attempts := [];
      this.delivers := delivers;
    }

    /** `mail.send(msg)`; false when it raises. */
    method Send(email: Email) returns (ok: bool)
      modifies this
      ensures attempts == old(attempts) + [email]
      ensures ok == delivers(email)
    {
      attempts := attempts + [email];
      ok := delivers(email);
    }
  }

  /** `isinstance(email, str) and '@' in email`. */
  predicate IsAddress(v: Value) {
    v.Str? && '@' in v.s
  }

  /** The position of the first recipient that is not an address, if any. */
  function FirstInvalid(emails: seq<Value>): (r: Option<nat>)
    ensures r.None? <==> forall i :: 0 <= i < |emails| ==> IsAddress(emails[i])
    ensures r.Some? ==> r.value < |emails| && !IsAddress(emails[r.value]) &&
                        forall i :: 0 <= i < r.value ==> IsAddress(emails[i])
    decreases |emails|
  {
    if |emails| == 0 then None
    else if !IsAddress(emails[0]) then Some(0)
    else
      match FirstInvalid(emails[1..])
      case None => None
      case Some(k) => Some(k + 1)
  }

  /** The loop of app.py:113-116, which stops at the first recipient that is not an address. */
  method CheckRecipients(emails: seq<Value>) returns (r: Option<nat>)
    ensures r == FirstInvalid(emails)
  {
    for i := 0 to |emails|
      invariant forall j :: 0 <= j < i ==> IsAddress(emails[j])
    {
      if !IsAddress(emails[i]) {
        return Some(i);
      }
    }
    return None;
  }

  const SubjectPrefix := "Code Quest Search Results for \""

  /** The subject line; `data` is a dict by the time it is built. The query
      is quoted, and an absent query gives an empty pair of quotes. */
  function Subject(members: seq<(string, Value)>): (r: string)
    ensures forall q :: Lookup(members, "query") == Some(Str(q)) ==> r == SubjectPrefix + q + "\""
    ensures Lookup(members, "query").None? ==> r == SubjectPrefix + "\""
  {
    SubjectPrefix + Format(Field(members, "query", Str(""))) + "\""
  }

  /** `data.get('recipients', [])` once `data` is known to be truthy. */
  function Recipients(data: Value): Result<Value, Fault> {
    Get(data, "recipients", Arr([]))
  }

  /**
   * The checks of app.py:105-121, in their order: the message to send, or the
   * response that ends the request first. An exception none of them catches
   * (`data` or `recipients` of a type without `.get` or iteration) becomes
   * Flask's own 500.
   */
  function Validate(data: Value): (r: Result<Email, Response>)
    ensures r.Ok? ==> data.Obj? && r.value.recipients == Field(data.members, "recipients", Arr([]))
    ensures r.Err? && r.error.Reply? ==> r.error.status == 400
  {
    if !Truthy(data) then Err(Reply(400, ErrorBody(NoDataMessage)))
    else
      match Recipients(data)
      case Err(f) => Err(InternalServerError(f))
      case Ok(recipients) =>
        if !Truthy(recipients) then Err(Reply(400, ErrorBody(NoRecipientsMessage)))
        else
          match Iterate(recipients)
          case Err(f) => Err(InternalServerError(f))
          case Ok(emails) =>
            match FirstInvalid(emails)
            case Some(k) => Err(Reply(400, ErrorBody(InvalidAddressPrefix + Format(emails[k]))))
            case None =>
              if !Truthy(Field(data.members, "stackoverflow", Arr([]))) && !Truthy(Field(data.members, "reddit", Arr([]))) then
                Err(Reply(400, ErrorBody(NoResultsMessage)))
              else
                Ok(Email(Subject(data.members), recipients))
  }

  /** The response to a send attempt. */
  function SendResponse(ok: bool): (r: Response)
    ensures r.Reply? && (r.status == 200 <==> ok) && (!ok ==> r.status == 500)
    ensures ok ==> r.body.Obj? && Lookup(r.body.members, "message") == Some(Str(SentMessage))
    ensures !ok ==> r.body == ErrorBody(SendFailedMessage)
  {
    LookupUnique([("message", Str(SentMessage))], 0);
    if ok then Reply(200, Obj([("message", Str(SentMessage))])) else Reply(500, ErrorBody(SendFailedMessage))
  }

  /** The whole request as a value: the response and the send attempts made,
      when the mail server behaves as `delivers` says. */
  function Outcome(data: Value, delivers: Email -> bool): (r: (Response, seq<Email>))
    ensures |r.1| <= 1 && (r.1 == [] <==> Validate(data).Err?)
    ensures r.1 != [] ==> r.1[0] == Validate(data).value && r.0 == SendResponse(delivers(r.1[0]))
  {
    match Validate(data)
    case Err(resp) => (resp, [])
    case Ok(email) => (SendResponse(delivers(email)), [email])
  }

  /** `send_email()` on the posted JSON `data` (None when the body is JSON null). */
  method SendEmail(m: Mailer, data: Value) returns (resp: Response)
    modifies m
    ensures resp == Outcome(data, m.delivers).0
    ensures m.attempts == old(m.attempts) + Outcome(data, m.delivers).1
  {
    if !Truthy(data) {
      return Reply(400, ErrorBody(NoDataMessage));
    }
    var got := Recipients(data);
    if got.Err? {
      return InternalServerError(got.error);
    }
    var recipientEmails := got.value;
    if !Truthy(recipientEmails) {
      return Reply(400, ErrorBody(NoRecipientsMessage));
    }
    var iterated := Iterate(recipientEmails);
    if iterated.Err? {
      return InternalServerError(iterated.error);
    }
    var emails := iterated.value;
    var invalid := CheckRecipients(emails);
    if invalid.Some? {
      return Reply(400, ErrorBody(InvalidAddressPrefix + Format(emails[invalid.value])));
    }
    var stackOverflowResults := Field(data.members, "stackoverflow", Arr([]));
    var redditResults := Field(data.members, "reddit", Arr([]));
    if !Truthy(stackOverflowResults) && !Truthy(redditResults) {
      return Reply(400, ErrorBody(NoResultsMessage));
    }
    var ok := m.Send(Email(Subject(data.members), recipientEmails));
    resp := SendResponse(ok);
  }

  /** A falsy body (None, an empty dict, an empty list, ...) is refused first. */
  lemma NoDataRejected(data: Value, delivers: Email -> bool)
    ensures !Truthy(data) <==> Outcome(data, delivers) == (Reply(400, ErrorBody(NoDataMessage)), [])
  {
  }

  /** A dict without recipients, or with an empty or falsy list of them, is refused next. */
  lemma NoRecipientsRejected(ms: seq<(string, Value)>)
    requires ms != []
    ensures !Truthy(Field(ms, "recipients", Arr([]))) <==>
              Validate(Obj(ms)) == Err(Reply(400, ErrorBody(NoRecipientsMessage)))
  {
    forall x: string ensures InvalidAddressPrefix + x != NoRecipientsMessage {
      assert (InvalidAddressPrefix + x)[0] != NoRecipientsMessage[0];
    }
    assert NoResultsMessage != NoRecipientsMessage by {
      assert NoResultsMessage[3] != NoRecipientsMessage[3];
    }
  }

  /** With a non-empty list of recipients, the first that is not an address
      string is named in the 400, whatever follows it. */
  lemma FirstInvalidRecipientNamed(ms: seq<(string, Value)>, xs: seq<Value>, k: nat)
    requires ms != [] && Lookup(ms, "recipients") == Some(Arr(xs))
    requires k < |xs| && !IsAddress(xs[k]) && forall i :: 0 <= i < k ==> IsAddress(xs[i])
    ensures Validate(Obj(ms)) == Err(Reply(400, ErrorBody(InvalidAddressPrefix + Format(xs[k]))))
  {
    assert xs != [];
  }

  /** With valid recipients, both result lists missing or empty is refused
      last, with its own 400, and only that is. */
  lemma NoResultsRejected(ms: seq<(string, Value)>, xs: seq<Value>)
    requires ms != [] && Lookup(ms, "recipients") == Some(Arr(xs)) && xs != []
    requires forall i :: 0 <= i < |xs| ==> IsAddress(xs[i])
    ensures (!Truthy(Field(ms, "stackoverflow", Arr([]))) && !Truthy(Field(ms, "reddit", Arr([])))) <==>
              Validate(Obj(ms)) == Err(Reply(400, ErrorBody(NoResultsMessage)))
  {
  }

  /** A message is produced exactly when every check passes: a dict, a
      non-empty iterable of address strings, and at least one non-empty result
      list; it goes to those recipients. */
  lemma ValidateOkIff(data: Value)
    ensures Validate(data).Ok? <==>
      && Truthy(data) && data.Obj?
      && Truthy(Field(data.members, "recipients", Arr([])))
      && Iterate(Field(data.members, "recipients", Arr([]))).Ok?
      && FirstInvalid(Iterate(Field(data.members, "recipients", Arr([]))).value).None?
      && (Truthy(Field(data.members, "stackoverflow", Arr([]))) || Truthy(Field(data.members, "reddit", Arr([]))))
    ensures Validate(data).Ok? ==>
      Validate(data).value == Email(Subject(data.members), Field(data.members, "recipients", Arr([])))
  {
  }

  /** Every response but a successful send is an error, and a send is tried
      only after all checks pass: at most one attempt, and a failed attempt
      answers 500. */
  lemma SendOnlyWhenValid(data: Value, delivers: Email -> bool)
    ensures var (resp, sent) := Outcome(data, delivers);
      && |sent| <= 1
      && (|sent| == 1 <==> Validate(data).Ok?)
      && (|sent| == 1 ==> sent[0] == Validate(data).value)
      && (|sent| == 0 ==> resp == Validate(data).error)
      && (|sent| == 1 && !delivers(sent[0]) ==> resp == Reply(500, ErrorBody(SendFailedMessage)))
      && (resp.Reply? && resp.status == 200 <==> |sent| == 1 && delivers(sent[0]))
  {
  }
}
