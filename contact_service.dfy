/**
 * `sendContactEmail`: builds the Resend payload from the contact form,
 * hands it to the transport (JSON serialisation and the HTTPS POST, a
 * parameter here) and turns the outcome into success or a thrown
 * `RuntimeException`.
 */
module ContactService {
  import opened Wrappers
  import opened Text
  import opened Domain
  import opened HtmlTemplate
  import opened Decimal

  /** The three `@Value` settings: API key, sender address, recipient address. */
  datatype Config = Config(apiKey: string, from: string, contactMailTo: string)

  /** The JSON body: `from`, `to`, `subject`, `html` and `reply_to`. */
  datatype Payload = Payload(from: string, to: seq<string>, subject: string, html: string, replyTo: string)

  /**
   * Where a throwable sits in Java's hierarchy: a `RuntimeException`, another
   * `Exception` (checked), or an `Error`.
   */
  datatype FaultKind = Runtime | Checked | Error

  /** A throwable: its class, its kind and `getMessage()`, which may be `null`. */
  datatype Fault = Fault(className: string, kind: FaultKind, message: JavaString)

  /** What the transport gives back: a response, or a throwable. */
  datatype TransportOutcome = Response(status: int, body: string) | Threw(fault: Fault)

  /** What `sendContactEmail` does: return normally, or throw. */
  datatype SendOutcome = Sent | Raised(fault: Fault)

  const SubjectPrefix: string := "Portfolio: "
  const RuntimeExceptionClass: string := "java.lang.RuntimeException"
  const NullPointerExceptionClass: string := "java.lang.NullPointerException"
  const ApiErrorPrefix: string := "Resend API error ("
  const ApiErrorInfix: string := "): "
  const WrapPrefix: string := "Error sending contact email: "

  /** What `Map.of` throws for the `null` reply address: a message-less NullPointerException. */
  const NullValueFault: Fault := Fault(NullPointerExceptionClass, Runtime, None)

  /**
   * `Map.of(...)` with the given document: the payload, or the
   * NullPointerException `Map.of` throws when `reply_to` would be `null`.
   * A `null` subject still concatenates, as the text "null".
   */
  function PayloadFor(cfg: Config, dto: EmailDto, html: string): Result<Payload, Fault>
  {
    match dto.email
    case None => Failure(NullValueFault)
    case Some(address) =>
      Success(Payload(cfg.from, [cfg.contactMailTo], SubjectPrefix + Concatenated(dto.subject), html, address))
  }

  /** The 2xx class: the only statuses the service accepts. */
  predicate IsSuccessStatus(status: int)
  {
    200 <= status < 300
  }

  /** The message of the exception thrown for any other status. */
  function ApiErrorMessage(status: int, body: string): string
  {
    ApiErrorPrefix + IntToDecimal(status) + ApiErrorInfix + body
  }

  /** Reads status and body back out of an API error message. */
  function ParseApiError(msg: string): Option<(int, string)>
  {
    if !(ApiErrorPrefix <= msg) then None
    else
      var rest := msg[|ApiErrorPrefix|..];
      var k := IndexOf(rest, ')');
      var status :- ParseInt(rest[..k]);
      if ApiErrorInfix <= rest[k..] then Some((status, rest[k + |ApiErrorInfix|..])) else None
  }

  /** The message a checked exception is wrapped with. */
  function WrapMessage(message: JavaString): string
  {
    WrapPrefix + Concatenated(message)
  }

  /**
   * The status check and the two `catch` clauses: a non-2xx response throws
   * the API error, which the first clause rethrows as it is; runtime
   * exceptions and errors leave unchanged; any other exception is replaced
   * by a RuntimeException carrying its message.
   */
  function Classify(o: TransportOutcome): SendOutcome
  {
    match o
    case Response(status, body) =>
      if IsSuccessStatus(status) then Sent
      else Raised(Fault(RuntimeExceptionClass, Runtime, Some(ApiErrorMessage(status, body))))
    case Threw(f) =>
      if f.kind == Checked then Raised(Fault(RuntimeExceptionClass, Runtime, Some(WrapMessage(f.message))))
      else Raised(f)
  }

  /** The body of `sendContactEmail` once the document `html` is rendered. */
  function Send(cfg: Config, dto: EmailDto, html: string, transport: Payload -> TransportOutcome): SendOutcome
  {
    match PayloadFor(cfg, dto, html)
    case Failure(f) => Classify(Threw(f))
    case Success(p) => Classify(transport(p))
  }

  /** `sendContactEmail(emailDto)` with the given transport. */
  function SendContactEmail(cfg: Config, dto: EmailDto, transport: Payload -> TransportOutcome): SendOutcome
  {
    Send(cfg, dto, BuildHtmlTemplate(dto), transport)
  }

  /**
   * The payload goes to exactly the configured recipient, from the configured
   * sender, answers to the visitor and carries the visitor's subject behind
   * the fixed prefix; only a missing email stops it.
   */
  lemma PayloadForFields(cfg: Config, dto: EmailDto, html: string)
    ensures PayloadFor(cfg, dto, html).Success? <==> dto.email.Some?
    ensures PayloadFor(cfg, dto, html).Failure? ==> PayloadFor(cfg, dto, html).error == NullValueFault
    ensures PayloadFor(cfg, dto, html).Success? ==>
      var p := PayloadFor(cfg, dto, html).value;
      && p.from == cfg.from
      && |p.to| == 1 && p.to[0] == cfg.contactMailTo
      && p.replyTo == dto.email.value
      && p.html == html
      && |p.subject| >= |SubjectPrefix| && p.subject[..|SubjectPrefix|] == SubjectPrefix
      && p.subject[|SubjectPrefix|..] == Concatenated(dto.subject)
  {
    var subject := SubjectPrefix + Concatenated(dto.subject);
    assert subject[..|SubjectPrefix|] == SubjectPrefix;
    assert subject[|SubjectPrefix|..] == Concatenated(dto.subject);
  }

  /** The service returns normally exactly for a 2xx response. */
  lemma ClassifySentIff(o: TransportOutcome)
    ensures Classify(o) == Sent <==> o.Response? && IsSuccessStatus(o.status)
  {
  }

  /** Nothing checked leaves the method: every fault it raises is unchecked or an error. */
  lemma ClassifyRaisesUnchecked(o: TransportOutcome)
    ensures Classify(o).Raised? ==> Classify(o).fault.kind != Checked
  {
  }

  /** Runtime exceptions and errors pass through untouched. */
  lemma ClassifyPropagates(f: Fault)
    requires f.kind != Checked
    ensures Classify(Threw(f)) == Raised(f)
  {
  }

  /** The API error message names the status and carries the response body, and both read back. */
  lemma ParseApiErrorMessage(status: int, body: string)
    ensures ParseApiError(ApiErrorMessage(status, body)) == Some((status, body))
  {
    var d := IntToDecimal(status);
    var msg := ApiErrorMessage(status, body);
    assert msg == ApiErrorPrefix + (d + (ApiErrorInfix + body));
    var rest := msg[|ApiErrorPrefix|..];
    assert rest == d + (ApiErrorInfix + body);
    assert ')' !in d;
    IndexOfSkip(d, ApiErrorInfix + body, ')');
    assert (ApiErrorInfix + body)[0] == ')';
    assert IndexOf(rest, ')') == |d|;
    assert rest[..|d|] == d;
    ParseIntToDecimal(status);
    assert rest[|d|..] == ApiErrorInfix + body;
    assert (ApiErrorInfix + body)[..|ApiErrorInfix|] == ApiErrorInfix;
    assert rest[|d| + |ApiErrorInfix|..] == body;
  }

  /** A non-2xx response raises a RuntimeException whose message gives back status and body. */
  lemma ClassifyApiError(status: int, body: string)
    requires !IsSuccessStatus(status)
    ensures var r := Classify(Response(status, body));
      && r.Raised? && r.fault.className == RuntimeExceptionClass && r.fault.kind == Runtime
      && r.fault.message.Some? && ParseApiError(r.fault.message.value) == Some((status, body))
  {
    ParseApiErrorMessage(status, body);
  }

  /** A checked exception becomes a RuntimeException whose message ends with the original one. */
  lemma ClassifyWraps(f: Fault)
    requires f.kind == Checked
    ensures var r := Classify(Threw(f));
      && r.Raised? && r.fault.className == RuntimeExceptionClass && r.fault.kind == Runtime
      && r.fault.message.Some?
      && |r.fault.message.value| >= |WrapPrefix|
      && r.fault.message.value[..|WrapPrefix|] == WrapPrefix
      && r.fault.message.value[|WrapPrefix|..] == Concatenated(f.message)
  {
    var m := WrapMessage(f.message);
    assert m[..|WrapPrefix|] == WrapPrefix;
    assert m[|WrapPrefix|..] == Concatenated(f.message);
  }

  /** A missing email throws the NullPointerException before the transport is reached. */
  lemma SendNullEmail(cfg: Config, dto: EmailDto, html: string, transport: Payload -> TransportOutcome)
    requires dto.email.None?
    ensures Send(cfg, dto, html, transport) == Raised(NullValueFault)
  {
    PayloadForFields(cfg, dto, html);
    ClassifyPropagates(NullValueFault);
  }

  /**
   * Success exactly when the email is present and the transport answers the
   * payload with a 2xx status.
   */
  lemma SendSentIff(cfg: Config, dto: EmailDto, html: string, transport: Payload -> TransportOutcome)
    ensures Send(cfg, dto, html, transport) == Sent <==>
      PayloadFor(cfg, dto, html).Success?
      && var o := transport(PayloadFor(cfg, dto, html).value); o.Response? && IsSuccessStatus(o.status)
  {
    match PayloadFor(cfg, dto, html)
    case Failure(f) =>
      PayloadForFields(cfg, dto, html);
      ClassifyPropagates(f);
    case Success(p) => ClassifySentIff(transport(p));
  }

  /**
   * A record that passed validation always reaches the transport: its email
   * is present, so the outcome is the classification of the transport's
   * answer to the payload.
   */
  lemma ValidReachesTransport(cfg: Config, dto: EmailDto, html: string, transport: Payload -> TransportOutcome,
                              isWhitespace: char -> bool, isEmailAddress: string -> bool)
    requires Valid(dto, isWhitespace, isEmailAddress)
    ensures PayloadFor(cfg, dto, html).Success?
    ensures Send(cfg, dto, html, transport) == Classify(transport(PayloadFor(cfg, dto, html).value))
  {
    ValidBounds(dto, isWhitespace, isEmailAddress);
    PayloadForFields(cfg, dto, html);
  }

  /** `sendContactEmail` with a `null` email throws the NullPointerException of `Map.of`, whatever the transport. */
  lemma SendContactEmailNullEmail(cfg: Config, dto: EmailDto, transport: Payload -> TransportOutcome)
    requires dto.email.None?
    ensures SendContactEmail(cfg, dto, transport) == Raised(NullValueFault)
  {
    SendNullEmail(cfg, dto, BuildHtmlTemplate(dto), transport);
  }

  /** A 429 with body "rate limited" surfaces as "Resend API error (429): rate limited". */
  lemma RateLimitedMessage()
    ensures Classify(Response(429, "rate limited"))
      == Raised(Fault(RuntimeExceptionClass, Runtime, Some("Resend API error (429): rate limited")))
  {
    assert NatToDecimal(4) == "4";
    assert NatToDecimal(42) == "42";
    assert NatToDecimal(429) == "429";
    assert ApiErrorMessage(429, "rate limited") == "Resend API error (429): rate limited";
  }

  /** A `null` message and the message "null" wrap alike. */
  lemma WrapMessageNull()
    ensures WrapMessage(None) == WrapMessage(Some("null"))
  {
  }
}
