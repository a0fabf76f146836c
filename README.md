# Contact-email service: a Dafny model

This project models the core of a small Spring Boot backend that relays a
portfolio contact form as an email through the Resend HTTP API:

- `EmailDto`, the form record, with its `@NotBlank`, `@Size` and `@Email`
  constraints (`domain.dfy`);
- `escapeHtml`, five whole-string `replace` passes that turn `&`, `<`, `>`,
  `"` and `'` into character references (`html_escape.dfy`);
- `buildHtmlTemplate`, a fixed HTML document whose five `%s` slots receive the
  escaped name, email, email, subject and message (`html_template.dfy`);
- `sendContactEmail`, which builds the JSON payload, hands it to the transport
  and turns the outcome into a normal return or a thrown `RuntimeException`
  (`contact_service.dfy`).

Supporting modules: `wrappers.dfy` (`Option`, `Result`), `text.dfy` (Java's
`null` in string concatenation, first-occurrence search) and `decimal.dfy`
(Java's decimal rendering of an `int`, used in the API error message).

Java `String` references are `Option<string>`, with `None` for `null`.
`escapeHtml` and the record accept `null`, and `"Portfolio: " + null` gives
`"Portfolio: null"`. A Java record is an immutable value, and so is a Dafny
datatype. Each accessor returns the value given at construction.

The document is described as a `Layout`: the six literal segments around the
five slots. Filling a layout and reading it back are proved for every layout
whose segments delimit their slots. A slot ends at the first `<` after it, or
at the first `"` for the `href` value. `ContactLayout` is the source's own text
block: the 16-space common indentation is removed, whitespace-only lines are
empty, `%%` is reduced to `%` and a final line break is kept. Separate lemmas
show that `ContactLayout` is such a layout. The payload and outcome lemmas are
likewise stated for any rendered document `html`. `SendContactEmail` is `Send`
applied to `BuildHtmlTemplate(dto)`.

Exceptions are values. A `Fault` records a throwable's class, whether it is a
`RuntimeException`, a checked `Exception` or an `Error`, and its message,
which may be `null`. The transport stands for JSON serialisation and the HTTPS
POST. It is a function parameter from `Payload` to either a response (status
and body) or a thrown `Fault`.

`sendContactEmail` returns `void` and signals failure by throwing. It
rethrows runtime exceptions and errors unchanged, and a `null` email reaches
the caller as the `NullPointerException` from `Map.of`. This revision has only
the HTTP transport, and the document's field labels are Spanish (`Nombre`,
`Email`, `Asunto`, `Mensaje`).

## Model

| member | source | states |
|---|---|---|
| `HtmlEscape.EscapeHtml` | src/main/java/com/spring/mail/sender/mail/service/EmailServiceImpl.java:173-181 | `escapeHtml`: `null` gives `""`, otherwise the five passes. Its properties are stated by `EscapeHtmlIsEscapeMap`, `EscapeHtmlNoMarkup`, `EscapeHtmlAmpersands`, `EscapeHtmlLength`, `EscapeHtmlUnchangedIff`, `UnescapeEscapeHtml` and `EscapeHtmlInjective` |
| `HtmlEscape.ReplaceChain` | src/main/java/com/spring/mail/sender/mail/service/EmailServiceImpl.java:175-180 | The five `replace` passes in source order. `ReplaceChainIsEscapeMap`, `ReplaceChainChar` and `ReplaceChainAppend` state what they compute |
| `HtmlEscape.Replace` | src/main/java/com/spring/mail/sender/mail/service/EmailServiceImpl.java:176-180 | One `replace` pass with a one-character target: it changes nothing when the target is absent, leaves no target behind when the replacement has none, and adds only characters that come from the input or the replacement |
| `HtmlEscape.EscapeHtmlIsEscapeMap` | src/main/java/com/spring/mail/sender/mail/service/EmailServiceImpl.java:173-181 | `escapeHtml(null)` is `""`, and any string is defined and maps to its per-character escape, so `escapeHtml` never fails |
| `HtmlEscape.ReplaceChainIsEscapeMap` | src/main/java/com/spring/mail/sender/mail/service/EmailServiceImpl.java:175-180 | The five sequential passes equal one left-to-right per-character substitution `&`→`&amp;`, `<`→`&lt;`, `>`→`&gt;`, `"`→`&quot;`, `'`→`&#39;` |
| `HtmlEscape.ReplaceChainChar` | src/main/java/com/spring/mail/sender/mail/service/EmailServiceImpl.java:175-180 | On a single character the five passes give that character's reference (the character itself when it is not special), because `&` goes first and no later pass meets its target in an earlier reference |
| `HtmlEscape.ReplaceChainAppend` | src/main/java/com/spring/mail/sender/mail/service/EmailServiceImpl.java:175-180 | The five passes distribute over concatenation |
| `HtmlEscape.AmpersandLastDoubleEscapes` | src/main/java/com/spring/mail/sender/mail/service/EmailServiceImpl.java:176-177 | The order matters: replacing `&` after `<` would turn `<` into `&amp;lt;`, while the source order gives `&lt;` |
| `HtmlEscape.EscapeHtmlNoMarkup` | src/main/java/com/spring/mail/sender/mail/service/EmailServiceImpl.java:176-180 | The output of `escapeHtml` contains no `<`, `>`, `"` or `'` |
| `HtmlEscape.EscapeHtmlAmpersands` | src/main/java/com/spring/mail/sender/mail/service/EmailServiceImpl.java:175-180 | Every `&` in the output begins one of the five references |
| `HtmlEscape.EscapeHtmlLength` | src/main/java/com/spring/mail/sender/mail/service/EmailServiceImpl.java:175-180 | Output length is the input length plus 4 per `&`, 3 per `<`, 3 per `>`, 5 per `"` and 4 per `'` |
| `HtmlEscape.EscapeHtmlUnchangedIff` | src/main/java/com/spring/mail/sender/mail/service/EmailServiceImpl.java:175-180 | A string comes back unchanged if and only if it holds none of the five special characters |
| `HtmlEscape.UnescapeEscapeHtml` | src/main/java/com/spring/mail/sender/mail/service/EmailServiceImpl.java:173-181 | Decoding the five references in the output recovers the input exactly |
| `HtmlEscape.EscapeHtmlInjective` | src/main/java/com/spring/mail/sender/mail/service/EmailServiceImpl.java:173-181 | Two strings with the same escape are equal |
| `HtmlTemplate.Render` | src/main/java/com/spring/mail/sender/mail/service/EmailServiceImpl.java:64-170 | The text block filled with the five escaped values in the order of lines 165-169. `ParseRender` and `HrefValue` state its properties for every delimited layout |
| `HtmlTemplate.BuildHtmlTemplate` | src/main/java/com/spring/mail/sender/mail/service/EmailServiceImpl.java:64-170 | `buildHtmlTemplate` on the source's own document `ContactLayout`. `ParseBuildHtmlTemplate` and `BuildHtmlTemplateHref` state its properties |
| `HtmlTemplate.ParseRender` | src/main/java/com/spring/mail/sender/mail/service/EmailServiceImpl.java:64-170 | In any delimited layout, reading the filled document back gives name, email, subject and message in their slots (`null` as empty), with the same email in both email slots |
| `HtmlTemplate.ContactLayoutDelimited` | src/main/java/com/spring/mail/sender/mail/service/EmailServiceImpl.java:66-163 | The source's document is delimited: a `<` follows the name, link-text, subject and message slots and a `"` follows the `href` slot |
| `HtmlTemplate.ParseBuildHtmlTemplate` | src/main/java/com/spring/mail/sender/mail/service/EmailServiceImpl.java:64-170 | `buildHtmlTemplate` places escaped name, email, email, subject and message in the slots at lines 101, 114, 115, 129 and 143, and each reads back exactly |
| `HtmlTemplate.HrefValue` | src/main/java/com/spring/mail/sender/mail/service/EmailServiceImpl.java:114 | Right after `<a href="mailto:` comes exactly the escaped email, then the template's own closing `"`, which is the first `"` after the attribute opens, so the email cannot close the attribute early |
| `HtmlTemplate.BuildHtmlTemplateHref` | src/main/java/com/spring/mail/sender/mail/service/EmailServiceImpl.java:114-115 | In `buildHtmlTemplate`'s output `<a href="mailto:` is followed by exactly the escaped email and then the template's own closing `"`, the first `"` after the attribute opens |
| `HtmlTemplate.ContactLayoutHref` | src/main/java/com/spring/mail/sender/mail/service/EmailServiceImpl.java:114 | In the source's document the segment before the email slot ends with `<a href="mailto:` and the segment after it starts with `"` |
| `Decimal.NatToDecimal` | src/main/java/com/spring/mail/sender/mail/service/EmailServiceImpl.java:55 | The decimal text of a non-negative status is non-empty, all digits, has no leading zero, starts with `0` only for zero and denotes the value |
| `Decimal.IntToDecimal` | src/main/java/com/spring/mail/sender/mail/service/EmailServiceImpl.java:55 | `Integer.toString`: a leading `-` exactly when the value is negative, then digits without a leading zero whose value is the magnitude |
| `Decimal.ParseIntToDecimal` | src/main/java/com/spring/mail/sender/mail/service/EmailServiceImpl.java:55 | The status printed into the error message reads back as the same value |
| `Domain.NotBlank` | src/main/java/com/spring/mail/sender/mail/domain/EmailDto.java:8 | `@NotBlank`: non-null with at least one non-whitespace character. `ValidBounds` states its consequence |
| `Domain.SizeAtMost` | src/main/java/com/spring/mail/sender/mail/domain/EmailDto.java:9 | `@Size(max = m)`: `null` passes, otherwise at most `m` characters. `ValidBounds` states the caps of lines 9, 17 and 21 |
| `Domain.EmailSyntax` | src/main/java/com/spring/mail/sender/mail/domain/EmailDto.java:13 | `@Email`: `null` passes, otherwise the address predicate holds. `ValidBounds` states its consequence |
| `Domain.Valid` | src/main/java/com/spring/mail/sender/mail/domain/EmailDto.java:7-23 | All declared constraints together. `ValidBounds`, `ValidAllowsMarkup` and `ValidReachesTransport` state what they guarantee |
| `Domain.ValidBounds` | src/main/java/com/spring/mail/sender/mail/domain/EmailDto.java:7-23 | A valid record has every component non-null and non-empty, name of at most 100, subject of at most 150 and message of at most 2000 characters, and an accepted email address |
| `Domain.ValidAllowsMarkup` | src/main/java/com/spring/mail/sender/mail/domain/EmailDto.java:7-23 | The constraints admit markup: a record whose text components are `<b>` is valid, so escaping is needed whatever validation passed |
| `ContactService.PayloadFor` | src/main/java/com/spring/mail/sender/mail/service/EmailServiceImpl.java:37-43 | The `Map.of` payload, or the NullPointerException for a `null` email. Its fields are stated by `PayloadForFields` |
| `ContactService.Classify` | src/main/java/com/spring/mail/sender/mail/service/EmailServiceImpl.java:54-61 | The status check and both `catch` clauses. `ClassifySentIff`, `ClassifyApiError`, `ClassifyPropagates`, `ClassifyWraps` and `ClassifyRaisesUnchecked` state its properties |
| `ContactService.ApiErrorMessage` | src/main/java/com/spring/mail/sender/mail/service/EmailServiceImpl.java:55 | The API error message. `ParseApiErrorMessage` shows that status and body read back from it |
| `ContactService.WrapMessage` | src/main/java/com/spring/mail/sender/mail/service/EmailServiceImpl.java:60 | The wrapping message for a checked exception. `ClassifyWraps` and `WrapMessageNull` state its properties |
| `ContactService.Send` | src/main/java/com/spring/mail/sender/mail/service/EmailServiceImpl.java:34-62 | The body of `sendContactEmail` for a rendered document. `SendSentIff`, `SendNullEmail` and `ValidReachesTransport` state its properties |
| `ContactService.SendContactEmail` | src/main/java/com/spring/mail/sender/mail/service/EmailServiceImpl.java:34-62 | `sendContactEmail`: `Send` with the document of `buildHtmlTemplate`. `SendContactEmailNullEmail` states its result for a `null` email |
| `ContactService.PayloadForFields` | src/main/java/com/spring/mail/sender/mail/service/EmailServiceImpl.java:37-43 | The payload exists if and only if the email is non-null, and otherwise `Map.of` throws a NullPointerException. It has the configured sender, exactly one recipient (the configured one), `"Portfolio: "` followed by the subject, the rendered document and the visitor's email as `reply_to` |
| `ContactService.ClassifySentIff` | src/main/java/com/spring/mail/sender/mail/service/EmailServiceImpl.java:54-61 | The call returns normally if and only if the transport answers with a status in [200, 300) |
| `ContactService.ClassifyApiError` | src/main/java/com/spring/mail/sender/mail/service/EmailServiceImpl.java:54-58 | Any other status throws a RuntimeException, and its message gives back that status and the response body verbatim |
| `ContactService.ParseApiErrorMessage` | src/main/java/com/spring/mail/sender/mail/service/EmailServiceImpl.java:55 | `"Resend API error (" + status + "): " + body` can be read back into the status and body |
| `ContactService.ClassifyPropagates` | src/main/java/com/spring/mail/sender/mail/service/EmailServiceImpl.java:57-58 | Runtime exceptions and errors leave unchanged |
| `ContactService.ClassifyWraps` | src/main/java/com/spring/mail/sender/mail/service/EmailServiceImpl.java:59-60 | A checked exception becomes a RuntimeException whose message is `"Error sending contact email: "` followed by the original message |
| `ContactService.ClassifyRaisesUnchecked` | src/main/java/com/spring/mail/sender/mail/service/EmailServiceImpl.java:34-62 | No checked exception leaves `sendContactEmail` |
| `ContactService.SendSentIff` | src/main/java/com/spring/mail/sender/mail/service/EmailServiceImpl.java:34-62 | `sendContactEmail` returns normally if and only if the payload is built and the transport answers it with a 2xx status |
| `ContactService.SendNullEmail` | src/main/java/com/spring/mail/sender/mail/service/EmailServiceImpl.java:37-43 | A `null` email throws the NullPointerException of `Map.of`, and the transport plays no part |
| `ContactService.SendContactEmailNullEmail` | src/main/java/com/spring/mail/sender/mail/service/EmailServiceImpl.java:34-62 | The same for `sendContactEmail` with its own rendered document |
| `ContactService.ValidReachesTransport` | src/main/java/com/spring/mail/sender/mail/service/EmailServiceImpl.java:34-62 | A record that passes validation always gets a payload, and the result is the classification of the transport's answer |
| `ContactService.RateLimitedMessage` | src/main/java/com/spring/mail/sender/mail/service/EmailServiceImpl.java:54-55 | A 429 with body `rate limited` throws a RuntimeException with message `Resend API error (429): rate limited` |
| `ContactService.WrapMessageNull` | src/main/java/com/spring/mail/sender/mail/service/EmailServiceImpl.java:59-60 | A checked exception with a `null` message wraps to the same text as one whose message is `"null"` |

## Left out

- The HTTP exchange itself is a parameter of `Send` and `SendContactEmail`. This covers `HttpClient.send`, the JSON serialisation by `ObjectMapper`, the request URI and the `Authorization: Bearer` and `Content-Type` headers. Whatever these return or throw is an input to the model.
- The API key is carried in `Config` but used by nothing in the model, because only the header construction reads it.
- The `@Value` settings are plain `Config` values. They are never `null`, since a missing property stops the application before any request.
- `@Email` address syntax and the whitespace set of `@NotBlank` come from the validator library. They are predicate parameters of `Domain.Valid`.
- A `null` `EmailDto` is not modelled: no caller in this revision passes one (the controller does not call `sendContactEmail`).
- `String.formatted` is modelled only for this document's five `%s` slots and its `%%` escapes, not as a general format-string parser.
- Strings are sequences of characters. UTF-16 code units, surrogate pairs and the JSON encoding of the payload are not modelled.
- The controller, the `IEmailService` interface and `EmailFileDto` are not part of this model. They hold routing, logging, uploaded-file storage and interface declarations only.
- The interrupt status that an `InterruptedException` from the transport would leave cleared is not modelled. Such an exception is wrapped like any checked exception.
