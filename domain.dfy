/** The contact-form record `EmailDto` and its declarative constraints. */
module Domain {
  import opened Wrappers
  import opened Text

  /**
   * The record `EmailDto(name, email, subject, message)`. A record is an
   * immutable value: each accessor returns exactly what was given to the
   * canonical constructor. Any component may be `null`, since the service
   * accepts records that were never validated.
   */
  datatype EmailDto = EmailDto(name: JavaString, email: JavaString, subject: JavaString, message: JavaString)

  /** The `@Size(max = ...)` caps. */
  const MaxNameLength: nat := 100
  const MaxSubjectLength: nat := 150
  const MaxMessageLength: nat := 2000

  /**
   * `@NotBlank`: not `null` and holding at least one character that is not
   * whitespace. Which characters are whitespace is the validator library's
   * choice, so it is a parameter.
   */
  predicate NotBlank(s: JavaString, isWhitespace: char -> bool)
  {
    s.Some? && exists i :: 0 <= i < |s.value| && !isWhitespace(s.value[i])
  }

  /** `@Size(max = m)`: `null` passes; otherwise at most `m` characters. */
  predicate SizeAtMost(s: JavaString, m: nat)
  {
    s.None? || |s.value| <= m
  }

  /** `@Email`: `null` passes; the address syntax is the library's, a parameter. */
  predicate EmailSyntax(s: JavaString, isEmailAddress: string -> bool)
  {
    s.None? || isEmailAddress(s.value)
  }

  /** All constraints declared on the record's components. */
  predicate Valid(dto: EmailDto, isWhitespace: char -> bool, isEmailAddress: string -> bool)
  {
    && NotBlank(dto.name, isWhitespace) && SizeAtMost(dto.name, MaxNameLength)
    && NotBlank(dto.email, isWhitespace) && EmailSyntax(dto.email, isEmailAddress)
    && NotBlank(dto.subject, isWhitespace) && SizeAtMost(dto.subject, MaxSubjectLength)
    && NotBlank(dto.message, isWhitespace) && SizeAtMost(dto.message, MaxMessageLength)
  }

  /** What a valid record guarantees about each component. */
  lemma ValidBounds(dto: EmailDto, isWhitespace: char -> bool, isEmailAddress: string -> bool)
    requires Valid(dto, isWhitespace, isEmailAddress)
    ensures dto.name.Some? && 1 <= |dto.name.value| <= MaxNameLength
    ensures dto.email.Some? && 1 <= |dto.email.value| && isEmailAddress(dto.email.value)
    ensures dto.subject.Some? && 1 <= |dto.subject.value| <= MaxSubjectLength
    ensures dto.message.Some? && 1 <= |dto.message.value| <= MaxMessageLength
  {
  }

  /**
   * The constraints say nothing about markup: a record whose every text
   * component is the markup `<b>` is valid whenever `<` is not whitespace and
   * the address is accepted, which is why the service escapes unconditionally.
   */
  lemma ValidAllowsMarkup(address: string, isWhitespace: char -> bool, isEmailAddress: string -> bool)
    requires !isWhitespace('<') && isEmailAddress(address) && |address| > 0 && !isWhitespace(address[0])
    ensures Valid(EmailDto(Some("<b>"), Some(address), Some("<b>"), Some("<b>")), isWhitespace, isEmailAddress)
  {
    assert "<b>"[0] == '<';
  }
}
