/**
 * `buildHtmlTemplate`: a fixed document whose five `%s` slots are filled,
 * in order, by the escaped name, email, email, subject and message.
 *
 * The document is described first as a `Layout`, the six literal segments
 * around the slots, and everything about filling and reading back a layout
 * is proved for every layout whose segments delimit their slots. The
 * source's own document, `ContactLayout`, is then shown to be such a layout.
 */
module HtmlTemplate {
  import opened Wrappers
  import opened Text
  import opened Domain
  import opened HtmlEscape

  /** The literal text before, between and after the five slots. */
  datatype Layout = Layout(
    beforeName: string,
    afterName: string,
    afterHref: string,
    afterLinkText: string,
    afterSubject: string,
    afterMessage: string)

  /** `String.formatted` on the layout: the five values in slot order. */
  function Fill(l: Layout, name: string, href: string, linkText: string, subject: string, message: string): string
  {
    l.beforeName + (name + (l.afterName + (href + (l.afterHref + (linkText + (l.afterLinkText
      + (subject + (l.afterSubject + (message + l.afterMessage)))))))))
  }

  /**
   * Each segment after a slot holds the character that escaped text cannot
   * contain and that therefore marks the slot's end: `"` after the `href`
   * value, `<` after the others.
   */
  predicate Delimited(l: Layout)
  {
    '<' in l.afterName && '"' in l.afterHref && '<' in l.afterLinkText && '<' in l.afterSubject && '<' in l.afterMessage
  }

  /** The four texts a reader recovers from a rendered document. */
  datatype ContactText = ContactText(name: string, email: string, subject: string, message: string)

  /** The text `escapeHtml` starts from: `null` reads as empty. */
  function Plain(s: JavaString): string
  {
    s.GetOr("")
  }

  /**
   * Cuts a slot value off the front of `d`: the value ends where `sep`
   * begins, found from the first `stop` in `d`; returns the value and what
   * follows `sep`.
   */
  function TakeField(d: string, sep: string, stop: char): Option<(string, string)>
  {
    var j, k := IndexOf(sep, stop), IndexOf(d, stop);
    if j == |sep| || k < j then None
    else
      var start := k - j;
      if sep <= d[start..] then Some((d[..start], d[start + |sep|..])) else None
  }

  /**
   * Reads a document back: checks every literal segment, cuts out the five
   * slot values, demands that the two email slots agree and decodes the
   * character references.
   */
  function Parse(l: Layout, html: string): Option<ContactText>
  {
    if !(l.beforeName <= html) then None
    else
      var f1 :- TakeField(html[|l.beforeName|..], l.afterName, '<');
      var f2 :- TakeField(f1.1, l.afterHref, '"');
      var f3 :- TakeField(f2.1, l.afterLinkText, '<');
      var f4 :- TakeField(f3.1, l.afterSubject, '<');
      var f5 :- TakeField(f4.1, l.afterMessage, '<');
      if f5.1 == [] && f2.0 == f3.0 then
        Some(ContactText(Unescape(f1.0), Unescape(f2.0), Unescape(f4.0), Unescape(f5.0)))
      else None
  }

  /** `buildHtmlTemplate` on a layout: every slot gets its value escaped. */
  function Render(l: Layout, dto: EmailDto): string
  {
    var email := EscapeHtml(dto.email);
    Fill(l, EscapeHtml(dto.name), email, email, EscapeHtml(dto.subject), EscapeHtml(dto.message))
  }

  lemma TakeFieldOf(v: string, sep: string, rest: string, stop: char)
    requires stop in sep && stop !in v
    ensures TakeField(v + (sep + rest), sep, stop) == Some((v, rest))
  {
    var d := v + (sep + rest);
    IndexOfSkip(v, sep + rest, stop);
    IndexOfWithin(sep, rest, stop);
    assert d[|v|..] == sep + rest;
    assert (sep + rest)[..|sep|] == sep;
    assert d[..|v|] == v;
    assert d[|v| + |sep|..] == rest;
  }

  lemma UnescapePlain(s: JavaString)
    ensures Unescape(EscapeHtml(s)) == Plain(s)
  {
    if s.Some? {
      UnescapeEscapeHtml(s.value);
    }
  }

  /**
   * Field placement: in any delimited layout, reading the filled document
   * back yields the four record components (null as empty), with the same
   * email in the `href` and in the link text. No value can end its slot
   * early, since escaped text has no `<` and no `"`.
   */
  lemma ParseRender(l: Layout, dto: EmailDto)
    requires Delimited(l)
    ensures Parse(l, Render(l, dto)) == Some(ContactText(Plain(dto.name), Plain(dto.email), Plain(dto.subject), Plain(dto.message)))
  {
    var n, e, s, m := EscapeHtml(dto.name), EscapeHtml(dto.email), EscapeHtml(dto.subject), EscapeHtml(dto.message);
    EscapeHtmlNoMarkup(dto.name);
    EscapeHtmlNoMarkup(dto.email);
    EscapeHtmlNoMarkup(dto.subject);
    EscapeHtmlNoMarkup(dto.message);
    var d5 := m + (l.afterMessage + []);
    var d4 := s + (l.afterSubject + d5);
    var d3 := e + (l.afterLinkText + d4);
    var d2 := e + (l.afterHref + d3);
    var d1 := n + (l.afterName + d2);
    assert l.afterMessage + [] == l.afterMessage;
    var html := Render(l, dto);
    assert html == l.beforeName + d1;
    assert html[..|l.beforeName|] == l.beforeName;
    assert html[|l.beforeName|..] == d1;
    TakeFieldOf(n, l.afterName, d2, '<');
    TakeFieldOf(e, l.afterHref, d3, '"');
    TakeFieldOf(e, l.afterLinkText, d4, '<');
    TakeFieldOf(s, l.afterSubject, d5, '<');
    TakeFieldOf(m, l.afterMessage, [], '<');
    UnescapePlain(dto.name);
    UnescapePlain(dto.email);
    UnescapePlain(dto.subject);
    UnescapePlain(dto.message);
  }

  /**
   * In a layout whose name segment ends by opening `href="mailto:` and whose
   * next segment starts with the closing quote, the attribute value is
   * exactly the escaped email: it has no `"` of its own, so the quote that
   * follows it is the one the template wrote.
   */
  lemma HrefValue(l: Layout, dto: EmailDto)
    requires |l.afterName| >= |HrefOpen| && l.afterName[|l.afterName| - |HrefOpen|..] == HrefOpen
    requires |l.afterHref| > 0 && l.afterHref[0] == '"'
    ensures var html, e, k := Render(l, dto), EscapeHtml(dto.email), |l.beforeName| + |EscapeHtml(dto.name)| + |l.afterName|;
      && k + |e| < |html|
      && html[k - |HrefOpen|..k] == HrefOpen
      && html[k..k + |e|] == e
      && html[k + |e|] == '"'
      && IndexOf(html[k..], '"') == |e|
  {
    EscapeHtmlNoMarkup(dto.email);
    FillHref(l, EscapeHtml(dto.name), EscapeHtml(dto.email), EscapeHtml(dto.subject), EscapeHtml(dto.message));
  }

  lemma FillHref(l: Layout, n: string, e: string, s: string, m: string)
    requires |l.afterName| >= |HrefOpen| && l.afterName[|l.afterName| - |HrefOpen|..] == HrefOpen
    requires |l.afterHref| > 0 && l.afterHref[0] == '"'
    requires '"' !in e
    ensures var html, k := Fill(l, n, e, e, s, m), |l.beforeName| + |n| + |l.afterName|;
      && k + |e| < |html|
      && html[k - |HrefOpen|..k] == HrefOpen
      && html[k..k + |e|] == e
      && html[k + |e|] == '"'
      && IndexOf(html[k..], '"') == |e|
  {
    var post := l.afterHref + (e + (l.afterLinkText + (s + (l.afterSubject + (m + l.afterMessage)))));
    var pre := l.beforeName + (n + l.afterName);
    assert Fill(l, n, e, e, s, m) == pre + (e + post) by {
      Regroup(l.beforeName, n, l.afterName, e + post);
    }
    assert pre[|pre| - |HrefOpen|..] == l.afterName[|l.afterName| - |HrefOpen|..] by {
      SuffixOfAppend(l.beforeName + n, l.afterName, |HrefOpen|);
    }
    assert |pre| == |l.beforeName| + |n| + |l.afterName|;
    HrefSlot(pre, e, post);
  }

  /**
   * The reply link of a rendered document: `HrefOpen` ends at position `k`,
   * the escaped email fills the attribute from there, and the first `"`
   * after `k` is the one that follows it.
   */
  predicate HrefHolds(l: Layout, dto: EmailDto)
  {
    var html, e, k := Render(l, dto), EscapeHtml(dto.email), |l.beforeName| + |EscapeHtml(dto.name)| + |l.afterName|;
    && |HrefOpen| <= k
    && k + |e| < |html|
    && html[k - |HrefOpen|..k] == HrefOpen
    && html[k..k + |e|] == e
    && html[k + |e|] == '"'
    && IndexOf(html[k..], '"') == |e|
  }

  lemma HrefHoldsOf(l: Layout, dto: EmailDto)
    requires |l.afterName| >= |HrefOpen| && l.afterName[|l.afterName| - |HrefOpen|..] == HrefOpen
    requires |l.afterHref| > 0 && l.afterHref[0] == '"'
    ensures HrefHolds(l, dto)
  {
    HrefValue(l, dto);
  }

  /** A document split at the value of an attribute opened by `HrefOpen`. */
  lemma HrefSlot(pre: string, e: string, post: string)
    requires |pre| >= |HrefOpen| && pre[|pre| - |HrefOpen|..] == HrefOpen
    requires '"' !in e && |post| > 0 && post[0] == '"'
    ensures var html, k := pre + (e + post), |pre|;
      && k + |e| < |html|
      && html[k - |HrefOpen|..k] == HrefOpen
      && html[k..k + |e|] == e
      && html[k + |e|] == '"'
      && IndexOf(html[k..], '"') == |e|
  {
    var html, k := pre + (e + post), |pre|;
    assert html[k - |HrefOpen|..k] == pre[k - |HrefOpen|..];
    assert html[k..] == e + post;
    assert (e + post)[..|e|] == e;
    assert html[k + |e|] == post[0];
    IndexOfSkip(e, post, '"');
    IndexOfWithin(post, [], '"');
    assert post + [] == post;
  }

  /** Appending in front keeps a suffix. */
  lemma SuffixOfAppend(a: string, b: string, m: nat)
    requires m <= |b|
    ensures (a + b)[|a + b| - m..] == b[|b| - m..]
  {
  }

  /** A document regroups after its third piece. */
  lemma Regroup(a: string, b: string, c: string, rest: string)
    ensures a + (b + (c + rest)) == a + (b + c) + rest
  {
  }

  const Indent4: string := "    "
  const Indent8: string := "        "
  const Indent12: string := "            "
  const Indent16: string := "                "
  const Indent20: string := "                    "
  const Indent24: string := "                        "
  const Indent28: string := "                            "
  const Indent32: string := "                                "
  const Indent36: string := "                                    "
  const Indent40: string := "                                        "
  const Indent44: string := "                                            "

  /** The opening of the reply link that the email slot completes. */
  const HrefOpen: string := "<a href=\"mailto:"

  /** Lines 66 to 100 of the text block and the indentation of the name slot. */
  const NameSlotPrefix: string :=
    "<!DOCTYPE html>\n" +
    "<html lang=\"es\">\n" +
    "<head>\n" +
    Indent4 + "<meta charset=\"UTF-8\">\n" +
    Indent4 + "<meta name=\"viewport\" content=\"width=device-width, " +
    "initial-scale=1.0\">\n" +
    "</head>\n" +
    "<body style=\"margin: 0; padding: 0; background-color: #0a0a0a; " +
    "font-family: 'Inter', 'Segoe UI', Roboto, sans-serif;\">\n" +
    Indent4 + "<table role=\"presentation\" width=\"100%\" cellpadding=\"0\" " +
    "cellspacing=\"0\" style=\"background-color: #0a0a0a; " +
    "padding: 40px 20px;\">\n" +
    Indent8 + "<tr>\n" +
    Indent12 + "<td align=\"center\">\n" +
    Indent16 + "<table role=\"presentation\" width=\"600\" cellpadding=\"0\" " +
    "cellspacing=\"0\" style=\"max-width: 600px; width: 100%;\">\n" +
    Indent20 + "<!-- Gradient top bar -->\n" +
    Indent20 + "<tr>\n" +
    Indent24 + "<td style=\"height: 3px; " +
    "background: linear-gradient(to right, #00f5ff, #8b5cf6); " +
    "border-radius: 12px 12px 0 0;\"></td>\n" +
    Indent20 + "</tr>\n" +
    Indent20 + "<!-- Main card -->\n" +
    Indent20 + "<tr>\n" +
    Indent24 + "<td style=\"background-color: #1a1a1a; border: 1px solid #27272a; " +
    "border-top: none; border-radius: 0 0 12px 12px; padding: 40px 36px;\">\n" +
    "\n" +
    Indent28 + "<!-- Title -->\n" +
    Indent28 + "<h1 style=\"margin: 0 0 8px 0; font-size: 22px; font-weight: 700; " +
    "color: #ffffff;\">\n" +
    Indent32 + "\U{2709}\U{FE0F} Nuevo mensaje de contacto\n" +
    Indent28 + "</h1>\n" +
    Indent28 + "<p style=\"margin: 0 0 32px 0; font-size: 14px; color: #71717a;\">\n" +
    Indent32 + "Alguien te ha contactado desde tu portfolio\n" +
    Indent28 + "</p>\n" +
    "\n" +
    Indent28 + "<!-- Name field -->\n" +
    Indent28 + "<table role=\"presentation\" width=\"100%\" cellpadding=\"0\" " +
    "cellspacing=\"0\" style=\"margin-bottom: 20px;\">\n" +
    Indent32 + "<tr>\n" +
    Indent36 + "<td style=\"padding: 16px; background-color: #242424; " +
    "border-radius: 8px;\">\n" +
    Indent40 + "<p style=\"margin: 0 0 4px 0; font-size: 11px; font-weight: 600; " +
    "text-transform: uppercase; letter-spacing: 1px; color: #00f5ff;\">\n" +
    Indent44 + "Nombre\n" +
    Indent40 + "</p>\n" +
    Indent40 + "<p style=\"margin: 0; font-size: 15px; color: #e4e4e7;\">\n" +
    Indent44

  /** From the end of the name slot (line 101) to the `mailto:` of line 114. */
  const AfterName: string := NameToLink + HrefOpen

  /** `AfterName` up to the opening of the reply link. */
  const NameToLink: string :=
    "\n" +
    Indent40 + "</p>\n" +
    Indent36 + "</td>\n" +
    Indent32 + "</tr>\n" +
    Indent28 + "</table>\n" +
    "\n" +
    Indent28 + "<!-- Email field -->\n" +
    Indent28 + "<table role=\"presentation\" width=\"100%\" cellpadding=\"0\" " +
    "cellspacing=\"0\" style=\"margin-bottom: 20px;\">\n" +
    Indent32 + "<tr>\n" +
    Indent36 + "<td style=\"padding: 16px; background-color: #242424; " +
    "border-radius: 8px;\">\n" +
    Indent40 + "<p style=\"margin: 0 0 4px 0; font-size: 11px; font-weight: 600; " +
    "text-transform: uppercase; letter-spacing: 1px; color: #00f5ff;\">\n" +
    Indent44 + "Email\n" +
    Indent40 + "</p>\n" +
    Indent40

  /** From the quote closing the `href` attribute to the indentation of the link text (line 115). */
  const AfterHref: string :=
    "\"" + " style=\"font-size: 15px; color: #8b5cf6; text-decoration: none;\">\n" +
    Indent44

  /** From the end of the link text (line 115) to the indentation of the subject slot (line 129). */
  const AfterLinkText: string :=
    "\n" +
    Indent40 + "</a>\n" +
    Indent36 + "</td>\n" +
    Indent32 + "</tr>\n" +
    Indent28 + "</table>\n" +
    "\n" +
    Indent28 + "<!-- Subject field -->\n" +
    Indent28 + "<table role=\"presentation\" width=\"100%\" cellpadding=\"0\" " +
    "cellspacing=\"0\" style=\"margin-bottom: 20px;\">\n" +
    Indent32 + "<tr>\n" +
    Indent36 + "<td style=\"padding: 16px; background-color: #242424; " +
    "border-radius: 8px;\">\n" +
    Indent40 + "<p style=\"margin: 0 0 4px 0; font-size: 11px; font-weight: 600; " +
    "text-transform: uppercase; letter-spacing: 1px; color: #00f5ff;\">\n" +
    Indent44 + "Asunto\n" +
    Indent40 + "</p>\n" +
    Indent40 + "<p style=\"margin: 0; font-size: 15px; color: #e4e4e7;\">\n" +
    Indent44

  /** From the end of the subject slot (line 129) to the indentation of the message slot (line 143). */
  const AfterSubject: string :=
    "\n" +
    Indent40 + "</p>\n" +
    Indent36 + "</td>\n" +
    Indent32 + "</tr>\n" +
    Indent28 + "</table>\n" +
    "\n" +
    Indent28 + "<!-- Message field -->\n" +
    Indent28 + "<table role=\"presentation\" width=\"100%\" cellpadding=\"0\" " +
    "cellspacing=\"0\" style=\"margin-bottom: 24px;\">\n" +
    Indent32 + "<tr>\n" +
    Indent36 + "<td style=\"padding: 20px; background-color: #242424; " +
    "border-left: 3px solid #00f5ff; border-radius: 0 8px 8px 0;\">\n" +
    Indent40 + "<p style=\"margin: 0 0 8px 0; font-size: 11px; font-weight: 600; " +
    "text-transform: uppercase; letter-spacing: 1px; color: #00f5ff;\">\n" +
    Indent44 + "Mensaje\n" +
    Indent40 + "</p>\n" +
    Indent40 + "<p style=\"margin: 0; font-size: 15px; line-height: 1.6; " +
    "color: #e4e4e7; white-space: pre-wrap;\">\n" +
    Indent44

  /** From the end of the message slot (line 143) to the end of the document. */
  const AfterMessage: string :=
    "\n" +
    Indent40 + "</p>\n" +
    Indent36 + "</td>\n" +
    Indent32 + "</tr>\n" +
    Indent28 + "</table>\n" +
    "\n" +
    Indent28 + "<!-- Divider -->\n" +
    Indent28 + "<hr style=\"border: none; border-top: 1px solid #27272a; " +
    "margin: 24px 0;\">\n" +
    "\n" +
    Indent28 + "<!-- Footer -->\n" +
    Indent28 + "<p style=\"margin: 0; font-size: 12px; color: #71717a; " +
    "text-align: center;\">\n" +
    Indent32 + "Este mensaje fue enviado desde el formulario de contacto de tu " +
    "portfolio.\n" +
    Indent28 + "</p>\n" +
    Indent24 + "</td>\n" +
    Indent20 + "</tr>\n" +
    Indent16 + "</table>\n" +
    Indent12 + "</td>\n" +
    Indent8 + "</tr>\n" +
    Indent4 + "</table>\n" +
    "</body>\n" +
    "</html>\n"

  /** The document `buildHtmlTemplate` writes. */
  const ContactLayout: Layout := Layout(NameSlotPrefix, AfterName, AfterHref, AfterLinkText, AfterSubject, AfterMessage)

  /** `buildHtmlTemplate(emailDto)`. */
  function BuildHtmlTemplate(dto: EmailDto): string
  {
    Render(ContactLayout, dto)
  }

  /** A reader of the documents `buildHtmlTemplate` writes. */
  function ParseContactHtml(html: string): Option<ContactText>
  {
    Parse(ContactLayout, html)
  }

  lemma AfterNameDelimited()
    ensures '<' in AfterName
  {
    assert AfterName[41] == '<';
  }

  lemma AfterHrefDelimited()
    ensures '"' in AfterHref
  {
    assert AfterHref[0] == '"';
  }

  lemma AfterLinkTextDelimited()
    ensures '<' in AfterLinkText
  {
    assert AfterLinkText[41] == '<';
  }

  lemma AfterSubjectDelimited()
    ensures '<' in AfterSubject
  {
    assert AfterSubject[41] == '<';
  }

  lemma AfterMessageDelimited()
    ensures '<' in AfterMessage
  {
    assert AfterMessage[41] == '<';
  }

  /** The source's document delimits its five slots. */
  lemma ContactLayoutDelimited()
    ensures Delimited(ContactLayout)
  {
    AfterNameDelimited();
    AfterHrefDelimited();
    AfterLinkTextDelimited();
    AfterSubjectDelimited();
    AfterMessageDelimited();
  }

  /**
   * Each of the four components lands in its labelled field and can be read
   * back exactly (a `null` component as the empty string).
   */
  lemma ParseBuildHtmlTemplate(dto: EmailDto)
    ensures ParseContactHtml(BuildHtmlTemplate(dto)) == Some(ContactText(Plain(dto.name), Plain(dto.email), Plain(dto.subject), Plain(dto.message)))
  {
    ContactLayoutDelimited();
    ParseRender(ContactLayout, dto);
  }

  /** The source's document opens the reply link right before the email slot and closes its quote right after. */
  lemma ContactLayoutHref()
    ensures |AfterName| >= |HrefOpen| && AfterName[|AfterName| - |HrefOpen|..] == HrefOpen
    ensures |AfterHref| > 0 && AfterHref[0] == '"'
  {
    SuffixOfAppend(NameToLink, HrefOpen, |HrefOpen|);
    AfterHrefDelimited();
  }

  /**
   * In `buildHtmlTemplate`'s output the escaped email is exactly the value of
   * `href="mailto:…"`, closed by the template's own quote.
   */
  lemma BuildHtmlTemplateHref(dto: EmailDto)
    ensures HrefHolds(ContactLayout, dto)
  {
    ContactLayoutHref();
    HrefHoldsOf(ContactLayout, dto);
  }
}
