/**
 * `escapeHtml`: five whole-string `replace` passes that turn the five
 * characters with a meaning in HTML markup into character references
 * (section 13.1.4 of the WHATWG HTML Living Standard), and what follows
 * from the order in which the passes run.
 */
module HtmlEscape {
  import opened Wrappers
  import opened Text

  const AmpEntity: string := "&amp;"
  const LtEntity: string := "&lt;"
  const GtEntity: string := "&gt;"
  const QuotEntity: string := "&quot;"
  const AposEntity: string := "&#39;"

  /** The five characters `escapeHtml` rewrites. */
  predicate IsSpecial(c: char)
  {
    c == '&' || c == '<' || c == '>' || c == '"' || c == '\''
  }

  /** The four characters that may open or close a tag or an attribute value. */
  predicate IsMarkup(c: char)
  {
    c == '<' || c == '>' || c == '"' || c == '\''
  }

  /**
   * `String.replace(target, replacement)` with a one-character target: each
   * occurrence of `target`, left to right, becomes `replacement`.
   */
  function Replace(s: string, target: char, replacement: string): (r: string)
    ensures target !in s ==> r == s
    ensures target !in replacement ==> target !in r
    ensures forall c :: c in r && c !in replacement ==> c in s
  {
    if s == [] then []
    else (if s[0] == target then replacement else [s[0]]) + Replace(s[1..], target, replacement)
  }

  /** The `escapeHtml` method itself: `null` gives the empty string, otherwise the five passes in source order. */
  function EscapeHtml(input: JavaString): (r: string)
  {
    match input
    case None => ""
    case Some(s) => ReplaceChain(s)
  }

  /** The five passes on a non-null string. */
  function ReplaceChain(s: string): string
  {
    Replace(Replace(Replace(Replace(Replace(s, '&', AmpEntity), '<', LtEntity), '>', GtEntity), '"', QuotEntity), '\'', AposEntity)
  }

  /** The reference of one character: the character itself unless it is special. */
  function EscapeChar(c: char): string
  {
    match c
    case '&' => AmpEntity
    case '<' => LtEntity
    case '>' => GtEntity
    case '"' => QuotEntity
    case '\'' => AposEntity
    case _ => [c]
  }

  /** Escaping in a single left-to-right pass, one character at a time. */
  function EscapeMap(s: string): string
  {
    if s == [] then [] else EscapeChar(s[0]) + EscapeMap(s[1..])
  }

  /**
   * The decoder a reader of the HTML applies to text: each of the five
   * references becomes its character; everything else is kept.
   */
  function Unescape(t: string): string
    decreases |t|
  {
    if t == [] then []
    else if AmpEntity <= t then ['&'] + Unescape(t[|AmpEntity|..])
    else if LtEntity <= t then ['<'] + Unescape(t[|LtEntity|..])
    else if GtEntity <= t then ['>'] + Unescape(t[|GtEntity|..])
    else if QuotEntity <= t then ['"'] + Unescape(t[|QuotEntity|..])
    else if AposEntity <= t then ['\''] + Unescape(t[|AposEntity|..])
    else [t[0]] + Unescape(t[1..])
  }

  /** `t` begins with one of the five references. */
  predicate StartsWithEntity(t: string)
  {
    AmpEntity <= t || LtEntity <= t || GtEntity <= t || QuotEntity <= t || AposEntity <= t
  }

  /** The number of occurrences of `c` in `s`. */
  function Count(s: string, c: char): nat
  {
    if s == [] then 0 else (if s[0] == c then 1 else 0) + Count(s[1..], c)
  }

  // ---------------------------------------------------------------------
  // The five passes equal the single per-character map.

  lemma {:induction false} ReplaceAppend(a: string, b: string, target: char, replacement: string)
    ensures Replace(a + b, target, replacement) == Replace(a, target, replacement) + Replace(b, target, replacement)
  {
    if a == [] {
      assert a + b == b;
    } else {
      assert (a + b)[0] == a[0];
      assert (a + b)[1..] == a[1..] + b;
      ReplaceAppend(a[1..], b, target, replacement);
    }
  }

  lemma ReplaceChainAppend(a: string, b: string)
    ensures ReplaceChain(a + b) == ReplaceChain(a) + ReplaceChain(b)
  {
    var a1, b1 := Replace(a, '&', AmpEntity), Replace(b, '&', AmpEntity);
    ReplaceAppend(a, b, '&', AmpEntity);
    var a2, b2 := Replace(a1, '<', LtEntity), Replace(b1, '<', LtEntity);
    ReplaceAppend(a1, b1, '<', LtEntity);
    var a3, b3 := Replace(a2, '>', GtEntity), Replace(b2, '>', GtEntity);
    ReplaceAppend(a2, b2, '>', GtEntity);
    var a4, b4 := Replace(a3, '"', QuotEntity), Replace(b3, '"', QuotEntity);
    ReplaceAppend(a3, b3, '"', QuotEntity);
    ReplaceAppend(a4, b4, '\'', AposEntity);
  }

  /** Replacing a character that occurs once, alone. */
  lemma ReplaceSingle(c: char, target: char, replacement: string)
    ensures Replace([c], target, replacement) == if c == target then replacement else [c]
  {
    assert [c][1..] == [];
  }

  /** No reference holds a markup character. */
  lemma EntityHasNoMarkup(c: char)
    ensures forall i :: 0 <= i < |EscapeChar(c)| ==> !IsMarkup(EscapeChar(c)[i]) || EscapeChar(c) == [c]
  {
  }

  /** A pass whose target is absent leaves the string alone. */
  lemma ReplaceAbsent(s: string, target: char, replacement: string)
    requires forall i :: 0 <= i < |s| ==> s[i] != target
    ensures Replace(s, target, replacement) == s
  {
  }

  /**
   * On one character the chain yields that character's reference: no text a
   * pass inserts holds the target of a later pass, and `&`, the one
   * character every reference contains, is handled first.
   */
  lemma ReplaceChainChar(c: char)
    ensures ReplaceChain([c]) == EscapeChar(c)
  {
    match c
    case '&' => ChainOnAmp();
    case '<' => ChainOnLt();
    case '>' => ChainOnGt();
    case '"' => ChainOnQuot();
    case '\'' => ChainOnApos();
    case _ => ChainOnOther(c);
  }

  /** The later passes leave a reference alone once it is written. */
  lemma LaterPassesKeep(e: string, from: nat)
    requires 1 <= from <= 5
    requires forall i :: 0 <= i < |e| ==> !IsMarkup(e[i])
    ensures from <= 1 ==> Replace(e, '<', LtEntity) == e
    ensures from <= 2 ==> Replace(e, '>', GtEntity) == e
    ensures from <= 3 ==> Replace(e, '"', QuotEntity) == e
    ensures from <= 4 ==> Replace(e, '\'', AposEntity) == e
  {
    ReplaceAbsent(e, '<', LtEntity);
    ReplaceAbsent(e, '>', GtEntity);
    ReplaceAbsent(e, '"', QuotEntity);
    ReplaceAbsent(e, '\'', AposEntity);
  }

  lemma ChainOnAmp()
    ensures ReplaceChain("&") == AmpEntity
  {
    ReplaceSingle('&', '&', AmpEntity);
    EntityHasNoMarkup('&');
    LaterPassesKeep(AmpEntity, 1);
  }

  lemma ChainOnLt()
    ensures ReplaceChain("<") == LtEntity
  {
    ReplaceSingle('<', '&', AmpEntity);
    ReplaceSingle('<', '<', LtEntity);
    EntityHasNoMarkup('<');
    LaterPassesKeep(LtEntity, 2);
  }

  lemma ChainOnGt()
    ensures ReplaceChain(">") == GtEntity
  {
    ReplaceSingle('>', '&', AmpEntity);
    ReplaceSingle('>', '<', LtEntity);
    ReplaceSingle('>', '>', GtEntity);
    EntityHasNoMarkup('>');
    LaterPassesKeep(GtEntity, 3);
  }

  lemma ChainOnQuot()
    ensures ReplaceChain("\"") == QuotEntity
  {
    ReplaceSingle('"', '&', AmpEntity);
    ReplaceSingle('"', '<', LtEntity);
    ReplaceSingle('"', '>', GtEntity);
    ReplaceSingle('"', '"', QuotEntity);
    EntityHasNoMarkup('"');
    LaterPassesKeep(QuotEntity, 4);
  }

  lemma ChainOnApos()
    ensures ReplaceChain("'") == AposEntity
  {
    ReplaceSingle('\'', '&', AmpEntity);
    ReplaceSingle('\'', '<', LtEntity);
    ReplaceSingle('\'', '>', GtEntity);
    ReplaceSingle('\'', '"', QuotEntity);
    ReplaceSingle('\'', '\'', AposEntity);
  }

  lemma ChainOnOther(c: char)
    requires !IsSpecial(c)
    ensures ReplaceChain([c]) == [c]
  {
    ReplaceSingle(c, '&', AmpEntity);
    ReplaceSingle(c, '<', LtEntity);
    ReplaceSingle(c, '>', GtEntity);
    ReplaceSingle(c, '"', QuotEntity);
    ReplaceSingle(c, '\'', AposEntity);
  }

  /** The five sequential passes equal one per-character substitution. */
  lemma {:induction false} ReplaceChainIsEscapeMap(s: string)
    ensures ReplaceChain(s) == EscapeMap(s)
  {
    if s != [] {
      assert s == [s[0]] + s[1..];
      ReplaceChainAppend([s[0]], s[1..]);
      ReplaceChainChar(s[0]);
      ReplaceChainIsEscapeMap(s[1..]);
    }
  }

  /** `escapeHtml` never fails: `null` gives `""`, any string its per-character escape. */
  lemma EscapeHtmlIsEscapeMap(input: JavaString)
    ensures input.None? ==> EscapeHtml(input) == ""
    ensures input.Some? ==> EscapeHtml(input) == EscapeMap(input.value)
  {
    if input.Some? {
      ReplaceChainIsEscapeMap(input.value);
    }
  }

  /** Had `&` been replaced last, the `&` of every earlier reference would be escaped again. */
  lemma AmpersandLastDoubleEscapes()
    ensures Replace(Replace("<", '<', LtEntity), '&', AmpEntity) == AmpEntity + "lt;"
    ensures ReplaceChain("<") == LtEntity
  {
    var tail := "lt;";
    ReplaceSingle('<', '<', LtEntity);
    assert LtEntity == "&" + tail;
    ReplaceAppend("&", tail, '&', AmpEntity);
    ReplaceSingle('&', '&', AmpEntity);
    assert '&' !in tail;
    ChainOnLt();
  }

  // ---------------------------------------------------------------------
  // Properties of the escaped text.

  lemma {:induction false} EscapeMapNoMarkup(s: string)
    ensures forall i :: 0 <= i < |EscapeMap(s)| ==> !IsMarkup(EscapeMap(s)[i])
  {
    if s != [] {
      EscapeMapNoMarkup(s[1..]);
      var e, rest := EscapeChar(s[0]), EscapeMap(s[1..]);
      forall i | 0 <= i < |e + rest| ensures !IsMarkup((e + rest)[i]) {
        if i >= |e| {
          assert (e + rest)[i] == rest[i - |e|];
        }
      }
    }
  }

  /** The output of `escapeHtml` holds no `<`, `>`, `"` or `'`. */
  lemma EscapeHtmlNoMarkup(input: JavaString)
    ensures forall i :: 0 <= i < |EscapeHtml(input)| ==> !IsMarkup(EscapeHtml(input)[i])
    ensures '<' !in EscapeHtml(input) && '"' !in EscapeHtml(input)
  {
    EscapeHtmlIsEscapeMap(input);
    if input.Some? {
      EscapeMapNoMarkup(input.value);
    }
  }

  lemma EscapeCharAmpOnlyFirst(c: char)
    ensures forall k :: 1 <= k < |EscapeChar(c)| ==> EscapeChar(c)[k] != '&'
    ensures EscapeChar(c)[0] == '&' ==> StartsWithEntity(EscapeChar(c))
  {
  }

  lemma {:induction false} EscapeMapAmpersands(s: string)
    ensures forall i :: 0 <= i < |EscapeMap(s)| && EscapeMap(s)[i] == '&' ==> StartsWithEntity(EscapeMap(s)[i..])
  {
    if s != [] {
      EscapeMapAmpersands(s[1..]);
      EscapeCharAmpOnlyFirst(s[0]);
      var e, rest := EscapeChar(s[0]), EscapeMap(s[1..]);
      forall i | 0 <= i < |e + rest| && (e + rest)[i] == '&' ensures StartsWithEntity((e + rest)[i..]) {
        if i == 0 {
          PrefixStartsWithEntity(e, rest);
        } else {
          assert i >= |e|;
          assert (e + rest)[i..] == rest[i - |e|..];
          assert (e + rest)[i] == rest[i - |e|];
        }
      }
    }
  }

  lemma PrefixOfAppend(p: string, e: string, rest: string)
    requires p <= e
    ensures p <= e + rest
  {
    assert (e + rest)[..|p|] == e[..|p|];
  }

  lemma PrefixStartsWithEntity(e: string, rest: string)
    requires StartsWithEntity(e)
    ensures StartsWithEntity(e + rest)
  {
    if AmpEntity <= e { PrefixOfAppend(AmpEntity, e, rest); }
    else if LtEntity <= e { PrefixOfAppend(LtEntity, e, rest); }
    else if GtEntity <= e { PrefixOfAppend(GtEntity, e, rest); }
    else if QuotEntity <= e { PrefixOfAppend(QuotEntity, e, rest); }
    else { PrefixOfAppend(AposEntity, e, rest); }
  }

  /** Every `&` in the output of `escapeHtml` begins one of the five references. */
  lemma EscapeHtmlAmpersands(input: JavaString)
    ensures forall i :: 0 <= i < |EscapeHtml(input)| && EscapeHtml(input)[i] == '&' ==> StartsWithEntity(EscapeHtml(input)[i..])
  {
    EscapeHtmlIsEscapeMap(input);
    if input.Some? {
      EscapeMapAmpersands(input.value);
    }
  }

  lemma {:induction false} EscapeMapLength(s: string)
    ensures |EscapeMap(s)| == |s| + 4 * Count(s, '&') + 3 * Count(s, '<') + 3 * Count(s, '>') + 5 * Count(s, '"') + 4 * Count(s, '\'')
  {
    if s != [] {
      EscapeMapLength(s[1..]);
    }
  }

  /** The output grows by 4 per `&`, 3 per `<` or `>`, 5 per `"` and 4 per `'`. */
  lemma EscapeHtmlLength(s: string)
    ensures |EscapeHtml(Some(s))| == |s| + 4 * Count(s, '&') + 3 * Count(s, '<') + 3 * Count(s, '>') + 5 * Count(s, '"') + 4 * Count(s, '\'')
  {
    EscapeHtmlIsEscapeMap(Some(s));
    EscapeMapLength(s);
  }

  lemma {:induction false} CountZero(s: string, c: char)
    ensures Count(s, c) == 0 <==> c !in s
  {
    if s != [] {
      CountZero(s[1..], c);
      assert s == [s[0]] + s[1..];
    }
  }

  /** A string is returned unchanged exactly when it holds none of the five characters. */
  lemma EscapeHtmlUnchangedIff(s: string)
    ensures EscapeHtml(Some(s)) == s <==> forall i :: 0 <= i < |s| ==> !IsSpecial(s[i])
  {
    EscapeHtmlLength(s);
    CountZero(s, '&');
    CountZero(s, '<');
    CountZero(s, '>');
    CountZero(s, '"');
    CountZero(s, '\'');
    if forall i :: 0 <= i < |s| ==> !IsSpecial(s[i]) {
      assert '&' !in s && '<' !in s && '>' !in s && '"' !in s && '\'' !in s;
      assert ReplaceChain(s) == s;
    }
  }

  // ---------------------------------------------------------------------
  // Decoding the references recovers the input.

  lemma UnescapeEntity(e: string, rest: string, c: char)
    requires |e| > 0 && e == EscapeChar(c)
    ensures Unescape(e + rest) == [c] + Unescape(rest)
  {
    var t := e + rest;
    assert t[..|e|] == e;
    assert t[|e|..] == rest;
    assert t[0] == e[0];
    if IsSpecial(c) {
      assert t[1] == e[1];
    } else {
      assert e == [c];
    }
  }

  lemma {:induction false} UnescapeEscapeMap(s: string)
    ensures Unescape(EscapeMap(s)) == s
  {
    if s != [] {
      UnescapeEntity(EscapeChar(s[0]), EscapeMap(s[1..]), s[0]);
      UnescapeEscapeMap(s[1..]);
      assert s == [s[0]] + s[1..];
    }
  }

  /** Decoding the five references in the output of `escapeHtml` gives back the input. */
  lemma UnescapeEscapeHtml(s: string)
    ensures Unescape(EscapeHtml(Some(s))) == s
  {
    EscapeHtmlIsEscapeMap(Some(s));
    UnescapeEscapeMap(s);
  }

  /** Two strings with the same escape are the same string. */
  lemma EscapeHtmlInjective(a: string, b: string)
    ensures EscapeHtml(Some(a)) == EscapeHtml(Some(b)) ==> a == b
  {
    UnescapeEscapeHtml(a);
    UnescapeEscapeHtml(b);
  }
}
