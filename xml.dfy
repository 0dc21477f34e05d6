/**
 * The XML the plugin reads and writes, at the level the plugin sees it: the `IssueType`
 * elements an XPath query returns, each with its attributes, and the escaping of attribute
 * values (commons-lang StringEscapeUtils.escapeXml) together with the reading of an
 * attribute value by an XML 1.0 reader: references replaced and literal white space
 * normalised (section 3.3.3 of the XML 1.0 recommendation).
 */
module Xml {
  import opened Wrappers

  /** One `IssueType` element: its attributes by name. */
  datatype Element = Element(attributes: map<string, string>)

  /** Element.getAttribute: the value, or "" when the element has no such attribute. */
  function Attribute(e: Element, name: string): string {
    if name in e.attributes then e.attributes[name] else ""
  }

  /** The outcome of evaluating "//IssueType" on a document: every `IssueType` element at
      any depth in document order, or the message of the XPathExpressionException raised
      when the text is not well-formed XML. */
  datatype Document = Malformed(reason: string) | WellFormed(issueTypes: seq<Element>)

  /* ---------------------------------------------------------------------------------
     Escaping, as commons-lang 2 escapeXml does it: one UTF-16 code unit at a time, the
     five predefined entities, and a decimal character reference for every code unit
     above 0x7F.
     --------------------------------------------------------------------------------- */

  predicate IsDigit(c: char) { '0' <= c <= '9' }

  predicate AllDigits(s: string) { forall i :: 0 <= i < |s| ==> IsDigit(s[i]) }

  /** Integer.toString(n, 10) for a non-negative n. */
  function Decimal(n: nat): (r: string)
    ensures r != [] && AllDigits(r)
  {
    if n < 10 then [('0' as int + n) as char]
    else Decimal(n / 10) + [('0' as int + n % 10) as char]
  }

  /** The value of a string of decimal digits. */
  function DecimalValue(ds: string): nat
    requires AllDigits(ds)
  {
    if ds == [] then 0
    else DecimalValue(ds[..|ds| - 1]) * 10 + (ds[|ds| - 1] as int - '0' as int)
  }

  lemma {:induction false} DecimalValueOfDecimal(n: nat)
    ensures DecimalValue(Decimal(n)) == n
  {
    if n >= 10 {
      var ds := Decimal(n);
      assert ds[..|ds| - 1] == Decimal(n / 10);
      DecimalValueOfDecimal(n / 10);
    }
  }

  /** The two UTF-16 code units of a character above U+FFFF: its high and low surrogate. */
  function HighSurrogate(c: char): nat
    requires c as int > 0xFFFF
  {
    0xD800 + (c as int - 0x1_0000) / 0x400
  }

  function LowSurrogate(c: char): nat
    requires c as int > 0xFFFF
  {
    0xDC00 + (c as int - 0x1_0000) % 0x400
  }

  /** The UTF-16 code units a Java string holds for a character: the character itself up to
      U+FFFF, its surrogate pair above. */
  function CodeUnits(c: char): seq<nat> {
    if c as int > 0xFFFF then [HighSurrogate(c), LowSurrogate(c)] else [c as int]
  }

  /** The decimal character reference to one code unit: "&#" + n + ";". */
  function Reference(n: nat): string {
    "&#" + Decimal(n) + ";"
  }

  /** A reference per code unit, in order. Only '&', '#', ';' and digits are written. */
  function References(units: seq<nat>): (r: string)
    ensures units != [] ==> r != []
    ensures forall i :: 0 <= i < |r| ==> r[i] == '&' || r[i] == '#' || r[i] == ';' || IsDigit(r[i])
  {
    if units == [] then [] else Reference(units[0]) + References(units[1..])
  }

  /** The text written for one character: the entity of a special character, a reference
      to each of its UTF-16 code units above 0x7F, the character itself otherwise. */
  function EscapeChar(c: char): (r: string)
    ensures r != []
    ensures '"' !in r && '<' !in r && '>' !in r && '\'' !in r
    ensures forall i :: 0 <= i < |r| ==> r[i] as int <= 0x7F
  {
    if c == '"' then "&quot;"
    else if c == '&' then "&amp;"
    else if c == '<' then "&lt;"
    else if c == '>' then "&gt;"
    else if c == '\'' then "&apos;"
    else if c as int > 0x7F then References(CodeUnits(c))
    else [c]
  }

  /** StringEscapeUtils.escapeXml. The result holds no quote and no angle bracket, so it
      cannot end the attribute value or the element it is written into, and it is ASCII. */
  function Escape(s: string): (r: string)
    ensures '"' !in r && '<' !in r && '>' !in r && '\'' !in r
    ensures forall i :: 0 <= i < |r| ==> r[i] as int <= 0x7F
    ensures |r| >= |s|
  {
    if s == [] then [] else EscapeChar(s[0]) + Escape(s[1..])
  }

  /* ---------------------------------------------------------------------------------
     Reading an attribute value back.
     --------------------------------------------------------------------------------- */

  /** A character XML 1.0 allows in a document: TAB, LF, CR, and every character from the
      space on except U+FFFE and U+FFFF (Dafny's characters exclude the surrogates). */
  predicate IsXmlChar(c: char) {
    c == '\t' || c == '\n' || c == '\r' || (' ' <= c && c != '\U{FFFE}' && c != '\U{FFFF}')
  }

  /** A text that escaping and reading carry through unchanged: characters from the space
      to U+FFFD only. TAB, LF and CR are left out because a reader turns them into spaces,
      the other controls because XML does not allow them, and the characters above U+FFFF
      because escapeXml splits them into surrogate references a reader refuses. */
  predicate XmlText(s: string) {
    forall i :: 0 <= i < |s| ==> ' ' <= s[i] <= '\U{FFFD}'
  }

  /** The index of the first ';' of `s`, if any. */
  function FirstSemicolon(s: string): (r: Option<nat>)
    ensures r.Some? ==> r.value < |s| && s[r.value] == ';'
  {
    if s == [] then None
    else if s[0] == ';' then Some(0)
    else match FirstSemicolon(s[1..])
      case Some(i) => Some(i + 1)
      case None => None
  }

  /** The character an entity or character reference body (the text between '&' and ';')
      stands for; a reference to a code point that is not an XML character stands for
      none. */
  function EntityChar(body: string): (r: Option<char>)
    ensures r.Some? ==> IsXmlChar(r.value)
  {
    if body == "quot" then Some('"')
    else if body == "amp" then Some('&')
    else if body == "lt" then Some('<')
    else if body == "gt" then Some('>')
    else if body == "apos" then Some('\'')
    else if |body| >= 2 && body[0] == '#' && AllDigits(body[1..]) then
      var n := DecimalValue(body[1..]);
      if n == 0x9 || n == 0xA || n == 0xD || 0x20 <= n < 0xD800 || 0xE000 <= n < 0xFFFE || 0x1_0000 <= n < 0x11_0000
      then Some(n as char) else None
    else None
  }

  /** What an XML reader makes of an attribute value: each reference is replaced by the
      character it stands for, and each literal TAB, LF, CR or CR LF pair becomes one space.
      A reference that stands for no character makes a real reader reject the document;
      here its text is kept as it is. */
  function Decode(s: string): string
    decreases |s|
  {
    if s == [] then []
    else if s[0] == '&' then
      match FirstSemicolon(s)
      case Some(j) =>
        (match EntityChar(s[1..j])
         case Some(c) => [c] + Decode(s[j + 1..])
         case None => [s[0]] + Decode(s[1..]))
      case None => [s[0]] + Decode(s[1..])
    else if s[0] == '\r' && |s| >= 2 && s[1] == '\n' then [' '] + Decode(s[2..])
    else if s[0] == '\t' || s[0] == '\n' || s[0] == '\r' then [' '] + Decode(s[1..])
    else [s[0]] + Decode(s[1..])
  }

  lemma {:induction false} FirstSemicolonAfter(pre: string, rest: string)
    requires ';' !in pre
    ensures FirstSemicolon(pre + ";" + rest) == Some(|pre|)
  {
    if pre != [] {
      assert (pre + ";" + rest)[1..] == pre[1..] + ";" + rest;
      FirstSemicolonAfter(pre[1..], rest);
    }
  }

  /** A reference followed by more text decodes to its character, if it stands for one,
      followed by the rest; otherwise its '&' is kept. */
  lemma DecodeReference(reference: string, body: string, rest: string)
    requires reference == "&" + body + ";" && ';' !in body
    ensures EntityChar(body).Some? ==> Decode(reference + rest) == [EntityChar(body).value] + Decode(rest)
    ensures EntityChar(body).None? ==> Decode(reference + rest) == ['&'] + Decode((reference + rest)[1..])
  {
    var s := reference + rest;
    FirstSemicolonAfter("&" + body, rest);
    assert s == ("&" + body) + ";" + rest;
    assert s[1..|body| + 1] == body;
    assert s[|body| + 2..] == rest;
  }

  /** Decoding undoes the entity written for one of the five special characters. */
  lemma DecodeEscapedSpecial(c: char, rest: string)
    requires c == '"' || c == '&' || c == '<' || c == '>' || c == '\''
    ensures Decode(EscapeChar(c) + rest) == [c] + Decode(rest)
  {
    var body := if c == '"' then "quot" else if c == '&' then "amp" else if c == '<' then "lt"
                else if c == '>' then "gt" else "apos";
    DecodeReference(EscapeChar(c), body, rest);
  }

  /** A decimal reference to an XML character stands for that character. */
  lemma DecimalReferenceOf(c: char)
    requires IsXmlChar(c)
    ensures EntityChar("#" + Decimal(c as int)) == Some(c)
  {
    var ds := Decimal(c as int);
    DecimalValueOfDecimal(c as int);
    var body := "#" + ds;
    assert body[0] == '#' && body[1..] == ds;
    assert body != "quot" && body != "amp" && body != "lt" && body != "gt" && body != "apos";
  }

  /** A decimal reference to a surrogate code unit stands for no character. */
  lemma SurrogateReferenceIsRefused(n: nat)
    requires 0xD800 <= n < 0xE000
    ensures EntityChar("#" + Decimal(n)).None?
  {
    var ds := Decimal(n);
    DecimalValueOfDecimal(n);
    var body := "#" + ds;
    assert body[0] == '#' && body[1..] == ds;
    assert body != "quot" && body != "amp" && body != "lt" && body != "gt" && body != "apos";
  }

  /** Decoding undoes the character reference written for a character from 0x80 to U+FFFD. */
  lemma DecodeEscapedNonAscii(c: char, rest: string)
    requires 0x7F < c as int <= 0xFFFD
    ensures Decode(EscapeChar(c) + rest) == [c] + Decode(rest)
  {
    DecimalReferenceOf(c);
    OneReference(c as int);
    assert EscapeChar(c) == "&" + ("#" + Decimal(c as int)) + ";";
    DecodeReference(EscapeChar(c), "#" + Decimal(c as int), rest);
  }

  lemma OneReference(n: nat)
    ensures References([n]) == Reference(n)
  {
    assert [n][1..] == [];
  }

  /** Decoding undoes the escaping of one character of an XML text. */
  lemma DecodeEscapedChar(c: char, rest: string)
    requires ' ' <= c <= '\U{FFFD}'
    ensures Decode(EscapeChar(c) + rest) == [c] + Decode(rest)
  {
    if c == '"' || c == '&' || c == '<' || c == '>' || c == '\'' {
      DecodeEscapedSpecial(c, rest);
    } else if c as int > 0x7F {
      DecodeEscapedNonAscii(c, rest);
    } else {
      assert EscapeChar(c) + rest == [c] + rest;
      assert ([c] + rest)[1..] == rest;
    }
  }

  /** An XML reader recovers exactly the XML text that escapeXml was given. */
  lemma {:induction false} DecodeEscape(s: string)
    requires XmlText(s)
    ensures Decode(Escape(s)) == s
  {
    if s != [] {
      DecodeEscapedChar(s[0], Escape(s[1..]));
      DecodeEscape(s[1..]);
      assert [s[0]] + s[1..] == s;
    }
  }

  /* ---------------------------------------------------------------------------------
     Where the round trip ends: the texts outside XmlText.
     --------------------------------------------------------------------------------- */

  /** A TAB, LF or CR is written as it is and read back as a space. */
  lemma WhiteSpaceIsNormalised(c: char, rest: string)
    requires c == '\t' || c == '\n' || c == '\r'
    ensures Escape([c]) == [c]
    ensures Decode(Escape([c] + rest))[0] == ' '
  {
    EscapeFirst(c, rest);
    assert EscapeChar(c) == [c];
    var s := [c] + Escape(rest);
    assert s[0] == c;
  }

  /** Any other control character is written as it is, and XML does not allow it: the
      document written is not well-formed. */
  lemma ControlIsWrittenRaw(c: char)
    requires c < ' ' && c != '\t' && c != '\n' && c != '\r'
    ensures Escape([c]) == [c] && !IsXmlChar(c)
  {
  }

  /** A character above U+FFFF is written as references to its two surrogates, which stand
      for no character. */
  lemma SupplementaryIsSplit(c: char)
    requires c as int > 0xFFFF
    ensures Escape([c]) == Reference(HighSurrogate(c)) + Reference(LowSurrogate(c))
    ensures EntityChar("#" + Decimal(HighSurrogate(c))).None? && EntityChar("#" + Decimal(LowSurrogate(c))).None?
  {
    SurrogateReferenceIsRefused(HighSurrogate(c));
    SurrogateReferenceIsRefused(LowSurrogate(c));
    SurrogatePairReferences(c);
    assert Escape([c]) == EscapeChar(c) + [];
  }

  lemma SurrogatePairReferences(c: char)
    requires c as int > 0xFFFF
    ensures EscapeChar(c) == Reference(HighSurrogate(c)) + References([LowSurrogate(c)])
    ensures References([LowSurrogate(c)]) == Reference(LowSurrogate(c))
  {
    var units := CodeUnits(c);
    assert units[1..] == [LowSurrogate(c)];
    OneReference(LowSurrogate(c));
  }

  /** What is read back for such a character starts with a bare '&', not with the
      character: the value does not come back. */
  lemma SupplementaryIsLost(c: char, rest: string)
    requires c as int > 0xFFFF
    ensures Decode(Escape([c] + rest))[0] == '&' != c
  {
    var high, low := HighSurrogate(c), References([LowSurrogate(c)]);
    EscapeFirst(c, rest);
    SurrogatePairReferences(c);
    assert (Reference(high) + low) + Escape(rest) == Reference(high) + (low + Escape(rest));
    SurrogateReferenceIsRefused(high);
    RefusedReferenceStaysText(high, low + Escape(rest));
  }

  /** A reference to no character is read back as text, starting with its '&'. */
  lemma RefusedReferenceStaysText(n: nat, tail: string)
    requires EntityChar("#" + Decimal(n)).None?
    ensures Decode(Reference(n) + tail)[0] == '&'
  {
    assert Reference(n) == "&" + ("#" + Decimal(n)) + ";";
    DecodeReference(Reference(n), "#" + Decimal(n), tail);
  }

  lemma EscapeFirst(c: char, rest: string)
    ensures Escape([c] + rest) == EscapeChar(c) + Escape(rest)
  {
    assert ([c] + rest)[1..] == rest;
  }
}
