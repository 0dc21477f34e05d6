/**
 * ReSharperFileParser: turns the `IssueType` elements of a rule catalog into ReSharperRule
 * objects, one per element in document order, and reports what it cannot read as
 * diagnostics rather than exceptions.
 */
module FileParser {
  import opened Wrappers
  import opened JavaText
  import opened SonarApi
  import opened Severities
  import opened Xml
  import opened Rules

  const NoIssueTypeNodes := "No IssueType nodes found in profile file"

  const InvalidSeverityPrefix := "exception while parsing resharper severity '"

  /** The start of the message of the IllegalArgumentException that Enum.valueOf raises
      for an unknown name; the name follows. */
  const NoEnumConstantPrefix := "No enum constant org.sonar.plugins.resharper.profiles.ReSharperRule.ReSharperSeverity."

  /** The warning for a `Severity` text that names no constant: the text, then the
      exception's message. */
  function InvalidSeverityMessage(text: string): string {
    InvalidSeverityPrefix + text + "': " + NoEnumConstantPrefix + text
  }

  const XPathErrorPrefix := "xpath exception while parsing resharper config file: "

  function XPathErrorMessage(reason: string): string {
    XPathErrorPrefix + reason
  }

  /** The four characters of `text` from position `k` lower-case to "true". */
  predicate LowerTrueAt(text: string, k: nat) {
    && k + 4 <= |text|
    && LowerCase(text[k]) == 't' && LowerCase(text[k + 1]) == 'r'
    && LowerCase(text[k + 2]) == 'u' && LowerCase(text[k + 3]) == 'e'
  }

  /** `Enabled` is read as true when its lower-cased text contains "true". */
  predicate EnabledFlag(text: string) {
    exists k: nat | k < |text| :: LowerTrueAt(text, k)
  }

  /** The severity a rule gets from its `Severity` attribute: the constant of that exact
      name, or WARNING. */
  function ParsedSeverity(text: string): ReSharperSeverity {
    ValueOf(text).GetOr(WARNING)
  }

  /** The rule's fields other than the severity as read from one element: the texts
      verbatim, `Enabled` interpreted. */
  predicate TextsFrom(r: ReSharperRule, e: Element)
    reads r
  {
    && r.id == Attribute(e, "Id")
    && r.enabled == EnabledFlag(Attribute(e, "Enabled"))
    && r.category == Attribute(e, "Category")
    && r.description == Attribute(e, "Description")
    && r.wikiLink == Attribute(e, "WikiUrl")
  }

  /** The rule objects' fields as read from one element. */
  predicate ParsedFrom(r: ReSharperRule, e: Element)
    reads r
  {
    TextsFrom(r, e) && r.severity == Some(ParsedSeverity(Attribute(e, "Severity")))
  }

  /** The elements a document yields: none when it is not well-formed. */
  function IssueTypes(doc: Document): seq<Element> {
    match doc
    case Malformed(_) => []
    case WellFormed(elements) => elements
  }

  /** The diagnostic of one element: one message when its severity is unknown. */
  function SeverityDiagnostic(e: Element): seq<string> {
    var text := Attribute(e, "Severity");
    if ValueOf(text).None? then [InvalidSeverityMessage(text)] else []
  }

  /** `message` is the diagnostic of one of the first `n` elements, whose severity is
      unknown. */
  predicate DiagnosesSome(elements: seq<Element>, n: nat, message: string)
    requires n <= |elements|
  {
    exists i :: 0 <= i < n && ValueOf(Attribute(elements[i], "Severity")).None?
                && message == InvalidSeverityMessage(Attribute(elements[i], "Severity"))
  }

  /** One diagnostic per element among the first `n` whose severity is unknown, in
      element order. */
  function SeverityDiagnosticsOf(elements: seq<Element>, n: nat): (r: seq<string>)
    requires n <= |elements|
    ensures |r| <= n
    ensures forall j :: 0 <= j < |r| ==> DiagnosesSome(elements, n, r[j])
  {
    if n == 0 then []
    else
      var front, last := SeverityDiagnosticsOf(elements, n - 1), SeverityDiagnostic(elements[n - 1]);
      DiagnosticsExtend(elements, n, front, last);
      front + last
  }

  lemma DiagnosticsExtend(elements: seq<Element>, n: nat, front: seq<string>, last: seq<string>)
    requires 0 < n <= |elements|
    requires forall j :: 0 <= j < |front| ==> DiagnosesSome(elements, n - 1, front[j])
    requires last == SeverityDiagnostic(elements[n - 1])
    ensures forall j :: 0 <= j < |front + last| ==> DiagnosesSome(elements, n, (front + last)[j])
  {
    forall j | 0 <= j < |front + last|
      ensures DiagnosesSome(elements, n, (front + last)[j])
    {
      if j < |front| {
        var i :| 0 <= i < n - 1 && ValueOf(Attribute(elements[i], "Severity")).None?
                 && front[j] == InvalidSeverityMessage(Attribute(elements[i], "Severity"));
        assert (front + last)[j] == front[j];
      } else {
        assert (front + last)[j] == last[j - |front|];
        var i := n - 1;
        assert ValueOf(Attribute(elements[i], "Severity")).None?;
      }
    }
  }

  /** One diagnostic per element whose severity is unknown, in element order. */
  function SeverityDiagnostics(elements: seq<Element>): (r: seq<string>)
    ensures |r| <= |elements|
  {
    SeverityDiagnosticsOf(elements, |elements|)
  }

  /** Everything parseRules reports for a document. */
  function ParseDiagnostics(doc: Document): seq<string> {
    match doc
    case Malformed(reason) => [XPathErrorMessage(reason)]
    case WellFormed(elements) =>
      if elements == [] then [NoIssueTypeNodes] else SeverityDiagnostics(elements)
  }

  /** Elements whose severities are all known produce no diagnostic. */
  lemma {:induction false} KnownSeveritiesAreSilent(elements: seq<Element>, n: nat)
    requires n <= |elements|
    requires forall k :: 0 <= k < n ==> ValueOf(Attribute(elements[k], "Severity")).Some?
    ensures SeverityDiagnosticsOf(elements, n) == []
  {
    if n > 0 {
      KnownSeveritiesAreSilent(elements, n - 1);
    }
  }

  class ReSharperFileParser {
    /** The messages sink; null unless setMessages was called. */
    var messages: ValidationMessages?
    /** What the class logger receives at warning level when there is no sink. */
    var log: seq<string>

    constructor ()
      ensures messages == null && log == []
    {
      messages, log := null, [];
    }

    method SetMessages(messages: ValidationMessages?)
      modifies this`messages
      ensures this.messages == messages
    {
      this.messages := messages;
    }

    /** logWarningMessage: to the messages sink as an error when there is one, otherwise
        to the log. */
    method LogWarningMessage(message: string)
      modifies this`log, messages
      ensures messages != null ==> messages.errors == old(messages.errors) + [message]
                                   && messages.warnings == old(messages.warnings) && log == old(log)
      ensures messages == null ==> log == old(log) + [message]
    {
      if messages != null {
        messages.AddErrorText(message);
      } else {
        log := log + [message];
      }
    }

    /** logWarningMessage applied to each message in turn. */
    method LogWarningMessages(texts: seq<string>)
      modifies this`log, messages
      ensures messages != null ==> messages.errors == old(messages.errors) + texts
                                   && messages.warnings == old(messages.warnings) && log == old(log)
      ensures messages == null ==> log == old(log) + texts
    {
      var k := 0;
      while k < |texts|
        invariant 0 <= k <= |texts|
        invariant messages != null ==> messages.errors == old(messages.errors) + texts[..k]
                                       && messages.warnings == old(messages.warnings) && log == old(log)
        invariant messages == null ==> log == old(log) + texts[..k]
      {
        assert texts[..k + 1] == texts[..k] + [texts[k]];
        LogWarningMessage(texts[k]);
        k := k + 1;
      }
      assert texts[..k] == texts;
    }

    /** The body of parseRules's loop: a new rule filled from one element through its
        setters, and the warning for an unknown severity, which is then WARNING. */
    static method ReadRule(ruleElement: Element) returns (rule: ReSharperRule, diagnostic: seq<string>)
      ensures fresh(rule) && ParsedFrom(rule, ruleElement)
      ensures diagnostic == SeverityDiagnostic(ruleElement)
    {
      rule := new ReSharperRule();
      rule.SetId(Attribute(ruleElement, "Id"));
      var active := Attribute(ruleElement, "Enabled");
      rule.SetEnabled(EnabledFlag(active));
      rule.SetCategory(Attribute(ruleElement, "Category"));
      rule.SetDescription(Attribute(ruleElement, "Description"));
      rule.SetWikiLink(Attribute(ruleElement, "WikiUrl"));
      var severity := Attribute(ruleElement, "Severity");
      var parsed := ValueOf(severity);
      if parsed.Some? {
        rule.SetSeverity(parsed.value);
        diagnostic := [];
      } else {
        rule.SetSeverity(WARNING);
        diagnostic := [InvalidSeverityMessage(severity)];
      }
    }

    /** The loop of parseRules: one new rule per element, in order, with the warnings
        reading them produces, in the same order. */
    static method ReadRules(nodes: seq<Element>) returns (result: seq<ReSharperRule>, diagnostics: seq<string>)
      ensures |result| == |nodes|
      ensures forall i :: 0 <= i < |result| ==> fresh(result[i]) && ParsedFrom(result[i], nodes[i])
      ensures diagnostics == SeverityDiagnostics(nodes)
    {
      result, diagnostics := [], [];
      var idxRule := 0;
      while idxRule < |nodes|
        invariant 0 <= idxRule <= |nodes| && |result| == idxRule
        invariant forall i :: 0 <= i < idxRule ==> fresh(result[i])
        invariant forall i :: 0 <= i < idxRule ==> ParsedFrom(result[i], nodes[i])
        invariant diagnostics == SeverityDiagnosticsOf(nodes, idxRule)
      {
        var rule, diagnostic := ReadRule(nodes[idxRule]);
        result, diagnostics := result + [rule], diagnostics + diagnostic;
        idxRule := idxRule + 1;
      }
    }

    /** parseRules: one new rule per `IssueType` element, in document order; the
        warnings about the document go to the sink. It never fails. */
    method ParseRules(doc: Document) returns (result: seq<ReSharperRule>)
      modifies this`log, messages
      ensures |result| == |IssueTypes(doc)|
      ensures forall i :: 0 <= i < |result| ==> fresh(result[i]) && ParsedFrom(result[i], IssueTypes(doc)[i])
      ensures messages != null ==> messages.errors == old(messages.errors) + ParseDiagnostics(doc)
                                   && messages.warnings == old(messages.warnings) && log == old(log)
      ensures messages == null ==> log == old(log) + ParseDiagnostics(doc)
    {
      result := [];
      match doc {
        case Malformed(reason) =>
          LogWarningMessage(XPathErrorMessage(reason));
        case WellFormed(nodes) =>
          if |nodes| == 0 {
            LogWarningMessage(NoIssueTypeNodes);
          } else {
            var diagnostics;
            result, diagnostics := ReadRules(nodes);
            LogWarningMessages(diagnostics);
          }
      }
    }
  }
}
