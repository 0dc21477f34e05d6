/**
 * ReSharperUtils: ReSharper's six inspection severities, the parsing of a severity name,
 * and the translation tables between severities and SonarQube rule priorities.
 */
module Severities {
  import opened Wrappers
  import opened JavaText
  import opened SonarApi

  /** ReSharperUtils.ReSharperSeverity, in declaration order. */
  datatype ReSharperSeverity = ERROR | WARNING | SUGGESTION | INFO | HINT | DO_NOT_SHOW

  /** The constant's name, as Enum.name and Enum.toString give it. */
  function Name(s: ReSharperSeverity): (n: string)
    ensures n != []
  {
    match s
    case ERROR => "ERROR"
    case WARNING => "WARNING"
    case SUGGESTION => "SUGGESTION"
    case INFO => "INFO"
    case HINT => "HINT"
    case DO_NOT_SHOW => "DO_NOT_SHOW"
  }

  /** ReSharperSeverity.valueOf: the constant whose name is exactly `text`, or `None`
      where Java throws IllegalArgumentException. */
  function ValueOf(text: string): Option<ReSharperSeverity> {
    if Equals(text, "ERROR") then Some(ERROR)
    else if Equals(text, "WARNING") then Some(WARNING)
    else if Equals(text, "SUGGESTION") then Some(SUGGESTION)
    else if Equals(text, "INFO") then Some(ReSharperSeverity.INFO)
    else if Equals(text, "HINT") then Some(HINT)
    else if Equals(text, "DO_NOT_SHOW") then Some(DO_NOT_SHOW)
    else None
  }

  /** valueOf is the inverse of name: it yields a constant exactly when the text is that
      constant's name. */
  lemma ValueOfIsInverseOfName(text: string, s: ReSharperSeverity)
    ensures ValueOf(text) == Some(s) <==> Name(s) == text
  {
    EqualsIsEquality(text, "ERROR");
    EqualsIsEquality(text, "WARNING");
    EqualsIsEquality(text, "SUGGESTION");
    EqualsIsEquality(text, "INFO");
    EqualsIsEquality(text, "HINT");
    EqualsIsEquality(text, "DO_NOT_SHOW");
  }

  /** Text that is no constant's name is rejected. */
  lemma ValueOfRejectsOtherText(text: string)
    requires forall s :: Name(s) != text
    ensures ValueOf(text) == None
  {
    if ValueOf(text).Some? {
      ValueOfIsInverseOfName(text, ValueOf(text).value);
    }
  }

  /** ReSharperUtils.getResharperSeverity: `None` stands for a null text. Any text that is
      not exactly a constant's name, null included, falls back to WARNING. */
  function GetResharperSeverity(text: Option<string>): ReSharperSeverity {
    if text.Some? && ValueOf(text.value).Some? then ValueOf(text.value).value else WARNING
  }

  /** getResharperSeverity yields the constant the text names, and WARNING for null and
      for text that names none. */
  lemma GetResharperSeverityMeaning(text: Option<string>, s: ReSharperSeverity)
    ensures text == Some(Name(s)) ==> GetResharperSeverity(text) == s
    ensures (forall t :: text != Some(Name(t))) ==> GetResharperSeverity(text) == WARNING
  {
    if text.Some? {
      ValueOfIsInverseOfName(text.value, s);
      if forall t :: text != Some(Name(t)) {
        ValueOfRejectsOtherText(text.value);
      }
    }
  }

  /** Parsing a constant's name gives back that constant. */
  lemma ParseName(s: ReSharperSeverity)
    ensures ValueOf(Name(s)) == Some(s)
    ensures GetResharperSeverity(Some(Name(s))) == s
  {
    ValueOfIsInverseOfName(Name(s), s);
  }

  /** A constant's name is made of upper-case letters and underscores. */
  lemma NameIsUpperCase(s: ReSharperSeverity)
    ensures forall j :: 0 <= j < |Name(s)| ==> 'A' <= Name(s)[j] <= 'Z' || Name(s)[j] == '_'
  {
  }

  /** Every constant's name is upper case, so text holding a lower-case letter
      ("warning", "Error") is never recognised and yields WARNING. */
  lemma LowerCaseTextIsWarning(text: string, k: nat)
    requires k < |text| && 'a' <= text[k] <= 'z'
    ensures ValueOf(text) == None
    ensures GetResharperSeverity(Some(text)) == WARNING
  {
    forall s | true ensures Name(s) != text {
      if |Name(s)| > k {
        NameIsUpperCase(s);
        assert Name(s)[k] != text[k];
      }
    }
    ValueOfRejectsOtherText(text);
  }

  /** ReSharperUtils.translateResharperPriorityIntoSonarPriority. */
  function ToSonarPriority(s: ReSharperSeverity): (p: RulePriority)
    ensures p != MAJOR
  {
    match s
    case ERROR => BLOCKER
    case WARNING => CRITICAL
    case SUGGESTION => MINOR
    case HINT | INFO | DO_NOT_SHOW => RulePriority.INFO
  }

  /** ReSharperUtils.translateSonarPriorityIntoResharperSeverity. */
  function ToResharperSeverity(p: RulePriority): (s: ReSharperSeverity)
    ensures s != ReSharperSeverity.INFO && s != DO_NOT_SHOW
  {
    match p
    case BLOCKER => ERROR
    case CRITICAL | MAJOR => WARNING
    case MINOR => SUGGESTION
    case INFO => HINT
  }

  /** Priority round trip: every priority survives a trip through the ReSharper scale
      except MAJOR, which has no severity of its own and comes back as CRITICAL. */
  lemma PriorityRoundTrip(p: RulePriority)
    ensures ToSonarPriority(ToResharperSeverity(p)) == if p == MAJOR then CRITICAL else p
  {
  }

  /** Severity round trip: ERROR, WARNING and SUGGESTION survive a trip through the Sonar
      scale; INFO, HINT and DO_NOT_SHOW share the priority INFO and all come back as HINT. */
  lemma SeverityRoundTrip(s: ReSharperSeverity)
    ensures ToResharperSeverity(ToSonarPriority(s))
         == if s in {ReSharperSeverity.INFO, HINT, DO_NOT_SHOW} then HINT else s
  {
  }

  /** Rank of a severity, 0 for the most severe, in declaration order. */
  function SeverityRank(s: ReSharperSeverity): nat {
    match s
    case ERROR => 0
    case WARNING => 1
    case SUGGESTION => 2
    case INFO => 3
    case HINT => 4
    case DO_NOT_SHOW => 5
  }

  /** Rank of a priority, 0 for the most severe. */
  function PriorityRank(p: RulePriority): nat {
    match p
    case BLOCKER => 0
    case CRITICAL => 1
    case MAJOR => 2
    case MINOR => 3
    case INFO => 4
  }

  /** Both translations keep the order of severity: a more severe input never yields a
      less severe output. */
  lemma TranslationsKeepOrder(s1: ReSharperSeverity, s2: ReSharperSeverity, p1: RulePriority, p2: RulePriority)
    ensures SeverityRank(s1) <= SeverityRank(s2)
        ==> PriorityRank(ToSonarPriority(s1)) <= PriorityRank(ToSonarPriority(s2))
    ensures PriorityRank(p1) <= PriorityRank(p2)
        ==> SeverityRank(ToResharperSeverity(p1)) <= SeverityRank(ToResharperSeverity(p2))
  {
  }
}
