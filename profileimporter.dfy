/**
 * ReSharperProfileImporter: a quality profile read from a ReSharper rule catalog. Every
 * rule the catalog lists is looked up in the repository by its derived key and either
 * activated at its translated priority or reported as a warning.
 */
module ProfileImporter {
  import opened Wrappers
  import opened JavaText
  import opened SonarApi
  import opened Severities
  import opened Xml
  import opened Rules
  import opened FileParser

  /** The RuleFinder: a rule for a (repository key, rule key) query, when there is one. */
  type RuleFinder = map<(string, string), Rule>

  /** The importer's key, also the repository the rules are looked up in: the plugin's
      repository key, '-', the language key. */
  function ImporterKey(pluginRepositoryKey: string, languageKey: string): string {
    pluginRepositoryKey + "-" + languageKey
  }

  function MissingRuleWarning(id: string, repositoryKey: string): string {
    "Unable to find rule for key '" + id + "' in repository '" + repositoryKey + "'"
  }

  /** The ids of the rules read from the elements, in order. */
  function ParsedIds(elements: seq<Element>): (ids: seq<string>)
    ensures |ids| == |elements|
    ensures forall i :: 0 <= i < |elements| ==> ids[i] == Attribute(elements[i], "Id")
  {
    seq(|elements|, i requires 0 <= i < |elements| => Attribute(elements[i], "Id"))
  }

  /** The severities of the rules read from the elements, in order. */
  function ParsedSeverities(elements: seq<Element>): (sevs: seq<ReSharperSeverity>)
    ensures |sevs| == |elements|
    ensures forall i :: 0 <= i < |elements| ==> sevs[i] == ParsedSeverity(Attribute(elements[i], "Severity"))
  {
    seq(|elements|, i requires 0 <= i < |elements| => ParsedSeverity(Attribute(elements[i], "Severity")))
  }

  /** The finder query for a rule: its derived key, not its id. */
  function QueryOf(repositoryKey: string, id: string): (string, string) {
    (repositoryKey, Key(id))
  }

  /** What importing one rule activates: the finder's rule at the rule's priority, when the
      finder knows it. */
  function ActivationOf(id: string, severity: ReSharperSeverity, finder: RuleFinder, repositoryKey: string): seq<ActiveRule> {
    var q := QueryOf(repositoryKey, id);
    if q in finder then [ActiveRule(finder[q], Some(TranslateToSonar(severity)))] else []
  }

  /** What importing one rule reports: its id, when the finder does not know it. */
  function WarningOf(id: string, finder: RuleFinder, repositoryKey: string): seq<string> {
    if QueryOf(repositoryKey, id) in finder then [] else [MissingRuleWarning(id, repositoryKey)]
  }

  /** The active rules importing the first `n` rules adds, in order. */
  function ActivationsOf(ids: seq<string>, sevs: seq<ReSharperSeverity>, n: nat, finder: RuleFinder, repositoryKey: string): seq<ActiveRule>
    requires n <= |ids| == |sevs|
  {
    if n == 0 then [] else ActivationsOf(ids, sevs, n - 1, finder, repositoryKey) + ActivationOf(ids[n - 1], sevs[n - 1], finder, repositoryKey)
  }

  /** The warnings importing the first `n` rules adds, in order. */
  function WarningsOf(ids: seq<string>, n: nat, finder: RuleFinder, repositoryKey: string): seq<string>
    requires n <= |ids|
  {
    if n == 0 then [] else WarningsOf(ids, n - 1, finder, repositoryKey) + WarningOf(ids[n - 1], finder, repositoryKey)
  }

  /** Every parsed rule is either activated or reported, never both and never neither. */
  lemma {:induction false} EachRuleActivatedOrReported(ids: seq<string>, sevs: seq<ReSharperSeverity>, n: nat, finder: RuleFinder, repositoryKey: string)
    requires n <= |ids| == |sevs|
    ensures |ActivationsOf(ids, sevs, n, finder, repositoryKey)| + |WarningsOf(ids, n, finder, repositoryKey)| == n
  {
    if n > 0 {
      EachRuleActivatedOrReported(ids, sevs, n - 1, finder, repositoryKey);
    }
  }

  /** When the finder knows every rule, each rule is activated at its priority, in order. */
  lemma {:induction false} AllFoundAllActivated(ids: seq<string>, sevs: seq<ReSharperSeverity>, n: nat, finder: RuleFinder, repositoryKey: string)
    requires n <= |ids| == |sevs|
    requires forall i :: 0 <= i < n ==> QueryOf(repositoryKey, ids[i]) in finder
    ensures var acts := ActivationsOf(ids, sevs, n, finder, repositoryKey);
            && |acts| == n
            && (forall i :: 0 <= i < n ==> acts[i] == ActiveRule(finder[QueryOf(repositoryKey, ids[i])], Some(TranslateToSonar(sevs[i]))))
  {
    if n > 0 {
      AllFoundAllActivated(ids, sevs, n - 1, finder, repositoryKey);
    }
  }

  /** When the finder knows every rule, nothing is reported. */
  lemma {:induction false} AllFoundNoWarning(ids: seq<string>, n: nat, finder: RuleFinder, repositoryKey: string)
    requires n <= |ids|
    requires forall i :: 0 <= i < n ==> QueryOf(repositoryKey, ids[i]) in finder
    ensures WarningsOf(ids, n, finder, repositoryKey) == []
  {
    if n > 0 {
      AllFoundNoWarning(ids, n - 1, finder, repositoryKey);
    }
  }

  /** The priority a catalog severity text is imported at is never MAJOR, and a text
      naming a constant gives that constant's priority. */
  lemma ImportedPriorityMeaning(text: string, s: ReSharperSeverity)
    ensures TranslateToSonar(ParsedSeverity(text)) != MAJOR
    ensures text == Name(s) ==> TranslateToSonar(ParsedSeverity(text)) == ToSonarPriority(s)
  {
    CopiesAgreeWithUtils(ParsedSeverity(text), MAJOR);
    ParseName(s);
  }

  class ReSharperProfileImporter {
    const languageKey: string
    /** getKey(): the repository key, '-', the language key. */
    const key: string
    const ruleFinder: RuleFinder

    constructor (pluginRepositoryKey: string, languageKey: string, ruleFinder: RuleFinder)
      ensures this.languageKey == languageKey && this.key == ImporterKey(pluginRepositoryKey, languageKey)
      ensures this.ruleFinder == ruleFinder
    {
      this.languageKey := languageKey;
      this.key := ImporterKey(pluginRepositoryKey, languageKey);
      this.ruleFinder := ruleFinder;
    }

    /** The body of importProfile's loop: the rule activated at its priority when the
        finder knows its key, otherwise a warning naming its id. */
    method ActivateRule(reSharperRule: ReSharperRule, ghost id: string, ghost severity: ReSharperSeverity,
                        profile: RulesProfile, messages: ValidationMessages)
      requires reSharperRule.id == id && reSharperRule.severity == Some(severity)
      modifies profile`activeRules, messages`warnings
      ensures profile.activeRules == old(profile.activeRules) + ActivationOf(id, severity, ruleFinder, key)
      ensures messages.warnings == old(messages.warnings) + WarningOf(id, ruleFinder, key)
    {
      var ruleName := reSharperRule.id;
      var ruleKey := reSharperRule.GetKey();
      var query := (key, ruleKey);
      if query in ruleFinder {
        var sonarPriority := reSharperRule.GetSonarPriority();
        profile.ActivateRule(ruleFinder[query], sonarPriority);
      } else {
        messages.AddWarningText(MissingRuleWarning(ruleName, key));
      }
    }

    /** The loop of importProfile over the parsed rules, in order. */
    method ActivateRules(rules: seq<ReSharperRule>, ghost ids: seq<string>, ghost sevs: seq<ReSharperSeverity>,
                         profile: RulesProfile, messages: ValidationMessages)
      requires |rules| == |ids| == |sevs|
      requires forall i :: 0 <= i < |rules| ==> rules[i].id == ids[i] && rules[i].severity == Some(sevs[i])
      modifies profile`activeRules, messages`warnings
      ensures profile.activeRules == old(profile.activeRules) + ActivationsOf(ids, sevs, |ids|, ruleFinder, key)
      ensures messages.warnings == old(messages.warnings) + WarningsOf(ids, |ids|, ruleFinder, key)
    {
      var k := 0;
      while k < |rules|
        invariant 0 <= k <= |rules|
        invariant profile.activeRules == old(profile.activeRules) + ActivationsOf(ids, sevs, k, ruleFinder, key)
        invariant messages.warnings == old(messages.warnings) + WarningsOf(ids, k, ruleFinder, key)
      {
        ActivateRule(rules[k], ids[k], sevs[k], profile, messages);
        AppendAssoc(old(profile.activeRules), ActivationsOf(ids, sevs, k, ruleFinder, key), ActivationOf(ids[k], sevs[k], ruleFinder, key));
        AppendAssoc(old(messages.warnings), WarningsOf(ids, k, ruleFinder, key), WarningOf(ids[k], ruleFinder, key));
        k := k + 1;
      }
    }

    /** importProfile: a new profile in the importer's language holding the catalog's rules
        that the finder knows, at their priorities; the others are warned about, and what
        the parser reports goes to the messages as errors. */
    method ImportProfile(doc: Document, messages: ValidationMessages) returns (profile: RulesProfile)
      modifies messages
      ensures fresh(profile)
      ensures profile.language == languageKey && profile.name == ""
      ensures var elements := IssueTypes(doc);
              profile.activeRules == ActivationsOf(ParsedIds(elements), ParsedSeverities(elements), |elements|, ruleFinder, key)
      ensures var elements := IssueTypes(doc);
              messages.warnings == old(messages.warnings) + WarningsOf(ParsedIds(elements), |elements|, ruleFinder, key)
      ensures messages.errors == old(messages.errors) + ParseDiagnostics(doc)
    {
      profile := new RulesProfile();
      profile.SetLanguage(languageKey);
      var parser := new ReSharperFileParser();
      parser.SetMessages(messages);
      var rules := parser.ParseRules(doc);
      ghost var elements := IssueTypes(doc);
      ActivateRules(rules, ParsedIds(elements), ParsedSeverities(elements), profile, messages);
    }
  }
}
