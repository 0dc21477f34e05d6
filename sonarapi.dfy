/**
 * The parts of the SonarQube plugin API that the ReSharper plugin reads and writes:
 * rule priorities, rules, active rules, quality profiles and validation messages.
 */
module SonarApi {
  import opened Wrappers

  /** org.sonar.api.rules.RulePriority, from the lowest to the highest. */
  datatype RulePriority = INFO | MINOR | MAJOR | CRITICAL | BLOCKER

  /** org.sonar.api.rules.Rule. `repositoryKey` is `None` on a rule that has just been
      created and not yet registered by the host under its repository. */
  datatype Rule = Rule(
    repositoryKey: Option<string>,
    key: string,
    name: string,
    configKey: string,
    description: string,
    severity: RulePriority,
    enabled: bool)

  /** org.sonar.api.rules.ActiveRule: a rule switched on in a profile, with its own severity. */
  datatype ActiveRule = ActiveRule(rule: Rule, severity: Option<RulePriority>) {
    /** ActiveRule.getRuleKey */
    function RuleKey(): string { rule.key }
  }

  predicate InRepository(a: ActiveRule, repositoryKey: string) {
    a.rule.repositoryKey == Some(repositoryKey)
  }

  /** RulesProfile.getActiveRulesByRepository: the active rules of one repository, in profile order. */
  function ByRepository(rules: seq<ActiveRule>, repositoryKey: string): (r: seq<ActiveRule>)
    ensures |r| <= |rules|
    ensures forall a :: a in r <==> a in rules && InRepository(a, repositoryKey)
  {
    if rules == [] then []
    else
      (if InRepository(rules[0], repositoryKey) then [rules[0]] else [])
      + ByRepository(rules[1..], repositoryKey)
  }

  /** The active rules of a repository of a profile that holds rules of that repository only. */
  lemma {:induction false} ByRepositoryOfOwnRules(rules: seq<ActiveRule>, repositoryKey: string)
    requires forall k :: 0 <= k < |rules| ==> InRepository(rules[k], repositoryKey)
    ensures ByRepository(rules, repositoryKey) == rules
  {
    if rules != [] {
      ByRepositoryOfOwnRules(rules[1..], repositoryKey);
      assert [rules[0]] + rules[1..] == rules;
    }
  }

  /** org.sonar.api.profiles.RulesProfile: a named, language-scoped list of active rules. */
  class RulesProfile {
    var name: string
    var language: string
    var activeRules: seq<ActiveRule>

    /** RulesProfile.create */
    constructor ()
      ensures name == "" && language == "" && activeRules == []
    {
      name, language, activeRules := "", "", [];
    }

    method SetLanguage(language: string)
      modifies this`language
      ensures this.language == language
    {
      this.language := language;
    }

    method SetName(name: string)
      modifies this`name
      ensures this.name == name
    {
      this.name := name;
    }

    /** RulesProfile.activateRule with a non-null priority: appends one active rule. */
    method ActivateRule(rule: Rule, priority: RulePriority)
      modifies this`activeRules
      ensures activeRules == old(activeRules) + [ActiveRule(rule, Some(priority))]
    {
      activeRules := activeRules + [ActiveRule(rule, Some(priority))];
    }
  }

  /** org.sonar.api.utils.ValidationMessages: error and warning texts collected during an import. */
  class ValidationMessages {
    var errors: seq<string>
    var warnings: seq<string>

    constructor ()
      ensures errors == [] && warnings == []
    {
      errors, warnings := [], [];
    }

    method AddErrorText(text: string)
      modifies this`errors
      ensures errors == old(errors) + [text]
    {
      errors := errors + [text];
    }

    method AddWarningText(text: string)
      modifies this`warnings
      ensures warnings == old(warnings) + [text]
    {
      warnings := warnings + [text];
    }
  }
}
