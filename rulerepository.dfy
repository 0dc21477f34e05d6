/**
 * ReSharperRuleRepository: the rules the plugin offers SonarQube. The rules of the bundled
 * catalog come first, then those of the custom-rules setting, read as a catalog of their own.
 */
module RuleRepository {
  import opened Wrappers
  import opened JavaText
  import opened SonarApi
  import opened Severities
  import opened Xml
  import opened Rules
  import opened FileParser

  const RepositoryName := "Resharper"

  /** ReSharperPlugin.CUSTOM_SEVERITIES_DEFINITON_PROPERTY_KEY: the setting holding custom
      `IssueType` elements. */
  const CustomRulesKey := "sonar.resharper.customSeverities.definition"

  /** The custom-rules setting as a catalog: the elements wrapped in a Report root. */
  function CustomRulesXml(customRules: string): string {
    "<Report><IssueTypes>" + customRules + "</IssueTypes></Report>"
  }

  /** settings.getString: an absent setting reads as null, which isNotBlank treats as blank. */
  function SettingOrEmpty(settings: map<string, string>, key: string): string {
    if key in settings then settings[key] else ""
  }

  /** The rule toSonarRule makes of the rule the parser reads from an element. */
  function SonarRuleOf(e: Element): Rule {
    var id := Attribute(e, "Id");
    Rule(None, Key(id), id, "ReSharperInspectCode#" + id,
         SonarDescription(id, Attribute(e, "Description"), Attribute(e, "WikiUrl"), Attribute(e, "Category")),
         TranslateToSonar(ParsedSeverity(Attribute(e, "Severity"))), true)
  }

  /** toSonarRule on a parsed rule depends only on the element it was read from. */
  lemma ToSonarRuleOfParsed(r: ReSharperRule, e: Element)
    requires ParsedFrom(r, e)
    ensures r.severity.Some? && r.ToSonarRule() == SonarRuleOf(e)
  {
  }

  /** The rules of a catalog's elements, in document order. */
  function SonarRulesOf(elements: seq<Element>): (rules: seq<Rule>)
    ensures |rules| == |elements|
    ensures forall i :: 0 <= i < |elements| ==> rules[i] == SonarRuleOf(elements[i])
  {
    seq(|elements|, i requires 0 <= i < |elements| => SonarRuleOf(elements[i]))
  }

  /** The catalog the custom-rules setting gives, or none when the setting is blank. */
  function CustomCatalog(customRules: string, readXml: string -> Document): seq<Element> {
    if IsBlank(customRules) then [] else IssueTypes(readXml(CustomRulesXml(customRules)))
  }

  /** What createRules returns: the default catalog's rules, then the custom catalog's. */
  function CreatedRules(defaults: Document, customRules: string, readXml: string -> Document): seq<Rule> {
    SonarRulesOf(IssueTypes(defaults)) + SonarRulesOf(CustomCatalog(customRules, readXml))
  }

  /** The rules of two catalogs read one after the other: the first catalog's rules in its
      order, then the second's in its order. */
  lemma RulesOfCatalogs(d: seq<Element>, c: seq<Element>)
    ensures var rules := SonarRulesOf(d) + SonarRulesOf(c);
      && |rules| == |d| + |c|
      && (forall i :: 0 <= i < |d| ==> rules[i] == SonarRuleOf(d[i]))
      && (forall i :: 0 <= i < |c| ==> rules[|d| + i] == SonarRuleOf(c[i]))
  {
    var a, b := SonarRulesOf(d), SonarRulesOf(c);
    forall i | 0 <= i < |d|
      ensures (a + b)[i] == SonarRuleOf(d[i])
    {
      assert (a + b)[i] == a[i];
    }
    forall i | 0 <= i < |c|
      ensures (a + b)[|d| + i] == SonarRuleOf(c[i])
    {
      assert (a + b)[|a| + i] == b[i];
    }
  }

  /** The default rules come first, in catalog order; the custom rules follow, in theirs. */
  lemma CreatedRulesOrder(defaults: Document, customRules: string, readXml: string -> Document)
    ensures var rules := CreatedRules(defaults, customRules, readXml);
            var d := IssueTypes(defaults);
            var c := CustomCatalog(customRules, readXml);
      && |rules| == |d| + |c|
      && (forall i :: 0 <= i < |d| ==> rules[i] == SonarRuleOf(d[i]))
      && (forall i :: 0 <= i < |c| ==> rules[|d| + i] == SonarRuleOf(c[i]))
  {
    RulesOfCatalogs(IssueTypes(defaults), CustomCatalog(customRules, readXml));
  }

  /** A blank custom-rules setting adds no rule, whatever the reader would make of it. */
  lemma BlankCustomRulesAddNothing(defaults: Document, customRules: string, readXml: string -> Document)
    requires IsBlank(customRules)
    ensures CreatedRules(defaults, customRules, readXml) == SonarRulesOf(IssueTypes(defaults))
  {
    assert SonarRulesOf(CustomCatalog(customRules, readXml)) == [];
  }

  /** What every rule read from a catalog element is. */
  predicate WellFormedRule(r: Rule) {
    && r.enabled && r.repositoryKey == None
    && r.key == Key(r.name) && r.configKey == "ReSharperInspectCode#" + r.name
    && r.severity != MAJOR
    && (!IsBlank(r.name) ==> !IsBlank(r.description))
  }

  /** The rule of an element is enabled, keyed by its name's derived key, configured as
      "ReSharperInspectCode#" followed by its name, never at priority MAJOR, and described
      whenever its name is not blank. */
  lemma SonarRuleOfIsWellFormed(e: Element)
    ensures WellFormedRule(SonarRuleOf(e))
  {
    SonarDescriptionIsBlank(Attribute(e, "Id"), Attribute(e, "Description"), Attribute(e, "WikiUrl"), Attribute(e, "Category"));
    CopiesAgreeWithUtils(ParsedSeverity(Attribute(e, "Severity")), MAJOR);
  }

  /** Every rule of a catalog is well formed. */
  lemma SonarRulesAreWellFormed(elements: seq<Element>)
    ensures forall r :: r in SonarRulesOf(elements) ==> WellFormedRule(r)
  {
    forall r | r in SonarRulesOf(elements) ensures WellFormedRule(r) {
      var k :| 0 <= k < |elements| && SonarRulesOf(elements)[k] == r;
      SonarRuleOfIsWellFormed(elements[k]);
    }
  }

  /** Every rule offered is well formed. */
  lemma CreatedRulesAreWellFormed(defaults: Document, customRules: string, readXml: string -> Document)
    ensures forall r :: r in CreatedRules(defaults, customRules, readXml) ==> WellFormedRule(r)
  {
    SonarRulesAreWellFormed(IssueTypes(defaults));
    SonarRulesAreWellFormed(CustomCatalog(customRules, readXml));
  }

  /** Custom rules are not checked against the defaults: a custom element with the id of a
      default one yields a second rule with the same key. */
  lemma DuplicateKeysAreKept(defaults: Document, customRules: string, readXml: string -> Document, i: nat, j: nat)
    requires i < |IssueTypes(defaults)| && j < |CustomCatalog(customRules, readXml)|
    requires Attribute(IssueTypes(defaults)[i], "Id") == Attribute(CustomCatalog(customRules, readXml)[j], "Id")
    ensures var rules := CreatedRules(defaults, customRules, readXml);
            var k := |IssueTypes(defaults)| + j;
            k < |rules| && i != k && rules[i].key == rules[k].key
  {
    CreatedRulesOrder(defaults, customRules, readXml);
  }

  class ReSharperRuleRepository {
    const key: string
    const language: string
    const name: string
    const settings: map<string, string>
    /** The bundled DefaultRules.ReSharper catalog. */
    const defaultRules: Document
    /** The XML reader the parser is given, on the custom rules wrapped in their root. */
    const readXml: string -> Document
    /** What the parser's class logger receives at warning level. */
    var log: seq<string>

    constructor (repositoryKey: string, languageKey: string, settings: map<string, string>,
                 defaultRules: Document, readXml: string -> Document)
      ensures key == repositoryKey && language == languageKey && name == RepositoryName
      ensures this.settings == settings && this.defaultRules == defaultRules && this.readXml == readXml
      ensures log == []
    {
      key := repositoryKey;
      language := languageKey;
      name := RepositoryName;
      this.settings := settings;
      this.defaultRules := defaultRules;
      this.readXml := readXml;
      log := [];
    }

    /** One loop of createRules: each parsed rule converted by toSonarRule and added. */
    static method AddSonarRules(rules: seq<Rule>, reSharperRules: seq<ReSharperRule>, ghost elements: seq<Element>)
      returns (result: seq<Rule>)
      requires |reSharperRules| == |elements|
      requires forall i :: 0 <= i < |elements| ==> ParsedFrom(reSharperRules[i], elements[i])
      ensures result == rules + SonarRulesOf(elements)
    {
      result := rules;
      var k := 0;
      while k < |reSharperRules|
        invariant 0 <= k <= |reSharperRules| && |result| == |rules| + k
        invariant result[..|rules|] == rules
        invariant forall i :: 0 <= i < k ==> result[|rules| + i] == SonarRuleOf(elements[i])
      {
        ToSonarRuleOfParsed(reSharperRules[k], elements[k]);
        result := result + [reSharperRules[k].ToSonarRule()];
        k := k + 1;
      }
    }

    /** createRules: the default catalog's rules, then, when the custom-rules setting is
        not blank, the rules of that setting read as a catalog; the parser's diagnostics go
        to its log. */
    method CreateRules() returns (rules: seq<Rule>)
      modifies this`log
      ensures rules == CreatedRules(defaultRules, SettingOrEmpty(settings, CustomRulesKey), readXml)
      ensures var customRules := SettingOrEmpty(settings, CustomRulesKey);
        log == old(log) + ParseDiagnostics(defaultRules)
               + (if IsBlank(customRules) then [] else ParseDiagnostics(readXml(CustomRulesXml(customRules))))
    {
      rules := [];
      var parser := new ReSharperFileParser();
      parser.log := log;
      var reSharperRules := parser.ParseRules(defaultRules);
      rules := AddSonarRules(rules, reSharperRules, IssueTypes(defaultRules));
      AppendEmpty(SonarRulesOf(IssueTypes(defaultRules)));
      var customRules := SettingOrEmpty(settings, CustomRulesKey);
      if !IsBlank(customRules) {
        var customRulesXml := CustomRulesXml(customRules);
        var customReSharperRules := parser.ParseRules(readXml(customRulesXml));
        rules := AddSonarRules(rules, customReSharperRules, IssueTypes(readXml(customRulesXml)));
      } else {
        AppendEmpty(parser.log);
        AppendEmpty(rules);
        assert SonarRulesOf(CustomCatalog(customRules, readXml)) == [];
      }
      log := parser.log;
    }
  }
}
