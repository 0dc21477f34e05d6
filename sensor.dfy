/**
 * ReSharperSensor: turns the issues of an inspectcode report into SonarQube issues. Each
 * reported issue passes a chain of checks (a file and a line, a file SonarQube knows, the
 * configured language, an issuable file, an active rule) and is either added or skipped
 * with a logged reason. The sensor also decides whether to run at all, checks its required
 * setting and builds the MSBuild properties passed to inspectcode.
 */
module Sensor {
  import opened Wrappers
  import opened JavaText
  import opened SonarApi
  import opened Xml

  /** ReSharperPlugin.SOLUTION_FILE_PROPERTY_KEY */
  const SolutionFileKey := "sonar.resharper.solutionFile"
  const BuildPlatformKey := "sonar.dotnet.buildPlatform"
  const BuildConfigurationKey := "sonar.dotnet.buildConfiguration"

  const RulesDisabledMessage := "All ReSharper rules are disabled, skipping its execution."
  const NoFileReason := "which has no associated file."

  /** One issue of the report: where it was reported, its rule, and its file and line when
      the report gives them. */
  datatype ReSharperIssue = ReSharperIssue(reportLine: int, ruleKey: string, filePath: Option<string>,
                                           line: Option<int>, message: string)

  /** A file SonarQube knows, with its language's key. */
  datatype SonarFile = SonarFile(path: string, language: string)

  /** org.sonar.api.rule.RuleKey */
  datatype RuleKey = RuleKey(repository: string, rule: string)

  /** An issue added to SonarQube. */
  datatype Issue = Issue(file: SonarFile, ruleKey: RuleKey, line: int, message: string)

  /** FileProvider: a report path resolved against the solution file, the SonarQube file of
      a path when SonarQube knows it, and File.getAbsolutePath. */
  datatype FileProvider = FileProvider(
    fileInSolution: (string, string) -> string,
    fromIOFile: string -> Option<SonarFile>,
    absolutePath: string -> string)

  /** What the checks of one run compare an issue against. */
  datatype Context = Context(
    solutionFile: string,
    provider: FileProvider,
    issuable: SonarFile -> bool,
    languageKey: string,
    repositoryKey: string,
    enabledRuleKeys: seq<string>)

  predicate HasFileAndLine(issue: ReSharperIssue) {
    issue.filePath.Some? && issue.line.Some?
  }

  /** Integer.toString */
  function IntText(n: int): string {
    if n < 0 then "-" + Decimal(-n) else Decimal(n)
  }

  function SkipMessage(issue: ReSharperIssue, reason: string): string {
    "Skipping the ReSharper issue at line " + IntText(issue.reportLine) + " " + reason
  }

  function OutsideReason(absolutePath: string): string {
    "whose file \"" + absolutePath + "\" is not in SonarQube."
  }

  function InactiveReason(ruleKey: string): string {
    "because the rule \"" + ruleKey + "\" is either missing or inactive in the quality profile."
  }

  /** What analyse does with one issue. */
  datatype Verdict = NoFile | OutsideSonarQube(file: string) | OtherLanguage | InactiveRule | Added(issue: Issue)

  /** The checks of analyse, in their order. */
  function VerdictOf(issue: ReSharperIssue, ctx: Context): Verdict {
    if !HasFileAndLine(issue) then NoFile
    else
      var file := ctx.provider.fileInSolution(ctx.solutionFile, issue.filePath.value);
      match ctx.provider.fromIOFile(file)
      case None => OutsideSonarQube(file)
      case Some(sonarFile) =>
        if ctx.languageKey != sonarFile.language then OtherLanguage
        else if !ctx.issuable(sonarFile) then OutsideSonarQube(file)
        else if issue.ruleKey !in ctx.enabledRuleKeys then InactiveRule
        else Added(Issue(sonarFile, RuleKey(ctx.repositoryKey, issue.ruleKey), issue.line.value, issue.message))
  }

  /** What analyse logs for one issue. */
  function LogOf(issue: ReSharperIssue, ctx: Context): seq<string> {
    match VerdictOf(issue, ctx)
    case NoFile => [SkipMessage(issue, NoFileReason)]
    case OutsideSonarQube(file) => [SkipMessage(issue, OutsideReason(ctx.provider.absolutePath(file)))]
    case OtherLanguage => []
    case InactiveRule => [SkipMessage(issue, InactiveReason(issue.ruleKey))]
    case Added(_) => []
  }

  /** What analyse adds to SonarQube for one issue. */
  function AddedOf(issue: ReSharperIssue, ctx: Context): seq<Issue> {
    match VerdictOf(issue, ctx)
    case Added(i) => [i]
    case _ => []
  }

  /** The log of the first `n` issues of a report, in order. */
  function LogsOf(report: seq<ReSharperIssue>, n: nat, ctx: Context): seq<string>
    requires n <= |report|
  {
    if n == 0 then [] else LogsOf(report, n - 1, ctx) + LogOf(report[n - 1], ctx)
  }

  /** The issues added for the first `n` issues of a report, in order. */
  function IssuesOf(report: seq<ReSharperIssue>, n: nat, ctx: Context): seq<Issue>
    requires n <= |report|
  {
    if n == 0 then [] else IssuesOf(report, n - 1, ctx) + AddedOf(report[n - 1], ctx)
  }

  /** `logs` and `added` hold what analyse logs and adds for each issue of the report, in
      order. The quantifiers fire only on the per-issue functions, so a proof about
      appending the parts does not look into them. */
  predicate ArePartsOf(logs: seq<seq<string>>, added: seq<seq<Issue>>, report: seq<ReSharperIssue>, ctx: Context) {
    && |logs| == |report| && |added| == |report|
    && (forall i {:trigger LogOf(report[i], ctx)} :: 0 <= i < |report| ==> logs[i] == LogOf(report[i], ctx))
    && (forall i {:trigger AddedOf(report[i], ctx)} :: 0 <= i < |report| ==> added[i] == AddedOf(report[i], ctx))
  }

  ghost method PartsOf(report: seq<ReSharperIssue>, ctx: Context) returns (logs: seq<seq<string>>, added: seq<seq<Issue>>)
    ensures ArePartsOf(logs, added, report, ctx)
  {
    logs := seq(|report|, i requires 0 <= i < |report| => LogOf(report[i], ctx));
    added := seq(|report|, i requires 0 <= i < |report| => AddedOf(report[i], ctx));
  }

  /** The parts of the first `n` issues, one after the other, are their log and their
      added issues. */
  lemma {:induction false} FlattenedParts(logs: seq<seq<string>>, added: seq<seq<Issue>>, report: seq<ReSharperIssue>,
                                          ctx: Context, n: nat)
    requires ArePartsOf(logs, added, report, ctx) && n <= |report|
    ensures Flatten(logs[..n]) == LogsOf(report, n, ctx)
    ensures Flatten(added[..n]) == IssuesOf(report, n, ctx)
  {
    if n > 0 {
      FlattenedParts(logs, added, report, ctx, n - 1);
      assert logs[..n][..n - 1] == logs[..n - 1];
      assert added[..n][..n - 1] == added[..n - 1];
      assert logs[n - 1] == LogOf(report[n - 1], ctx);
      assert added[n - 1] == AddedOf(report[n - 1], ctx);
    }
  }

  /** An issue is added exactly when it has a file and a line, its file resolves to a
      SonarQube file of the configured language that is issuable, and its rule is active;
      it is then added under the repository's key at its line with its message. */
  lemma AddedExactly(issue: ReSharperIssue, ctx: Context)
    ensures VerdictOf(issue, ctx).Added? <==>
      && HasFileAndLine(issue)
      && var file := ctx.provider.fileInSolution(ctx.solutionFile, issue.filePath.value);
         && ctx.provider.fromIOFile(file).Some?
         && ctx.provider.fromIOFile(file).value.language == ctx.languageKey
         && ctx.issuable(ctx.provider.fromIOFile(file).value)
         && issue.ruleKey in ctx.enabledRuleKeys
    ensures VerdictOf(issue, ctx).Added? ==>
      var added := VerdictOf(issue, ctx).issue;
      && added.ruleKey == RuleKey(ctx.repositoryKey, issue.ruleKey)
      && added.line == issue.line.value && added.message == issue.message
      && added.file.language == ctx.languageKey
  {
  }

  /** Each issue is added or logged once, or, when its file is of another language, dropped
      without a word; never both added and logged. */
  lemma OneOutcomePerIssue(issue: ReSharperIssue, ctx: Context)
    ensures |LogOf(issue, ctx)| + |AddedOf(issue, ctx)| <= 1
    ensures |LogOf(issue, ctx)| + |AddedOf(issue, ctx)| == 0 <==> VerdictOf(issue, ctx) == OtherLanguage
    ensures !HasFileAndLine(issue) ==> LogOf(issue, ctx) == [SkipMessage(issue, NoFileReason)]
  {
  }

  /** A report never yields more log entries and added issues than it has issues. */
  lemma {:induction false} OutcomesBoundedByReport(report: seq<ReSharperIssue>, n: nat, ctx: Context)
    requires n <= |report|
    ensures |LogsOf(report, n, ctx)| + |IssuesOf(report, n, ctx)| <= n
  {
    if n > 0 {
      OutcomesBoundedByReport(report, n - 1, ctx);
      OneOutcomePerIssue(report[n - 1], ctx);
    }
  }

  /** Every issue added is of an active rule of the repository, on a file of the configured
      language. */
  lemma {:induction false} AddedIssuesAreOfActiveRules(report: seq<ReSharperIssue>, n: nat, ctx: Context)
    requires n <= |report|
    ensures forall i :: i in IssuesOf(report, n, ctx) ==>
      && i.ruleKey.repository == ctx.repositoryKey && i.ruleKey.rule in ctx.enabledRuleKeys
      && i.file.language == ctx.languageKey
  {
    if n > 0 {
      AddedIssuesAreOfActiveRules(report, n - 1, ctx);
    }
  }

  /** The keys of the active rules, in profile order. */
  function RuleKeysOf(actives: seq<ActiveRule>): (keys: seq<string>)
    ensures |keys| == |actives|
    ensures forall i :: 0 <= i < |actives| ==> keys[i] == actives[i].RuleKey()
  {
    seq(|actives|, i requires 0 <= i < |actives| => actives[i].RuleKey())
  }

  /** A rule key is enabled exactly when an active rule of the repository has it. */
  lemma EnabledKeyMeaning(rules: seq<ActiveRule>, repositoryKey: string, key: string)
    ensures key in RuleKeysOf(ByRepository(rules, repositoryKey))
        <==> exists a :: a in rules && InRepository(a, repositoryKey) && a.rule.key == key
  {
    var actives := ByRepository(rules, repositoryKey);
    var keys := RuleKeysOf(actives);
    if key in keys {
      var k :| 0 <= k < |keys| && keys[k] == key;
      assert actives[k] in actives;
    }
    if exists a :: a in rules && InRepository(a, repositoryKey) && a.rule.key == key {
      var a :| a in rules && InRepository(a, repositoryKey) && a.rule.key == key;
      var k :| 0 <= k < |actives| && actives[k] == a;
      assert keys[k] == key;
    }
  }

  /** checkProperties: the message of the IllegalStateException raised when the solution
      file is not set. */
  function PropertyError(settings: map<string, string>): Option<string> {
    if SolutionFileKey in settings then None
    else Some("The property \"" + SolutionFileKey + "\" must be set.")
  }

  /** The entry addPropertyIfDefined adds: none when the setting is absent or empty,
      otherwise the MSBuild name, '=' and the value with its spaces removed. */
  function PropertyEntry(settings: map<string, string>, msBuildPropertyName: string, sonarPropertyName: string): seq<string> {
    if sonarPropertyName !in settings || settings[sonarPropertyName] == "" then []
    else [msBuildPropertyName + "=" + RemoveChar(settings[sonarPropertyName], ' ')]
  }

  /** The MSBuild properties: Platform before Configuration, each present exactly when its
      setting is set and not empty, each value free of spaces. */
  lemma PropertiesMeaning(settings: map<string, string>)
    ensures var props := PropertyEntry(settings, "Platform", BuildPlatformKey)
                       + PropertyEntry(settings, "Configuration", BuildConfigurationKey);
            var platform := BuildPlatformKey in settings && settings[BuildPlatformKey] != "";
            var configuration := BuildConfigurationKey in settings && settings[BuildConfigurationKey] != "";
      && |props| == (if platform then 1 else 0) + (if configuration then 1 else 0)
      && (platform ==> props[0] == "Platform=" + RemoveChar(settings[BuildPlatformKey], ' '))
      && (configuration ==> props[|props| - 1] == "Configuration=" + RemoveChar(settings[BuildConfigurationKey], ' '))
      && (forall i :: 0 <= i < |props| ==> ' ' !in props[i])
  {
  }

  class ReSharperSensor {
    const repositoryKey: string
    const languageKey: string
    const settings: map<string, string>
    const profile: RulesProfile
    /** The project's source files in the configured language. */
    const languageFiles: seq<string>
    /** ResourcePerspectives: whether a SonarQube file has an Issuable perspective. */
    const issuable: SonarFile -> bool
    /** What the class logger receives at info level. */
    var log: seq<string>
    /** The issues added through the Issuable perspectives, in order. */
    var issues: seq<Issue>

    constructor (repositoryKey: string, languageKey: string, settings: map<string, string>,
                 profile: RulesProfile, languageFiles: seq<string>, issuable: SonarFile -> bool)
      ensures this.repositoryKey == repositoryKey && this.languageKey == languageKey
      ensures this.settings == settings && this.profile == profile
      ensures this.languageFiles == languageFiles && this.issuable == issuable
      ensures log == [] && issues == []
    {
      this.repositoryKey := repositoryKey;
      this.languageKey := languageKey;
      this.settings := settings;
      this.profile := profile;
      this.languageFiles := languageFiles;
      this.issuable := issuable;
      log := [];
      issues := [];
    }

    /** shouldExecuteOnProject: run only when there are files in the language and the
        profile has an active rule of the repository; with files but no such rule, say so. */
    method ShouldExecuteOnProject() returns (shouldExecute: bool)
      modifies this`log
      ensures shouldExecute <==> languageFiles != [] && ByRepository(profile.activeRules, repositoryKey) != []
      ensures log == old(log) + (if languageFiles != [] && ByRepository(profile.activeRules, repositoryKey) == []
                                 then [RulesDisabledMessage] else [])
    {
      if languageFiles == [] {
        shouldExecute := false;
      } else if ByRepository(profile.activeRules, repositoryKey) == [] {
        log := log + [RulesDisabledMessage];
        shouldExecute := false;
      } else {
        shouldExecute := true;
      }
    }

    /** enabledRuleKeys: the keys of the profile's active rules of the repository, in order. */
    method EnabledRuleKeys() returns (keys: seq<string>)
      ensures keys == RuleKeysOf(ByRepository(profile.activeRules, repositoryKey))
    {
      var actives := ByRepository(profile.activeRules, repositoryKey);
      keys := [];
      var k := 0;
      while k < |actives|
        invariant 0 <= k <= |actives| && |keys| == k
        invariant forall i :: 0 <= i < k ==> keys[i] == actives[i].RuleKey()
      {
        keys := keys + [actives[k].RuleKey()];
        k := k + 1;
      }
    }

    /** checkProperties: an error exactly when the solution file is not set. */
    method CheckProperties() returns (error: Option<string>)
      ensures error == PropertyError(settings)
      ensures error.None? <==> SolutionFileKey in settings
    {
      if SolutionFileKey !in settings {
        return Some("The property \"" + SolutionFileKey + "\" must be set.");
      }
      return None;
    }

    /** addPropertyIfDefined */
    method AddPropertyIfDefined(properties: seq<string>, msBuildPropertyName: string, sonarPropertyName: string)
      returns (result: seq<string>)
      ensures result == properties + PropertyEntry(settings, msBuildPropertyName, sonarPropertyName)
    {
      var value := if sonarPropertyName in settings then settings[sonarPropertyName] else "";
      result := properties;
      if value != "" {
        value := RemoveChar(value, ' ');
        result := result + [msBuildPropertyName + "=" + value];
      }
    }

    /** getProperties */
    method GetProperties() returns (properties: seq<string>)
      ensures properties == PropertyEntry(settings, "Platform", BuildPlatformKey)
                          + PropertyEntry(settings, "Configuration", BuildConfigurationKey)
    {
      properties := [];
      properties := AddPropertyIfDefined(properties, "Platform", BuildPlatformKey);
      properties := AddPropertyIfDefined(properties, "Configuration", BuildConfigurationKey);
    }

    /** The context the checks of a run compare against. */
    function ContextOf(provider: FileProvider): Context
      reads profile
      requires SolutionFileKey in settings
    {
      Context(settings[SolutionFileKey], provider, issuable, languageKey, repositoryKey,
              RuleKeysOf(ByRepository(profile.activeRules, repositoryKey)))
    }

    /** The body of analyse's loop: one issue skipped with its reason, dropped, or added. */
    method AnalyseIssue(issue: ReSharperIssue, provider: FileProvider, solutionFile: string, ghost ctx: Context)
      requires SolutionFileKey in settings && solutionFile == settings[SolutionFileKey]
      requires ctx == ContextOf(provider)
      modifies this`log, this`issues
      ensures log == old(log) + LogOf(issue, ctx)
      ensures issues == old(issues) + AddedOf(issue, ctx)
    {
      if !HasFileAndLine(issue) {
        log := log + [SkipMessage(issue, NoFileReason)];
        return;
      }
      var file := provider.fileInSolution(solutionFile, issue.filePath.value);
      var sonarFile := provider.fromIOFile(file);
      if sonarFile.None? {
        log := log + [SkipMessage(issue, OutsideReason(provider.absolutePath(file)))];
      } else if languageKey == sonarFile.value.language {
        if !issuable(sonarFile.value) {
          log := log + [SkipMessage(issue, OutsideReason(provider.absolutePath(file)))];
        } else {
          var enabled := EnabledRuleKeys();
          if issue.ruleKey !in enabled {
            log := log + [SkipMessage(issue, InactiveReason(issue.ruleKey))];
          } else {
            issues := issues + [Issue(sonarFile.value, RuleKey(repositoryKey, issue.ruleKey), issue.line.value, issue.message)];
          }
        }
      }
    }

    /** analyse on the k-th issue of the report. */
    method AnalyseNext(provider: FileProvider, report: seq<ReSharperIssue>, solutionFile: string, ghost ctx: Context,
                       ghost logs: seq<seq<string>>, ghost added: seq<seq<Issue>>, k: nat)
      requires SolutionFileKey in settings && solutionFile == settings[SolutionFileKey]
      requires ctx == ContextOf(provider) && ArePartsOf(logs, added, report, ctx) && k < |report|
      modifies this`log, this`issues
      ensures log == old(log) + logs[k]
      ensures issues == old(issues) + added[k]
    {
      AnalyseIssue(report[k], provider, solutionFile, ctx);
      assert logs[k] == LogOf(report[k], ctx) && added[k] == AddedOf(report[k], ctx);
    }

    /** The loop of analyse over the report's issues, in order. */
    method AnalyseReport(provider: FileProvider, report: seq<ReSharperIssue>, solutionFile: string, ghost ctx: Context)
      requires SolutionFileKey in settings && solutionFile == settings[SolutionFileKey]
      requires ctx == ContextOf(provider)
      modifies this`log, this`issues
      ensures log == old(log) + LogsOf(report, |report|, ctx)
      ensures issues == old(issues) + IssuesOf(report, |report|, ctx)
    {
      ghost var logs, added := PartsOf(report, ctx);
      var k := 0;
      while k < |report|
        invariant 0 <= k <= |report|
        invariant log == old(log) + Flatten(logs[..k])
        invariant issues == old(issues) + Flatten(added[..k])
      {
        AnalyseNext(provider, report, solutionFile, ctx, logs, added, k);
        FlattenStep(old(log), logs, k);
        FlattenStep(old(issues), added, k);
        k := k + 1;
      }
      assert logs[..k] == logs && added[..k] == added;
      FlattenedParts(logs, added, report, ctx, k);
    }

    /** analyse, from the property check to the issues of the report: an error and no
        change when the solution file is not set; otherwise each issue of the report in
        order, logged, dropped or added. Writing the settings file and running inspectcode
        happen between the two and are not part of this model. */
    method Analyse(provider: FileProvider, report: seq<ReSharperIssue>) returns (error: Option<string>)
      modifies this`log, this`issues
      ensures error == PropertyError(settings)
      ensures error.Some? ==> log == old(log) && issues == old(issues)
      ensures error.None? ==>
        && log == old(log) + LogsOf(report, |report|, ContextOf(provider))
        && issues == old(issues) + IssuesOf(report, |report|, ContextOf(provider))
    {
      error := CheckProperties();
      if error.Some? {
        return;
      }
      var solutionFile := settings[SolutionFileKey];
      AnalyseReport(provider, report, solutionFile, ContextOf(provider));
    }
  }
}
