# ReSharper plugin for SonarQube: severity translation and its surroundings

This project models, in Dafny, the core of the sonar-resharper plugin. The plugin runs JetBrains'
`inspectcode` on a .NET solution and turns its findings into SonarQube issues. Its centre is the
translation between ReSharper's six inspection severities (ERROR, WARNING, SUGGESTION, INFO, HINT,
DO_NOT_SHOW) and SonarQube's five rule priorities. Around it sit the following parts:

- the parser of rule catalogs (`IssueType` elements);
- the rule repository built from the bundled catalog and the custom-rules setting;
- the quality-profile importer and exporter;
- the custom-severity overrides read from ReSharper settings documents;
- the sensor's per-issue filter;
- the command line given to `inspectcode`.

One Dafny module per source component:

| module | source component |
|---|---|
| `Severities` | `ReSharperUtils`: the severity enum, parsing of its names, both translation tables |
| `Rules` | `ReSharperRule`: a class whose setters fill its fields; derived key, SonarQube rule, creation from an active rule |
| `FileParser` | `ReSharperFileParser`: one rule object per `IssueType` element, diagnostics to a messages sink or the log |
| `CustomSeverities` | `BaseCustomSeverities` (as the class `Provider`) and `AllCustomSeveritiesProvidersMerger` (as `Merger`) |
| `ProfileImporter` | `ReSharperProfileImporter` |
| `ProfileExporter` | `ReSharperProfileExporter`, writing to a `Writer` that records what is appended |
| `RuleRepository` | `ReSharperRuleRepository.createRules` |
| `Sensor` | `ReSharperSensor`: `shouldExecuteOnProject`, the property check, the MSBuild properties, the issue filter of `analyse` |
| `Executor` | `ReSharperExecutor`: the builder and `toCommand` |

Supporting modules:

- `Wrappers` holds `Option`, for Java's nullable references.
- `JavaText` holds the Java and commons-lang string operations the code relies on: `isBlank`, `String.equals`, `replace`, `split` on a character class, and joining.
- `Xml` holds the `IssueType` element and document abstraction, `escapeXml`, and the decoding an XML reader applies.
- `SonarApi` holds the host types: `Rule`, `ActiveRule`, `RulesProfile` and `ValidationMessages`.

How the model is written:

- **Classes.** Where the source updates objects in place, the model is a class with `modifies` clauses. This covers the rule, the parser, the providers, the importer's profile, the exporter's writer, the repository, the sensor and the executor.
- **Specification functions.** Each loop is proved against a function over plain values: `ActivationsOf`, `AddNodes`, `ExportedLines`, `CreatedRules`, `LogsOf`/`IssuesOf`, `JoinTerminated`.
- **Properties.** The properties the plugin relies on are proved about those functions. They include:
  - the severity round trips;
  - export followed by import giving back the rule;
  - first entry wins within a settings document;
  - the later provider winning across documents;
  - an issue being added exactly when all of the sensor's checks pass;
  - the argument order of the command line.

## Model

| member | source | states |
|---|---|---|
| Severities.ValueOfIsInverseOfName | src/main/java/org/sonar/plugins/resharper/customseverities/ReSharperUtils.java:40-43 | valueOf yields a constant exactly when the text is that constant's name |
| Severities.ValueOfRejectsOtherText | src/main/java/org/sonar/plugins/resharper/customseverities/ReSharperUtils.java:40-46 | text that names no constant is rejected (Java's IllegalArgumentException) |
| Severities.GetResharperSeverityMeaning | src/main/java/org/sonar/plugins/resharper/customseverities/ReSharperUtils.java:40-50 | getResharperSeverity gives the constant a text names, and WARNING for null and for any other text |
| Severities.ParseName | src/main/java/org/sonar/plugins/resharper/customseverities/ReSharperUtils.java:31-50 | parsing a constant's name gives back that constant |
| Severities.NameIsUpperCase | src/main/java/org/sonar/plugins/resharper/customseverities/ReSharperUtils.java:31-38 | every constant's name is made of upper-case letters and underscores |
| Severities.LowerCaseTextIsWarning | src/main/java/org/sonar/plugins/resharper/customseverities/ReSharperUtils.java:40-48 | parsing is case-sensitive: a text holding a lower-case letter is never recognised and yields WARNING |
| Severities.ToSonarPriority | src/main/java/org/sonar/plugins/resharper/customseverities/ReSharperUtils.java:55-70 | no severity is translated to MAJOR |
| Severities.ToResharperSeverity | src/main/java/org/sonar/plugins/resharper/customseverities/ReSharperUtils.java:77-93 | no priority is translated to INFO or DO_NOT_SHOW |
| Severities.PriorityRoundTrip | src/main/java/org/sonar/plugins/resharper/customseverities/ReSharperUtils.java:55-93 | a priority taken to a severity and back is unchanged, except MAJOR, which comes back as CRITICAL |
| Severities.SeverityRoundTrip | src/main/java/org/sonar/plugins/resharper/customseverities/ReSharperUtils.java:55-93 | ERROR, WARNING and SUGGESTION survive a trip to a priority and back; INFO, HINT and DO_NOT_SHOW come back as HINT |
| Severities.TranslationsKeepOrder | src/main/java/org/sonar/plugins/resharper/customseverities/ReSharperUtils.java:55-93 | both translations are monotone: a more severe input never gives a less severe output |
| Rules.Key | src/main/java/org/sonar/plugins/resharper/profiles/ReSharperRule.java:316-318 | the key has the id's length, no ':', and '_' exactly where the id has ':' |
| Rules.KeyIsIdempotent | src/main/java/org/sonar/plugins/resharper/profiles/ReSharperRule.java:316-318 | deriving a key from a key changes nothing; an id without ':' is its own key |
| Rules.CopiesAgreeWithUtils | src/main/java/org/sonar/plugins/resharper/profiles/ReSharperRule.java:198-232 | the rule class's private translation tables agree with ReSharperUtils's in both directions |
| Rules.SonarDescriptionShape | src/main/java/org/sonar/plugins/resharper/profiles/ReSharperRule.java:257-273 | the SonarQube description starts with the description (the id when it is blank); the wiki link text follows when the link is not blank; it ends with the category text when the category is not blank |
| Rules.SonarDescriptionIsBlank | src/main/java/org/sonar/plugins/resharper/profiles/ReSharperRule.java:257-273 | the SonarQube description is blank exactly when description, id, wiki link and category all are |
| Rules.ReSharperRule.constructor | src/main/java/org/sonar/plugins/resharper/profiles/ReSharperRule.java:44-45 | a new rule has every field unset |
| Rules.ReSharperRule.SetId | src/main/java/org/sonar/plugins/resharper/profiles/ReSharperRule.java:68-70 | sets the id only |
| Rules.ReSharperRule.SetEnabled | src/main/java/org/sonar/plugins/resharper/profiles/ReSharperRule.java:87-89 | sets the enabled flag only |
| Rules.ReSharperRule.SetCategory | src/main/java/org/sonar/plugins/resharper/profiles/ReSharperRule.java:106-108 | sets the category only |
| Rules.ReSharperRule.SetDescription | src/main/java/org/sonar/plugins/resharper/profiles/ReSharperRule.java:125-127 | sets the description only |
| Rules.ReSharperRule.SetWikiLink | src/main/java/org/sonar/plugins/resharper/profiles/ReSharperRule.java:144-146 | sets the wiki link only |
| Rules.ReSharperRule.SetSeverity | src/main/java/org/sonar/plugins/resharper/profiles/ReSharperRule.java:163-165 | sets the severity only |
| Rules.ReSharperRule.SetSonarPriority | src/main/java/org/sonar/plugins/resharper/profiles/ReSharperRule.java:174-183 | the severity becomes the translated priority; reading the priority back gives the one set, MAJOR reading back as CRITICAL |
| Rules.ReSharperRule.ToSonarRule | src/main/java/org/sonar/plugins/resharper/profiles/ReSharperRule.java:234-283 | the SonarQube rule has the derived key, the id as name, "ReSharperInspectCode#" + id as configuration key, the translated priority and the composed description, which is not blank when the id is not |
| Rules.ReSharperRule.CreateFromActiveRule | src/main/java/org/sonar/plugins/resharper/profiles/ReSharperRule.java:285-314 | a new rule holds the active rule's name, enabled flag and description, and its severity translated when it has one; category and wiki link stay unset |
| Xml.Escape | src/main/java/org/sonar/plugins/resharper/profiles/ReSharperProfileExporter.java:101-124 | an escaped attribute value holds no quote or angle bracket and only ASCII, so it cannot end its attribute early |
| Xml.DecodeEscape | src/main/java/org/sonar/plugins/resharper/profiles/ReSharperProfileExporter.java:101-124 | an XML reader recovers exactly the text escapeXml was given, for every text of characters from the space to U+FFFD |
| Xml.WhiteSpaceIsNormalised | src/main/java/org/sonar/plugins/resharper/profiles/ReSharperProfileExporter.java:101-124 | a TAB, LF or CR is written as it is and read back as a space, so such a value does not survive the round trip |
| Xml.ControlIsWrittenRaw | src/main/java/org/sonar/plugins/resharper/profiles/ReSharperProfileExporter.java:101-124 | any other control character is written as it is, and XML does not allow it |
| Xml.SupplementaryIsSplit | src/main/java/org/sonar/plugins/resharper/profiles/ReSharperProfileExporter.java:101-124 | a character above U+FFFF is written as references to its two UTF-16 surrogates, and neither reference stands for a character |
| Xml.SupplementaryIsLost | src/main/java/org/sonar/plugins/resharper/profiles/ReSharperProfileExporter.java:101-124 | what is read back for a character above U+FFFF starts with a bare '&', not with the character |
| JavaText.RemoveChar | src/main/java/org/sonar/plugins/resharper/ReSharperSensor.java:162 | the removed character no longer occurs, the result is no longer than the text, and every other character keeps its number of occurrences |
| JavaText.RemoveCharPiecewise | src/main/java/org/sonar/plugins/resharper/ReSharperSensor.java:162 | removal from two texts put together is the removal from each, in order; a single character is dropped exactly when it is the removed one, so the other characters keep their order |
| JavaText.Split | src/main/java/org/sonar/plugins/resharper/customseverities/BaseCustomSeverities.java:190 | no segment holds a delimiter; a text without delimiters splits into itself; otherwise the segments are the fields between delimiters, the leading empty one kept and the trailing empty ones dropped |
| JavaText.FieldsJoinBack | src/main/java/org/sonar/plugins/resharper/customseverities/BaseCustomSeverities.java:190 | the fields between the occurrences of a delimiter, joined back with it, give the text |
| JavaText.FieldsCount | src/main/java/org/sonar/plugins/resharper/customseverities/BaseCustomSeverities.java:190 | a text has one field more than it has delimiters |
| JavaText.JoinTerminatedIsJoinPlusSep | src/main/java/org/sonar/plugins/resharper/ReSharperExecutor.java:161-172 | the buffer of elements each followed by the separator is the joined text plus one separator, so cutting its last character gives the join |
| FileParser.SeverityDiagnosticsOf | src/main/java/org/sonar/plugins/resharper/profiles/ReSharperFileParser.java:84-91 | there is at most one severity diagnostic per element, and each is the invalid-severity warning, naming the text, for the severity text of an element whose severity names no constant |
| FileParser.KnownSeveritiesAreSilent | src/main/java/org/sonar/plugins/resharper/profiles/ReSharperFileParser.java:84-91 | elements whose severities all name a constant produce no diagnostic |
| FileParser.ReSharperFileParser.constructor | src/main/java/org/sonar/plugins/resharper/profiles/ReSharperFileParser.java:38-40 | a new parser has no messages sink |
| FileParser.ReSharperFileParser.SetMessages | src/main/java/org/sonar/plugins/resharper/profiles/ReSharperFileParser.java:43-45 | installs the messages sink |
| FileParser.ReSharperFileParser.LogWarningMessage | src/main/java/org/sonar/plugins/resharper/profiles/ReSharperFileParser.java:106-111 | a message goes to the sink as an error when there is a sink, and to the log otherwise, never both |
| FileParser.ReSharperFileParser.LogWarningMessages | src/main/java/org/sonar/plugins/resharper/profiles/ReSharperFileParser.java:106-111 | several messages go, in order, where one would |
| FileParser.ReSharperFileParser.ReadRule | src/main/java/org/sonar/plugins/resharper/profiles/ReSharperFileParser.java:67-92 | a new rule holds the element's attributes; Enabled is read as containing "true" in any case; the severity is the named constant or WARNING, with one diagnostic when none is named |
| FileParser.ReSharperFileParser.ReadRules | src/main/java/org/sonar/plugins/resharper/profiles/ReSharperFileParser.java:62-93 | one new rule per element, in element order, with the elements' diagnostics in order |
| FileParser.ReSharperFileParser.ParseRules | src/main/java/org/sonar/plugins/resharper/profiles/ReSharperFileParser.java:47-104 | one new rule per IssueType element in document order; the diagnostics (no elements, the XPath error, unknown severities) go to the sink or the log |
| CustomSeverities.GetKeyOutcomes | src/main/java/org/sonar/plugins/resharper/customseverities/BaseCustomSeverities.java:184-196 | a key is ignored exactly when it lies outside the prefix; a key under the prefix is rejected exactly when its split has neither 8 nor 9 segments, and otherwise names the segment before last; a rule key holds no '/' or '=' |
| CustomSeverities.GetKeyOfEntry | src/main/java/org/sonar/plugins/resharper/customseverities/BaseCustomSeverities.java:184-196 | a settings entry "prefix/=Rule/tail" names the rule Rule |
| CustomSeverities.UnknownTextIsCritical | src/main/java/org/sonar/plugins/resharper/customseverities/BaseCustomSeverities.java:204-208 | a node text that names no severity stores CRITICAL |
| CustomSeverities.AddNodeMeaning | src/main/java/org/sonar/plugins/resharper/customseverities/BaseCustomSeverities.java:157-175 | one node throws exactly when it has no x:Key; it keeps every entry, adds at most its own accepted key with its own priority, and logs at most once, exactly for a rejected key or a duplicate |
| CustomSeverities.AddNodesMeaning | src/main/java/org/sonar/plugins/resharper/customseverities/BaseCustomSeverities.java:92-106 | reading throws exactly when some node has no x:Key; it never removes or changes an entry; every accepted key read before the first keyless node ends up mapped; every new entry comes from a node; at most one log event per node |
| CustomSeverities.KeylessNodeStops | src/main/java/org/sonar/plugins/resharper/customseverities/BaseCustomSeverities.java:92-106 | a node without x:Key ends the reading with its exception: the outcome is that of the nodes before it, and later nodes are never read |
| CustomSeverities.AddNodesOfPresentKeys | src/main/java/org/sonar/plugins/resharper/customseverities/BaseCustomSeverities.java:164-175 | nodes whose keys are all present change nothing |
| CustomSeverities.AddNodesIsIdempotent | src/main/java/org/sonar/plugins/resharper/customseverities/BaseCustomSeverities.java:92-106 | reading the same nodes twice leaves the map as one reading did |
| CustomSeverities.FirstEntryWins | src/main/java/org/sonar/plugins/resharper/customseverities/BaseCustomSeverities.java:164-175 | a new rule key gets the priority of the first node naming it, whatever later nodes say |
| CustomSeverities.ParseOutcome | src/main/java/org/sonar/plugins/resharper/customseverities/BaseCustomSeverities.java:92-106 | an unreadable source changes no entry and logs the XPath error |
| CustomSeverities.AssignOne | src/main/java/org/sonar/plugins/resharper/customseverities/BaseCustomSeverities.java:146-153 | an active rule keeps its rule and gets the mapped priority when its key is mapped, otherwise keeps its severity |
| CustomSeverities.Assigned | src/main/java/org/sonar/plugins/resharper/customseverities/BaseCustomSeverities.java:79-83 | every active rule, in order, is assigned once |
| CustomSeverities.AssignedEmpty | src/main/java/org/sonar/plugins/resharper/customseverities/BaseCustomSeverities.java:146-153 | an empty map leaves the active rules unchanged |
| CustomSeverities.InputSourceOf | src/main/java/org/sonar/plugins/resharper/customseverities/BaseCustomSeverities.java:62-73 | there is no source when the definition is missing or empty |
| CustomSeverities.LaterProviderWins | src/main/java/org/sonar/plugins/resharper/customseverities/AllCustomSeveritiesProvidersMerger.java:37-42 | after both providers, a rule the property-based provider maps has its priority, a rule only the file-based one maps has that one's, and other rules are unchanged |
| CustomSeverities.ProfileName | src/main/java/org/sonar/plugins/resharper/customseverities/AllCustomSeveritiesProvidersMerger.java:55-66 | the profile name is the configured name when set and not empty, otherwise the default; never empty |
| CustomSeverities.Provider.constructor | src/main/java/org/sonar/plugins/resharper/customseverities/BaseCustomSeverities.java:48-54 | a new provider has an empty map and no configuration |
| CustomSeverities.Provider.SetSettings | src/main/java/org/sonar/plugins/resharper/customseverities/BaseCustomSeverities.java:215-217 | installs the configuration |
| CustomSeverities.Provider.AddCustomSeverity | src/main/java/org/sonar/plugins/resharper/customseverities/BaseCustomSeverities.java:157-175 | the map and the log become those of adding one node |
| CustomSeverities.Provider.ParseCustomSeverities | src/main/java/org/sonar/plugins/resharper/customseverities/BaseCustomSeverities.java:92-106 | the map and the log become those of reading the whole source in document order; the map is returned |
| CustomSeverities.Provider.AssignCustomSeverities | src/main/java/org/sonar/plugins/resharper/customseverities/BaseCustomSeverities.java:79-83 | the profile's active rules become their assignment by the map |
| CustomSeverities.Provider.Merge | src/main/java/org/sonar/plugins/resharper/customseverities/BaseCustomSeverities.java:62-77 | nothing changes without a source; otherwise the source is read into the map and, unless a keyless node threw, the map is applied to the profile |
| CustomSeverities.Merger.constructor | src/main/java/org/sonar/plugins/resharper/customseverities/AllCustomSeveritiesProvidersMerger.java:29-35 | the file-based provider comes first, then the property-based one |
| CustomSeverities.Merger.SetSettings | src/main/java/org/sonar/plugins/resharper/customseverities/AllCustomSeveritiesProvidersMerger.java:44-46 | installs the settings |
| CustomSeverities.Merger.SetProfile | src/main/java/org/sonar/plugins/resharper/customseverities/AllCustomSeveritiesProvidersMerger.java:48-50 | installs the profile |
| CustomSeverities.Merger.Merge | src/main/java/org/sonar/plugins/resharper/customseverities/AllCustomSeveritiesProvidersMerger.java:37-42 | both providers get the settings and merge, in order, into the same profile, each provider's map and log becoming those of its merge; an exception of the file-based provider escapes and the property-based one never runs |
| CustomSeverities.Merger.GetProfileName | src/main/java/org/sonar/plugins/resharper/customseverities/AllCustomSeveritiesProvidersMerger.java:55-66 | returns the selected profile name and warns exactly when it falls back to the default |
| ProfileImporter.EachRuleActivatedOrReported | src/main/java/org/sonar/plugins/resharper/profiles/ReSharperProfileImporter.java:84-99 | every parsed rule is either activated or warned about, never both and never neither |
| ProfileImporter.AllFoundAllActivated | src/main/java/org/sonar/plugins/resharper/profiles/ReSharperProfileImporter.java:89-95 | when the finder knows every rule, each rule is activated in order at its translated priority |
| ProfileImporter.AllFoundNoWarning | src/main/java/org/sonar/plugins/resharper/profiles/ReSharperProfileImporter.java:92-98 | when the finder knows every rule, nothing is warned about |
| ProfileImporter.ImportedPriorityMeaning | src/main/java/org/sonar/plugins/resharper/profiles/ReSharperProfileImporter.java:93 | an imported priority is never MAJOR, and a severity text naming a constant gives that constant's priority |
| ProfileImporter.ReSharperProfileImporter.constructor | src/main/java/org/sonar/plugins/resharper/profiles/ReSharperProfileImporter.java:58-63 | the importer's key is the plugin's repository key, '-', the language key |
| ProfileImporter.ReSharperProfileImporter.ActivateRule | src/main/java/org/sonar/plugins/resharper/profiles/ReSharperProfileImporter.java:85-98 | a rule the finder knows under its derived key is activated at its priority; otherwise one warning names its id |
| ProfileImporter.ReSharperProfileImporter.ActivateRules | src/main/java/org/sonar/plugins/resharper/profiles/ReSharperProfileImporter.java:84-99 | the parsed rules are activated or warned about in order |
| ProfileImporter.ReSharperProfileImporter.ImportProfile | src/main/java/org/sonar/plugins/resharper/profiles/ReSharperProfileImporter.java:69-102 | a new profile in the importer's language holds the known catalog rules at their priorities; the others are warned about; the parser's diagnostics become errors |
| ProfileExporter.EnabledTextRoundTrip | src/main/java/org/sonar/plugins/resharper/profiles/ReSharperProfileExporter.java:105-106 | the exported Enabled text reads back as the same flag |
| ProfileExporter.CreatedRuleLine | src/main/java/org/sonar/plugins/resharper/profiles/ReSharperProfileExporter.java:93-135 | the line printed for the rule created from an active rule depends only on that active rule |
| ProfileExporter.ExportedLineShape | src/main/java/org/sonar/plugins/resharper/profiles/ReSharperProfileExporter.java:101-124 | an exported line has Id, Enabled, Description and Severity attributes with their escaped values, and no Category or WikiUrl |
| ProfileExporter.ExportedValues | src/main/java/org/sonar/plugins/resharper/profiles/ReSharperProfileExporter.java:101-124 | the exported element has exactly the Id, Enabled, Description and Severity attributes; Enabled and Severity read back as written, the name and the description whenever they are XML text |
| ProfileExporter.ExportImportRoundTrip | src/main/java/org/sonar/plugins/resharper/profiles/ReSharperProfileExporter.java:101-124 | parsing an exported line gives back the rule's enabled flag, with category and wiki link empty, and its id, key and description whenever these are XML text |
| ProfileExporter.ExportImportProfileRoundTrip | src/main/java/org/sonar/plugins/resharper/profiles/ReSharperProfileExporter.java:77-124 | exporting N active rules and importing them against a finder holding those rules under their keys gives N activations, in order, of the same rules at their round-tripped priorities, and no warning |
| ProfileExporter.ExportImportPriorityRoundTrip | src/main/java/org/sonar/plugins/resharper/profiles/ReSharperProfileExporter.java:122-123 | a priority exported and imported again comes back unchanged, except MAJOR, which comes back as CRITICAL |
| ProfileExporter.ReSharperProfileExporter.constructor | src/main/java/org/sonar/plugins/resharper/profiles/ReSharperProfileExporter.java:56-60 | the exporter's key is the plugin's repository key, '-', the language key |
| ProfileExporter.ReSharperProfileExporter.TransformIntoReSharperRules | src/main/java/org/sonar/plugins/resharper/profiles/ReSharperProfileExporter.java:127-135 | one new rule per active rule, in order, each created from its active rule |
| ProfileExporter.ReSharperProfileExporter.PrintRule | src/main/java/org/sonar/plugins/resharper/profiles/ReSharperProfileExporter.java:93-125 | the writer receives exactly one IssueType line for the rule, Category and WikiUrl only when not blank |
| ProfileExporter.ReSharperProfileExporter.PrintRuleLines | src/main/java/org/sonar/plugins/resharper/profiles/ReSharperProfileExporter.java:84-86 | the writer receives the lines of the rules in order |
| ProfileExporter.ReSharperProfileExporter.PrintRules | src/main/java/org/sonar/plugins/resharper/profiles/ReSharperProfileExporter.java:74-90 | the writer receives the Report and IssueTypes openings, one line per active rule of the repository in profile order, then the closings |
| RuleRepository.ToSonarRuleOfParsed | src/main/java/org/sonar/plugins/resharper/ReSharperRuleRepository.java:64-66 | the SonarQube rule of a parsed rule depends only on the element it was read from |
| RuleRepository.SonarRulesOf | src/main/java/org/sonar/plugins/resharper/ReSharperRuleRepository.java:64-66 | one SonarQube rule per catalog element, in order |
| RuleRepository.CreatedRulesOrder | src/main/java/org/sonar/plugins/resharper/ReSharperRuleRepository.java:56-87 | the default catalog's rules come first in catalog order, then the custom catalog's in theirs |
| RuleRepository.BlankCustomRulesAddNothing | src/main/java/org/sonar/plugins/resharper/ReSharperRuleRepository.java:69-70 | a blank custom-rules setting adds no rule |
| RuleRepository.SonarRuleOfIsWellFormed | src/main/java/org/sonar/plugins/resharper/ReSharperRuleRepository.java:64-66 | every rule offered is enabled, keyed by its derived key, never MAJOR, and described when named |
| RuleRepository.SonarRulesAreWellFormed | src/main/java/org/sonar/plugins/resharper/ReSharperRuleRepository.java:64-66 | every rule of a catalog is well formed |
| RuleRepository.CreatedRulesAreWellFormed | src/main/java/org/sonar/plugins/resharper/ReSharperRuleRepository.java:56-87 | every rule createRules offers is well formed |
| RuleRepository.DuplicateKeysAreKept | src/main/java/org/sonar/plugins/resharper/ReSharperRuleRepository.java:76-79 | a custom rule with the id of a default rule is offered a second time under the same key |
| RuleRepository.ReSharperRuleRepository.constructor | src/main/java/org/sonar/plugins/resharper/ReSharperRuleRepository.java:44-49 | the repository is named "Resharper" and keeps its keys and settings |
| RuleRepository.ReSharperRuleRepository.AddSonarRules | src/main/java/org/sonar/plugins/resharper/ReSharperRuleRepository.java:64-66 | the parsed rules' SonarQube rules are appended in order |
| RuleRepository.ReSharperRuleRepository.CreateRules | src/main/java/org/sonar/plugins/resharper/ReSharperRuleRepository.java:56-87 | the rules are those of the default catalog, then of the custom setting when not blank; the parser's diagnostics of both go to the log |
| Sensor.AddedExactly | src/main/java/org/sonar/plugins/resharper/ReSharperSensor.java:124-149 | an issue is added exactly when it has a file and line, resolves to a SonarQube file of the configured language, is issuable and its rule is active; it is added under the repository key at its line with its message |
| Sensor.OneOutcomePerIssue | src/main/java/org/sonar/plugins/resharper/ReSharperSensor.java:125-148 | each issue is added or logged once, or dropped silently exactly for a file of another language; an issue without file or line is logged as having no file |
| Sensor.OutcomesBoundedByReport | src/main/java/org/sonar/plugins/resharper/ReSharperSensor.java:124-149 | a report gives no more log entries and issues together than it has issues |
| Sensor.AddedIssuesAreOfActiveRules | src/main/java/org/sonar/plugins/resharper/ReSharperSensor.java:138-146 | every added issue is of an active rule of the repository, on a file of the configured language |
| Sensor.RuleKeysOf | src/main/java/org/sonar/plugins/resharper/ReSharperSensor.java:178-184 | one key per active rule, in profile order |
| Sensor.EnabledKeyMeaning | src/main/java/org/sonar/plugins/resharper/ReSharperSensor.java:178-184 | a key is enabled exactly when an active rule of the repository has it |
| Sensor.PropertiesMeaning | src/main/java/org/sonar/plugins/resharper/ReSharperSensor.java:152-165 | Platform comes before Configuration; each is present exactly when its setting is set and not empty; no value holds a space |
| Sensor.ReSharperSensor.constructor | src/main/java/org/sonar/plugins/resharper/ReSharperSensor.java:54-60 | the sensor keeps its configuration, settings, profile and file system |
| Sensor.ReSharperSensor.ShouldExecuteOnProject | src/main/java/org/sonar/plugins/resharper/ReSharperSensor.java:62-80 | runs exactly when there are files in the language and an active rule of the repository; logs the disabled message exactly when files exist but no rule is active |
| Sensor.ReSharperSensor.EnabledRuleKeys | src/main/java/org/sonar/plugins/resharper/ReSharperSensor.java:178-184 | the keys of the repository's active rules, in order |
| Sensor.ReSharperSensor.CheckProperties | src/main/java/org/sonar/plugins/resharper/ReSharperSensor.java:186-195 | an error exactly when the solution-file setting is absent |
| Sensor.ReSharperSensor.AddPropertyIfDefined | src/main/java/org/sonar/plugins/resharper/ReSharperSensor.java:159-165 | appends "name=value" with spaces removed exactly when the setting is set and not empty |
| Sensor.ReSharperSensor.GetProperties | src/main/java/org/sonar/plugins/resharper/ReSharperSensor.java:152-157 | the Platform entry, then the Configuration entry |
| Sensor.ReSharperSensor.AnalyseIssue | src/main/java/org/sonar/plugins/resharper/ReSharperSensor.java:125-148 | one issue's log entry and added issue are those of its verdict |
| Sensor.ReSharperSensor.AnalyseReport | src/main/java/org/sonar/plugins/resharper/ReSharperSensor.java:123-149 | the report's issues are logged, dropped or added in report order |
| Sensor.ReSharperSensor.Analyse | src/main/java/org/sonar/plugins/resharper/ReSharperSensor.java:88-150 | a missing solution file is an error before any change; otherwise the log and the issues are those of the whole report |
| Executor.CommandLayout | src/main/java/org/sonar/plugins/resharper/ReSharperExecutor.java:139-158 | /project= first exactly when a project is named, then /output=, the added arguments in order, /properties: exactly when there are properties, and the solution last |
| Executor.JoinedPropertiesSplitBack | src/main/java/org/sonar/plugins/resharper/ReSharperExecutor.java:161-172 | properties without ';' come back whole when the /properties: value is split at ';' |
| Executor.ReSharperExecutor.constructor | src/main/java/org/sonar/plugins/resharper/ReSharperExecutor.java:34-50 | a new builder has no files, arguments, properties or project, and timeout 0 |
| Executor.ReSharperExecutor.SetReportFile | src/main/java/org/sonar/plugins/resharper/ReSharperExecutor.java:60-63 | sets the report file and returns the builder |
| Executor.ReSharperExecutor.SetSolution | src/main/java/org/sonar/plugins/resharper/ReSharperExecutor.java:65-68 | sets the solution and returns the builder |
| Executor.ReSharperExecutor.SetProject | src/main/java/org/sonar/plugins/resharper/ReSharperExecutor.java:75-78 | sets the project name and returns the builder |
| Executor.ReSharperExecutor.SetTimeOut | src/main/java/org/sonar/plugins/resharper/ReSharperExecutor.java:80-83 | sets the timeout and returns the builder |
| Executor.ReSharperExecutor.SetExecutable | src/main/java/org/sonar/plugins/resharper/ReSharperExecutor.java:103-105 | sets the executable |
| Executor.ReSharperExecutor.AddProperties | src/main/java/org/sonar/plugins/resharper/ReSharperExecutor.java:86-93 | appends the given properties in order, duplicates kept |
| Executor.ReSharperExecutor.AddArgument | src/main/java/org/sonar/plugins/resharper/ReSharperExecutor.java:185-189 | appends name + value, and nothing for an empty value |
| Executor.ReSharperExecutor.SetCachesHome | src/main/java/org/sonar/plugins/resharper/ReSharperExecutor.java:191-194 | appends /caches-home= with the directory, and nothing for an empty one |
| Executor.ReSharperExecutor.SetProfile | src/main/java/org/sonar/plugins/resharper/ReSharperExecutor.java:196-199 | appends /profile= with the file's absolute path, and nothing for a null file |
| Executor.ReSharperExecutor.AddPropertiesIfSet | src/main/java/org/sonar/plugins/resharper/ReSharperExecutor.java:161-173 | appends /properties: with the properties joined by ';' when there are any, nothing otherwise |
| Executor.ReSharperExecutor.AddArguments | src/main/java/org/sonar/plugins/resharper/ReSharperExecutor.java:150-153 | appends the builder's arguments in order |
| Executor.ReSharperExecutor.ToCommand | src/main/java/org/sonar/plugins/resharper/ReSharperExecutor.java:113-159 | the command is the executable's absolute path with the arguments laid out as CommandLayout states |

## Left out

- Logging is modelled only where it carries information the code decides on; each such log is a sequence field of the class that writes it. Debug and trace output, and the parser's "Found N IssueType nodes" line, are not modelled.
- Java's null strings are modelled as "". This applies to a rule's id, category, description and wiki link, to a missing attribute, to a missing setting and to a missing project name. Every reader of these values (isBlank, isEmpty, escapeXml, getAttribute) treats null and "" alike. Nulls that the code tells apart are kept as `Option`: a rule's severity, an active rule's priority, an issue's file and line, and the executor's files.
- Nulls that the code dereferences become preconditions:
  - ProfileExporter.ReSharperProfileExporter.PrintRules: exporting an active rule without a priority dereferences null.
  - Executor.ReSharperExecutor.ToCommand: a missing executable, report file or solution does the same.
  - CustomSeverities.Merger.Merge: merging before a profile was set does the same.
- ReSharperFileParser: XPath evaluation and the DOM are abstracted as a `Document`, either the `IssueType` elements in document order or the message of the XPathExpressionException. The generic "Failed to read the profile to import" branch is reached only through reader I/O failures and is not modelled.
- FileParser.ReSharperFileParser.ParseRules: the severity diagnostics are collected while reading and passed on after the loop. They reach the sink in the same order as in the source; nothing else is logged in between.
- FileParser.EnabledFlag: `toLowerCase` is modelled on ASCII letters only.
- Xml: escapeXml is modelled as commons-lang 2 writes it: one UTF-16 code unit at a time, the five predefined entities, and a decimal character reference for every code unit above 0x7F. The reader's decoding replaces references and normalises TAB, LF and CR to spaces (section 3.3.3 of the XML 1.0 recommendation); a reference to no character is kept as text rather than making the document unreadable.
- Xml.DecodeEscape: the round trip is stated only for texts of characters from the space to U+FFFD (Xml.XmlText). For other texts the program has no round trip: TAB, LF and CR come back as spaces, other controls make the export not well-formed, and characters above U+FFFF are written as surrogate references a reader refuses (Xml.WhiteSpaceIsNormalised, Xml.ControlIsWrittenRaw, Xml.SupplementaryIsSplit).
- ProfileExporter.ExportImportRoundTrip and ProfileExporter.ExportImportProfileRoundTrip: for the same reason, the id and description are stated to come back only when they are XML text.
- ReSharperRuleRepository: the bundled DefaultRules.ReSharper catalog and the XML reader are constructor parameters. The catch branch around the custom rules is not modelled, because the parser reports its own errors and throws nothing that could reach it.
- ReSharperProfileExporter: the java.io.Writer is modelled by the `Writer` class, which records each appended text. Wrapping an IOException into a SonarException is not modelled, because appending is never shown to fail.
- BaseCustomSeverities: createInputSource and getDefinitionKey, abstract in the source, are constructor parameters of `Provider`. FileCustomSeverities (opening the file, stripping a BOM) is not part of this model; its outcome is the `Option<Source>` the parameter returns. The namespace-aware "//s:String" query is abstracted as the `Source` of nodes. Log events are kept as an `Event` datatype rather than formatted text. The NullPointerException that getKeyAttributeValue raises for an `s:String` node without `x:Key` is modelled as a `thrown` result that ends the reading, skips the assignment and stops the merger's loop; what the merger's caller does with the exception is not part of this model.
- ReSharperConstants is not part of this model. The profile-name key is a parameter, and the default profile name is "Sonar way", the value of ReSharperPlugin.PROFILE_DEFAULT.
- ReSharperSensor:
  - The DotSettings writer, the executor wiring and `execute` (lines 91-121) are not modelled, nor is the parsing of the report file.
  - The report is an input sequence of issues.
  - The file provider, `File.getAbsolutePath` and the Issuable perspective are function parameters.
  - Added issues are collected in a sequence field.
- ReSharperExecutor.execute (process launch and timeout) is not modelled. `getAbsolutePath` is a function parameter.
- ActiveRule is a value in this model, not a shared object. The custom-severity providers replace the profile's active rules with updated copies, which is observably the same for a profile that owns its active rules.
- A null active-rule list in BaseCustomSeverities.merge is not modelled, because RulesProfile never returns one.
- Each custom-severity provider keeps its own map and applies it to the profile in turn, so for a rule both providers map, the property-based provider's priority overwrites the file-based one's (CustomSeverities.LaterProviderWins). No first-entry-wins rule holds across providers.
