/**
 * ReSharperProfileExporter: the active rules of the ReSharper repository written as a
 * rule catalog, `<Report><IssueTypes>` holding one `IssueType` element per rule, in the
 * format inspectcode.exe reports use.
 */
module ProfileExporter {
  import opened Wrappers
  import opened JavaText
  import opened SonarApi
  import opened Severities
  import opened Xml
  import opened Rules
  import opened FileParser
  import opened ProfileImporter

  /** String.valueOf(boolean). */
  function BoolText(b: bool): string {
    if b then "true" else "false"
  }

  /** The `Enabled` text written for a flag is read back as that flag. */
  lemma EnabledTextRoundTrip(b: bool)
    ensures EnabledFlag(BoolText(b)) == b
  {
    if b {
      assert LowerTrueAt("true", 0);
    } else {
      forall k: nat | k < |"false"| ensures !LowerTrueAt("false", k) {
        if k + 4 <= 5 {
          assert LowerCase("false"[k]) != 't';
        }
      }
    }
  }

  /** One attribute as printRule writes it: its opening (closing the previous value's
      quote), then the value escaped. */
  function AttributeChunks(opening: string, value: string): seq<string> {
    [opening, Escape(value)]
  }

  /** An attribute printRule writes only when its value is not blank. */
  function OptionalAttributeChunks(opening: string, value: string): seq<string> {
    if IsBlank(value) then [] else AttributeChunks(opening, value)
  }

  /** The strings printRule writes, in order: Id, Enabled, Category and WikiUrl when not
      blank, Description, Severity. */
  function LineChunks(id: string, enabled: bool, category: string, wikiLink: string,
                      description: string, severity: ReSharperSeverity): seq<string> {
    ["    <IssueType"]
    + AttributeChunks(" Id=\"", id) + AttributeChunks("\" Enabled=\"", BoolText(enabled))
    + OptionalAttributeChunks("\" Category=\"", category) + OptionalAttributeChunks("\" WikiUrl=\"", wikiLink)
    + AttributeChunks("\" Description=\"", description) + AttributeChunks("\" Severity=\"", Name(severity))
    + ["\"/>\n"]
  }

  /** The text a sequence of writes produces. */
  function Concat(chunks: seq<string>): string {
    if chunks == [] then "" else Concat(chunks[..|chunks| - 1]) + chunks[|chunks| - 1]
  }

  /** Writing two runs of strings one after the other writes their texts one after the other. */
  lemma {:induction false} ConcatAppend(a: seq<string>, b: seq<string>)
    ensures Concat(a + b) == Concat(a) + Concat(b)
  {
    if b == [] {
      assert a + b == a;
    } else {
      var front := b[..|b| - 1];
      assert (a + b)[..|a + b| - 1] == a + front;
      ConcatAppend(a, front);
      AppendAssoc(Concat(a), Concat(front), b[|b| - 1]);
    }
  }

  /** The rule createFromActiveRule builds from an active rule, field by field. */
  predicate CreatedFrom(r: ReSharperRule, a: ActiveRule)
    reads r
  {
    && r.id == a.rule.name && r.enabled == a.rule.enabled && r.description == a.rule.description
    && r.category == "" && r.wikiLink == ""
    && r.severity == if a.severity.Some? then Some(TranslateToResharper(a.severity.value)) else None
  }

  /** The line exported for an active rule: no Category and no WikiUrl, since
      createFromActiveRule sets neither; the severity is the priority translated. */
  function ExportedLine(a: ActiveRule): seq<string>
    requires a.severity.Some?
  {
    LineChunks(a.rule.name, a.rule.enabled, "", "", a.rule.description, TranslateToResharper(a.severity.value))
  }

  /** The line printRule writes for a rule createFromActiveRule made is the exported line of
      the active rule. */
  lemma CreatedRuleLine(r: ReSharperRule, a: ActiveRule)
    requires CreatedFrom(r, a) && a.severity.Some?
    ensures r.severity.Some?
    ensures LineChunks(r.id, r.enabled, r.category, r.wikiLink, r.description, r.severity.value) == ExportedLine(a)
  {
    assert IsBlank("");
  }

  /** Every active rule has a severity, as printRule needs. */
  predicate AllRated(actives: seq<ActiveRule>) {
    forall i :: 0 <= i < |actives| ==> actives[i].severity.Some?
  }

  /** The lines for the first `n` active rules, in order. */
  function ExportedLines(actives: seq<ActiveRule>, n: nat): seq<string>
    requires n <= |actives| && AllRated(actives)
  {
    if n == 0 then [] else ExportedLines(actives, n - 1) + ExportedLine(actives[n - 1])
  }

  /** `lines` holds the exported line of each active rule, in order. The quantifier fires
      only on an exported line, so a proof about writing `lines` does not look into them. */
  predicate AreLinesOf(lines: seq<seq<string>>, actives: seq<ActiveRule>)
    requires AllRated(actives)
  {
    |lines| == |actives| && forall i {:trigger ExportedLine(actives[i])} :: 0 <= i < |actives| ==> lines[i] == ExportedLine(actives[i])
  }

  /** The exported lines of the active rules, written one after the other, are the lines
      for all of them. */
  lemma {:induction false} FlattenedLines(lines: seq<seq<string>>, actives: seq<ActiveRule>, n: nat)
    requires AllRated(actives) && AreLinesOf(lines, actives) && n <= |actives|
    ensures Flatten(lines[..n]) == ExportedLines(actives, n)
  {
    if n > 0 {
      FlattenedLines(lines, actives, n - 1);
      assert lines[..n][..n - 1] == lines[..n - 1];
      assert lines[n - 1] == ExportedLine(actives[n - 1]);
    }
  }

  const ReportOpen := "<Report>\n"
  const IssueTypesOpen := "  <IssueTypes>\n"
  const IssueTypesClose := "  </IssueTypes>\n"
  const ReportClose := "</Report>"

  /** The whole export for the active rules of the repository. */
  function Report(actives: seq<ActiveRule>): seq<string>
    requires AllRated(actives)
  {
    [ReportOpen, IssueTypesOpen] + ExportedLines(actives, |actives|) + [IssueTypesClose, ReportClose]
  }

  /** The report is its opening writes, the lines, and its closing writes, one after the other. */
  lemma ReportWritten(start: seq<string>, actives: seq<ActiveRule>, lines: seq<seq<string>>)
    requires AllRated(actives) && AreLinesOf(lines, actives)
    ensures start + [ReportOpen] + [IssueTypesOpen] + Flatten(lines) + [IssueTypesClose] + [ReportClose]
         == start + Report(actives)
  {
    assert lines[..|actives|] == lines;
    FlattenedLines(lines, actives, |actives|);
    Enclosed(start, ReportOpen, IssueTypesOpen, Flatten(lines), IssueTypesClose, ReportClose);
  }

  lemma Enclosed(start: seq<string>, open1: string, open2: string, body: seq<string>, close1: string, close2: string)
    ensures start + [open1] + [open2] + body + [close1] + [close2] == start + ([open1, open2] + body + [close1, close2])
  {
  }

  /** An exported line is ten writes, with Id, Enabled, Description and Severity values at
      positions 2, 4, 6 and 8. */
  lemma ExportedLineShape(a: ActiveRule)
    requires a.severity.Some?
    ensures var line := ExportedLine(a);
      && |line| == 10
      && line[1] == " Id=\"" && line[2] == Escape(a.rule.name)
      && line[3] == "\" Enabled=\"" && line[4] == Escape(BoolText(a.rule.enabled))
      && line[5] == "\" Description=\"" && line[6] == Escape(a.rule.description)
      && line[7] == "\" Severity=\"" && line[8] == Escape(Name(TranslateToResharper(a.severity.value)))
  {
    assert IsBlank("");
    var empty: seq<string> := [];
    ChunkPositions("    <IssueType", " Id=\"", Escape(a.rule.name), "\" Enabled=\"", Escape(BoolText(a.rule.enabled)),
                   empty, empty, "\" Description=\"", Escape(a.rule.description),
                   "\" Severity=\"", Escape(Name(TranslateToResharper(a.severity.value))), "\"/>\n");
  }

  /** The positions of the writes in a line with two optional attributes left out. */
  lemma ChunkPositions(start: string, o1: string, v1: string, o2: string, v2: string, none1: seq<string>, none2: seq<string>,
                       o3: string, v3: string, o4: string, v4: string, end: string)
    requires none1 == [] && none2 == []
    ensures var line := [start] + [o1, v1] + [o2, v2] + none1 + none2 + [o3, v3] + [o4, v4] + [end];
      && |line| == 10
      && line[1] == o1 && line[2] == v1 && line[3] == o2 && line[4] == v2
      && line[5] == o3 && line[6] == v3 && line[7] == o4 && line[8] == v4
  {
  }

  /** The element an XML reader builds from an exported line: the values written after
      ` Id="`, ` Enabled="`, ` Description="` and ` Severity="`, decoded. */
  function ExportedElement(a: ActiveRule): Element
    requires a.severity.Some?
  {
    ExportedLineShape(a);
    var line := ExportedLine(a);
    Element(map["Id" := Decode(line[2]), "Enabled" := Decode(line[4]),
                "Description" := Decode(line[6]), "Severity" := Decode(line[8])])
  }

  /** The element holds the escaped values decoded. */
  lemma ExportedElementValues(a: ActiveRule)
    requires a.severity.Some?
    ensures var e := ExportedElement(a).attributes;
      && e.Keys == {"Id", "Enabled", "Description", "Severity"}
      && e["Id"] == Decode(Escape(a.rule.name))
      && e["Enabled"] == Decode(Escape(BoolText(a.rule.enabled)))
      && e["Description"] == Decode(Escape(a.rule.description))
      && e["Severity"] == Decode(Escape(Name(TranslateToResharper(a.severity.value))))
  {
    ExportedLineShape(a);
  }

  /** The element has the four attributes written. The enabled flag and the severity name
      are read back as written; so are the name and the description when they are XML text
      (Xml.XmlText), and only then. */
  lemma ExportedValues(a: ActiveRule)
    requires a.severity.Some?
    ensures var e := ExportedElement(a);
      && e.attributes.Keys == {"Id", "Enabled", "Description", "Severity"}
      && Attribute(e, "Enabled") == BoolText(a.rule.enabled)
      && Attribute(e, "Severity") == Name(TranslateToResharper(a.severity.value))
      && (XmlText(a.rule.name) ==> Attribute(e, "Id") == a.rule.name)
      && (XmlText(a.rule.description) ==> Attribute(e, "Description") == a.rule.description)
  {
    ExportedFixedValues(a);
    ExportedTextValues(a);
  }

  lemma ExportedFixedValues(a: ActiveRule)
    requires a.severity.Some?
    ensures var e := ExportedElement(a);
      && e.attributes.Keys == {"Id", "Enabled", "Description", "Severity"}
      && Attribute(e, "Enabled") == BoolText(a.rule.enabled)
      && Attribute(e, "Severity") == Name(TranslateToResharper(a.severity.value))
  {
    ExportedElementValues(a);
    DecodedAsWritten(BoolText(a.rule.enabled), ExportedElement(a), "Enabled");
    NameIsUpperCase(TranslateToResharper(a.severity.value));
    DecodedAsWritten(Name(TranslateToResharper(a.severity.value)), ExportedElement(a), "Severity");
  }

  lemma ExportedTextValues(a: ActiveRule)
    requires a.severity.Some?
    ensures var e := ExportedElement(a);
      && (XmlText(a.rule.name) ==> Attribute(e, "Id") == a.rule.name)
      && (XmlText(a.rule.description) ==> Attribute(e, "Description") == a.rule.description)
  {
    ExportedElementValues(a);
    if XmlText(a.rule.name) {
      DecodedAsWritten(a.rule.name, ExportedElement(a), "Id");
    }
    if XmlText(a.rule.description) {
      DecodedAsWritten(a.rule.description, ExportedElement(a), "Description");
    }
  }

  /** An attribute holding an XML text escaped and decoded holds that text. */
  lemma DecodedAsWritten(value: string, e: Element, attribute: string)
    requires XmlText(value)
    requires attribute in e.attributes && e.attributes[attribute] == Decode(Escape(value))
    ensures Attribute(e, attribute) == value
  {
    DecodeEscape(value);
  }

  /** Exporting and importing again: the catalog parser reads back the rule's enabled flag
      and no category or wiki link; it reads back its name as id, so the same derived key is
      looked up, and its description, whenever these are XML text. */
  lemma ExportImportRoundTrip(a: ActiveRule)
    requires a.severity.Some?
    ensures var e := ExportedElement(a);
      && EnabledFlag(Attribute(e, "Enabled")) == a.rule.enabled
      && Attribute(e, "Category") == "" && Attribute(e, "WikiUrl") == ""
      && (XmlText(a.rule.name) ==> Attribute(e, "Id") == a.rule.name && Key(Attribute(e, "Id")) == Key(a.rule.name))
      && (XmlText(a.rule.description) ==> Attribute(e, "Description") == a.rule.description)
  {
    ExportedValues(a);
    EnabledTextRoundTrip(a.rule.enabled);
  }

  /** The priority survives export and import, except MAJOR, which comes back as CRITICAL. */
  lemma ExportImportPriorityRoundTrip(a: ActiveRule)
    requires a.severity.Some?
    ensures TranslateToSonar(ParsedSeverity(Attribute(ExportedElement(a), "Severity")))
         == if a.severity.value == MAJOR then CRITICAL else a.severity.value
  {
    var p := a.severity.value;
    var s := TranslateToResharper(p);
    ExportedValues(a);
    assert Attribute(ExportedElement(a), "Severity") == Name(s);
    ParseName(s);
    CopiesAgreeWithUtils(s, p);
    PriorityRoundTrip(p);
  }

  /** The `IssueType` elements an XML reader finds in the export, in order: one per line. */
  function ExportedElements(actives: seq<ActiveRule>): (elements: seq<Element>)
    requires AllRated(actives)
    ensures |elements| == |actives|
    ensures forall i :: 0 <= i < |actives| ==> elements[i] == ExportedElement(actives[i])
  {
    seq(|actives|, i requires 0 <= i < |actives| => ExportedElement(actives[i]))
  }

  /** Exporting the active rules and importing the catalog again gives one activation per
      rule, in order, of the same rule at its round-tripped priority, and no warning. The
      importer queries the finder with the key derived from the name written as Id; every
      rule the repository creates has that key (RuleRepository.SonarRuleOfIsWellFormed), so
      a finder holding the rules under their keys returns the same rule. */
  lemma ExportImportProfileRoundTrip(actives: seq<ActiveRule>, finder: RuleFinder, repositoryKey: string)
    requires AllRated(actives)
    requires forall i :: 0 <= i < |actives| ==> XmlText(actives[i].rule.name)
    requires forall i :: 0 <= i < |actives| ==> actives[i].rule.key == Key(actives[i].rule.name)
    requires forall i :: 0 <= i < |actives| ==>
      (repositoryKey, actives[i].rule.key) in finder && finder[(repositoryKey, actives[i].rule.key)] == actives[i].rule
    ensures var elements := ExportedElements(actives);
            var acts := ActivationsOf(ParsedIds(elements), ParsedSeverities(elements), |elements|, finder, repositoryKey);
            && |acts| == |actives|
            && (forall i :: 0 <= i < |actives| ==>
                  && acts[i].rule == actives[i].rule
                  && acts[i].severity == Some(if actives[i].severity.value == MAJOR then CRITICAL else actives[i].severity.value))
            && WarningsOf(ParsedIds(elements), |elements|, finder, repositoryKey) == []
  {
    var elements := ExportedElements(actives);
    var ids := ParsedIds(elements);
    var sevs := ParsedSeverities(elements);
    forall i | 0 <= i < |actives|
      ensures QueryOf(repositoryKey, ids[i]) == (repositoryKey, actives[i].rule.key)
      ensures TranslateToSonar(sevs[i]) == if actives[i].severity.value == MAJOR then CRITICAL else actives[i].severity.value
    {
      ImportedFromExport(actives[i], repositoryKey);
    }
    AllFoundAllActivated(ids, sevs, |elements|, finder, repositoryKey);
    AllFoundNoWarning(ids, |elements|, finder, repositoryKey);
  }

  /** One exported rule read back: queried under its own key, at its round-tripped
      priority. */
  lemma ImportedFromExport(a: ActiveRule, repositoryKey: string)
    requires a.severity.Some? && XmlText(a.rule.name) && a.rule.key == Key(a.rule.name)
    ensures QueryOf(repositoryKey, Attribute(ExportedElement(a), "Id")) == (repositoryKey, a.rule.key)
    ensures TranslateToSonar(ParsedSeverity(Attribute(ExportedElement(a), "Severity")))
         == if a.severity.value == MAJOR then CRITICAL else a.severity.value
  {
    ExportedTextValues(a);
    ExportImportPriorityRoundTrip(a);
  }

  /** The java.io.Writer the export goes to, as the strings written to it in order. */
  class Writer {
    var chunks: seq<string>

    constructor ()
      ensures chunks == []
    {
      chunks := [];
    }

    /** What has been written so far. */
    function Text(): string
      reads this
    {
      Concat(chunks)
    }

    method Append(s: string)
      modifies this`chunks
      ensures chunks == old(chunks) + [s]
      ensures Text() == old(Text()) + s
    {
      chunks := chunks + [s];
      assert chunks[..|chunks| - 1] == old(chunks);
    }
  }

  class ReSharperProfileExporter {
    /** getKey(): the repository whose active rules are exported. */
    const key: string

    constructor (pluginRepositoryKey: string, languageKey: string)
      ensures key == pluginRepositoryKey + "-" + languageKey
    {
      key := pluginRepositoryKey + "-" + languageKey;
    }

    /** transformIntoReSharperRules: a new rule per active rule, in order. */
    static method TransformIntoReSharperRules(activeRulesByPlugin: seq<ActiveRule>) returns (result: seq<ReSharperRule>)
      ensures |result| == |activeRulesByPlugin|
      ensures forall i :: 0 <= i < |result| ==> fresh(result[i])
      ensures forall i :: 0 <= i < |result| ==> CreatedFrom(result[i], activeRulesByPlugin[i])
    {
      result := [];
      var k := 0;
      while k < |activeRulesByPlugin|
        invariant 0 <= k <= |activeRulesByPlugin| && |result| == k
        invariant forall i :: 0 <= i < k ==> fresh(result[i])
        invariant forall i :: 0 <= i < k ==> CreatedFrom(result[i], activeRulesByPlugin[i])
      {
        var resharperRule := ReSharperRule.CreateFromActiveRule(activeRulesByPlugin[k]);
        result := result + [resharperRule];
        k := k + 1;
      }
    }

    /** One `.append(opening).append(escapeXml(value))` pair of printRule. */
    static method WriteAttribute(writer: Writer, opening: string, value: string,
                                 ghost start: seq<string>, ghost line: seq<string>)
      requires writer.chunks == start + line
      modifies writer`chunks
      ensures writer.chunks == start + (line + AttributeChunks(opening, value))
    {
      writer.Append(opening);
      writer.Append(Escape(value));
      AppendAssoc(start, line, AttributeChunks(opening, value));
    }

    /** printRule: the rule's line written to the writer. Java throws NullPointerException
        on a rule without a severity. */
    static method PrintRule(writer: Writer, resharperRule: ReSharperRule)
      requires resharperRule.severity.Some?
      modifies writer`chunks
      ensures writer.chunks == old(writer.chunks)
        + LineChunks(resharperRule.id, resharperRule.enabled, resharperRule.category,
                     resharperRule.wikiLink, resharperRule.description, resharperRule.severity.value)
    {
      var id, enabled, category := resharperRule.id, resharperRule.enabled, resharperRule.category;
      var wikiLink, description, severity := resharperRule.wikiLink, resharperRule.description, resharperRule.severity.value;
      ghost var start := writer.chunks;
      writer.Append("    <IssueType");
      ghost var line := ["    <IssueType"];
      WriteAttribute(writer, " Id=\"", id, start, line);
      line := line + AttributeChunks(" Id=\"", id);
      WriteAttribute(writer, "\" Enabled=\"", BoolText(enabled), start, line);
      line := line + AttributeChunks("\" Enabled=\"", BoolText(enabled));
      if !IsBlank(category) {
        WriteAttribute(writer, "\" Category=\"", category, start, line);
      }
      line := line + OptionalAttributeChunks("\" Category=\"", category);
      if !IsBlank(wikiLink) {
        WriteAttribute(writer, "\" WikiUrl=\"", wikiLink, start, line);
      }
      line := line + OptionalAttributeChunks("\" WikiUrl=\"", wikiLink);
      WriteAttribute(writer, "\" Description=\"", description, start, line);
      line := line + AttributeChunks("\" Description=\"", description);
      WriteAttribute(writer, "\" Severity=\"", Name(severity), start, line);
      line := line + AttributeChunks("\" Severity=\"", Name(severity));
      writer.Append("\"/>\n");
      AppendAssoc(start, line, ["\"/>\n"]);
      line := line + ["\"/>\n"];
    }

    /** printRule on the k-th rule createFromActiveRule made: the k-th exported line. */
    static method PrintLine(writer: Writer, r: ReSharperRule, ghost actives: seq<ActiveRule>,
                            ghost lines: seq<seq<string>>, ghost k: nat)
      requires AllRated(actives) && AreLinesOf(lines, actives)
      requires k < |actives| && CreatedFrom(r, actives[k])
      modifies writer`chunks
      ensures writer.chunks == old(writer.chunks) + lines[k]
    {
      CreatedRuleLine(r, actives[k]);
      PrintRule(writer, r);
      assert lines[k] == ExportedLine(actives[k]);
    }

    /** The loop of printRules: the lines of the rules, in order. */
    static method PrintRuleLines(writer: Writer, rules: seq<ReSharperRule>, ghost actives: seq<ActiveRule>,
                                 ghost lines: seq<seq<string>>)
      requires |rules| == |actives| && AllRated(actives) && AreLinesOf(lines, actives)
      requires forall i :: 0 <= i < |rules| ==> CreatedFrom(rules[i], actives[i])
      modifies writer`chunks
      ensures writer.chunks == old(writer.chunks) + Flatten(lines)
    {
      var k := 0;
      while k < |rules|
        invariant 0 <= k <= |rules|
        invariant writer.chunks == old(writer.chunks) + Flatten(lines[..k])
      {
        PrintLine(writer, rules[k], actives, lines, k);
        FlattenStep(old(writer.chunks), lines, k);
        k := k + 1;
      }
      assert lines[..k] == lines;
    }

    /** printRules (and exportProfile, which only wraps its I/O errors): the report for the
        active rules of this exporter's repository, in profile order. Every such rule must
        have a severity. */
    method PrintRules(profile: RulesProfile, writer: Writer)
      requires forall a :: a in ByRepository(profile.activeRules, key) ==> a.severity.Some?
      modifies writer`chunks
      ensures var actives := ByRepository(profile.activeRules, key);
              writer.chunks == old(writer.chunks) + Report(actives)
      ensures var actives := ByRepository(profile.activeRules, key);
              writer.Text() == old(writer.Text()) + Concat(Report(actives))
    {
      ghost var start := writer.chunks;
      writer.Append(ReportOpen);
      writer.Append(IssueTypesOpen);
      var activeRules := ByRepository(profile.activeRules, key);
      assert AllRated(activeRules) by {
        forall i | 0 <= i < |activeRules| ensures activeRules[i].severity.Some? {
          assert activeRules[i] in activeRules;
        }
      }
      var rules := TransformIntoReSharperRules(activeRules);
      ghost var lines := seq(|activeRules|, i requires 0 <= i < |activeRules| => ExportedLine(activeRules[i]));
      PrintRuleLines(writer, rules, activeRules, lines);
      writer.Append(IssueTypesClose);
      writer.Append(ReportClose);
      ReportWritten(start, activeRules, lines);
      ConcatAppend(start, Report(activeRules));
    }
  }
}
