/**
 * ReSharperRule: one ReSharper inspection (an `IssueType`), its derived SonarQube key, its
 * private copy of the severity tables, and its conversions to and from SonarQube rules.
 */
module Rules {
  import opened Wrappers
  import opened JavaText
  import opened SonarApi
  import opened Severities

  /** getKey on an id: the id with every ':' replaced by '_'. */
  function Key(id: string): (k: string)
    ensures |k| == |id| && ':' !in k
    ensures forall i :: 0 <= i < |id| ==> k[i] == (if id[i] == ':' then '_' else id[i])
  {
    ReplaceChar(id, ':', '_')
  }

  /** Deriving a key from a key changes nothing, and an id without ':' is its own key. */
  lemma KeyIsIdempotent(id: string)
    ensures Key(Key(id)) == Key(id)
    ensures ':' !in id ==> Key(id) == id
  {
  }

  /** The class's private TranslateResharperPriorityIntoSonarSeverity. */
  function TranslateToSonar(s: ReSharperSeverity): RulePriority {
    match s
    case ERROR => BLOCKER
    case WARNING => CRITICAL
    case SUGGESTION => MINOR
    case HINT | INFO | DO_NOT_SHOW => RulePriority.INFO
  }

  /** The class's private TranslateSonarPriorityIntoResharperSeverity. */
  function TranslateToResharper(p: RulePriority): ReSharperSeverity {
    match p
    case BLOCKER => ERROR
    case CRITICAL | MAJOR => WARNING
    case MINOR => SUGGESTION
    case INFO => HINT
  }

  /** The private copies and ReSharperUtils give the same table, in both directions. */
  lemma CopiesAgreeWithUtils(s: ReSharperSeverity, p: RulePriority)
    ensures TranslateToSonar(s) == ToSonarPriority(s)
    ensures TranslateToResharper(p) == ToResharperSeverity(p)
  {
  }

  function WikiText(wikiLink: string): string {
    "<br /><a href='" + wikiLink + "'>" + wikiLink + "</a>"
  }

  function CategoryText(category: string): string {
    "<br />(Category: " + category + ")"
  }

  /** The description part of toSonarRule: the description, or the id when the description
      is blank; then the wiki link when it is not blank; then the category when it is not. */
  function SonarDescription(id: string, description: string, wikiLink: string, category: string): string {
    var base := if IsBlank(description) then id else description;
    var withWiki := if IsBlank(wikiLink) then base else base + WikiText(wikiLink);
    if IsBlank(category) then withWiki else withWiki + CategoryText(category)
  }

  /** The description starts with the description (the id when the description is blank),
      is exactly that when wiki link and category are blank, continues with the wiki link
      text when the link is not blank, and ends with the category text when the category
      is not blank. */
  lemma SonarDescriptionShape(id: string, description: string, wikiLink: string, category: string)
    ensures var d := SonarDescription(id, description, wikiLink, category);
            var base := if IsBlank(description) then id else description;
      && StartsWith(d, base)
      && (IsBlank(wikiLink) && IsBlank(category) ==> d == base)
      && (!IsBlank(wikiLink) ==> StartsWith(d[|base|..], WikiText(wikiLink)))
      && (!IsBlank(category) ==> EndsWith(d, CategoryText(category)))
  {
    var d := SonarDescription(id, description, wikiLink, category);
    var base := if IsBlank(description) then id else description;
    assert d[..|base|] == base;
    assert !IsBlank(wikiLink) ==> d[|base|..][..|WikiText(wikiLink)|] == WikiText(wikiLink);
  }

  /** The produced description is blank only when the description, the id, the wiki link
      and the category all are: a rule with a non-blank id always gets a description. */
  lemma {:induction false} SonarDescriptionIsBlank(id: string, description: string, wikiLink: string, category: string)
    ensures IsBlank(SonarDescription(id, description, wikiLink, category))
        <==> IsBlank(description) && IsBlank(id) && IsBlank(wikiLink) && IsBlank(category)
  {
    var base := if IsBlank(description) then id else description;
    var d := SonarDescription(id, description, wikiLink, category);
    SonarDescriptionShape(id, description, wikiLink, category);
    if !IsBlank(wikiLink) {
      assert d[|base|] == WikiText(wikiLink)[0] == '<';
    } else if !IsBlank(category) {
      assert d[|d| - |CategoryText(category)|] == '<';
    } else if !IsBlank(base) {
      var k :| 0 <= k < |base| && !IsWhitespace(base[k]);
      assert d[k] == base[k];
    }
  }

  /** ReSharperRule: fields set one by one through its setters. Java's null strings are
      modelled as "", which every reader of these fields treats alike (isBlank, escapeXml). */
  class ReSharperRule {
    var id: string
    var enabled: bool
    var category: string
    var description: string
    var severity: Option<ReSharperSeverity>
    var wikiLink: string

    constructor ()
      ensures id == "" && !enabled && category == "" && description == ""
      ensures severity == None && wikiLink == ""
    {
      id, enabled, category, description, severity, wikiLink := "", false, "", "", None, "";
    }

    method SetId(id: string)
      modifies this`id
      ensures this.id == id
    {
      this.id := id;
    }

    method SetEnabled(enabled: bool)
      modifies this`enabled
      ensures this.enabled == enabled
    {
      this.enabled := enabled;
    }

    method SetCategory(category: string)
      modifies this`category
      ensures this.category == category
    {
      this.category := category;
    }

    method SetDescription(description: string)
      modifies this`description
      ensures this.description == description
    {
      this.description := description;
    }

    method SetWikiLink(wikiLink: string)
      modifies this`wikiLink
      ensures this.wikiLink == wikiLink
    {
      this.wikiLink := wikiLink;
    }

    method SetSeverity(severity: ReSharperSeverity)
      modifies this`severity
      ensures this.severity == Some(severity)
    {
      this.severity := Some(severity);
    }

    /** getSonarPriority; Java throws NullPointerException while the severity is unset. */
    function GetSonarPriority(): RulePriority
      reads this
      requires severity.Some?
    {
      TranslateToSonar(severity.value)
    }

    /** setSonarPriority: reading the priority back gives the priority set, except that
        MAJOR reads back as CRITICAL. */
    method SetSonarPriority(priority: RulePriority)
      modifies this`severity
      ensures severity == Some(TranslateToResharper(priority))
      ensures GetSonarPriority() == if priority == MAJOR then CRITICAL else priority
    {
      SetSeverity(TranslateToResharper(priority));
      CopiesAgreeWithUtils(severity.value, priority);
      PriorityRoundTrip(priority);
    }

    function GetKey(): string
      reads this
    {
      Key(id)
    }

    /** toSonarRule. The key is the derived key, the name the id, the configuration key the
        id behind "ReSharperInspectCode#", the severity the translated one; the description
        is never blank unless the id is. The host assigns the repository later. */
    function ToSonarRule(): (r: Rule)
      reads this
      requires severity.Some?
      ensures r.repositoryKey == None && r.enabled
      ensures r.key == GetKey() && r.name == id && r.severity == GetSonarPriority()
      ensures ':' !in r.key && |r.key| == |r.name|
      ensures r.configKey == "ReSharperInspectCode#" + r.name
      ensures r.description == SonarDescription(id, description, wikiLink, category)
      ensures !IsBlank(id) ==> !IsBlank(r.description)
    {
      SonarDescriptionIsBlank(id, description, wikiLink, category);
      Rule(None, GetKey(), id, "ReSharperInspectCode#" + id,
           SonarDescription(id, description, wikiLink, category), GetSonarPriority(), true)
    }

    /** createFromActiveRule: a new rule holding the active rule's name as id, its enabled
        flag and its description, and its severity translated when it has one; category and
        wiki link stay unset. */
    static method CreateFromActiveRule(activeRule: ActiveRule) returns (r: ReSharperRule)
      ensures fresh(r)
      ensures r.id == activeRule.rule.name && r.enabled == activeRule.rule.enabled
      ensures r.description == activeRule.rule.description
      ensures r.category == "" && r.wikiLink == ""
      ensures r.severity == if activeRule.severity.Some?
                            then Some(TranslateToResharper(activeRule.severity.value)) else None
    {
      var rule := activeRule.rule;
      r := new ReSharperRule();
      r.SetEnabled(rule.enabled);
      r.SetId(rule.name);
      r.SetDescription(rule.description);
      var priority := activeRule.severity;
      if priority.Some? {
        r.SetSonarPriority(priority.value);
      }
    }
  }
}
