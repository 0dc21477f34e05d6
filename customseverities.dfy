/**
 * Custom severities: a ReSharper settings document (`s:String` nodes keyed by `x:Key`)
 * overrides the priority of active rules. BaseCustomSeverities reads one such document
 * into its own map, first entry per rule winning, and applies that map to a profile;
 * AllCustomSeveritiesProvidersMerger runs the file-based provider, then the
 * property-based one, against the same profile.
 */
module CustomSeverities {
  import opened Wrappers
  import opened JavaText
  import opened SonarApi
  import opened Severities

  /** Only keys below this settings path define custom severities:
      "/Default/CodeInspection/Highlighting/InspectionSeverities". */
  const CustomSeveritiesPrefix: string :=
    ['/'] + "Default" + ['/'] + "CodeInspection" + ['/'] + "Highlighting" + ['/'] + "InspectionSeverities"

  /** The characters of the regular expression "[/=]" that splits a key. */
  const KeyDelimiters: set<char> := {'/', '='}

  /** The default profile name (ReSharperPlugin.PROFILE_DEFAULT). */
  const ProfileDefault := "Sonar way"

  /** One `s:String` node: the value of its `x:Key` attribute (None when the node has no
      such attribute) and its text content. */
  datatype StringNode = StringNode(key: Option<string>, text: string)

  /** What evaluating "//s:String" on an input source gives: the nodes in document order,
      or an XPathExpressionException (an unreadable or empty source). */
  datatype Source = Unreadable | Nodes(nodes: seq<StringNode>)

  /** getKey: not a custom-severity key (Java's null), a key rejected with a
      ReSharperException for its number of segments, or the rule key. */
  datatype KeyOutcome = NotCustom | Invalid(segments: nat) | RuleKey(key: string)

  /** What the provider's logger receives. */
  datatype Event =
    | InvalidKey(value: string, segments: nat)  // "Failed to add CustomSeverity on Node ..."
    | Duplicate(key: string)                     // "duplicate entry for <key>"
    | XPathError(definitionKey: string)          // "XPATH error on key<definitionKey>exception "

  /** getKey on the `x:Key` value: keys outside the prefix are not custom; the others are
      split on '/' and '=' and must give 8 or 9 segments, the rule key being the one
      before last. */
  function GetKey(value: string): KeyOutcome {
    if !StartsWith(value, CustomSeveritiesPrefix) then NotCustom
    else
      var values := Split(value, KeyDelimiters);
      if |values| != 8 && |values| != 9 then Invalid(|values|) else RuleKey(values[|values| - 2])
  }

  /** Only keys below the prefix are considered; such a key is rejected exactly when it
      splits into neither 8 nor 9 segments, and otherwise names the segment before last,
      which holds no '/' or '='. */
  lemma GetKeyOutcomes(value: string)
    ensures GetKey(value).NotCustom? <==> !StartsWith(value, CustomSeveritiesPrefix)
    ensures StartsWith(value, CustomSeveritiesPrefix) ==>
      var values := Split(value, KeyDelimiters);
      && (GetKey(value).Invalid? <==> |values| != 8 && |values| != 9)
      && (GetKey(value).Invalid? ==> GetKey(value).segments == |values|)
      && (GetKey(value).RuleKey? ==> GetKey(value).key == values[|values| - 2])
    ensures GetKey(value).RuleKey? ==> NoneOf(GetKey(value).key, KeyDelimiters)
  {
  }

  lemma PrefixSegmentsArePlain()
    ensures NoneOf("Default", KeyDelimiters) && NoneOf("CodeInspection", KeyDelimiters)
    ensures NoneOf("Highlighting", KeyDelimiters) && NoneOf("InspectionSeverities", KeyDelimiters)
  {
  }

  lemma PrefixShape(rest: string)
    ensures CustomSeveritiesPrefix + rest
         == [] + ['/'] + ("Default" + ['/'] + ("CodeInspection" + ['/'] + ("Highlighting" + ['/'] + ("InspectionSeverities" + rest))))
  {
  }

  /** The fields of "/a/b/c/e/=rule/tail". */
  lemma FieldsOfPath(a: string, b: string, c: string, e: string, rule: string, tail: string)
    requires NoneOf(a, KeyDelimiters) && NoneOf(b, KeyDelimiters) && NoneOf(c, KeyDelimiters)
    requires NoneOf(e, KeyDelimiters) && NoneOf(rule, KeyDelimiters) && NoneOf(tail, KeyDelimiters)
    ensures Fields([] + ['/'] + (a + ['/'] + (b + ['/'] + (c + ['/'] + (e + ([] + ['/'] + ([] + ['='] + (rule + ['/'] + tail))))))), KeyDelimiters)
         == ["", a, b, c, e, "", rule, tail]
  {
    var d := KeyDelimiters;
    var fromRule := rule + ['/'] + tail;
    var fromEq := [] + ['='] + fromRule;
    var fromE := e + ['/'] + fromEq;
    var fromC := c + ['/'] + fromE;
    var fromB := b + ['/'] + fromC;
    var fromA := a + ['/'] + fromB;
    assert e + ([] + ['/'] + fromEq) == fromE;
    FieldsOfPlain(tail, d);
    FieldsAtDelimiter(rule, '/', tail, d);
    FieldsAtDelimiter([], '=', fromRule, d);
    FieldsAtDelimiter(e, '/', fromEq, d);
    FieldsAtDelimiter(c, '/', fromE, d);
    FieldsAtDelimiter(b, '/', fromC, d);
    FieldsAtDelimiter(a, '/', fromB, d);
    FieldsAtDelimiter([], '/', fromA, d);
  }

  /** The key of a settings entry "<prefix>/=<rule>/<tail>" splits into "", the four
      path segments, "", the rule and the tail: eight segments. */
  lemma FieldsOfEntry(rule: string, tail: string)
    requires NoneOf(rule, KeyDelimiters) && NoneOf(tail, KeyDelimiters)
    ensures Fields(CustomSeveritiesPrefix + ([] + ['/'] + ([] + ['='] + (rule + ['/'] + tail))), KeyDelimiters)
         == ["", "Default", "CodeInspection", "Highlighting", "InspectionSeverities", "", rule, tail]
  {
    PrefixSegmentsArePlain();
    PrefixShape([] + ['/'] + ([] + ['='] + (rule + ['/'] + tail)));
    FieldsOfPath("Default", "CodeInspection", "Highlighting", "InspectionSeverities", rule, tail);
  }

  /** A settings entry "<prefix>/=<rule>/<tail>", with a non-empty tail such as
      "@EntryIndexedValue", names the rule `rule`. */
  lemma GetKeyOfEntry(rule: string, tail: string)
    requires NoneOf(rule, KeyDelimiters) && NoneOf(tail, KeyDelimiters) && tail != ""
    ensures GetKey(CustomSeveritiesPrefix + "/=" + rule + "/" + tail) == RuleKey(rule)
  {
    var value := CustomSeveritiesPrefix + "/=" + rule + "/" + tail;
    assert value == CustomSeveritiesPrefix + ([] + ['/'] + ([] + ['='] + (rule + ['/'] + tail)));
    FieldsOfEntry(rule, tail);
    assert value[0] == '/';
    assert StartsWith(value, CustomSeveritiesPrefix);
  }

  /** The key a node adds to the map, if any: tryAddCustomSeverity skips null and empty
      keys. */
  function AcceptedKey(value: string): Option<string> {
    match GetKey(value)
    case RuleKey(k) => if k == "" then None else Some(k)
    case _ => None
  }

  /** getRulePriority: the node's text read as a ReSharper severity (WARNING when it
      names none), translated into a priority. */
  function NodePriority(text: string): RulePriority {
    ToSonarPriority(GetResharperSeverity(Some(text)))
  }

  /** The key a node adds to the map, if any: none for a node without `x:Key`. */
  function NodeKey(node: StringNode): Option<string> {
    if node.key.None? then None else AcceptedKey(node.key.value)
  }

  /** Text that names no severity stores CRITICAL, the priority of WARNING. */
  lemma UnknownTextIsCritical(text: string)
    requires forall s :: Name(s) != text
    ensures NodePriority(text) == CRITICAL
  {
    GetResharperSeverityMeaning(Some(text), WARNING);
  }

  /** The map after some nodes, with what was logged on the way, and whether a node
      without `x:Key` made getKeyAttributeValue throw a NullPointerException. Nothing on
      the way up catches it: not addCustomSeverity, not parseCustomSeverities, not merge,
      not the merger's loop. */
  datatype Outcome = Outcome(severities: map<string, RulePriority>, events: seq<Event>, thrown: bool)

  /** addCustomSeverity on one node: a node without `x:Key` throws; a new rule key is
      stored with the node's priority; a key already present is kept and logged as a
      duplicate; a rejected key is logged; anything else is ignored. */
  function AddNode(m: map<string, RulePriority>, node: StringNode): Outcome {
    match node.key
    case None => Outcome(m, [], true)
    case Some(value) =>
      match GetKey(value)
      case Invalid(n) => Outcome(m, [InvalidKey(value, n)], false)
      case NotCustom => Outcome(m, [], false)
      case RuleKey(k) =>
        if k == "" then Outcome(m, [], false)
        else if k in m then Outcome(m, [Duplicate(k)], false)
        else Outcome(m[k := NodePriority(node.text)], [], false)
  }

  /** One node throws exactly when it has no `x:Key`; it keeps every entry, adds at most
      its own accepted key with its own priority, and logs at most one event: a rejected
      key, or a duplicate. */
  lemma AddNodeMeaning(m: map<string, RulePriority>, node: StringNode)
    ensures var o := AddNode(m, node);
      && (o.thrown <==> node.key.None?)
      && (forall k :: k in m ==> k in o.severities && o.severities[k] == m[k])
      && o.severities.Keys == m.Keys + (if NodeKey(node).Some? then {NodeKey(node).value} else {})
      && (forall k :: k in o.severities && k !in m ==> o.severities[k] == NodePriority(node.text))
      && (o.events == [] <==>
            node.key.None? || (!GetKey(node.key.value).Invalid? && (NodeKey(node).None? || NodeKey(node).value !in m)))
      && |o.events| <= 1
  {
  }

  /** The first `n` nodes all carry `x:Key`. */
  predicate Keyed(nodes: seq<StringNode>, n: nat)
    requires n <= |nodes|
  {
    forall i :: 0 <= i < n ==> nodes[i].key.Some?
  }

  /** The first `n` nodes added in order, from the map `m`; a node without `x:Key` ends
      the reading with its exception. */
  function AddNodes(m: map<string, RulePriority>, nodes: seq<StringNode>, n: nat): Outcome
    requires n <= |nodes|
  {
    if n == 0 then Outcome(m, [], false)
    else
      var before := AddNodes(m, nodes, n - 1);
      if before.thrown then before
      else
        var last := AddNode(before.severities, nodes[n - 1]);
        Outcome(last.severities, before.events + last.events, last.thrown)
  }

  /** Reading throws exactly when some node has no `x:Key`; nodes never remove or change
      an entry; the accepted key of every node read before the first keyless one ends up
      in the map; every new entry comes from a node; each node logs at most once. */
  lemma {:induction false} AddNodesMeaning(m: map<string, RulePriority>, nodes: seq<StringNode>, n: nat)
    requires n <= |nodes|
    ensures var o := AddNodes(m, nodes, n);
      && (o.thrown <==> !Keyed(nodes, n))
      && (forall k :: k in m ==> k in o.severities && o.severities[k] == m[k])
      && (forall i :: 0 <= i < n && Keyed(nodes, i) && NodeKey(nodes[i]).Some? ==> NodeKey(nodes[i]).value in o.severities)
      && (forall k :: k in o.severities ==> k in m || exists i :: 0 <= i < n && NodeKey(nodes[i]) == Some(k))
      && |o.events| <= n
  {
    if n > 0 {
      AddNodesMeaning(m, nodes, n - 1);
      var before := AddNodes(m, nodes, n - 1);
      assert Keyed(nodes, n) <==> Keyed(nodes, n - 1) && nodes[n - 1].key.Some?;
      if !before.thrown {
        AddNodeMeaning(before.severities, nodes[n - 1]);
      }
    }
  }

  /** Once reading has thrown, later nodes change nothing: the outcome stays as it was. */
  lemma {:induction false} ThrownStays(m: map<string, RulePriority>, nodes: seq<StringNode>, i: nat, n: nat)
    requires i <= n <= |nodes| && AddNodes(m, nodes, i).thrown
    ensures AddNodes(m, nodes, n) == AddNodes(m, nodes, i)
  {
    if n > i {
      ThrownStays(m, nodes, i, n - 1);
    }
  }

  /** A node without `x:Key` stops the reading: the nodes after it are never read, and
      the outcome is that of the nodes before it, with the exception thrown. */
  lemma {:induction false} KeylessNodeStops(m: map<string, RulePriority>, nodes: seq<StringNode>, i: nat, n: nat)
    requires i < n <= |nodes|
    requires Keyed(nodes, i) && nodes[i].key.None?
    ensures AddNodes(m, nodes, n) == AddNodes(m, nodes, i).(thrown := true)
  {
    AddNodesMeaning(m, nodes, i);
    assert AddNodes(m, nodes, i + 1) == AddNodes(m, nodes, i).(thrown := true);
    ThrownStays(m, nodes, i + 1, n);
  }

  /** Adding nodes whose keys, up to the first keyless node, are all present already
      changes nothing. */
  lemma {:induction false} AddNodesOfPresentKeys(m: map<string, RulePriority>, nodes: seq<StringNode>, n: nat)
    requires n <= |nodes|
    requires forall i :: 0 <= i < n && Keyed(nodes, i) && NodeKey(nodes[i]).Some? ==> NodeKey(nodes[i]).value in m
    ensures AddNodes(m, nodes, n).severities == m
  {
    if n > 0 {
      AddNodesOfPresentKeys(m, nodes, n - 1);
      AddNodesMeaning(m, nodes, n - 1);
      if !AddNodes(m, nodes, n - 1).thrown {
        AddNodeMeaning(m, nodes[n - 1]);
      }
    }
  }

  /** Reading the same nodes a second time leaves the map as one reading left it, since
      the first entry for a key wins. */
  lemma AddNodesIsIdempotent(m: map<string, RulePriority>, nodes: seq<StringNode>)
    ensures var once := AddNodes(m, nodes, |nodes|).severities;
            AddNodes(once, nodes, |nodes|).severities == once
  {
    AddNodesMeaning(m, nodes, |nodes|);
    AddNodesOfPresentKeys(AddNodes(m, nodes, |nodes|).severities, nodes, |nodes|);
  }

  /** A rule key that was not in the map gets the priority of the first node naming it;
      later nodes naming it do not change it. */
  lemma {:induction false} FirstEntryWins(m: map<string, RulePriority>, nodes: seq<StringNode>, n: nat, i: nat, k: string)
    requires i < n <= |nodes|
    requires Keyed(nodes, i) && NodeKey(nodes[i]) == Some(k) && k !in m
    requires forall j :: 0 <= j < i ==> NodeKey(nodes[j]) != Some(k)
    ensures k in AddNodes(m, nodes, n).severities
    ensures AddNodes(m, nodes, n).severities[k] == NodePriority(nodes[i].text)
  {
    var before := AddNodes(m, nodes, n - 1);
    if n - 1 > i {
      FirstEntryWins(m, nodes, n - 1, i, k);
      if !before.thrown {
        AddNodeMeaning(before.severities, nodes[n - 1]);
      }
    } else {
      AddNodesMeaning(m, nodes, n - 1);
      assert k !in before.severities;
      AddNodeMeaning(before.severities, nodes[n - 1]);
    }
  }

  /** The map and the log after a whole source. */
  function ParseOutcome(m: map<string, RulePriority>, definitionKey: string, source: Source): (o: Outcome)
    ensures source.Unreadable? ==> o == Outcome(m, [XPathError(definitionKey)], false)
  {
    match source
    case Unreadable => Outcome(m, [XPathError(definitionKey)], false)
    case Nodes(nodes) => AddNodes(m, nodes, |nodes|)
  }

  /** assignCustomSeverity on one active rule: the mapped priority when its key is in the map. */
  function AssignOne(a: ActiveRule, m: map<string, RulePriority>): (r: ActiveRule)
    ensures r.rule == a.rule
    ensures r.severity == if a.RuleKey() in m then Some(m[a.RuleKey()]) else a.severity
  {
    if a.RuleKey() in m then a.(severity := Some(m[a.RuleKey()])) else a
  }

  /** assignCustomSeverities: every active rule, in order, through assignCustomSeverity. */
  function Assigned(rules: seq<ActiveRule>, m: map<string, RulePriority>): (r: seq<ActiveRule>)
    ensures |r| == |rules|
    ensures forall i :: 0 <= i < |rules| ==> r[i] == AssignOne(rules[i], m)
  {
    seq(|rules|, i requires 0 <= i < |rules| => AssignOne(rules[i], m))
  }

  /** An empty map leaves every active rule as it was. */
  lemma AssignedEmpty(rules: seq<ActiveRule>)
    ensures Assigned(rules, map[]) == rules
  {
  }

  /** The source a provider reads for a configuration: none when the definition value is
      missing or empty or createInputSource yields null. */
  function InputSourceOf(settings: map<string, string>, definitionKey: string,
                         createInputSource: string -> Option<Source>): (r: Option<Source>)
    ensures definitionKey !in settings || settings[definitionKey] == "" ==> r.None?
  {
    if definitionKey !in settings || settings[definitionKey] == "" then None
    else createInputSource(settings[definitionKey])
  }

  /** A provider's map, log and exception after merge with a source, if it has one. */
  function MergeOutcome(m: map<string, RulePriority>, definitionKey: string, source: Option<Source>): Outcome {
    if source.None? then Outcome(m, [], false) else ParseOutcome(m, definitionKey, source.value)
  }

  /** The active rules after a provider's merge: its map is applied when it had a source
      and reading it threw nothing. */
  function MergedRules(rules: seq<ActiveRule>, m: map<string, RulePriority>, applied: bool): seq<ActiveRule> {
    if applied then Assigned(rules, m) else rules
  }

  /** Across the two providers, the later one's assignment is the one that stays: a rule
      it maps ends with its priority, a rule only the first maps ends with the first's,
      and a rule neither maps keeps its severity. */
  lemma LaterProviderWins(rules: seq<ActiveRule>, m1: map<string, RulePriority>, applied1: bool,
                          m2: map<string, RulePriority>, applied2: bool, i: nat)
    requires i < |rules|
    ensures var final := MergedRules(MergedRules(rules, m1, applied1), m2, applied2);
            var key := rules[i].RuleKey();
            && |final| == |rules| && final[i].rule == rules[i].rule
            && (applied2 && key in m2 ==> final[i].severity == Some(m2[key]))
            && (applied1 && key in m1 && (!applied2 || key !in m2) ==> final[i].severity == Some(m1[key]))
            && ((!applied1 || key !in m1) && (!applied2 || key !in m2) ==> final[i] == rules[i])
  {
    var after1 := MergedRules(rules, m1, applied1);
    assert |after1| == |rules| && after1[i].rule == rules[i].rule;
    assert after1[i].RuleKey() == rules[i].RuleKey();
  }

  /** BaseCustomSeverities with its abstract parts as parameters: getDefinitionKey as
      `definitionKey`, createInputSource as `createInputSource`. */
  class Provider {
    const definitionKey: string
    const createInputSource: string -> Option<Source>
    /** The configuration setSettings installs, as a key to value map. */
    var settings: map<string, string>
    /** The CustomSeveritiesMap: rule key to priority. It is never cleared. */
    var severities: map<string, RulePriority>
    /** What this provider writes to the class logger, which the providers share. */
    var log: seq<Event>

    constructor (definitionKey: string, createInputSource: string -> Option<Source>)
      ensures this.definitionKey == definitionKey && this.createInputSource == createInputSource
      ensures settings == map[] && severities == map[] && log == []
    {
      this.definitionKey := definitionKey;
      this.createInputSource := createInputSource;
      settings, severities, log := map[], map[], [];
    }

    method SetSettings(settings: map<string, string>)
      modifies this`settings
      ensures this.settings == settings
    {
      this.settings := settings;
    }

    /** addCustomSeverity: one node into the map, first entry per key winning; `thrown`
        when the node has no `x:Key`. */
    method AddCustomSeverity(node: StringNode) returns (thrown: bool)
      modifies this`severities, this`log
      ensures severities == AddNode(old(severities), node).severities
      ensures log == old(log) + AddNode(old(severities), node).events
      ensures thrown == AddNode(old(severities), node).thrown
    {
      if node.key.None? {
        return true;
      }
      thrown := false;
      var key := GetKey(node.key.value);
      match key {
        case Invalid(n) =>
          log := log + [InvalidKey(node.key.value, n)];
        case NotCustom =>
        case RuleKey(k) =>
          if k != "" {
            var priority := NodePriority(node.text);
            if k in severities {
              log := log + [Duplicate(k)];
            } else {
              severities := severities[k := priority];
            }
          }
      }
    }

    /** parseCustomSeverities: every node of the source in document order, or the XPath
        error logged when the source cannot be read; `thrown` when a node without `x:Key`
        ended the loop with its exception. */
    method ParseCustomSeverities(source: Source) returns (result: map<string, RulePriority>, thrown: bool)
      modifies this`severities, this`log
      ensures severities == ParseOutcome(old(severities), definitionKey, source).severities
      ensures log == old(log) + ParseOutcome(old(severities), definitionKey, source).events
      ensures thrown == ParseOutcome(old(severities), definitionKey, source).thrown
      ensures result == severities
    {
      thrown := false;
      match source {
        case Unreadable =>
          log := log + [XPathError(definitionKey)];
        case Nodes(nodes) =>
          var nodeIndex := 0;
          while nodeIndex < |nodes| && !thrown
            invariant 0 <= nodeIndex <= |nodes|
            invariant severities == AddNodes(old(severities), nodes, nodeIndex).severities
            invariant log == old(log) + AddNodes(old(severities), nodes, nodeIndex).events
            invariant thrown == AddNodes(old(severities), nodes, nodeIndex).thrown
          {
            thrown := AddCustomSeverity(nodes[nodeIndex]);
            nodeIndex := nodeIndex + 1;
          }
          if thrown {
            ThrownStays(old(severities), nodes, nodeIndex, |nodes|);
          }
      }
      result := severities;
    }

    /** assignCustomSeverities: the map applied to each active rule of the profile. */
    method AssignCustomSeverities(profile: RulesProfile)
      modifies profile`activeRules
      ensures profile.activeRules == Assigned(old(profile.activeRules), severities)
    {
      var k := 0;
      while k < |profile.activeRules|
        invariant 0 <= k <= |profile.activeRules| == |old(profile.activeRules)|
        invariant forall i :: 0 <= i < k ==> profile.activeRules[i] == AssignOne(old(profile.activeRules)[i], severities)
        invariant forall i :: k <= i < |profile.activeRules| ==> profile.activeRules[i] == old(profile.activeRules)[i]
      {
        profile.activeRules := profile.activeRules[k := AssignOne(profile.activeRules[k], severities)];
        k := k + 1;
      }
    }

    /** merge: nothing happens unless the definition is set and yields a source; then the
        source is read into the map and, unless reading threw, the map is applied to the
        profile's active rules. */
    method Merge(profile: RulesProfile) returns (thrown: bool)
      modifies this`severities, this`log, profile`activeRules
      ensures var source := InputSourceOf(settings, definitionKey, createInputSource);
              var o := MergeOutcome(old(severities), definitionKey, source);
              && severities == o.severities && log == old(log) + o.events && thrown == o.thrown
              && profile.activeRules == MergedRules(old(profile.activeRules), severities, source.Some? && !o.thrown)
    {
      var definitionValue := if definitionKey in settings then settings[definitionKey] else "";
      if definitionValue == "" {
        return false;
      }
      var source := createInputSource(definitionValue);
      if source.None? {
        return false;
      }
      var _, parseThrown := ParseCustomSeverities(source.value);
      if parseThrown {
        return true;
      }
      AssignCustomSeverities(profile);
      thrown := false;
    }
  }

  /** AllCustomSeveritiesProvidersMerger: its provider array holds the file-based provider
      and then the property-based one. */
  class Merger {
    const fileProvider: Provider
    const propertyProvider: Provider
    /** The settings key of the profile name (ReSharperConstants.PROFILE_NAME). */
    const profileNameKey: string
    var settings: map<string, string>
    var profile: RulesProfile?
    /** What the class logger receives at warning level. */
    var log: seq<string>

    constructor (fileProvider: Provider, propertyProvider: Provider, profileNameKey: string)
      requires fileProvider != propertyProvider
      ensures this.fileProvider == fileProvider && this.propertyProvider == propertyProvider
      ensures this.profileNameKey == profileNameKey
      ensures settings == map[] && profile == null && log == []
    {
      this.fileProvider := fileProvider;
      this.propertyProvider := propertyProvider;
      this.profileNameKey := profileNameKey;
      settings, profile, log := map[], null, [];
    }

    method SetSettings(settings: map<string, string>)
      modifies this`settings
      ensures this.settings == settings
    {
      this.settings := settings;
    }

    method SetProfile(profile: RulesProfile?)
      modifies this`profile
      ensures this.profile == profile
    {
      this.profile := profile;
    }

    /** merge: each provider in turn gets the settings and merges into the same profile.
        An exception of the file-based provider leaves the loop, so the property-based one
        never runs; `thrown` says that an exception escaped. Java dereferences the profile,
        so it must have been set. */
    method Merge() returns (thrown: bool)
      requires profile != null && fileProvider != propertyProvider
      modifies fileProvider`settings, fileProvider`severities, fileProvider`log
      modifies propertyProvider`settings, propertyProvider`severities, propertyProvider`log
      modifies profile`activeRules
      ensures fileProvider.settings == settings
      ensures var s1 := InputSourceOf(settings, fileProvider.definitionKey, fileProvider.createInputSource);
              var o1 := MergeOutcome(old(fileProvider.severities), fileProvider.definitionKey, s1);
              var after1 := MergedRules(old(profile.activeRules), o1.severities, s1.Some? && !o1.thrown);
              && fileProvider.severities == o1.severities
              && fileProvider.log == old(fileProvider.log) + o1.events
              && (o1.thrown ==> thrown && unchanged(propertyProvider) && profile.activeRules == after1)
              && (!o1.thrown ==>
                    var s2 := InputSourceOf(settings, propertyProvider.definitionKey, propertyProvider.createInputSource);
                    var o2 := MergeOutcome(old(propertyProvider.severities), propertyProvider.definitionKey, s2);
                    && propertyProvider.settings == settings
                    && propertyProvider.severities == o2.severities
                    && propertyProvider.log == old(propertyProvider.log) + o2.events
                    && thrown == o2.thrown
                    && profile.activeRules == MergedRules(after1, o2.severities, s2.Some? && !o2.thrown))
    {
      fileProvider.SetSettings(settings);
      thrown := fileProvider.Merge(profile);
      if thrown {
        return;
      }
      propertyProvider.SetSettings(settings);
      thrown := propertyProvider.Merge(profile);
    }

    /** getProfileName: the configured name when it is set and not empty, otherwise the
        default with a warning. */
    method GetProfileName() returns (profileName: string)
      modifies this`log
      ensures profileName == ProfileName(settings, profileNameKey)
      ensures log == old(log) + (if profileNameKey in settings && settings[profileNameKey] != "" then [] else [NoProfileWarning])
    {
      profileName := ProfileDefault;
      if profileNameKey in settings && |settings[profileNameKey]| > 0 {
        profileName := settings[profileNameKey];
      } else {
        log := log + [NoProfileWarning];
      }
    }
  }

  const NoProfileWarning := "No profile defined for resharper, using default"

  /** The profile name a configuration selects. */
  function ProfileName(settings: map<string, string>, profileNameKey: string): (name: string)
    ensures profileNameKey in settings && settings[profileNameKey] != "" ==> name == settings[profileNameKey]
    ensures !(profileNameKey in settings && settings[profileNameKey] != "") ==> name == ProfileDefault
    ensures name != ""
  {
    if profileNameKey in settings && settings[profileNameKey] != "" then settings[profileNameKey] else ProfileDefault
  }
}
