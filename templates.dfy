/** The template registry: the built-in table, lookups by key, the merge
    `handleTemplateSelect` performs, and the grouping by category the
    selector shows. */
module Templates {
  import opened Seqs
  import opened Config

  /** `TemplateDefaultValues` as the table uses them: values of their fields'
      types, and never one of the two list fields. */
  type Defaults = m: Partial | WellTyped(m) && HandlingInstructions !in m && DomainFocus !in m
    witness map[]

  /** `TemplateDefinition`; an absent `defaultValues` is the empty map. */
  datatype TemplateDefinition = TemplateDefinition(
    name: string, category: string, promptFormat: string, defaultValues: Defaults)

  /** `TemplateWithKey`: a built-in template together with its key in the table. */
  datatype KeyedTemplate = KeyedTemplate(key: string, template: TemplateDefinition)

  /** A template the user saved: a prompt and the configuration it came from. */
  datatype UserTemplate = UserTemplate(
    id: string, name: string, category: string, promptFormat: string, formData: FormData)

  /** The prompt format of index.tsx:96-113, line by line. */
  const BasicStrategicAnalysisFormat: string :=
    "Initialize AMATERASU for strategic analysis of [TARGET_SUBJECT].\n" +
    "\n" +
    "Classification: [CLASSIFICATION_LEVEL] ([HANDLING_INSTRUCTIONS])\n" +
    "Compartments: [COMPARTMENTS]\n" +
    "Stakeholder: [STAKEHOLDER_TYPE]\n" +
    "Priority: [PRIORITY_LEVEL]\n" +
    "Analysis Type: Strategic assessment with [CONFIDENCE_THRESHOLD]% confidence threshold.\n" +
    "\n" +
    "Requirements:\n" +
    "- Comprehensive strategic evaluation\n" +
    "- Multi-factor trend analysis  \n" +
    "- Stakeholder-optimized reporting\n" +
    "- [TIMELINE] delivery timeline\n" +
    "\n" +
    "[WEB_SEARCH_BLOCK]\n" +
    "\n" +
    "Focus areas: [DOMAIN_FOCUS]\n" +
    "Geographic scope: [GEOGRAPHIC_SCOPE]"

  /** The prompt format of index.tsx:123-143, line by line. */
  const IntelligenceOperationFormat: string :=
    "Activate TSUKUYOMI intelligence mode for [MISSION_TYPE] operation.\n" +
    "\n" +
    "//CLASSIFICATION: [CLASSIFICATION_LEVEL] [HANDLING_INSTRUCTIONS]\n" +
    "//COMPARTMENTS: [COMPARTMENTS]\n" +
    "\n" +
    "Mission Parameters:\n" +
    "- Priority: [PRIORITY_LEVEL]\n" +
    "- Stakeholder: [STAKEHOLDER_TYPE] \n" +
    "- Intelligence Disciplines: [DOMAIN_FOCUS]\n" +
    "- Analysis Depth: [DETAIL_LEVEL]\n" +
    "\n" +
    "Operational Requirements:\n" +
    "- [ANALYSIS_TYPE] analysis with [CONFIDENCE_REQUIRED] confidence\n" +
    "- Source evaluation and corroboration\n" +
    "- Professional intelligence reporting\n" +
    "- OPSEC Level: [OPSEC_LEVEL_TEXT]\n" +
    "\n" +
    "[WEB_SEARCH_BLOCK]\n" +
    "\n" +
    "Target: [TARGET_SUBJECT]\n" +
    "Timeline: [TIMELINE]"

  /** The prompt format of index.tsx:153-172, line by line. */
  const EconomicVulnerabilityFormat: string :=
    "Initialize TSUKUYOMI Economic Analysis Module E1: Economic Vulnerability Assessment.\n" +
    "\n" +
    "Classification: [CLASSIFICATION_LEVEL] ([HANDLING_INSTRUCTIONS])\n" +
    "Compartments: [COMPARTMENTS]\n" +
    "Target Economy: [TARGET_SUBJECT]\n" +
    "Stakeholder: [STAKEHOLDER_TYPE]\n" +
    "\n" +
    "Assessment Parameters:\n" +
    "- Vulnerability domains: [Specify focus areas or 'All']\n" +
    "- External factors: [Geographic/Economic context, related to GEOGRAPHIC_SCOPE]\n" +
    "- Time horizon: [TIMELINE]\n" +
    "- Confidence threshold: [CONFIDENCE_THRESHOLD]%\n" +
    "\n" +
    "Deliverables:\n" +
    "- Vulnerability profile analysis\n" +
    "- Risk assessment matrix\n" +
    "- Strategic recommendations\n" +
    "- [FORMAT_PREFERENCE] format\n" +
    "\n" +
    "[WEB_SEARCH_BLOCK]"

  /** The prompt format of index.tsx:182-203, line by line. */
  const CrisisResponseFormat: string :=
    "//CRITICAL: Activate TSUKUYOMI crisis response mode.\n" +
    "\n" +
    "//CLASSIFICATION: [CLASSIFICATION_LEVEL] [HANDLING_INSTRUCTIONS]\n" +
    "//COMPARTMENTS: [COMPARTMENTS]\n" +
    "//PRIORITY: [PRIORITY_LEVEL]\n" +
    "\n" +
    "Crisis Parameters:\n" +
    "- Threat type: [THREAT_DESCRIPTION]\n" +
    "- Affected systems: [TARGET_SUBJECT]\n" +
    "- Stakeholder: [STAKEHOLDER_TYPE]\n" +
    "- Response timeline: IMMEDIATE\n" +
    "\n" +
    "Required Analysis:\n" +
    "- Immediate threat assessment\n" +
    "- Impact evaluation\n" +
    "- Mitigation recommendations\n" +
    "- Continuous monitoring protocols\n" +
    "\n" +
    "[WEB_SEARCH_BLOCK]\n" +
    "\n" +
    "OPSEC Level: MAXIMUM\n" +
    "Source Protection: ABSOLUTE"
  const BasicStrategicAnalysisDefaults: Defaults :=
    map[AnalysisType := Text("STRATEGIC"), MissionType := Text("ANALYSIS"),
        ReportType := Text("ASSESSMENT")]

  const IntelligenceOperationDefaults: Defaults :=
    map[PriorityLevel := Text("PRIORITY"), ConfidenceRequired := Text("HIGH"),
        DetailLevel := Text("DETAILED")]

  const EconomicVulnerabilityDefaults: Defaults :=
    map[AnalysisType := Text("ECONOMIC"), Timeline := Text("MEDIUM_TERM"),
        FormatPreference := Text("STRUCTURED")]

  const CrisisResponseDefaults: Defaults :=
    map[PriorityLevel := Text("CRITICAL"), Timeline := Text("IMMEDIATE"),
        OpsecLevel := Number(3), SourceProtectionRequired := Flag(true),
        DetailLevel := Text("COMPREHENSIVE"), StakeholderType := Text("EXECUTIVE"),
        ThreatDescription := Text("")]

  /** The table `templates`, as its entries are enumerated (declaration order). */
  const BuiltinTemplates: seq<KeyedTemplate> := [
    KeyedTemplate("basicStrategicAnalysis", TemplateDefinition(
      "Basic Strategic Analysis", "Basic Operations",
      BasicStrategicAnalysisFormat, BasicStrategicAnalysisDefaults)),
    KeyedTemplate("intelligenceOperation", TemplateDefinition(
      "Intelligence Operation", "Intelligence Operations",
      IntelligenceOperationFormat, IntelligenceOperationDefaults)),
    KeyedTemplate("economicVulnerability", TemplateDefinition(
      "Economic Vulnerability Assessment", "Economic Analysis",
      EconomicVulnerabilityFormat, EconomicVulnerabilityDefaults)),
    KeyedTemplate("crisisResponse", TemplateDefinition(
      "Crisis Response", "Specialized Operations",
      CrisisResponseFormat, CrisisResponseDefaults))
  ]

  /** `Object.keys(templates)[0]`: the key selected at start-up and after the
      selected user template is deleted. */
  const FirstBuiltinKey: string := "basicStrategicAnalysis"

  /** `FirstBuiltinKey` is the key of the first entry of the table. */
  lemma FirstBuiltinKeyIsFirst()
    ensures Lookup(BuiltinTemplates, FirstBuiltinKey).Some?
    ensures |BuiltinTemplates| > 0 && BuiltinTemplates[0].key == FirstBuiltinKey
  {
    assert BuiltinTemplates[0].key == FirstBuiltinKey;
  }

  /** The keys of the table are distinct, so a key names at most one template. */
  lemma BuiltinKeysDistinct()
    ensures forall i, j :: 0 <= i < j < |BuiltinTemplates| ==>
      BuiltinTemplates[i].key != BuiltinTemplates[j].key
  {
  }

  /** `templates[key]` for a table `table` of keyed templates: the entry
      with that key, and nothing when no entry has it. */
  function Lookup(table: seq<KeyedTemplate>, key: string): (r: Option<TemplateDefinition>)
    ensures r.Some? ==> KeyedTemplate(key, r.value) in table
    ensures r.None? <==> forall i :: 0 <= i < |table| ==> table[i].key != key
  {
    match FindIndex(table, (t: KeyedTemplate) => t.key == key)
    case None => None
    case Some(i) => Some(table[i].template)
  }

  /** `userTemplates.find(t => t.id === id)`. */
  function FindUserTemplate(users: seq<UserTemplate>, id: string): (r: Option<UserTemplate>)
    ensures r.Some? ==> r.value in users && r.value.id == id
    ensures r.Some? ==> exists i :: 0 <= i < |users| && users[i] == r.value && forall j :: 0 <= j < i ==> users[j].id != id
    ensures r.None? <==> forall i :: 0 <= i < |users| ==> users[i].id != id
  {
    Find(users, (u: UserTemplate) => u.id == id)
  }

  /** What `generatePrompt` needs of a template: its name and its format. */
  datatype Resolved = Resolved(name: string, promptFormat: string)

  /** `templates[key] || userTemplates.find(t => t.id === key)`: a built-in
      template wins over a user template with the same id, and nothing is
      found only when neither exists. */
  function ResolveTemplate(table: seq<KeyedTemplate>, key: string, users: seq<UserTemplate>): (r: Option<Resolved>)
    ensures r.None? <==>
      (forall i :: 0 <= i < |table| ==> table[i].key != key) &&
      (forall i :: 0 <= i < |users| ==> users[i].id != key)
    ensures Lookup(table, key).Some? ==>
      r == Some(Resolved(Lookup(table, key).value.name, Lookup(table, key).value.promptFormat))
    ensures Lookup(table, key).None? && r.Some? ==>
      exists i :: 0 <= i < |users| && users[i].id == key && r.value == Resolved(users[i].name, users[i].promptFormat) &&
        forall j :: 0 <= j < i ==> users[j].id != key
  {
    match Lookup(table, key)
    case Some(t) => Some(Resolved(t.name, t.promptFormat))
    case None =>
      match FindUserTemplate(users, key)
      case Some(u) => Some(Resolved(u.name, u.promptFormat))
      case None => None
  }

  /** `user.F || builtin.F || initialFormData.F` for a list field `F`. */
  function ListChoice(f: Field, builtin: Partial, user: Partial): (v: Value)
    requires IsListField(f) && WellTyped(builtin) && WellTyped(user)
    ensures Fits(f, v)
    ensures v == if f in user then user[f] else if f in builtin then builtin[f] else List([])
  {
    if f in user then user[f] else if f in builtin then builtin[f] else InitialValue(f)
  }

  /** The spread `{ ...initialFormData, ...prev, ...builtin, ...user }` followed by
      the two list fields, which take `user.F || builtin.F || initialFormData.F`
      and so never keep the previous list. */
  function MergeSelection(prev: FormData, builtin: Partial, user: Partial): (r: FormData)
    requires WellTyped(builtin) && WellTyped(user)
    ensures forall f :: !IsListField(f) ==>
      r[f] == if f in user then user[f] else if f in builtin then builtin[f] else prev[f]
    ensures r[HandlingInstructions] == if HandlingInstructions in user then user[HandlingInstructions]
      else if HandlingInstructions in builtin then builtin[HandlingInstructions] else List([])
    ensures r[DomainFocus] == if DomainFocus in user then user[DomainFocus]
      else if DomainFocus in builtin then builtin[DomainFocus] else List([])
  {
    assert WellTyped(prev) by {
      forall f | f in prev ensures Fits(f, prev[f]) {
        assert IsRecord(prev);
      }
    }
    var base := Overlay(InitialFormData, prev);
    assert forall f :: base[f] == prev[f];
    var spread := Overlay(Overlay(base, builtin), user);
    var handling := ListChoice(HandlingInstructions, builtin, user);
    var focus := ListChoice(DomainFocus, builtin, user);
    SetField(SetField(spread, HandlingInstructions, handling), DomainFocus, focus)
  }

  /** A saved configuration, complete as it is, overrides everything. */
  lemma MergeSaved(prev: FormData, builtin: Partial, saved: FormData)
    requires WellTyped(builtin)
    ensures MergeSelection(prev, builtin, saved) == saved
  {
    RecordsEqual(MergeSelection(prev, builtin, saved), saved);
  }

  /** Built-in defaults alone overwrite their own fields; the lists, which they
      never set, are emptied and every other field keeps its value. */
  lemma MergeDefaults(prev: FormData, d: Defaults)
    ensures forall f ::
      MergeSelection(prev, d, map[])[f] == if f in d then d[f] else if IsListField(f) then List([]) else prev[f]
  {
    var r := MergeSelection(prev, d, map[]);
    forall f ensures r[f] == if f in d then d[f] else if IsListField(f) then List([]) else prev[f] {
      if f == HandlingInstructions {
        assert f !in d;
      } else if f == DomainFocus {
        assert f !in d;
      } else {
        assert !IsListField(f);
      }
    }
  }

  /** `handleTemplateSelect`'s new configuration, given what `templates[key]`
      and `userTemplates.find(t => t.id === key)` found. A user template
      restores its saved configuration exactly; otherwise the built-in
      defaults overwrite their fields, the other scalars keep their values and
      both lists are emptied, which is also what an unknown key does. */
  function SelectTemplateData(prev: FormData, found: Option<TemplateDefinition>,
                              saved: Option<UserTemplate>): (r: FormData)
    ensures saved.Some? ==> r == saved.value.formData
    ensures saved.None? && found.Some? ==>
      var d := found.value.defaultValues;
      forall f :: r[f] == if f in d then d[f] else if IsListField(f) then List([]) else prev[f]
    ensures saved.None? && found.None? ==>
      forall f :: r[f] == if IsListField(f) then List([]) else prev[f]
  {
    var builtin: Defaults := if found.Some? then found.value.defaultValues else map[];
    if saved.Some? then
      MergeSaved(prev, builtin, saved.value.formData);
      MergeSelection(prev, builtin, saved.value.formData)
    else
      MergeDefaults(prev, builtin);
      MergeSelection(prev, builtin, map[])
  }

  /** The templates of category `c`, in table order. */
  function InCategory(ts: seq<KeyedTemplate>, c: string): seq<KeyedTemplate> {
    Filter(ts, (t: KeyedTemplate) => t.template.category == c)
  }

  function Categories(ts: seq<KeyedTemplate>): set<string> {
    set i | 0 <= i < |ts| :: ts[i].template.category
  }

  /** Appending a template extends its own category's group and no other. */
  lemma InCategorySnoc(ts: seq<KeyedTemplate>, t: KeyedTemplate, c: string)
    ensures InCategory(ts + [t], c) ==
      InCategory(ts, c) + if t.template.category == c then [t] else []
  {
    var keep := (u: KeyedTemplate) => u.template.category == c;
    FilterAppend(ts, [t], keep);
    assert [t][1..] == [];
  }

  lemma CategoriesSnoc(ts: seq<KeyedTemplate>, t: KeyedTemplate)
    ensures Categories(ts + [t]) == Categories(ts) + {t.template.category}
  {
    var us := ts + [t];
    assert us[|ts|] == t;
    assert forall i :: 0 <= i < |ts| ==> us[i] == ts[i];
  }

  /** A category that does not occur has an empty group. */
  lemma InCategoryAbsent(ts: seq<KeyedTemplate>, c: string)
    requires c !in Categories(ts)
    ensures InCategory(ts, c) == []
  {
    assert forall i :: 0 <= i < |ts| ==> ts[i].template.category != c;
    FilterNone(ts, (t: KeyedTemplate) => t.template.category == c);
  }

  /** `cats` groups `ts` by category: one non-empty group per category that
      occurs, holding that category's templates in order. */
  predicate Grouped(cats: map<string, seq<KeyedTemplate>>, ts: seq<KeyedTemplate>) {
    && cats.Keys == Categories(ts)
    && forall c :: c in cats ==> cats[c] == InCategory(ts, c) && cats[c] != []
  }

  /** Pushing the next template onto its group (created empty when missing)
      keeps the grouping in step with the longer prefix. */
  lemma GroupedSnoc(cats: map<string, seq<KeyedTemplate>>, ts: seq<KeyedTemplate>, t: KeyedTemplate)
    requires Grouped(cats, ts)
    ensures
      var c := t.template.category;
      Grouped(cats[c := (if c in cats then cats[c] else []) + [t]], ts + [t])
  {
    var c := t.template.category;
    var group := if c in cats then cats[c] else [];
    if c !in cats {
      InCategoryAbsent(ts, c);
    }
    assert group == InCategory(ts, c);
    var next := cats[c := group + [t]];
    CategoriesSnoc(ts, t);
    assert next.Keys == cats.Keys + {c};
    forall d | d in next
      ensures next[d] == InCategory(ts + [t], d) && next[d] != []
    {
      InCategorySnoc(ts, t, d);
      if d != c {
        assert next[d] == cats[d];
      }
    }
  }

  /** `categorizedTemplates`: one group per category that occurs, each group
      holding exactly that category's templates in table order. */
  method CategorizeTemplates(ts: seq<KeyedTemplate>) returns (cats: map<string, seq<KeyedTemplate>>)
    ensures cats.Keys == Categories(ts)
    ensures forall c :: c in cats ==> cats[c] == InCategory(ts, c) && cats[c] != []
  {
    cats := map[];
    var i := 0;
    while i < |ts|
      invariant 0 <= i <= |ts|
      invariant Grouped(cats, ts[..i])
    {
      var t := ts[i];
      var c := t.template.category;
      GroupedSnoc(cats, ts[..i], t);
      if c !in cats {
        cats := cats[c := []];
      }
      cats := cats[c := cats[c] + [t]];
      assert ts[..i + 1] == ts[..i] + [t];
      i := i + 1;
    }
    assert ts[..i] == ts;
  }
}
