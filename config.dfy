/** The configuration record (`FormData`): 24 named fields, their defaults
    (`initialFormData`), typed access by field, and the two update handlers
    of the form: the scalar setter and the checkbox-list toggle. */
module Config {
  import opened Seqs
  import opened Strings

  /** The fields, in the declaration order of `initialFormData`, which is the
      order the renderer visits them in. */
  datatype Field =
    | ClassificationLevel | HandlingInstructions | Compartments | MissionType
    | PriorityLevel | StakeholderType | Timeline | AnalysisType
    | ConfidenceRequired | DomainFocus | GeographicScope | TargetSubject
    | ReportType | DetailLevel | FormatPreference | OpsecLevel
    | SourceProtectionRequired | AlternativeAnalysisRequired | ConfidenceThreshold
    | EnableWebSearch | WebSearchRealTime | WebSearchMultiSource
    | WebSearchCurrentEvents | ThreatDescription

  const FieldOrder: seq<Field> := [
    ClassificationLevel, HandlingInstructions, Compartments, MissionType,
    PriorityLevel, StakeholderType, Timeline, AnalysisType,
    ConfidenceRequired, DomainFocus, GeographicScope, TargetSubject,
    ReportType, DetailLevel, FormatPreference, OpsecLevel,
    SourceProtectionRequired, AlternativeAnalysisRequired, ConfidenceThreshold,
    EnableWebSearch, WebSearchRealTime, WebSearchMultiSource,
    WebSearchCurrentEvents, ThreatDescription
  ]

  /** Where each field stands in `FieldOrder`. */
  function Position(f: Field): (i: nat)
    ensures i < |FieldOrder| && FieldOrder[i] == f
  {
    match f
    case ClassificationLevel => 0
    case HandlingInstructions => 1
    case Compartments => 2
    case MissionType => 3
    case PriorityLevel => 4
    case StakeholderType => 5
    case Timeline => 6
    case AnalysisType => 7
    case ConfidenceRequired => 8
    case DomainFocus => 9
    case GeographicScope => 10
    case TargetSubject => 11
    case ReportType => 12
    case DetailLevel => 13
    case FormatPreference => 14
    case OpsecLevel => 15
    case SourceProtectionRequired => 16
    case AlternativeAnalysisRequired => 17
    case ConfidenceThreshold => 18
    case EnableWebSearch => 19
    case WebSearchRealTime => 20
    case WebSearchMultiSource => 21
    case WebSearchCurrentEvents => 22
    case ThreatDescription => 23
  }

  /** `Position` undoes indexing into `FieldOrder`. */
  lemma PositionAt(i: nat)
    requires i < |FieldOrder|
    ensures Position(FieldOrder[i]) == i
  {
  }

  /** Every field is visited, and exactly once. */
  lemma FieldOrderIsPermutation()
    ensures forall f: Field :: f in FieldOrder
    ensures forall i, j :: 0 <= i < j < |FieldOrder| ==> FieldOrder[i] != FieldOrder[j]
  {
    forall f: Field ensures f in FieldOrder {
      assert FieldOrder[Position(f)] == f;
    }
    forall i, j | 0 <= i < j < |FieldOrder| ensures FieldOrder[i] != FieldOrder[j] {
      PositionAt(i);
      PositionAt(j);
    }
  }

  /** A placeholder name: word characters only, so it holds no bracket. */
  type Name = s: string | |s| > 0 && AllWord(s) witness "A"

  const ClassificationLevelName: Name := "CLASSIFICATION_LEVEL"
  const HandlingInstructionsName: Name := "HANDLING_INSTRUCTIONS"
  const CompartmentsName: Name := "COMPARTMENTS"
  const MissionTypeName: Name := "MISSION_TYPE"
  const PriorityLevelName: Name := "PRIORITY_LEVEL"
  const StakeholderTypeName: Name := "STAKEHOLDER_TYPE"
  const TimelineName: Name := "TIMELINE"
  const AnalysisTypeName: Name := "ANALYSIS_TYPE"
  const ConfidenceRequiredName: Name := "CONFIDENCE_REQUIRED"
  const DomainFocusName: Name := "DOMAIN_FOCUS"
  const GeographicScopeName: Name := "GEOGRAPHIC_SCOPE"
  const TargetSubjectName: Name := "TARGET_SUBJECT"
  const ReportTypeName: Name := "REPORT_TYPE"
  const DetailLevelName: Name := "DETAIL_LEVEL"
  const FormatPreferenceName: Name := "FORMAT_PREFERENCE"
  const OpsecLevelName: Name := "OPSEC_LEVEL"
  const SourceProtectionRequiredName: Name := "SOURCE_PROTECTION_REQUIRED"
  const AlternativeAnalysisRequiredName: Name := "ALTERNATIVE_ANALYSIS_REQUIRED"
  const ConfidenceThresholdName: Name := "CONFIDENCE_THRESHOLD"
  const EnableWebSearchName: Name := "ENABLE_WEB_SEARCH"
  const WebSearchRealTimeName: Name := "WEB_SEARCH_REAL_TIME"
  const WebSearchMultiSourceName: Name := "WEB_SEARCH_MULTI_SOURCE"
  const WebSearchCurrentEventsName: Name := "WEB_SEARCH_CURRENT_EVENTS"
  const ThreatDescriptionName: Name := "THREAT_DESCRIPTION"

  /** The key of a field in the record, which is also its placeholder name. */
  function FieldName(f: Field): Name {
    match f
    case ClassificationLevel => ClassificationLevelName
    case HandlingInstructions => HandlingInstructionsName
    case Compartments => CompartmentsName
    case MissionType => MissionTypeName
    case PriorityLevel => PriorityLevelName
    case StakeholderType => StakeholderTypeName
    case Timeline => TimelineName
    case AnalysisType => AnalysisTypeName
    case ConfidenceRequired => ConfidenceRequiredName
    case DomainFocus => DomainFocusName
    case GeographicScope => GeographicScopeName
    case TargetSubject => TargetSubjectName
    case ReportType => ReportTypeName
    case DetailLevel => DetailLevelName
    case FormatPreference => FormatPreferenceName
    case OpsecLevel => OpsecLevelName
    case SourceProtectionRequired => SourceProtectionRequiredName
    case AlternativeAnalysisRequired => AlternativeAnalysisRequiredName
    case ConfidenceThreshold => ConfidenceThresholdName
    case EnableWebSearch => EnableWebSearchName
    case WebSearchRealTime => WebSearchRealTimeName
    case WebSearchMultiSource => WebSearchMultiSourceName
    case WebSearchCurrentEvents => WebSearchCurrentEventsName
    case ThreatDescription => ThreatDescriptionName
  }

  /** No two fields share a key. */
  lemma FieldNameInjective(f: Field, g: Field)
    ensures FieldName(f) == FieldName(g) ==> f == g
  {
  }

  /** The value kinds of the record: free or enumerated strings, string lists,
      booleans and integers. */
  datatype Kind = TextKind | ListKind | FlagKind | NumberKind

  function KindOf(f: Field): Kind {
    match f
    case HandlingInstructions | DomainFocus => ListKind
    case OpsecLevel | ConfidenceThreshold => NumberKind
    case SourceProtectionRequired | AlternativeAnalysisRequired | EnableWebSearch
      | WebSearchRealTime | WebSearchMultiSource | WebSearchCurrentEvents => FlagKind
    case _ => TextKind
  }

  datatype Value = Text(text: string) | List(items: seq<string>) | Flag(flag: bool) | Number(number: int)
  {
    function Kind(): Kind {
      match this
      case Text(_) => TextKind
      case List(_) => ListKind
      case Flag(_) => FlagKind
      case Number(_) => NumberKind
    }
  }

  /** `v` has the type the record declares for `f`. */
  predicate Fits(f: Field, v: Value) {
    v.Kind() == KindOf(f)
  }

  /** A partial record (`Partial<FormData>`): some fields, each with a value
      of its declared type. */
  type Partial = map<Field, Value>

  predicate WellTyped(m: Partial) {
    forall f :: f in m ==> Fits(f, m[f])
  }

  /** Every field present, with a value of its declared type. */
  ghost predicate IsRecord(m: Partial) {
    forall f: Field :: f in m && Fits(f, m[f])
  }

  /** The default of each field in `initialFormData`. */
  function InitialValue(f: Field): (v: Value)
    ensures Fits(f, v)
  {
    match f
    case ClassificationLevel => Text("UNCLASSIFIED")
    case HandlingInstructions => List([])
    case Compartments => Text("")
    case MissionType => Text("ANALYSIS")
    case PriorityLevel => Text("ROUTINE")
    case StakeholderType => Text("ANALYTICAL")
    case Timeline => Text("SHORT_TERM")
    case AnalysisType => Text("STRATEGIC")
    case ConfidenceRequired => Text("MODERATE")
    case DomainFocus => List([])
    case GeographicScope => Text("")
    case TargetSubject => Text("")
    case ReportType => Text("ASSESSMENT")
    case DetailLevel => Text("OPERATIONAL")
    case FormatPreference => Text("NARRATIVE")
    case OpsecLevel => Number(1)
    case SourceProtectionRequired => Flag(false)
    case AlternativeAnalysisRequired => Flag(false)
    case ConfidenceThreshold => Number(70)
    case EnableWebSearch => Flag(false)
    case WebSearchRealTime => Flag(false)
    case WebSearchMultiSource => Flag(false)
    case WebSearchCurrentEvents => Flag(false)
    case ThreatDescription => Text("")
  }

  function InitialRecord(): (m: Partial)
    ensures IsRecord(m)
    ensures forall f :: m[f] == InitialValue(f)
  {
    var m := map f | f in FieldOrder :: InitialValue(f);
    assert IsRecord(m) by {
      forall f: Field ensures f in FieldOrder {
        assert FieldOrder[Position(f)] == f;
      }
    }
    m
  }

  /** The configuration record: a total map from the fields, each value of
      its field's declared type. A JavaScript object spread is map union. */
  type FormData = m: Partial | IsRecord(m) witness InitialRecord()

  /** Two records that agree on every field are the same record. */
  lemma RecordsEqual(a: FormData, b: FormData)
    requires forall f :: a[f] == b[f]
    ensures a == b
  {
    assert a.Keys == b.Keys;
  }

  /** `initialFormData`. */
  const InitialFormData: FormData := InitialRecord()

  /** `{ ...c, ...m }`: later wins, so a field takes `m`'s value where `m`
      has one and keeps `c`'s otherwise. */
  function Overlay(c: FormData, m: Partial): (r: FormData)
    requires WellTyped(m)
    ensures forall g :: r[g] == if g in m then m[g] else c[g]
  {
    c + m
  }

  /** `handleInputChange`: overwrites exactly one named field with an
      already-typed value. */
  function SetField(c: FormData, f: Field, v: Value): (r: FormData)
    requires Fits(f, v)
    ensures r[f] == v
    ensures forall g :: g != f ==> r[g] == c[g]
  {
    c[f := v]
  }

  /** The two fields of type `string[]`. */
  predicate IsListField(f: Field) {
    f == HandlingInstructions || f == DomainFocus
  }

  /** The list update of `handleMultiSelectChange`: checking appends (even a
      value already present), unchecking drops every copy of the value. */
  function ToggleItem(items: seq<string>, v: string, checked: bool): (r: seq<string>)
    ensures checked ==> |r| == |items| + 1 && r[..|items|] == items && r[|items|] == v
    ensures checked ==> multiset(r) == multiset(items) + multiset{v}
    ensures !checked ==> v !in r
    ensures !checked ==> forall x :: x != v ==> multiset(r)[x] == multiset(items)[x]
    ensures !checked ==> r == Filter(items, (x: string) => x != v)
  {
    if checked then items + [v]
    else
      var r := Filter(items, (x: string) => x != v);
      forall x ensures multiset(r)[x] == if x != v then multiset(items)[x] else 0 {
        FilterCount(items, (y: string) => y != v, x);
      }
      r
  }

  /** Unchecking a value that is not there is a no-op. */
  lemma UncheckAbsent(items: seq<string>, v: string)
    requires v !in items
    ensures ToggleItem(items, v, false) == items
  {
    FilterKeepsAll(items, (x: string) => x != v);
  }

  /** Checking a new value and unchecking it again restores the list. */
  lemma CheckThenUncheck(items: seq<string>, v: string)
    requires v !in items
    ensures ToggleItem(ToggleItem(items, v, true), v, false) == items
  {
    var keep := (x: string) => x != v;
    FilterAppend(items, [v], keep);
    FilterKeepsAll(items, keep);
    assert Filter([v], keep) == [];
  }

  /** `handleMultiSelectChange` on the record: only the named list field changes. */
  function ToggleListField(c: FormData, f: Field, v: string, checked: bool): (r: FormData)
    requires IsListField(f)
    ensures r[f] == List(ToggleItem(c[f].items, v, checked))
    ensures forall g :: g != f ==> r[g] == c[g]
  {
    c[f := List(ToggleItem(c[f].items, v, checked))]
  }
}
