/** `generatePrompt`'s text pipeline: substitution of every field in record
    order, the OPSEC label, the web-search block, then the clean-up. */
module Render {
  import opened Seqs
  import opened Strings
  import opened Replace
  import opened Config
  import opened CleanupPasses

  /** `opsecLevels`. */
  const OpsecLevels: map<int, string> := map[1 := "STANDARD", 2 := "ENHANCED", 3 := "MAXIMUM"]

  /** `opsecLevels[level] || 'STANDARD'`: the table's label, and STANDARD for
      every level the table does not list. */
  function OpsecLabel(level: int): (text: string)
    ensures text in OpsecLevels.Values
    ensures level in OpsecLevels ==> text == OpsecLevels[level]
    ensures level !in OpsecLevels ==> text == OpsecLevels[1]
  {
    assert OpsecLevels[1] == "STANDARD";
    if level in OpsecLevels then OpsecLevels[level] else "STANDARD"
  }

  /** The text a value is substituted as: a string as it is, a list joined
      with `", "` in stored order, a boolean as `true`/`false`, an integer in
      decimal, which reads back as the same integer. */
  function DisplayValue(v: Value): (r: string)
    ensures v.Number? ==> IsIntString(r) && ParseInt(r) == v.number
    ensures v.Number? || v.Flag? ==> '[' !in r
  {
    match v
    case Text(t) => t
    case List(items) => Join(items, ", ")
    case Flag(b) => if b then "true" else "false"
    case Number(n) =>
      IntStringRoundTrip(n);
      IntToString(n)
  }

  /** `[FIELD]`, the placeholder the regular expression of the substitution
      loop matches for a field (case-sensitively). */
  function Placeholder(f: Field): (t: string)
    ensures IsToken(t) && t[1..|t| - 1] == FieldName(f)
  {
    var t := "[" + FieldName(f) + "]";
    assert t[1..|t| - 1] == FieldName(f);
    t
  }

  const OpsecTextName: Name := "OPSEC_LEVEL_TEXT"
  const WebBlockName: Name := "WEB_SEARCH_BLOCK"

  /** `[OPSEC_LEVEL_TEXT]`. */
  function OpsecTextToken(): (t: string)
    ensures IsToken(t) && t[1..|t| - 1] == OpsecTextName
  {
    var t := "[" + OpsecTextName + "]";
    assert t[1..|t| - 1] == OpsecTextName;
    t
  }

  /** `[WEB_SEARCH_BLOCK]`. */
  function WebBlockToken(): (t: string)
    ensures IsToken(t) && t[1..|t| - 1] == WebBlockName
  {
    var t := "[" + WebBlockName + "]";
    assert t[1..|t| - 1] == WebBlockName;
    t
  }

  lemma TokenSpelling()
    ensures WebBlockToken() == "[WEB_SEARCH_BLOCK]" && OpsecTextToken() == "[OPSEC_LEVEL_TEXT]"
  {
    assert WebBlockName == "WEB_SEARCH_BLOCK";
    assert OpsecTextName == "OPSEC_LEVEL_TEXT";
  }

  /** Distinct fields have distinct placeholders. */
  lemma PlaceholderInjective(f: Field, g: Field)
    ensures Placeholder(f) == Placeholder(g) ==> f == g
  {
    FieldNameInjective(f, g);
  }

  /** No field is called `OPSEC_LEVEL_TEXT` or `WEB_SEARCH_BLOCK`, and the
      two special tokens differ. */
  lemma PlaceholderNotSpecial(f: Field)
    ensures Placeholder(f) != OpsecTextToken() && Placeholder(f) != WebBlockToken()
    ensures OpsecTextToken() != WebBlockToken()
  {
    var t := Placeholder(f);
  }

  /** The placeholders are matched case-sensitively: a lower-case spelling
      of `[TARGET_SUBJECT]` is left as it is. */
  lemma LowerCaseNotReplaced(cfg: FormData)
    ensures SubstituteField("[target_subject]", cfg, TargetSubject) == "[target_subject]"
  {
    var s: string := "[target_subject]";
    var p := Placeholder(TargetSubject);
    assert FieldName(TargetSubject) == "TARGET_SUBJECT";
    assert |p| == |s| && p[1] == p[1..|p| - 1][0] == 'T';
    forall i ensures !OccursAt(s, p, i) {
      assert 0 <= i && i + |p| <= |s| ==> i == 0 && s[i..i + |p|][1] == 't';
    }
    ReplaceAllAbsent(s, p, DisplayValue(cfg[TargetSubject]));
  }

  /** One step of the substitution loop: at `OPSEC_LEVEL` the label first,
      then the field's own placeholder, every occurrence. */
  function SubstituteField(prompt: string, cfg: FormData, f: Field): string {
    var p := if f == OpsecLevel
      then ReplaceAll(prompt, OpsecTextToken(), OpsecLabel(cfg[OpsecLevel].number))
      else prompt;
    ReplaceAll(p, Placeholder(f), DisplayValue(cfg[f]))
  }

  /** The substitution loop run over the fields `fs`, in order. */
  function SubstituteFields(prompt: string, cfg: FormData, fs: seq<Field>): string
    decreases |fs|
  {
    if fs == [] then prompt
    else SubstituteFields(SubstituteField(prompt, cfg, fs[0]), cfg, fs[1..])
  }

  /** The enabled search options, in the fixed order real-time,
      multi-source, current events. */
  function SearchPhrases(cfg: FormData): (r: seq<string>)
    ensures |r| <= 3
    ensures forall x :: x in r ==>
      x in ["Real-time verification", "Multi-source corroboration", "Current events integration"]
    ensures "Real-time verification" in r <==> cfg[WebSearchRealTime].flag
    ensures "Multi-source corroboration" in r <==> cfg[WebSearchMultiSource].flag
    ensures "Current events integration" in r <==> cfg[WebSearchCurrentEvents].flag
    ensures forall i, j :: 0 <= i < j < |r| ==> PhraseRank(r[i]) < PhraseRank(r[j])
  {
    (if cfg[WebSearchRealTime].flag then ["Real-time verification"] else [])
    + (if cfg[WebSearchMultiSource].flag then ["Multi-source corroboration"] else [])
    + (if cfg[WebSearchCurrentEvents].flag then ["Current events integration"] else [])
  }

  /** The position of an option in the fixed order. */
  function PhraseRank(p: string): nat {
    if p == "Real-time verification" then 0
    else if p == "Multi-source corroboration" then 1
    else 2
  }

  /** The text that replaces `[WEB_SEARCH_BLOCK]`. */
  function WebSearchBlock(cfg: FormData): (block: string)
    ensures !cfg[EnableWebSearch].flag ==> block == ""
    ensures cfg[EnableWebSearch].flag ==> "[USE WEB SEARCH TOOL]" <= block
    ensures cfg[EnableWebSearch].flag && SearchPhrases(cfg) == [] ==> block == "[USE WEB SEARCH TOOL]"
    ensures cfg[EnableWebSearch].flag && SearchPhrases(cfg) != [] ==>
      block[|"[USE WEB SEARCH TOOL]"|..] == "\nSearch Config: " + Join(SearchPhrases(cfg), ", ")
  {
    var head := "[USE WEB SEARCH TOOL]";
    if !cfg[EnableWebSearch].flag then ""
    else if SearchPhrases(cfg) == [] then head
    else
      var tail := "\nSearch Config: " + Join(SearchPhrases(cfg), ", ");
      TakePrefix(head, tail);
      DropPrefix(head, tail);
      head + tail
  }

  /** The prompt `generatePrompt` produces from a template's format and the
      configuration. */
  function RenderText(format: string, cfg: FormData): string {
    var substituted := SubstituteFields(format, cfg, FieldOrder);
    Cleanup(ReplaceFirst(substituted, WebBlockToken(), WebSearchBlock(cfg)))
  }

  /** The fold over a non-empty list of fields substitutes its first field first. */
  lemma SubstituteFieldsCons(prompt: string, cfg: FormData, fs: seq<Field>)
    requires fs != []
    ensures SubstituteFields(prompt, cfg, fs) == SubstituteFields(SubstituteField(prompt, cfg, fs[0]), cfg, fs[1..])
  {
  }

  /** One pass of the loop body: at `OPSEC_LEVEL` the label first, then the
      field's own placeholder. */
  method SubstituteOne(prompt: string, cfg: FormData, f: Field) returns (r: string)
    ensures r == SubstituteField(prompt, cfg, f)
  {
    r := prompt;
    if f == OpsecLevel {
      r := ReplaceAll(r, OpsecTextToken(), OpsecLabel(cfg[OpsecLevel].number));
    }
    r := ReplaceAll(r, Placeholder(f), DisplayValue(cfg[f]));
  }

  /** The substitution loop of `generatePrompt` over the record entries
      `fs`: `prompt` rebound once per entry, in order. */
  method SubstituteAll(format: string, cfg: FormData, fs: seq<Field>) returns (prompt: string)
    ensures prompt == SubstituteFields(format, cfg, fs)
  {
    prompt := format;
    var i := 0;
    while i < |fs|
      invariant 0 <= i <= |fs|
      invariant SubstituteFields(prompt, cfg, fs[i..]) == SubstituteFields(format, cfg, fs)
    {
      ghost var before := prompt;
      prompt := SubstituteOne(prompt, cfg, fs[i]);
      SubstituteFieldsCons(before, cfg, fs[i..]);
      assert fs[i..][1..] == fs[i + 1..];
      i := i + 1;
    }
    assert fs[i..] == [];
  }

  /** The web-search block, built as `generatePrompt` builds it: the options
      pushed onto `subOptions` one by one. */
  method BuildWebSearchBlock(cfg: FormData) returns (block: string)
    ensures block == WebSearchBlock(cfg)
  {
    block := "";
    if cfg[EnableWebSearch].flag {
      block := "[USE WEB SEARCH TOOL]";
      var subOptions: seq<string> := [];
      ghost var realTime: seq<string> := [];
      if cfg[WebSearchRealTime].flag {
        subOptions := subOptions + ["Real-time verification"];
        realTime := ["Real-time verification"];
      }
      assert subOptions == realTime;
      ghost var multiSource: seq<string> := [];
      if cfg[WebSearchMultiSource].flag {
        subOptions := subOptions + ["Multi-source corroboration"];
        multiSource := ["Multi-source corroboration"];
      }
      assert subOptions == realTime + multiSource;
      ghost var currentEvents: seq<string> := [];
      if cfg[WebSearchCurrentEvents].flag {
        subOptions := subOptions + ["Current events integration"];
        currentEvents := ["Current events integration"];
      }
      assert subOptions == realTime + multiSource + currentEvents;
      if |subOptions| > 0 {
        block := block + ("\nSearch Config: " + Join(subOptions, ", "));
      }
    }
  }

  /** `generatePrompt` on a resolved template: substitution, the web-search
      block in place of the first `[WEB_SEARCH_BLOCK]`, and the four clean-up
      passes. */
  method RenderPrompt(format: string, cfg: FormData) returns (prompt: string)
    ensures prompt == RenderText(format, cfg)
  {
    prompt := SubstituteAll(format, cfg, FieldOrder);
    var block := BuildWebSearchBlock(cfg);
    prompt := ReplaceFirst(prompt, WebBlockToken(), block);
    prompt := ReplaceEach(ParenPlaceholder, prompt, "()");
    prompt := ReplaceEach(EmptyParens, prompt, "");
    prompt := ReplaceEach(LabelLine, prompt, "");
    prompt := ReplaceLeftmost(TrailingLabel, prompt, "");
  }

  /* What the substitution loop does to a template, in one statement. A
     format is cut into literal text, field placeholders, the
     `[OPSEC_LEVEL_TEXT]` token and the `[WEB_SEARCH_BLOCK]` token. */

  datatype Segment = Lit(text: string) | Slot(field: Field) | OpsecText | WebBlock

  /** The format text a segment stands for. */
  function Raw(seg: Segment): string {
    match seg
    case Lit(t) => t
    case Slot(f) => Placeholder(f)
    case OpsecText => OpsecTextToken()
    case WebBlock => WebBlockToken()
  }

  /** A template format written as segments. */
  function Format(segs: seq<Segment>): string {
    if segs == [] then [] else Raw(segs[0]) + Format(segs[1..])
  }

  /** A segment once the fields in `done` have been substituted and, when
      `opsec` holds, the OPSEC label. */
  function Filled(seg: Segment, cfg: FormData, done: set<Field>, opsec: bool): string {
    match seg
    case Lit(t) => t
    case Slot(f) => if f in done then DisplayValue(cfg[f]) else Placeholder(f)
    case OpsecText => if opsec then OpsecLabel(cfg[OpsecLevel].number) else OpsecTextToken()
    case WebBlock => WebBlockToken()
  }

  function FilledPieces(segs: seq<Segment>, cfg: FormData, done: set<Field>, opsec: bool): (r: seq<string>)
    ensures |r| == |segs|
    ensures forall i :: 0 <= i < |segs| ==> r[i] == Filled(segs[i], cfg, done, opsec)
  {
    seq(|segs|, i requires 0 <= i < |segs| => Filled(segs[i], cfg, done, opsec))
  }

  /** The literal text of the template holds no `[`, and neither do the
      values substituted for its placeholders. */
  predicate Unbracketed(segs: seq<Segment>, cfg: FormData) {
    forall i :: 0 <= i < |segs| ==> SegmentUnbracketed(segs[i], cfg)
  }

  predicate SegmentUnbracketed(seg: Segment, cfg: FormData) {
    match seg
    case Lit(t) => '[' !in t
    case Slot(f) => '[' !in DisplayValue(cfg[f])
    case _ => true
  }

  /** None of the OPSEC labels holds a `(` or a `[`. */
  lemma LabelUnbracketed(level: int)
    ensures '[' !in OpsecLabel(level) && '(' !in OpsecLabel(level)
  {
    var text := OpsecLabel(level);
    assert text == "STANDARD" || text == "ENHANCED" || text == "MAXIMUM";
  }

  lemma FormatIsUnfilled(segs: seq<Segment>, cfg: FormData)
    ensures Format(segs) == Concat(FilledPieces(segs, cfg, {}, false))
    decreases |segs|
  {
    if segs != [] {
      FormatIsUnfilled(segs[1..], cfg);
      assert FilledPieces(segs, cfg, {}, false)[1..] == FilledPieces(segs[1..], cfg, {}, false);
    }
  }

  lemma PiecesClosed(segs: seq<Segment>, cfg: FormData, done: set<Field>, opsec: bool)
    requires Unbracketed(segs, cfg)
    ensures forall i :: 0 <= i < |segs| ==> Closed(FilledPieces(segs, cfg, done, opsec)[i])
  {
    forall i | 0 <= i < |segs| ensures Closed(FilledPieces(segs, cfg, done, opsec)[i]) {
      assert SegmentUnbracketed(segs[i], cfg);
      if segs[i].OpsecText? {
        LabelUnbracketed(cfg[OpsecLevel].number);
      }
    }
  }

  lemma OpsecSegmentStep(seg: Segment, cfg: FormData, done: set<Field>)
    requires SegmentUnbracketed(seg, cfg)
    ensures var p := Filled(seg, cfg, done, false);
      (if p == OpsecTextToken() then OpsecLabel(cfg[OpsecLevel].number) else p) == Filled(seg, cfg, done, true)
  {
    match seg
    case Lit(t) =>
    case Slot(g) => PlaceholderNotSpecial(g);
    case OpsecText =>
    case WebBlock => PlaceholderNotSpecial(OpsecLevel);
  }

  /** Replacing `[OPSEC_LEVEL_TEXT]` touches exactly the OPSEC segments. */
  lemma OpsecStep(segs: seq<Segment>, cfg: FormData, done: set<Field>)
    requires Unbracketed(segs, cfg)
    ensures Swap(FilledPieces(segs, cfg, done, false), OpsecTextToken(), OpsecLabel(cfg[OpsecLevel].number))
         == FilledPieces(segs, cfg, done, true)
  {
    var before := FilledPieces(segs, cfg, done, false);
    var after := Swap(before, OpsecTextToken(), OpsecLabel(cfg[OpsecLevel].number));
    forall i | 0 <= i < |segs| ensures after[i] == FilledPieces(segs, cfg, done, true)[i] {
      OpsecSegmentStep(segs[i], cfg, done);
    }
  }

  /** Another field's placeholder, and a substituted value, are not `f`'s
      placeholder. */
  lemma SlotPlaceholderMiss(g: Field, cfg: FormData, done: set<Field>, f: Field)
    requires '[' !in DisplayValue(cfg[g]) && f !in done
    ensures Filled(Slot(g), cfg, done, false) == Placeholder(f) <==> g == f
  {
    PlaceholderInjective(f, g);
    assert Placeholder(f)[0] == '[';
  }

  lemma OpsecPlaceholderMiss(cfg: FormData, opsec: bool, f: Field)
    ensures Filled(OpsecText, cfg, {}, opsec) != Placeholder(f)
  {
    if opsec {
      LabelUnbracketed(cfg[OpsecLevel].number);
      assert Placeholder(f)[0] == '[';
    } else {
      PlaceholderNotSpecial(f);
    }
  }

  lemma SlotSegmentStep(seg: Segment, cfg: FormData, done: set<Field>, opsec: bool, f: Field)
    requires SegmentUnbracketed(seg, cfg) && f !in done
    ensures var p := Filled(seg, cfg, done, opsec);
      (if p == Placeholder(f) then DisplayValue(cfg[f]) else p) == Filled(seg, cfg, done + {f}, opsec)
  {
    match seg
    case Lit(t) =>
    case Slot(g) => SlotPlaceholderMiss(g, cfg, done, f);
    case OpsecText => OpsecPlaceholderMiss(cfg, opsec, f);
    case WebBlock => PlaceholderNotSpecial(f);
  }

  /** Replacing the placeholder of a field not yet done touches exactly that
      field's segments. */
  lemma SlotStep(segs: seq<Segment>, cfg: FormData, done: set<Field>, opsec: bool, f: Field)
    requires Unbracketed(segs, cfg) && f !in done
    ensures Swap(FilledPieces(segs, cfg, done, opsec), Placeholder(f), DisplayValue(cfg[f]))
         == FilledPieces(segs, cfg, done + {f}, opsec)
  {
    var before := FilledPieces(segs, cfg, done, opsec);
    var after := Swap(before, Placeholder(f), DisplayValue(cfg[f]));
    forall i | 0 <= i < |segs| ensures after[i] == FilledPieces(segs, cfg, done + {f}, opsec)[i] {
      SlotSegmentStep(segs[i], cfg, done, opsec, f);
    }
  }

  /** One pass of the loop body over a partly substituted template. */
  lemma FieldStep(segs: seq<Segment>, cfg: FormData, done: set<Field>, f: Field)
    requires Unbracketed(segs, cfg) && f !in done
    ensures SubstituteField(Concat(FilledPieces(segs, cfg, done, OpsecLevel in done)), cfg, f)
         == Concat(FilledPieces(segs, cfg, done + {f}, OpsecLevel in done + {f}))
  {
    var opsec := OpsecLevel in done + {f};
    PiecesClosed(segs, cfg, done, OpsecLevel in done);
    if f == OpsecLevel {
      ReplaceAllPieces(FilledPieces(segs, cfg, done, false), OpsecTextToken(), OpsecLabel(cfg[OpsecLevel].number));
      OpsecStep(segs, cfg, done);
    }
    PiecesClosed(segs, cfg, done, opsec);
    ReplaceAllPieces(FilledPieces(segs, cfg, done, opsec), Placeholder(f), DisplayValue(cfg[f]));
    SlotStep(segs, cfg, done, opsec, f);
  }

  function Elements(fs: seq<Field>): set<Field> {
    set g | g in fs
  }

  function AllFields(): (all: set<Field>)
    ensures forall f: Field :: f in all
  {
    FieldOrderIsPermutation();
    Elements(FieldOrder)
  }

  lemma ElementsCons(fs: seq<Field>)
    requires fs != []
    ensures Elements(fs) == {fs[0]} + Elements(fs[1..])
  {
    assert fs == [fs[0]] + fs[1..];
  }

  lemma {:induction false} FieldsStep(segs: seq<Segment>, cfg: FormData, done: set<Field>, fs: seq<Field>)
    requires Unbracketed(segs, cfg)
    requires forall i :: 0 <= i < |fs| ==> fs[i] !in done
    requires forall i, j :: 0 <= i < j < |fs| ==> fs[i] != fs[j]
    ensures var all := done + Elements(fs);
      SubstituteFields(Concat(FilledPieces(segs, cfg, done, OpsecLevel in done)), cfg, fs)
      == Concat(FilledPieces(segs, cfg, all, OpsecLevel in all))
    decreases |fs|
  {
    if fs == [] {
      assert done + Elements(fs) == done;
    } else {
      var f, next := fs[0], done + {fs[0]};
      var start := Concat(FilledPieces(segs, cfg, done, OpsecLevel in done));
      var mid := Concat(FilledPieces(segs, cfg, next, OpsecLevel in next));
      FieldStep(segs, cfg, done, f);
      assert SubstituteField(start, cfg, f) == mid;
      assert SubstituteFields(start, cfg, fs) == SubstituteFields(mid, cfg, fs[1..]);
      forall i | 0 <= i < |fs[1..]| ensures fs[1..][i] !in next {
        assert fs[1..][i] == fs[i + 1];
      }
      FieldsStep(segs, cfg, next, fs[1..]);
      ElementsCons(fs);
      assert next + Elements(fs[1..]) == done + Elements(fs);
    }
  }

  /** The substitution loop over distinct fields, `OPSEC_LEVEL` among them,
      fills each of their placeholders with the field's value and
      `[OPSEC_LEVEL_TEXT]` with the OPSEC label, and leaves the literal text,
      the other placeholders and `[WEB_SEARCH_BLOCK]` alone. */
  lemma SubstitutionFills(segs: seq<Segment>, cfg: FormData, fs: seq<Field>)
    requires Unbracketed(segs, cfg)
    requires OpsecLevel in fs
    requires forall i, j :: 0 <= i < j < |fs| ==> fs[i] != fs[j]
    ensures SubstituteFields(Format(segs), cfg, fs) == Concat(FilledPieces(segs, cfg, Elements(fs), true))
  {
    FormatIsUnfilled(segs, cfg);
    FieldsStep(segs, cfg, {}, fs);
    assert {} + Elements(fs) == Elements(fs);
  }

  /** The record's entries are exactly the fields, each once, so rendering a
      template substitutes every placeholder it holds. */
  lemma SubstitutionFillsTemplate(segs: seq<Segment>, cfg: FormData)
    requires Unbracketed(segs, cfg)
    ensures SubstituteFields(Format(segs), cfg, FieldOrder) == Concat(FilledPieces(segs, cfg, AllFields(), true))
  {
    FieldOrderIsPermutation();
    SubstitutionFills(segs, cfg, FieldOrder);
  }

  /** Rendering a segmented body: the filled pieces, the web-search block in
      place of the first `[WEB_SEARCH_BLOCK]`, then the clean-up. */
  lemma RenderSegments(segs: seq<Segment>, cfg: FormData)
    requires Unbracketed(segs, cfg)
    ensures RenderText(Format(segs), cfg)
         == Cleanup(ReplaceFirst(Concat(FilledPieces(segs, cfg, AllFields(), true)), WebBlockToken(), WebSearchBlock(cfg)))
  {
    SubstitutionFillsTemplate(segs, cfg);
  }

  /** Text with no `[` has no `[WEB_SEARCH_BLOCK]` to replace. */
  lemma ReplaceFirstAbsent(s: string, v: string)
    requires '[' !in s
    ensures ReplaceFirst(s, WebBlockToken(), v) == s
  {
    ReplaceFirstSkips(s, [], WebBlockToken(), v);
    assert s + [] == s;
  }

  /** The first `[WEB_SEARCH_BLOCK]` after text with no `[` is the one
      replaced; what follows it is kept as it is. */
  lemma ReplaceFirstAfter(a: string, b: string, v: string)
    requires '[' !in a
    ensures ReplaceFirst(a + (WebBlockToken() + b), WebBlockToken(), v) == a + (v + b)
  {
    ReplaceFirstSkips(a, WebBlockToken() + b, WebBlockToken(), v);
    ReplaceFirstHere(WebBlockToken(), b, v);
  }

  lemma ReplaceFirstDropped(a: string, b: string)
    requires '[' !in a
    ensures ReplaceFirst(a + (WebBlockToken() + b), WebBlockToken(), "") == a + b
  {
    ReplaceFirstAfter(a, b, "");
    assert "" + b == b;
  }

  /** Text with neither `(` nor `[` passes the clean-up unchanged. */
  lemma CleanupPlain(s: string)
    requires '(' !in s && '[' !in s
    ensures Cleanup(s) == s
  {
    CleanupSkips(s, []);
    assert s + [] == s;
  }

  lemma Format2(x: Segment, y: Segment)
    ensures Format([x, y]) == Raw(x) + Raw(y)
  {
    assert [x, y][1..] == [y];
    assert Format([y]) == Raw(y) + [];
  }

  lemma Format3(x: Segment, y: Segment, z: Segment)
    ensures Format([x, y, z]) == Raw(x) + (Raw(y) + Raw(z))
  {
    assert [x, y, z][1..] == [y, z];
    Format2(y, z);
  }

  lemma Format4(w: Segment, x: Segment, y: Segment, z: Segment)
    ensures Format([w, x, y, z]) == Raw(w) + (Raw(x) + (Raw(y) + Raw(z)))
  {
    assert [w, x, y, z][1..] == [x, y, z];
    Format3(x, y, z);
  }

  lemma Concat2(x: string, y: string)
    ensures Concat([x, y]) == x + y
  {
    assert [x, y][1..] == [y];
    assert Concat([y]) == y + [];
  }

  lemma Concat3(x: string, y: string, z: string)
    ensures Concat([x, y, z]) == x + (y + z)
  {
    assert [x, y, z][1..] == [y, z];
    Concat2(y, z);
  }

  lemma Concat4(w: string, x: string, y: string, z: string)
    ensures Concat([w, x, y, z]) == w + (x + (y + z))
  {
    assert [w, x, y, z][1..] == [x, y, z];
    Concat3(x, y, z);
  }

  /** Neither `(` nor `[`: text the clean-up leaves alone. */
  predicate Plain(s: string) {
    '(' !in s && '[' !in s
  }

  lemma TwoSlotPieces(p: string, f: Field, q: string, g: Field, cfg: FormData)
    requires Plain(p) && Plain(q) && Plain(DisplayValue(cfg[f])) && Plain(DisplayValue(cfg[g]))
    ensures var segs := [Lit(p), Slot(f), Lit(q), Slot(g)];
      && Unbracketed(segs, cfg)
      && Format(segs) == p + (Placeholder(f) + (q + Placeholder(g)))
      && Concat(FilledPieces(segs, cfg, AllFields(), true))
         == p + (DisplayValue(cfg[f]) + (q + DisplayValue(cfg[g])))
  {
    var segs := [Lit(p), Slot(f), Lit(q), Slot(g)];
    assert Unbracketed(segs, cfg) by {
      forall i | 0 <= i < |segs| ensures SegmentUnbracketed(segs[i], cfg) {
      }
    }
    Format4(Lit(p), Slot(f), Lit(q), Slot(g));
    var pieces := FilledPieces(segs, cfg, AllFields(), true);
    assert pieces == [p, DisplayValue(cfg[f]), q, DisplayValue(cfg[g])];
    Concat4(p, DisplayValue(cfg[f]), q, DisplayValue(cfg[g]));
  }

  lemma PlainJoin2(x: string, y: string)
    requires Plain(x) && Plain(y)
    ensures Plain(x + y)
  {
  }

  lemma PlainJoin4(w: string, x: string, y: string, z: string)
    requires Plain(w) && Plain(x) && Plain(y) && Plain(z)
    ensures Plain(w + (x + (y + z)))
  {
  }

  /** A body whose substituted text is plain is rendered as exactly that
      text: no web-search block to place and nothing to clean. */
  lemma RenderPlain(segs: seq<Segment>, cfg: FormData, text: string)
    requires Unbracketed(segs, cfg)
    requires Concat(FilledPieces(segs, cfg, AllFields(), true)) == text && Plain(text)
    ensures RenderText(Format(segs), cfg) == text
  {
    RenderSegments(segs, cfg);
    ReplaceFirstAbsent(text, WebSearchBlock(cfg));
    CleanupPlain(text);
  }

  /** A body with two placeholders among plain text renders with each
      placeholder replaced by its field's value and the text kept. */
  lemma TwoSlotsRender(p: string, f: Field, q: string, g: Field, cfg: FormData)
    requires Plain(p) && Plain(q) && Plain(DisplayValue(cfg[f])) && Plain(DisplayValue(cfg[g]))
    ensures RenderText(p + (Placeholder(f) + (q + Placeholder(g))), cfg)
         == p + (DisplayValue(cfg[f]) + (q + DisplayValue(cfg[g])))
  {
    TwoSlotPieces(p, f, q, g, cfg);
    PlainJoin4(p, DisplayValue(cfg[f]), q, DisplayValue(cfg[g]));
    RenderPlain([Lit(p), Slot(f), Lit(q), Slot(g)], cfg, p + (DisplayValue(cfg[f]) + (q + DisplayValue(cfg[g]))));
  }

  lemma TargetFocusSpelling()
    ensures Placeholder(TargetSubject) == "[TARGET_SUBJECT]"
    ensures Placeholder(DomainFocus) == "[DOMAIN_FOCUS]"
  {
    assert FieldName(TargetSubject) == "TARGET_SUBJECT";
    assert FieldName(DomainFocus) == "DOMAIN_FOCUS";
  }

  lemma TargetFocusPlain()
    ensures Plain("Target: ") && Plain("\nFocus: ") && Plain("Region X") && Plain("OSINT, SIGINT")
  {
  }

  lemma TargetFocusJoin()
    ensures Join(["OSINT", "SIGINT"], ", ") == "OSINT, SIGINT"
  {
    var domains: seq<string> := ["OSINT", "SIGINT"];
    assert domains[1..] == ["SIGINT"];
  }


  /** `Target: [TARGET_SUBJECT]` and `Focus: [DOMAIN_FOCUS]` on two lines
      render with the subject as written and the domains joined by a comma
      and a space. */
  lemma TargetFocusExample(cfg: FormData)
    requires cfg[TargetSubject] == Text("Region X")
    requires cfg[DomainFocus] == List(["OSINT", "SIGINT"])
    ensures RenderText("Target: " + ("[TARGET_SUBJECT]" + ("\nFocus: " + "[DOMAIN_FOCUS]")), cfg)
         == "Target: " + ("Region X" + ("\nFocus: " + "OSINT, SIGINT"))
  {
    TargetFocusSpelling();
    TargetFocusPlain();
    TargetFocusJoin();
    TwoSlotsRender("Target: ", TargetSubject, "\nFocus: ", DomainFocus, cfg);
  }


  lemma OpsecPieces(p: string, cfg: FormData)
    requires Plain(p)
    ensures var segs := [Lit(p), OpsecText];
      && Unbracketed(segs, cfg)
      && Format(segs) == p + OpsecTextToken()
      && Concat(FilledPieces(segs, cfg, AllFields(), true)) == p + OpsecLabel(cfg[OpsecLevel].number)
  {
    var segs := [Lit(p), OpsecText];
    assert Unbracketed(segs, cfg) by {
      forall i | 0 <= i < |segs| ensures SegmentUnbracketed(segs[i], cfg) {
      }
    }
    Format2(Lit(p), OpsecText);
    var pieces := FilledPieces(segs, cfg, AllFields(), true);
    assert pieces == [p, OpsecLabel(cfg[OpsecLevel].number)];
    Concat2(p, OpsecLabel(cfg[OpsecLevel].number));
  }

  /** `[OPSEC_LEVEL_TEXT]` after plain text renders as the label of the
      configured level. */
  lemma OpsecRender(p: string, cfg: FormData)
    requires Plain(p)
    ensures RenderText(p + OpsecTextToken(), cfg) == p + OpsecLabel(cfg[OpsecLevel].number)
  {
    var text := OpsecLabel(cfg[OpsecLevel].number);
    OpsecPieces(p, cfg);
    LabelUnbracketed(cfg[OpsecLevel].number);
    PlainJoin2(p, text);
    RenderPlain([Lit(p), OpsecText], cfg, p + text);
  }

  /** At OPSEC level 2, `[OPSEC_LEVEL_TEXT]` renders as ENHANCED. */
  lemma OpsecLabelExample(cfg: FormData)
    requires cfg[OpsecLevel] == Number(2)
    ensures RenderText("OPSEC Level: " + "[OPSEC_LEVEL_TEXT]", cfg) == "OPSEC Level: " + "ENHANCED"
  {
    TokenSpelling();
    OpsecRender("OPSEC Level: ", cfg);
  }

  lemma CleanupPlainJoin(a: string, b: string)
    requires '(' !in a && '[' !in a && '(' !in b && '[' !in b
    ensures Cleanup(a + b) == a + b
  {
    CleanupSkips(a, b);
    CleanupPlain(b);
  }

  lemma WebBlockPieces(a: string, b: string, cfg: FormData)
    requires '[' !in a && '[' !in b
    ensures var segs := [Lit(a), WebBlock, Lit(b)];
      && Unbracketed(segs, cfg)
      && Format(segs) == a + "[WEB_SEARCH_BLOCK]" + b
      && Concat(FilledPieces(segs, cfg, AllFields(), true)) == a + (WebBlockToken() + b)
  {
    var segs := [Lit(a), WebBlock, Lit(b)];
    assert Unbracketed(segs, cfg) by {
      forall i | 0 <= i < |segs| ensures SegmentUnbracketed(segs[i], cfg) {
      }
    }
    Format3(Lit(a), WebBlock, Lit(b));
    TokenSpelling();
    assert a + (WebBlockToken() + b) == a + "[WEB_SEARCH_BLOCK]" + b;
    var pieces := FilledPieces(segs, cfg, AllFields(), true);
    assert pieces == [a, WebBlockToken(), b];
    Concat3(a, WebBlockToken(), b);
  }

  /** With web search off the block placeholder disappears without a trace:
      the text around it is joined as it was. */
  lemma WebBlockDisabled(a: string, b: string, cfg: FormData)
    requires '(' !in a && '[' !in a && '(' !in b && '[' !in b
    requires !cfg[EnableWebSearch].flag
    ensures RenderText(a + "[WEB_SEARCH_BLOCK]" + b, cfg) == a + b
  {
    var segs := [Lit(a), WebBlock, Lit(b)];
    WebBlockPieces(a, b, cfg);
    RenderSegments(segs, cfg);
    assert WebSearchBlock(cfg) == "";
    ReplaceFirstDropped(a, b);
    CleanupPlainJoin(a, b);
  }



  lemma EmptyHandlingPieces(a: string, b: string, cfg: FormData)
    requires '[' !in a && '[' !in b
    requires cfg[HandlingInstructions] == List([])
    ensures var segs := [Lit(a + "("), Slot(HandlingInstructions), Lit(")" + b)];
      && Unbracketed(segs, cfg)
      && Format(segs) == (a + "(") + (Placeholder(HandlingInstructions) + (")" + b))
      && Concat(FilledPieces(segs, cfg, AllFields(), true)) == (a + "(") + ("" + (")" + b))
  {
    var segs := [Lit(a + "("), Slot(HandlingInstructions), Lit(")" + b)];
    assert Unbracketed(segs, cfg) by {
      forall i | 0 <= i < |segs| ensures SegmentUnbracketed(segs[i], cfg) {
      }
    }
    Format3(Lit(a + "("), Slot(HandlingInstructions), Lit(")" + b));
    var pieces := FilledPieces(segs, cfg, AllFields(), true);
    assert pieces == [a + "(", "", ")" + b];
    Concat3(a + "(", "", ")" + b);
  }


  /** `()` followed by text with neither `(` nor `[`, after such text, is
      removed by the clean-up. */
  lemma CleanupDropsPair(a: string, b: string)
    requires '(' !in a && '[' !in a && '(' !in b && '[' !in b
    ensures Cleanup((a + "(") + ("" + (")" + b))) == a + b
  {
    assert (a + "(") + ("" + (")" + b)) == a + ("(" + ("" + (")" + b)));
    CleanupSkips(a, "(" + ("" + (")" + b)));
    CleanupDropsEmptyParens("", b);
    CleanupPlain(b);
  }

  /** A classification line whose handling instructions are empty loses the
      parentheses around them: `([HANDLING_INSTRUCTIONS])` becomes `()`, and
      the empty pair is removed. */
  lemma EmptyHandlingDropped(a: string, b: string, cfg: FormData)
    requires '(' !in a && '[' !in a && '(' !in b && '[' !in b
    requires cfg[HandlingInstructions] == List([])
    ensures RenderText((a + "(") + (Placeholder(HandlingInstructions) + (")" + b)), cfg) == a + b
  {
    var segs := [Lit(a + "("), Slot(HandlingInstructions), Lit(")" + b)];
    EmptyHandlingPieces(a, b, cfg);
    RenderSegments(segs, cfg);
    var text := (a + "(") + ("" + (")" + b));
    ReplaceFirstAbsent(text, WebSearchBlock(cfg));
    CleanupDropsPair(a, b);
  }

}
