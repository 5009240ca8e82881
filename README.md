# RAIDEN / TSUKUYOMI prompt-template engine in Dafny

This project models the template engine inside the `App` component of
`index.tsx`. The engine has five parts:

- the configuration record (`FormData`), with its 24 typed fields, their
  defaults and its two form handlers;
- the built-in template table and its grouping by category;
- the merge `handleTemplateSelect` performs;
- the prompt renderer `generatePrompt`: field substitution, the OPSEC
  label, the web-search block and the four cleanup passes;
- the session store: the history capped at twenty items, saved user
  templates, loading from history, and the fallback decision used when
  persisted arrays are read.

Modules, in dependency order:

| module | file | contents |
|---|---|---|
| `Seqs` | seqs.dfy | `Option`, `Array.prototype.find`/`findIndex`/`filter` on sequences |
| `Strings` | strings.dfy | `\w` and `\s` character classes, `join`, integer printing and parsing, `trim` |
| `Replace` | replace.dfy | `String.prototype.replace` with one fixed pattern, global and first-only, and how it acts on text cut into pieces |
| `Config` | config.dfy | `Field`, `Value`, `FormData`, `initialFormData`, the scalar setter and the list toggle |
| `CleanupPasses` | cleanup.dfy | the four cleanup regular expressions, each a leftmost, non-overlapping scanner |
| `Render` | render.dfy | `opsecLevels`, display values, placeholders, the web-search block, the renderer as functions and as methods, and a segment theory of substitution |
| `Templates` | templates.dfy | the built-in table, template lookups, the selection merge, `categorizedTemplates` |
| `Store` | store.dfy | history items and the cap of 20, history and template lookups and removal, `loadFromLocalStorage` |
| `AppState` | app.dfy | `class App`: the six pieces of component state and the handlers that update them |

State that the source updates in place is modelled imperatively:

- the component state is a class whose methods are the handlers;
- the `forEach` substitution loop is the method `Render.SubstituteAll`;
- building the web-search block is the method `Render.BuildWebSearchBlock`;
- the category fold is the method `Templates.CategorizeTemplates`.

Each method is proved against a specification function, and the properties
are proved about those functions.

The model follows the code where a reader might expect otherwise:

- Placeholders are matched case-sensitively. The regular expression built in
  index.tsx:1080 has no `i` flag. `Render.LowerCaseNotReplaced` shows that
  the `TARGET_SUBJECT` substitution step leaves `[target_subject]` alone.
- Checking a list value appends it even when it is already present, so lists
  can hold duplicates and toggling is not idempotent.
- Selecting a template never keeps the previous list fields. Each list takes
  the user template's value, else the built-in default, else the initial
  empty list. An unknown key therefore empties both lists; it does not
  leave the configuration unchanged.
- Only the first `[WEB_SEARCH_BLOCK]` is replaced, because that `replace`
  uses a string pattern.
- The cleanup passes are not idempotent: `(( ))` cleans to `()`, and a
  second cleanup gives the empty string (`CleanupPasses.CleanupNotIdempotent`).
- Saving under an empty or blank name raises no error. An alert is shown
  and nothing changes.

## Model

| member | source | states |
|---|---|---|
| Seqs.Find | index.tsx:1048 | `find`: a found element satisfies the predicate and is the first element that does; nothing is found exactly when no element satisfies it |
| Seqs.FindIndex | index.tsx:1048 | the index found is the first one whose element satisfies the predicate; none when no element does |
| Seqs.Filter | index.tsx:1040 | `filter`: every kept element satisfies the predicate and was in the input, and every input element that satisfies it is kept |
| Seqs.FilterCount | index.tsx:1040 | each kept value occurs as often as before, each dropped value not at all |
| Seqs.FilterAppend | index.tsx:1040 | filtering distributes over concatenation |
| Seqs.FilterKeepsAll | index.tsx:1040 | filtering with a predicate that holds everywhere changes nothing |
| Seqs.FilterNone | index.tsx:1308-1310 | filtering with a predicate that holds nowhere leaves nothing |
| Strings.NatToString | index.tsx:1080 | `String(n)` of a natural number is a non-empty run of digits without a leading zero |
| Strings.IntToString | index.tsx:1080 | `String(n)` is an optional minus sign followed by digits |
| Strings.IntStringRoundTrip | index.tsx:1080 | parsing the printed integer gives the integer back |
| Strings.NatStringRoundTrip | index.tsx:1080 | parsing the printed natural number gives it back |
| Strings.Join | index.tsx:1078-1092 | `join` with a separator; `Strings.JoinConsHead` states how it treats its first element, and `Replace.SplitJoin` that it glues the pieces of a split back together |
| Strings.JoinConsHead | index.tsx:1078 | prefixing the first element of a join prefixes the joined text |
| Strings.TrimStart | index.tsx:1135 | what is removed from the front is whitespace, and the rest does not start with whitespace |
| Strings.TrimEnd | index.tsx:1135 | what is removed from the back is whitespace, and the rest does not end with whitespace |
| Strings.Trim | index.tsx:1141 | the trimmed name is no longer than the input and neither starts nor ends with whitespace |
| Strings.TrimInfix | index.tsx:1135-1141 | the trimmed name is the input with only whitespace removed from each end: the input is whitespace, the trimmed name, whitespace |
| Strings.TrimBlank | index.tsx:1135 | `trim()` is empty exactly when the name is empty or whitespace only |
| Replace.Split | index.tsx:1080 | the pieces between the occurrences the global replace finds: at least one piece, the first a prefix of the text |
| Replace.ReplaceAll | index.tsx:1075-1080 | a global replace by a value no longer than the pattern never lengthens the text; `Replace.ReplaceAllIsJoin`, `Replace.SplitJoin` and `Replace.ReplaceAllAbsent` state what it replaces |
| Replace.SplitJoin | index.tsx:1080 | joining the pieces with the pattern gives the text back |
| Replace.SplitPiecesFree | index.tsx:1080 | no piece contains the pattern |
| Replace.ReplaceAllIsJoin | index.tsx:1080 | a global replace is the pieces joined with the replacement |
| Replace.ReplaceAllAbsent | index.tsx:1080 | a global replace of a pattern that does not occur changes nothing |
| Replace.ReplaceAllSkips | index.tsx:1080 | a prefix without the pattern's first character passes through a global replace unchanged |
| Replace.FirstOccurrence | index.tsx:1095 | the index found is an occurrence of the pattern with none before it; none means the pattern does not occur |
| Replace.ReplaceFirst | index.tsx:1095 | a first-only replace either keeps the length or swaps exactly one pattern's length for the value's; `Replace.ReplaceFirstSpec` states which occurrence |
| Replace.ReplaceFirstSpec | index.tsx:1095 | a string-pattern replace substitutes the first occurrence only and leaves text without one unchanged |
| Replace.ReplaceFirstSkips | index.tsx:1095 | a prefix without the pattern's first character passes through the first-only replace unchanged |
| Replace.ReplaceFirstHere | index.tsx:1095 | a text that starts with the pattern has that occurrence replaced and the rest kept |
| Replace.Swap | index.tsx:1080 | each piece equal to the token becomes the value, every other piece is kept |
| Replace.TokenMiss | index.tsx:1080 | one bracketed token never matches at the start of a different one |
| Replace.TokenTail | index.tsx:1080 | a bracketed token has no `[` after its first character |
| Replace.ReplaceAllClosed | index.tsx:1080 | a global replace of a token over a bracket-free piece or a whole token followed by more text handles that piece on its own |
| Replace.ReplaceAllPieces | index.tsx:1080 | over text cut into bracket-free pieces and whole tokens, a global replace of a token swaps exactly the pieces equal to it |
| Config.Position | index.tsx:65-90 | every field has a place in the declaration order of `initialFormData` |
| Config.PositionAt | index.tsx:65-90 | each place in the declaration order holds the field at that place |
| Config.FieldOrderIsPermutation | index.tsx:65-90 | `FieldOrder`, the key order of `initialFormData`, lists every field exactly once |
| Config.FieldNameInjective | index.tsx:7-32 | no two fields share a key |
| Config.InitialValue | index.tsx:65-90 | each default has the type its field declares |
| Config.InitialRecord | index.tsx:65-90 | the value of `InitialFormData`, the model of `initialFormData`, defines every field, with a value of its declared type, equal to the field's default |
| Config.RecordsEqual | index.tsx:7-32 | records that agree on every field are equal |
| Config.Overlay | index.tsx:1055-1059 | an object spread: each field takes the later value where there is one and keeps the earlier otherwise |
| Config.SetField | index.tsx:1023-1031 | the named field takes the value and no other field changes |
| Config.ToggleItem | index.tsx:1035-1042 | checking appends the value at the end, even when already present (one more copy); unchecking is the order-keeping filter that removes every copy and keeps the count of every other value |
| Config.UncheckAbsent | index.tsx:1042 | unchecking a value that is not in the list leaves the list unchanged |
| Config.CheckThenUncheck | index.tsx:1038-1042 | checking a new value and then unchecking it restores the list |
| Config.ToggleListField | index.tsx:1033-1043 | only the named list field changes, to the toggled list |
| CleanupPasses.WordRun | index.tsx:1097 | the longest prefix of `\w` characters |
| CleanupPasses.SpaceRun | index.tsx:1098 | a prefix of `\s` characters not followed by another one |
| CleanupPasses.SpaceRunLongest | index.tsx:1098 | no longer prefix is all `\s`: the run is the longest |
| CleanupPasses.LastNewline | index.tsx:1099 | the position of the last line feed, or none when there is no line feed |
| CleanupPasses.ParenPlaceholderLength | index.tsx:1097 | a length found is a `\(\[\w*\]\)` match at the front |
| CleanupPasses.ParenPlaceholderOnly | index.tsx:1097 | every `\(\[\w*\]\)` match at the front is the one found |
| CleanupPasses.EmptyParensLength | index.tsx:1098 | a length found is a `\(\s*\)` match at the front |
| CleanupPasses.EmptyParensOnly | index.tsx:1098 | every `\(\s*\)` match at the front is the one found |
| CleanupPasses.LabelLength | index.tsx:1099-1100 | a length found is a `[word]:` at the front |
| CleanupPasses.LabelOnly | index.tsx:1099-1100 | every `[word]:` at the front is the one found |
| CleanupPasses.LabelLineLength | index.tsx:1099 | a length found is a `\[\w+\]:\s*\n` match at the front |
| CleanupPasses.LabelLineLongest | index.tsx:1099 | whenever a match exists one is found, and no match is longer than it: the greedy match, ending at the last line feed of the whitespace run |
| CleanupPasses.TrailingLabelLength | index.tsx:1100 | a `\[\w+\]:\s*$` match found at the front runs to the end and the whole text is a label and whitespace |
| CleanupPasses.TrailingLabelFound | index.tsx:1100 | a text that is a label and whitespace is matched whole |
| CleanupPasses.MatchAt | index.tsx:1097-1100 | a pass matches only at its lead character and consumes at least one character |
| CleanupPasses.MinMatch | index.tsx:1097-1100 | the shortest text each regular expression can match |
| CleanupPasses.ReplaceEach | index.tsx:1097-1099 | a global pass never lengthens the text when the replacement is no longer than the shortest match; `CleanupPasses.ParenPlaceholderOnly`, `CleanupPasses.EmptyParensOnly` and `CleanupPasses.LabelLineLongest` state which match it takes |
| CleanupPasses.ReplaceLeftmost | index.tsx:1100 | the same for the last pass, which has no `g` flag and replaces only the leftmost match |
| CleanupPasses.ReplaceEachMatch | index.tsx:1097-1100 | unfolds one scanning step: a match at the front is replaced and the scan resumes after it |
| CleanupPasses.Cleanup | index.tsx:1097-1100 | the four passes never lengthen the text; `CleanupPasses.CleanupSkips` and `CleanupPasses.CleanupNotIdempotent` state what they keep and that they are not idempotent |
| CleanupPasses.CleanupSkips | index.tsx:1097-1100 | text without `(` or `[` passes through the cleanup unchanged ahead of the rest |
| CleanupPasses.FirstPassNeedsBracket | index.tsx:1097 | the first pass changes nothing in text without `[` |
| CleanupPasses.FirstPassEmptiesParenPlaceholder | index.tsx:1097 | the first pass turns a `([word])` at the front into `()` and goes on after it |
| CleanupPasses.SecondPassDropsPair | index.tsx:1098 | the second pass deletes a `()` at the front |
| CleanupPasses.CleanupDropsParenPlaceholder | index.tsx:1097-1098 | a `([word])` at the front becomes `()` and the second pass then removes it, leaving the cleanup of the rest |
| CleanupPasses.FirstPassKeepsEmptyParens | index.tsx:1097 | the first pass leaves `(`, whitespace, `)` alone |
| CleanupPasses.SecondPassDropsEmptyParens | index.tsx:1098 | the second pass deletes `(`, whitespace, `)` |
| CleanupPasses.CleanupDropsEmptyParens | index.tsx:1098 | `(`, whitespace, `)` is removed |
| CleanupPasses.SecondPassOnNested | index.tsx:1098 | one run of the second pass turns `(( ))` into `()` |
| CleanupPasses.CleanupNested | index.tsx:1097-1100 | the whole cleanup turns `(( ))` into `()` |
| CleanupPasses.CleanupEmptyPair | index.tsx:1097-1100 | the whole cleanup turns `()` into the empty string |
| CleanupPasses.CleanupNotIdempotent | index.tsx:1097-1100 | `(( ))` cleans to `()`, and cleaning that again gives the empty string |
| CleanupPasses.LabelPassesNeedBracket | index.tsx:1099-1100 | the two label passes change nothing in text without `[` |
| CleanupPasses.LabelAtFront | index.tsx:1099-1100 | a label in front of any text is the label match found there |
| CleanupPasses.SpaceBefore | index.tsx:1098-1099 | the whitespace run over whitespace followed by a non-space ends where that whitespace ends |
| CleanupPasses.LabelLineAtFront | index.tsx:1099 | a label, whitespace and a line feed followed by a line not starting with whitespace is matched up to that line feed |
| CleanupPasses.LabelLineDropped | index.tsx:1099 | a label, whitespace and a line feed are removed when the next line does not start with whitespace |
| CleanupPasses.NoLabelLineWithoutLineFeed | index.tsx:1099 | a label followed by whitespace without a line feed is not a match |
| CleanupPasses.LabelWithoutLineFeedKept | index.tsx:1099 | such a label is kept by the third pass |
| CleanupPasses.TrailingLabelAtEnd | index.tsx:1100 | a label followed only by whitespace up to the end is a match |
| CleanupPasses.TrailingLabelDropped | index.tsx:1100 | a label and whitespace at the very end of the text are removed |
| Render.OpsecLabel | index.tsx:216 | levels 1, 2 and 3 map to their table entries, and any other level maps to `STANDARD` |
| Render.DisplayValue | index.tsx:1073-1080 | an integer prints as a number string that parses back to the integer; integers and booleans print without `[` |
| Render.Placeholder | index.tsx:1080 | `[FIELD]` is a bracketed word token |
| Render.OpsecTextToken | index.tsx:1075 | `[OPSEC_LEVEL_TEXT]` is a bracketed word token |
| Render.WebBlockToken | index.tsx:1095 | `[WEB_SEARCH_BLOCK]` is a bracketed word token |
| Render.TokenSpelling | index.tsx:1075 | the two special tokens are spelt `[WEB_SEARCH_BLOCK]` and `[OPSEC_LEVEL_TEXT]` |
| Render.PlaceholderInjective | index.tsx:1080 | distinct fields have distinct placeholders |
| Render.PlaceholderNotSpecial | index.tsx:1074-1095 | no field placeholder is either special token, and the two special tokens differ |
| Render.LowerCaseNotReplaced | index.tsx:1080 | the match is case-sensitive: `[target_subject]` is not replaced |
| Render.SearchPhrases | index.tsx:1087-1090 | each phrase is present exactly when its flag is set, no other text is, and they come in the fixed order real-time, multi-source, current events |
| Render.WebSearchBlock | index.tsx:1084-1094 | empty when web search is off; otherwise `[USE WEB SEARCH TOOL]`, followed by `\nSearch Config: ` and the phrases joined by `, ` when any is enabled |
| Render.SubstituteField | index.tsx:1072-1081 | one substitution step; `Render.FieldStep`, `Render.SlotStep` and `Render.OpsecStep` state that it fills exactly that field's slots, and at `OPSEC_LEVEL` the label |
| Render.SubstituteFields | index.tsx:1072-1081 | the substitution fold; `Render.FieldsStep` and `Render.SubstitutionFills` state that it fills every placeholder of the fields visited and nothing else |
| Render.RenderText | index.tsx:1070-1100 | the rendered text; `Render.RenderSegments` and `Render.TwoSlotsRender` state what it is, and `Render.RenderPrompt` computes it |
| Render.SubstituteAll | index.tsx:1070-1081 | the substitution loop computes the field-by-field substitution fold |
| Render.SubstituteOne | index.tsx:1072-1081 | one iteration of the loop body computes that field's substitution step |
| Render.BuildWebSearchBlock | index.tsx:1084-1094 | building the block by pushing phrases gives the web-search block |
| Render.RenderPrompt | index.tsx:1070-1100 | substitution, the first-only web-block replace and the four cleanup passes compute the rendered text |
| Render.LabelUnbracketed | index.tsx:216 | OPSEC labels contain no `[` or `(` |
| Render.FormatIsUnfilled | index.tsx:1070 | a format is its segments with nothing filled in |
| Render.PiecesClosed | index.tsx:1072-1081 | with bracket-free values every filled piece is bracket-free or a whole token |
| Render.OpsecStep | index.tsx:1074-1076 | the `[OPSEC_LEVEL_TEXT]` replace fills exactly the OPSEC-label segments |
| Render.SlotPlaceholderMiss | index.tsx:1080 | an unfilled slot matches a field's placeholder exactly when it is that field's slot |
| Render.OpsecPlaceholderMiss | index.tsx:1080 | the OPSEC-label segment never matches a field placeholder |
| Render.SlotStep | index.tsx:1080 | a field's global replace fills exactly that field's slots |
| Render.FieldStep | index.tsx:1074-1080 | one loop iteration fills that field's slots, and at `OPSEC_LEVEL` the label as well |
| Render.AllFields | index.tsx:65-90 | the set of every field |
| Render.ElementsCons | index.tsx:1072 | the fields of a list are its head and the fields of its tail |
| Render.FieldsStep | index.tsx:1072-1081 | running the loop over distinct, not yet filled fields fills all of them |
| Render.SubstitutionFills | index.tsx:1072-1081 | for bracket-free values, the loop over distinct fields including `OPSEC_LEVEL` replaces every occurrence of each placeholder by its field's value and every OPSEC token by the label, and nothing else |
| Render.SubstitutionFillsTemplate | index.tsx:1072-1081 | the same for the loop over all fields in declaration order |
| Render.RenderSegments | index.tsx:1070-1100 | the rendered text is the cleanup of the fully filled format with its first web-block token replaced |
| Render.ReplaceFirstAbsent | index.tsx:1095 | text without `[` is untouched by the web-block replace |
| Render.ReplaceFirstAfter | index.tsx:1095 | the web-block token after bracket-free text is the one replaced |
| Render.ReplaceFirstDropped | index.tsx:1095 | replacing it by the empty block removes it |
| Render.CleanupPlain | index.tsx:1097-1100 | text without `(` or `[` is unchanged by the cleanup |
| Render.TwoSlotsRender | index.tsx:1070-1100 | a format with two field slots between plain text renders to the two values between that text |
| Render.TargetFocusSpelling | index.tsx:7-32 | the placeholders of `TARGET_SUBJECT` and `DOMAIN_FOCUS` are spelt `[TARGET_SUBJECT]` and `[DOMAIN_FOCUS]` |
| Render.TargetFocusExample | index.tsx:1070-1100 | `Target: [TARGET_SUBJECT]` / `Focus: [DOMAIN_FOCUS]` render with the text value and the list joined by `, ` |
| Render.OpsecRender | index.tsx:1074-1076 | `[OPSEC_LEVEL_TEXT]` after plain text renders as the level's label |
| Render.OpsecLabelExample | index.tsx:1074-1076 | at level 2, `OPSEC Level: [OPSEC_LEVEL_TEXT]` renders as `OPSEC Level: ENHANCED` |
| Render.CleanupPlainJoin | index.tsx:1097-1100 | plain text joined to plain text is unchanged by the cleanup |
| Render.WebBlockDisabled | index.tsx:1084-1095 | with web search off the `[WEB_SEARCH_BLOCK]` line contributes nothing |
| Render.CleanupDropsPair | index.tsx:1098 | an empty `()` between plain text is removed |
| Render.EmptyHandlingDropped | index.tsx:1078-1100 | an empty handling-instructions list inside parentheses leaves no parentheses behind |
| Templates.BuiltinKeysDistinct | index.tsx:92-214 | the keys of `BuiltinTemplates`, the built-in table, are distinct |
| Templates.FirstBuiltinKeyIsFirst | index.tsx:92-93 | the first entry of `BuiltinTemplates` has the key `basicStrategicAnalysis`, which the lookup finds |
| Templates.Lookup | index.tsx:1047 | `templates[key]` in a given table: an entry found has that key, and there is none exactly when no key matches |
| Templates.FindUserTemplate | index.tsx:1048 | the user template found is the first one with the id, and there is none exactly when no user template has it |
| Templates.ResolveTemplate | index.tsx:1064-1068 | in a given table, a built-in template wins, then the first user template with the id; nothing is found exactly when neither exists |
| Templates.ListChoice | index.tsx:1059-1060 | a list field takes the user value, else the built-in value, else the empty list, and the value is a list |
| Templates.MergeSelection | index.tsx:1053-1060 | scalars take the user value, else the built-in default, else the previous value; the two lists take the user value, else the built-in value, else the empty list |
| Templates.MergeSaved | index.tsx:1053-1060 | a complete saved configuration overrides everything |
| Templates.MergeDefaults | index.tsx:1050-1060 | built-in defaults overwrite their own fields, both lists are emptied, and every other field is kept |
| Templates.SelectTemplateData | index.tsx:1045-1061 | a user template restores its saved configuration exactly; a built-in key applies its defaults and empties the lists; an unknown key keeps the scalars and empties the lists |
| Templates.InCategorySnoc | index.tsx:1311 | pushing a template extends its own category's group and no other |
| Templates.CategoriesSnoc | index.tsx:1308-1310 | pushing a template adds its category to the set of categories |
| Templates.InCategoryAbsent | index.tsx:1308-1310 | a category that does not occur has no templates |
| Templates.GroupedSnoc | index.tsx:1307-1312 | one loop step keeps the grouping in step with the templates seen so far |
| Templates.CategorizeTemplates | index.tsx:1305-1314 | one non-empty group per category, each holding exactly that category's templates in table order |
| Store.Prepend | index.tsx:1111 | the new item comes first, followed by the newest previous items in order, at most twenty in all |
| Store.Reverse | index.tsx:1111 | the elements in the opposite order |
| Store.PrefixOfPrefix | index.tsx:1111 | cutting to twenty after another prepend is the same as cutting once |
| Store.RecordAllKeepsNewest | index.tsx:1111 | after a run of renders the history is the new items newest first, then the old history, cut to twenty |
| Store.HistoryKeepsTwentyNewest | index.tsx:217 | after twenty or more renders the history holds exactly the twenty newest items, newest first |
| Store.FindHistoryItem | index.tsx:1170 | the item found is the first one with the id, and there is none exactly when no item has it |
| Store.NewestFoundFirst | index.tsx:1104-1111 | the item just recorded is the one its id finds |
| Store.RemoveTemplate | index.tsx:1161 | the order-keeping filter: every template with the id goes, and every other template stays as often as before |
| Store.RemoveAbsent | index.tsx:1161 | removing an id no template has changes nothing |
| Store.LoadArray | index.tsx:720-736 | the parsed array when there is one; the default when the key is absent, parsing fails or the parsed value is not an array |
| AppState.App.constructor | index.tsx:937-942 | the built-in table, the initial configuration, the first built-in key, an empty prompt and name, and the history and user templates as loaded |
| AppState.App.InputChange | index.tsx:1023-1031 | one field takes the new value and no other state changes |
| AppState.App.MultiSelectChange | index.tsx:1033-1043 | the list field is toggled and no other state changes |
| AppState.App.TemplateSelect | index.tsx:1045-1061 | the key becomes the selection and the configuration is the selection merge; nothing else changes |
| AppState.App.GeneratePrompt | index.tsx:1063-1113 | with no template, `Select a template.` and an unchanged history; otherwise the rendered text, and the history is `Store.Prepend` of one item holding the current configuration and template key; the configuration, selection, user templates and name do not change |
| AppState.App.SetCustomTemplateName | index.tsx:942 | only the name field changes |
| AppState.App.SaveTemplate | index.tsx:1134-1149 | a blank name changes nothing; otherwise one `User Defined` template is appended, with the trimmed name, the current prompt and configuration, and the name is cleared |
| AppState.App.LoadTemplate | index.tsx:1151-1157 | a known id becomes the selection and its saved configuration the current one; an unknown id changes nothing |
| AppState.App.DeleteTemplate | index.tsx:1159-1167 | once confirmed, every template with the id goes, and if it was selected the selection and configuration reset; unconfirmed, nothing changes |
| AppState.App.LoadFromHistory | index.tsx:1169-1175 | a known item restores its configuration and template key; an unknown id changes nothing |
| AppState.App.ClearHistory | index.tsx:1177-1181 | once confirmed the history is empty; nothing else changes |

## Left out

- The JSX, the React components and the open/closed state of the form
  sections are user interface.
- `useEffect` re-renders after every change and persists after every change.
  Here rendering is the explicit call `AppState.App.GeneratePrompt`, and the
  writes to storage (`saveToLocalStorage`) are not modelled.
- Speech recognition, speech synthesis, the Gemini advisory client and its
  query handler, the documentation string, the clipboard and the file
  download are browser or network services outside the engine.
- `localStorage`, `JSON.parse` and `JSON.stringify` are not modelled. The
  outcome of reading a key is an input (`Store.Stored`), and only the
  fallback decision is modelled.
- `generateId`, `new Date().toISOString()` and `toLocaleString()` become the
  `id`, `timestamp` and `localTime` parameters. `window.confirm` becomes the
  `confirmed` parameter. `alert` has no effect on state and is dropped.
- `AppState.App.InputChange` takes an already-typed value. The `parseInt` of
  DOM strings, and the `NaN` it can produce, are not modelled. Numbers are
  unbounded integers, not JavaScript doubles.
- `AppState.App.MultiSelectChange` requires one of the two list fields. The
  form only calls the handler for those, and the `|| []` fallback for other
  names is not modelled.
- `Render.RenderText` inserts replacement text literally. The `$&`, `$1`
  and `$$` patterns that `String.prototype.replace` expands in a
  replacement are not modelled.
- `Render.RenderText` visits the fields in the declaration order of
  `initialFormData`, which is the key order of every record the component
  builds. A record read back from storage with a different key order could
  be visited in that other order; this is not modelled.
- `Render.SubstitutionFills` requires every literal and field value to be
  free of `[`. When a value itself contains a placeholder, that placeholder
  is substituted by a later field or survives into the cleanup; this is not
  described. `Render.RenderSegments` and `Render.SubstitutionFillsTemplate`
  carry the same requirement. It also excludes the built-in
  `economicVulnerability` format, whose text contains
  `[Specify focus areas or 'All']` (index.tsx:161).
- `Templates.Lookup` looks only at the table's own keys. Keys
  inherited from `Object.prototype`, such as `toString`, are not modelled.
- `Store.LoadArray` returns the parsed array without checking the shape of
  its elements, as the source does. Elements are taken to be well-formed
  records.
- `AppState.App` keeps the built-in table in a `templates` constant that the
  constructor sets to `Templates.BuiltinTemplates`, where the source refers to
  the module-level `templates` object.
- `AppState.App.GeneratePrompt` states the new history as `Store.Prepend` of
  the new item. The bound of twenty items and the item's copy of the
  configuration follow from the contract of `Store.Prepend`, not from the
  method's own `ensures`.
- `\s` and `trim` use the ECMAScript whitespace and line-terminator set.
  Case folding and Unicode normalisation play no part here.
