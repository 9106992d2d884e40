# Home Assistant trace parser — verified model of its core

`trace_parser.py` turns a Home Assistant automation trace into a readable
execution log. The core is made of three parts, and this project models each
of them in Dafny and proves properties about it.

- **Alias mapper** (`load_automation`'s `map_steps` and its root loop). It
  walks the automation definition, a tree of lists and dicts. It writes a
  display label for every structural path it reaches (`action/0/then/1`)
  into one shared dict. A label is one of three things:
  - the node's own truthy `alias`;
  - `nearest_alias//relative/path`, under an aliased ancestor;
  - the path itself.

  Modelled in `alias_mapper.dfy`:
  - A `Mapper` class owns the `mapping` field. Its recursive methods
    (`MapSteps`, `MapList`, `MapElement`, `MapDict`, `MapFields`) update
    it in place.
  - Each method is proved to leave the dict that a specification function
    (`AfterSteps`, `AfterList`, `AfterElement`, `AfterFields`) gives for
    its round of the walk.
  - `Entries` lists, in order, the nodes (`Visit`) the walk reaches. A node
    gets its own alias, or the label that the aliases above it give its
    path (`Assignment`, `Inherited`). The `*Assign` lemmas prove that the
    dict the walk leaves is these assignments performed in order (`Apply`),
    so the last write to a path wins.
  - `EntryAt` is an independent per-node reference definition: the node at
    a given address of the definition. It is proved to name exactly the
    nodes of the walk, in both directions.
- **Trace normalizer** (`process_trace`). It flattens the event table,
  sorts it stably by timestamp and resolves every path to an alias. It
  puts a numbered `"\n[ITERATION n]"` marker before each event whose path
  contains `repeat`, and builds one display record per event.

  Modelled in `trace_normalizer.dfy`:
  - `ProcessTrace` is the whole procedure. `CollectEvents`, `BuildOutput`
    and `LookupAlias` are the loops of the source. `EmitEvent` is one pass
    of the record loop's body. `BuildLine` is the straight-line code that
    fills in one record.
  - They are proved against the specification functions `Flatten`,
    `SortBy`, `ParseAll`, `ResolveAlias`, `Records` and `MakeLine`.
  - Python's stable `list.sort` is the function `StableSort.SortBy`
    (`stable_sort.dfy`). It is proved ordered, a permutation and stable.
- **Formatter** (`format_output`). Each entry becomes one string: a marker
  stays as it is, and a record becomes a header, indented detail lines and
  an `[ERROR]` line. Modelled in `formatter.dfy`.

`values.dfy` holds the loaded-document value type, Python truthiness and
`dict.get`. `strings.dfy` holds the string operations the code relies on:
`f"{n}"`, slicing, `lstrip('/')`, `in`, `str.replace` and `str.join`.

Failures are modelled as `Err` values of `Values.Failure`, not as
preconditions. Each stands for an exception the code would raise:
- `NotADict`: the document is not a dict.
- `MissingKey`: a `trace` key is missing.
- `BadTimestamp`: a timestamp does not parse.
- `MissingTimestamp`: an event has no timestamp.
- `PathNotString`: an event's path is not a string.

Library calls the core cannot do without are parameters:
- `instant` stands for `datetime.fromisoformat(...).timestamp()`, in
  integer microseconds.
- `render` stands for `astimezone(tz).strftime(...)`.
- `dumps` stands for `json.dumps(..., indent=2)`.
- `repr` stands for `str()` of a list or dict.

Four behaviours of the code that a reader might not expect are modelled as
written:
- The plural/singular rewrites replace every occurrence, because the code
  calls `str.replace`. See `Strings.ReplaceAllLength`.
- A variant whose label is falsy also falls back to the path.
- The marker text starts with a newline.
- An event without a timestamp sorts at key 0 (the epoch) and then makes
  the record loop raise. See "## Findings".

## Model

| member | source | states |
|---|---|---|
| Values.LookupFinds | trace_parser.py:116-117 | `d.get(key)` finds a value exactly when the key is present, and the value found is the one stored under that key |
| Strings.NatToStringDigits | trace_parser.py:44 | the index text is a run of decimal digits with no leading zero |
| Strings.NatToStringRoundTrip | trace_parser.py:44 | reading the index text back as a decimal number gives the index |
| Strings.NatToStringInjective | trace_parser.py:44 | distinct indices give distinct index texts |
| Strings.LStripSlash | trace_parser.py:53 | the result of `lstrip('/')` does not start with `/` and is no longer than its input |
| Strings.LStripSlashRemoves | trace_parser.py:53 | `lstrip('/')` removes only leading `/` characters: the result is a suffix of the input and everything removed is `/` |
| Strings.ContainsStep | trace_parser.py:139 | `sub in s` holds exactly when `s` starts with `sub` or `sub` is in the rest of `s` |
| Strings.ReplaceAllLength | trace_parser.py:124-129 | `replace` substitutes every occurrence: the length changes by the length difference once per occurrence |
| Strings.ReplaceAllAbsent | trace_parser.py:124-129 | a path without the pattern comes back unchanged, with no occurrence counted |
| Strings.Join | trace_parser.py:189 | `sep.join` of nothing is empty, of one part is that part, and always starts with the first part |
| Strings.JoinPrefixed | trace_parser.py:189 | `"\n  " + "\n  ".join(ds)` puts the separator before every detail |
| StableSort.SortByPermutes | trace_parser.py:110 | the sort keeps the length and the multiset of events |
| StableSort.SortBySorted | trace_parser.py:110 | the sorted events have non-decreasing keys |
| StableSort.SortByStable | trace_parser.py:110 | among events with equal keys the input order is kept |
| StableSort.InsertSorted | trace_parser.py:110 | inserting one element keeps a key-ordered list ordered |
| AliasMapper.IndexPath | trace_parser.py:44 | a list element's path is never empty (`base/i`, or `sequence/i` under an empty base) |
| AliasMapper.OwnAliasNeedsKey | trace_parser.py:45-63 | a node has its own alias only when it is a dict with an `alias` key |
| AliasMapper.Mapper.constructor | trace_parser.py:83 | the mapping starts empty |
| AliasMapper.Mapper.MapSteps | trace_parser.py:41-79 | the mapping afterwards is `AfterSteps` of the old one: a list walked element by element, a dict labelled (under a non-empty base) and then walked key by key, any other value leaving it unchanged |
| AliasMapper.Mapper.MapList | trace_parser.py:42-61 | the loop performs the element rounds in index order (`AfterList`) |
| AliasMapper.Mapper.MapElement | trace_parser.py:44-61 | an element first maps its own path (to its alias, or to the inherited label), then walks its dict values under the context it passes down |
| AliasMapper.Mapper.MapDict | trace_parser.py:62-77 | a dict maps its own path only under a non-empty base, then walks its values |
| AliasMapper.Mapper.MapFields | trace_parser.py:60-77 | the dict's values are walked in key order under `base/key` (`AfterFields`) |
| AliasMapper.LoadAutomation | trace_parser.py:83-87 | a dict definition yields `AliasMapping` of its entries (only `sequence` or list/dict values walked, in key order); anything else fails as `.items()` would |
| AliasMapper.StepsAssign | trace_parser.py:41-78 | the dict `map_steps` leaves is the old one with the assignments of the walk's visits (`Entries`) performed in order |
| AliasMapper.RootAssigns | trace_parser.py:83-87 | the mapping `load_automation` returns is the empty dict with the assignments of the root loop's visits performed in order |
| AliasMapper.ApplySnoc | trace_parser.py:47 | one more assignment updates exactly its path |
| AliasMapper.ApplyConcat | trace_parser.py:41-78 | performing two runs of assignments in a row is performing their concatenation |
| AliasMapper.ApplyLastWrite | trace_parser.py:41-78 | an assignment that no later one overwrites decides that path's label |
| AliasMapper.ApplyIdentity | trace_parser.py:54-73 | when every assignment maps a path to itself, so does the resulting dict |
| AliasMapper.ApplyContents | trace_parser.py:41-78 | the dict keeps its old keys, gains every assigned path, and holds at each key either an assigned label or its old value |
| AliasMapper.WalkIsPerNode | trace_parser.py:42-78 | the walk's assignments are exactly the per-node assignments of the reference definition, in both directions |
| AliasMapper.EntriesVisits | trace_parser.py:42-78 | a node is among the walk's ordered visits exactly when the walk reaches it: as the dict itself under a non-empty base, or below one of its values, or below one of a list's elements |
| AliasMapper.VisitAddress | trace_parser.py:42-78 | each node the walk reaches is the node of some address of the reference definition |
| AliasMapper.AddressVisited | trace_parser.py:42-78 | each address of the reference definition that names a node names one the walk reaches |
| AliasMapper.ListWhich | trace_parser.py:43 | a node reached by the list loop is reached in the round of one element |
| AliasMapper.FieldWhich | trace_parser.py:60-77 | a node reached by the loop over a dict's values is reached below one of them |
| AliasMapper.ListIncludes | trace_parser.py:43 | a node reached in the round of one element is reached by the list loop |
| AliasMapper.FieldIncludes | trace_parser.py:60-77 | a node reached below one of a dict's values is reached by the loop over them |
| AliasMapper.LabelWithoutAliases | trace_parser.py:51-73 | below a node with no aliases, every path is labelled `nearest_alias//relative path`, or with the path itself when there is no alias above |
| AliasMapper.ElementLabelWithoutAliases | trace_parser.py:51-56 | the same for a list element and its descendants |
| AliasMapper.ElementAliasScope | trace_parser.py:46-53 | an aliased element is labelled with its alias, and each descendant in an alias-free child subtree (other children may hold aliases) with `alias//` followed by its path with the element's path and the leading `/` removed |
| AliasMapper.RelativeLabel | trace_parser.py:51-71 | under an alias set at `P`, the node at `P/rel` (`rel` not starting with `/`) is labelled `alias//rel` |
| AliasMapper.RootEntriesVisits | trace_parser.py:84-86 | a node is among the root loop's ordered visits exactly when the walk of some walked top-level key reaches it |
| AliasMapper.RootWhich | trace_parser.py:84-86 | every node the root loop reaches is reached by the walk of a walked top-level key |
| AliasMapper.RootIncludes | trace_parser.py:84-86 | every node reached by the walk of a walked top-level key is reached by the root loop |
| AliasMapper.MappingComplete | trace_parser.py:41-87 | every node reached below a walked top-level key has its path in the mapping |
| AliasMapper.MappingSound | trace_parser.py:41-87 | every key of the mapping is the path of a node reached below a walked top-level key, holding that node's label |
| AliasMapper.MappingIdentity | trace_parser.py:41-87 | a definition without aliases maps every visited path to itself |
| AliasMapper.WalkOnlyAdds | trace_parser.py:41-78 | the walk never removes a key |
| AliasMapper.InheritanceExample | trace_parser.py:46-53 | an aliased step `A` with children (one unaliased, one aliased `B`) yields `action/0 → A`, `action/0/then/0 → A//then/0`, `action/0/then/1 → B` |
| TraceNormalizer.TraceTable | trace_parser.py:99 | the event table is found exactly when `trace.trace` exists and is a dict |
| TraceNormalizer.CollectEvents | trace_parser.py:98-107 | the collected list is `Flatten` of the table |
| TraceNormalizer.KeepEventsMembers | trace_parser.py:104-107 | from one group, exactly the dicts with a `path` are kept |
| TraceNormalizer.FlattenMembers | trace_parser.py:99-107 | the flat list holds exactly the dicts with a `path` among the table's values, a list contributing its elements and any other value itself |
| TraceNormalizer.FlattenConcat | trace_parser.py:99-107 | collecting two parts of the table one after the other gives the two flat lists concatenated |
| TraceNormalizer.FlattenBlocks | trace_parser.py:99-107 | each table value's events form one block, in their list order, between those of the values before and after it |
| TraceNormalizer.ParseEventOk | trace_parser.py:110-117 | an event is read exactly when it is readable; the reading carries the sort key's instant, the path, `changed_variables` if present, `result` or `{}`, and `error` |
| TraceNormalizer.ParseEventFailure | trace_parser.py:110-129 | a missing timestamp fails first, then an unparseable one, then a path that is not a string |
| TraceNormalizer.ParseAllOk | trace_parser.py:113-117 | all events are read exactly when each is readable, and the readings match them one to one, in order |
| TraceNormalizer.ParseAllStops | trace_parser.py:113-114 | the first event that cannot be read decides the failure |
| TraceNormalizer.NormalizeSucceeds | trace_parser.py:110-129 | the normalizer succeeds exactly when every collected event is readable |
| TraceNormalizer.NormalizeOrder | trace_parser.py:110-113 | on success the records are those of a permutation of the collected events, in non-decreasing instant order, keeping collection order among equal instants |
| TraceNormalizer.VariationsUnchanged | trace_parser.py:123-130 | a path containing none of the six patterns is unchanged by every rewrite |
| TraceNormalizer.VariationReplacesEvery | trace_parser.py:124 | `path.replace('action/', 'actions/')` rewrites every occurrence, not just the first: `action/<u>action/<v>` becomes `actions/<u>actions/<v>` for any `u` without the letter `a` and any `v` without `action/` |
| Strings.ReplaceAllSkip | trace_parser.py:123-130 | a stretch of the path none of whose characters can start the pattern is copied unchanged by `str.replace` |
| TraceNormalizer.FirstKnown | trace_parser.py:131-134 | the index found is the first variant that is a key, and none means no variant is a key |
| TraceNormalizer.ResolveAlias | trace_parser.py:120-136 | the alias is always a label of the mapping or the path itself |
| TraceNormalizer.ResolveAliasCases | trace_parser.py:120-136 | a truthy direct label wins; otherwise the first variant (in the fixed order) that is a key decides, its label if truthy and the path if not; with none, the path |
| TraceNormalizer.LookupAlias | trace_parser.py:120-136 | the loop with `break` computes `ResolveAlias` |
| TraceNormalizer.PluralExample | trace_parser.py:120-134 | `action/0` resolves through the key `actions/0` |
| TraceNormalizer.IterationMarker | trace_parser.py:141 | the marker is `"\n[ITERATION "`, the decimal number, then `]` |
| TraceNormalizer.LineContents | trace_parser.py:144-161 | a record carries the rendered time, alias and path unchanged; `changed_variables` verbatim exactly when the event has it, `result` exactly when truthy, nothing else in `data`; `error` exactly when truthy |
| TraceNormalizer.BuildLine | trace_parser.py:144-161 | the record filled in step by step is `MakeLine` |
| TraceNormalizer.EmitEvent | trace_parser.py:120-163 | one pass appends the next marker when the path contains `repeat`, then the record, and counts the iteration |
| TraceNormalizer.BuildOutput | trace_parser.py:112-163 | the loop's output is `Records` of the events read, or the first event's failure |
| TraceNormalizer.ProcessTrace | trace_parser.py:98-163 | the whole procedure equals the specification: table lookup, collection, a sort that fails on an unparseable timestamp, then the record loop |
| TraceNormalizer.RecordsSnoc | trace_parser.py:139-163 | one more event appends its marker (if any) and record, numbered by the repeat count so far |
| TraceNormalizer.RecordsLength | trace_parser.py:139-163 | the output has one entry per event plus one marker per repeat event |
| TraceNormalizer.RecordsLayout | trace_parser.py:139-163 | event `j`'s record sits at `j + n` (`n` repeat events up to it); it is preceded by marker `n` exactly when its path contains `repeat`, otherwise by a record or nothing |
| TraceNormalizer.IterationExample | trace_parser.py:139-141 | repeat, plain, repeat events give marker 1, record, record, marker 2, record |
| TraceNormalizer.MissingTimestampRaises | trace_parser.py:110-114 | an event without a timestamp gets sort key 0, yet the normalizer fails with `MissingTimestamp` |
| TraceNormalizer.MissingTimestampIntended | trace_parser.py:110 | with the default instant the same table yields the event's record at instant 0 |
| TraceNormalizer.IntendedSucceeds | trace_parser.py:110-129 | the intended normalizer fails only on an unparseable timestamp or a path that is not a string |
| TraceNormalizer.Items | trace_parser.py:148-157 | a record's data dict has at most two items |
| Formatter.Details | trace_parser.py:182-187 | one detail per data item |
| Formatter.FormatDetails | trace_parser.py:182-187 | the details loop writes `key: value` per item in order, a dict value through `json.dumps` |
| Formatter.FormatOutput | trace_parser.py:172-193 | one string per entry, in order, each the formatted entry (a marker unchanged) |
| Formatter.LineLayout | trace_parser.py:180-191 | a record's text is the header, then each detail on its own `"\n  "` line in data order, then the `"\n  [ERROR] "` line if it has an error |
| Formatter.FormattedRecord | trace_parser.py:144-191 | the formatted record of an event: header, a `changed_variables` line when present, a `result` line when truthy, an error line when the error is truthy |
| Formatter.DataLines | trace_parser.py:152-189 | the detail lines of an event's data are its `changed_variables` line then its `result` line, each only when set |
| Formatter.BareLine | trace_parser.py:180-189 | a record with empty data and no error is its header alone |
| Formatter.LineBoundaries | trace_parser.py:180-191 | a record's text starts with `timestamp \| alias \| path` and, with an error, ends with the error line |

## Findings

| source | as written | input that shows it | evidently intended | confidence | as-written member | corrected member |
|---|---|---|---|---|---|---|
| trace_parser.py:110-114 | the sort gives an event without `timestamp` the key 0, then `ev['timestamp']` raises `KeyError` on it | a trace table `{"action/0": {"path": "action/0"}}` | the event is shown like the others, at the default instant 0 the sort used | high (not executed) | TraceNormalizer.MissingTimestampRaises | TraceNormalizer.MissingTimestampIntended |

`NormalizeWith(…, lenient)` is the one definition behind both halves:
- `Normalize` (lenient off) is the code as written. `ProcessTrace`
  implements it, because the model follows the code.
- `NormalizeIntended` (lenient on) is the corrected normalizer. Its
  success condition is proved in `MissingTimestampIntended`.
- The order, layout and record lemmas (`NormalizeOrder`, `RecordsLayout`,
  `LineContents`) are stated for both.

## Left out

- File I/O is not modelled: loading the YAML definition and the JSON trace (trace_parser.py:80-81, 95-96), and the append-mode write of the formatted output (trace_parser.py:164-169). The loaded values are inputs, and the normalizer returns its output list.
- Time zone selection (`get_timezone`, trace_parser.py:30-36, 91) is not modelled. Parsing (`fromisoformat`), the float `.timestamp()`, `astimezone` and `strftime` are the parameters `instant` (integer microseconds) and `render`. The model therefore does not capture float rounding of sort keys, nor that `.timestamp()` reads a naive timestamp (one without an offset) in the machine's local time zone.
- `json.dumps(..., indent=2, ensure_ascii=False)` (trace_parser.py:185) and `str()` of lists and dicts are the uninterpreted parameters `dumps` and `repr`.
- `main()` (trace_parser.py:195-296) is not modelled: argument parsing, console rendering and the alert heuristic.
- AliasMapper.OwnAlias: a truthy `alias` that is itself a list or dict is treated as no alias. The mapping is `map<string, string>`, and the code would store the container as the label.
- A numeric or boolean `alias` is kept as its `str()` text (`Values.Scalar`). The code stores the original value, which displays the same way.
- Dict entries are assumed to have distinct keys, as in a loaded Python dict. `Values.Value` does not enforce this: on a sequence with a repeated key `Lookup` takes the first entry, while `json.load` keeps the last value, and the walks would visit both entries.
- Dict keys are strings. A YAML key of another type would be written into the path through `f"{key}"`; the model has no such keys.
- Python's exception types are collapsed into the five `Failure` values. Error messages are not modelled.
- Formatter.LineBoundaries: states only that an error ends the text, not the converse. A detail or path can itself end with the same characters, so text without an error line can end that way too. `Formatter.LineLayout` gives the exact text instead.
- TraceNormalizer.ResolveAlias: its own contract says only that the alias is a label or the path. The full case analysis is in `ResolveAliasCases`.
- TraceNormalizer.Items: its own contract gives only the size. Which keys are present and when is proved for records in `LineContents`.
- A record's `data` dict is the two-slot `TraceNormalizer.Data`, because only `changed_variables` and then `result` are ever stored in it. `Items` gives its `items()` in insertion order.
