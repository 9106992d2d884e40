/** The trace normalizer of `process_trace`: flattens the recorded trace
    table into one event list, orders it by timestamp, resolves each step's
    path to its display alias, inserts a numbered marker before every event
    inside a repeat block, and builds one display record per event. */
module TraceNormalizer {
  import opened Values
  import opened Strings
  import opened StableSort

  // ---------------------------------------------------------------------
  // Input: the trace document and its event table.

  /** The value under `key` of a dict event; `None` for a missing key (or a
      value that is not a dict). */
  function Field(ev: Value, key: string): Option<Value> {
    if ev.Dict? then Lookup(ev.entries, key) else None
  }

  /** `trace_data['trace']['trace']`, whose `.values()` the normalizer iterates. */
  function TraceTable(doc: Value): (r: Result<seq<(string, Value)>>)
    ensures r.Ok? <==> (exists outer, table ::
      Field(doc, "trace") == Some(outer) && Field(outer, "trace") == Some(table) && table.Dict?)
  {
    match Field(doc, "trace")
    case None => if doc.Dict? then Err(MissingKey) else Err(NotADict)
    case Some(outer) =>
      match Field(outer, "trace")
      case None => if outer.Dict? then Err(MissingKey) else Err(NotADict)
      case Some(table) => if table.Dict? then Ok(table.entries) else Err(NotADict)
  }

  /** An element kept by the normalizer: a dict with a `path` key. */
  predicate IsEvent(ev: Value) {
    ev.Dict? && HasKey(ev.entries, "path")
  }

  /** A table value as a list of candidate events: a list as it is, anything
      else as a one-element list. */
  function Group(v: Value): seq<Value> {
    if v.List? then v.items else [v]
  }

  /** The events of a group, in order. */
  function KeepEvents(group: seq<Value>): seq<Value> {
    if group == [] then []
    else KeepEvents(group[..|group| - 1]) + (if IsEvent(group[|group| - 1]) then [group[|group| - 1]] else [])
  }

  /** The flat event list collected from the table, key by key. */
  function Flatten(table: seq<(string, Value)>): seq<Value> {
    if table == [] then []
    else Flatten(table[..|table| - 1]) + KeepEvents(Group(table[|table| - 1].1))
  }

  // ---------------------------------------------------------------------
  // Timestamps. `instant` stands for `datetime.fromisoformat(s).timestamp()`
  // at microsecond resolution (None when the text does not parse).

  /** The sort key: the instant of the event's `timestamp`, 0 when there is
      none; `None` when the timestamp cannot be parsed, which makes the sort raise. */
  function SortKey(ev: Value, instant: string -> Option<int>): Option<int> {
    match Field(ev, "timestamp")
    case None => Some(0)
    case Some(Str(s)) => instant(s)
    case Some(_) => None
  }

  /** The key function handed to the sort. */
  function KeyOf(instant: string -> Option<int>): Value -> int {
    (ev: Value) => match SortKey(ev, instant) case Some(k) => k case None => 0
  }

  /** Every event has a sort key, so `event_list.sort(...)` does not raise. */
  predicate Sortable(events: seq<Value>, instant: string -> Option<int>) {
    forall i | 0 <= i < |events| :: SortKey(events[i], instant).Some?
  }

  // ---------------------------------------------------------------------
  // One event, as the record-building loop reads it.

  /** The parts of an event the loop uses: the instant of its timestamp,
      its path, `changed_variables` if present, `ev.get('result', {})` and
      `ev.get('error')`. */
  datatype Event = Event(instant: int, path: string, changed: Option<Value>, result: Value, error: Option<Value>)

  /** What the loop needs of an event to get through it without raising:
      a timestamp that parses (or, `lenient`, none at all) and a string path. */
  predicate Readable(ev: Value, instant: string -> Option<int>, lenient: bool) {
    && (lenient || Field(ev, "timestamp").Some?)
    && SortKey(ev, instant).Some?
    && Field(ev, "path").Some? && Field(ev, "path").value.Str?
  }

  /** Reads an event. As written, `ev['timestamp']` raises on an event
      without one; with `lenient` such an event takes the sort key's
      default instant 0 instead (see README, Findings). */
  function ParseEvent(ev: Value, instant: string -> Option<int>, lenient: bool): Result<Event> {
    if Field(ev, "timestamp").None? && !lenient then Err(MissingTimestamp)
    else
      match SortKey(ev, instant)
      case None => Err(BadTimestamp)
      case Some(t) =>
        match Field(ev, "path")
        case Some(Str(p)) =>
          Ok(Event(t, p, Field(ev, "changed_variables"),
                   if ev.Dict? then LookupOr(ev.entries, "result", EmptyDict) else EmptyDict,
                   Field(ev, "error")))
        case _ => Err(PathNotString)
  }

  /** An event is read exactly when it is readable; the event read has the sort key's instant, the path,
      `changed_variables` if present, `result` or `{}`, and `error` if present. */
  lemma ParseEventOk(ev: Value, instant: string -> Option<int>, lenient: bool)
    ensures var r := ParseEvent(ev, instant, lenient);
      && (r.Ok? <==> Readable(ev, instant, lenient))
      && (r.Ok? ==> && r.value.instant == KeyOf(instant)(ev)
                    && Field(ev, "path") == Some(Str(r.value.path))
                    && r.value.changed == Field(ev, "changed_variables")
                    && r.value.result == (match Field(ev, "result") case Some(v) => v case None => EmptyDict)
                    && r.value.error == Field(ev, "error"))
  {
  }

  /** Which failure an unreadable event reports: a missing timestamp first
      (as written), then an unparseable one, then a path that is not a string. */
  lemma ParseEventFailure(ev: Value, instant: string -> Option<int>, lenient: bool)
    ensures Field(ev, "timestamp").None? && !lenient ==> ParseEvent(ev, instant, lenient) == Err(MissingTimestamp)
    ensures (Field(ev, "timestamp").Some? || lenient) && SortKey(ev, instant).None?
            ==> ParseEvent(ev, instant, lenient) == Err(BadTimestamp)
    ensures (Field(ev, "timestamp").Some? || lenient) && SortKey(ev, instant).Some?
            && !(Field(ev, "path").Some? && Field(ev, "path").value.Str?)
            ==> ParseEvent(ev, instant, lenient) == Err(PathNotString)
  {
  }

  /** Reads the events in order; the first one that cannot be read stops it. */
  function ParseAll(events: seq<Value>, instant: string -> Option<int>, lenient: bool): Result<seq<Event>> {
    if events == [] then Ok([])
    else
      match ParseAll(events[..|events| - 1], instant, lenient)
      case Err(f) => Err(f)
      case Ok(done) =>
        match ParseEvent(events[|events| - 1], instant, lenient)
        case Err(f) => Err(f)
        case Ok(e) => Ok(done + [e])
  }

  // ---------------------------------------------------------------------
  // Alias resolution.

  /** The singular/plural rewrites tried, in this order, when a path has no
      truthy label of its own. */
  const Rewrites: seq<(string, string)> := [
    ("action/", "actions/"), ("actions/", "action/"),
    ("condition/", "conditions/"), ("conditions/", "condition/"),
    ("trigger/", "triggers/"), ("triggers/", "trigger/")
  ]

  /** The `i`-th variation of a path: `path.replace(from, to)`, every occurrence replaced. */
  function Variation(path: string, i: nat): string
    requires i < |Rewrites|
  {
    ReplaceAll(path, Rewrites[i].0, Rewrites[i].1)
  }

  function Variations(path: string): (vs: seq<string>)
    ensures |vs| == |Rewrites|
    ensures forall i | 0 <= i < |Rewrites| :: vs[i] == Variation(path, i)
  {
    seq(|Rewrites|, i requires 0 <= i < |Rewrites| => Variation(path, i))
  }

  /** The index of the first of `vs` that is a key of `m`. */
  function FirstKnown(vs: seq<string>, m: map<string, string>): (r: Option<nat>)
    ensures r.Some? ==> r.value < |vs| && vs[r.value] in m && forall i | 0 <= i < r.value :: vs[i] !in m
    ensures r.None? ==> forall i | 0 <= i < |vs| :: vs[i] !in m
  {
    if vs == [] then None
    else if vs[0] in m then Some(0)
    else match FirstKnown(vs[1..], m)
      case None => None
      case Some(i) => Some(i + 1)
  }

  /** The display alias of a path: its own label if truthy; otherwise the
      label of the first variation that is a key; otherwise (or when that
      label is empty) the path itself. */
  function ResolveAlias(m: map<string, string>, path: string): (r: string)
    ensures r == path || r in m.Values
  {
    var direct := if path in m then m[path] else "";
    if direct != "" then direct
    else
      var vs := Variations(path);
      var alias := match FirstKnown(vs, m) case Some(i) => m[vs[i]] case None => "";
      if alias != "" then alias else path
  }

  /** The lookup loop of `process_trace` (direct hit, then the variations in
      order, stopping at the first that is a key, then the path). */
  method LookupAlias(m: map<string, string>, path: string) returns (alias: string)
    ensures alias == ResolveAlias(m, path)
  {
    alias := if path in m then m[path] else "";
    if alias == "" {
      var variations := Variations(path);
      var v := 0;
      while v < |variations|
        invariant 0 <= v <= |variations|
        invariant alias == ""
        invariant forall i | 0 <= i < v :: variations[i] !in m
      {
        if variations[v] in m {
          alias := m[variations[v]];
          assert FirstKnown(variations, m) == Some(v);
          break;
        }
        v := v + 1;
      }
      if alias == "" {
        alias := path;
      }
    }
  }

  // ---------------------------------------------------------------------
  // Output entries.

  /** An element of the normalized output: an iteration marker string, or a
      display record (`timestamp`, `alias`, `path`, the `data` bag and an
      optional `error`). */
  datatype Entry =
    | Marker(text: string)
    | Line(timestamp: string, alias: string, path: string, data: Data, error: Option<Value>)

  /** The `data` dict of a record. Only two keys are ever stored in it,
      `changed_variables` before `result`, so it is kept as two slots. */
  datatype Data = Data(changed: Option<Value>, result: Option<Value>)

  /** `data.items()`, in insertion order. */
  function Items(d: Data): (r: seq<(string, Value)>)
    ensures |r| <= 2
  {
    (if d.changed.Some? then [("changed_variables", d.changed.value)] else [])
      + (if d.result.Some? then [("result", d.result.value)] else [])
  }

  /** `f"\n[ITERATION {n}]"`, with its leading newline. */
  function IterationMarker(n: nat): (s: string)
    ensures StartsWith(s, "\n[ITERATION ") && s[|s| - 1] == ']'
    ensures s[12..|s| - 1] == NatToString(n)
  {
    "\n[ITERATION " + NatToString(n) + "]"
  }

  /** `'repeat' in path`: anywhere in the path, not only as a whole segment. */
  predicate IsRepeat(path: string) {
    Contains(path, "repeat")
  }

  /** The `data` bag of a record: `changed_variables` verbatim when the
      event has it, `result` when it is truthy. */
  function DataBag(e: Event): Data {
    Data(e.changed, if Truthy(e.result) then Some(e.result) else None)
  }

  /** The display record of an event; `render` is the timestamp converted to
      the target zone and formatted by `strftime`. */
  function MakeLine(e: Event, alias: string, render: int -> string): Entry {
    Line(render(e.instant), alias, e.path, DataBag(e),
         if e.error.Some? && Truthy(e.error.value) then e.error else None)
  }

  /** A record shows the event's rendered time, the given alias and the
      path; its data dict holds `changed_variables` exactly when the event
      has it and `result` exactly when that is truthy, and nothing else;
      it carries the error exactly when the event's error is truthy. */
  lemma LineContents(e: Event, alias: string, render: int -> string)
    ensures var r := MakeLine(e, alias, render);
      && r.Line? && r.path == e.path && r.timestamp == render(e.instant) && r.alias == alias
      && (HasKey(Items(r.data), "changed_variables") <==> e.changed.Some?)
      && (e.changed.Some? ==> Lookup(Items(r.data), "changed_variables") == e.changed)
      && (HasKey(Items(r.data), "result") <==> Truthy(e.result))
      && (Truthy(e.result) ==> Lookup(Items(r.data), "result") == Some(e.result))
      && (forall i | 0 <= i < |Items(r.data)| :: Items(r.data)[i].0 == "changed_variables" || Items(r.data)[i].0 == "result")
      && (r.error.Some? <==> e.error.Some? && Truthy(e.error.value))
      && (r.error.Some? ==> r.error == e.error)
  {
    var items := Items(DataBag(e));
    assert HasKey(items, "changed_variables") ==> e.changed.Some?;
    assert e.changed.Some? ==> items[0].0 == "changed_variables";
    assert HasKey(items, "result") ==> Truthy(e.result);
    assert Truthy(e.result) ==> items[|items| - 1] == ("result", e.result);
    assert Truthy(e.result) ==> items[|items| - 1].0 == "result";
  }

  /** The number of events whose path contains `repeat`. */
  function RepeatCount(es: seq<Event>): nat {
    if es == [] then 0
    else RepeatCount(es[..|es| - 1]) + (if IsRepeat(es[|es| - 1].path) then 1 else 0)
  }

  /** What the loop appends for one event: a marker numbered `n` first when
      its path contains `repeat`, then its record. */
  function Block(e: Event, n: nat, m: map<string, string>, render: int -> string): seq<Entry> {
    (if IsRepeat(e.path) then [Marker(IterationMarker(n))] else []) + [MakeLine(e, ResolveAlias(m, e.path), render)]
  }

  /** The output list for the events `es`, in order. */
  function Records(es: seq<Event>, m: map<string, string>, render: int -> string): seq<Entry> {
    if es == [] then []
    else Records(es[..|es| - 1], m, render) + Block(es[|es| - 1], RepeatCount(es), m, render)
  }

  // ---------------------------------------------------------------------
  // The whole normalizer.

  /** `process_trace` on a parsed trace table: flatten, sort by timestamp,
      read each event in that order and build the output. */
  function NormalizeWith(table: seq<(string, Value)>, m: map<string, string>,
                         instant: string -> Option<int>, render: int -> string, lenient: bool): Result<seq<Entry>>
  {
    var events := Flatten(table);
    if !Sortable(events, instant) then Err(BadTimestamp)
    else Output(SortBy(events, KeyOf(instant)), m, instant, render, lenient)
  }

  /** The output built from the events in their sorted order, or the
      failure of the first event that cannot be read. */
  function Output(events: seq<Value>, m: map<string, string>,
                  instant: string -> Option<int>, render: int -> string, lenient: bool): Result<seq<Entry>>
  {
    match ParseAll(events, instant, lenient)
    case Err(f) => Err(f)
    case Ok(es) => Ok(Records(es, m, render))
  }

  /** The normalizer as written: an event without a timestamp makes it raise. */
  function Normalize(table: seq<(string, Value)>, m: map<string, string>,
                     instant: string -> Option<int>, render: int -> string): Result<seq<Entry>>
  {
    NormalizeWith(table, m, instant, render, false)
  }

  /** The collection loop of `process_trace`: every dict with a `path`
      from every table value, a list value element by element. */
  method CollectEvents(table: seq<(string, Value)>) returns (eventList: seq<Value>)
    ensures eventList == Flatten(table)
  {
    eventList := [];
    for t := 0 to |table|
      invariant eventList == Flatten(table[..t])
    {
      var event := table[t].1;
      var events := if event.List? then event.items else [event];
      ghost var done := eventList;
      for e := 0 to |events|
        invariant eventList == done + KeepEvents(events[..e])
      {
        var ev := events[e];
        KeepEventsStep(done, events, e);
        if !ev.Dict? || !HasKey(ev.entries, "path") {
          continue;
        }
        eventList := eventList + [ev];
      }
      assert events[..|events|] == events;
      FlattenStep(table, t);
    }
    assert table[..|table|] == table;
  }

  /** One more element of a group, kept when it is an event. */
  lemma KeepEventsStep(before: seq<Value>, group: seq<Value>, e: nat)
    requires e < |group|
    ensures before + KeepEvents(group[..e + 1])
         == before + KeepEvents(group[..e]) + (if IsEvent(group[e]) then [group[e]] else [])
  {
    assert group[..e + 1][..e] == group[..e];
  }

  /** One more table value adds its events. */
  lemma FlattenStep(table: seq<(string, Value)>, t: nat)
    requires t < |table|
    ensures Flatten(table[..t + 1]) == Flatten(table[..t]) + KeepEvents(Group(table[t].1))
  {
    assert table[..t + 1][..t] == table[..t];
  }

  /** The record of one event as the loop fills it in: `changed_variables`
      and a truthy `result` into `data`, then a truthy `error`. */
  method BuildLine(e: Event, alias: string, render: int -> string) returns (line: Entry)
    ensures line == MakeLine(e, alias, render)
  {
    var data := Data(None, None);
    if e.changed.Some? {
      data := data.(changed := e.changed);
    }
    if Truthy(e.result) {
      data := data.(result := Some(e.result));
    }
    line := Line(render(e.instant), alias, e.path, data, None);
    if e.error.Some? && Truthy(e.error.value) {
      line := line.(error := e.error);
    }
  }

  /** `process_trace` on a loaded trace document: the event table's
      failure, or the normalizer on it. */
  function TraceOutput(doc: Value, m: map<string, string>,
                       instant: string -> Option<int>, render: int -> string): Result<seq<Entry>>
  {
    match TraceTable(doc)
    case Err(f) => Err(f)
    case Ok(table) => Normalize(table, m, instant, render)
  }

  /** `process_trace(trace_file, alias_mapping, timezone=...)` after
      `json.load`: `doc` is the loaded document, `m` the alias mapping. */
  method ProcessTrace(doc: Value, m: map<string, string>,
                      instant: string -> Option<int>, render: int -> string)
    returns (r: Result<seq<Entry>>)
    ensures r == TraceOutput(doc, m, instant, render)
  {
    var found := TraceTable(doc);
    if found.Err? {
      return Err(found.failure);
    }
    var table := found.value;
    var eventList := CollectEvents(table);

    // Sort by timestamp; a key that does not parse makes the sort raise.
    if !Sortable(eventList, instant) {
      return Err(BadTimestamp);
    }
    r := BuildOutput(SortBy(eventList, KeyOf(instant)), m, instant, render);
  }

  /** One pass of the record-building loop for a read event: resolve its
      alias, emit the next iteration marker when its path contains `repeat`,
      then its record. Returns what is appended and the new iteration count. */
  method EmitEvent(e: Event, m: map<string, string>, render: int -> string, iteration: nat)
    returns (chunk: seq<Entry>, next: nat)
    ensures next == iteration + (if IsRepeat(e.path) then 1 else 0)
    ensures chunk == Block(e, next, m, render)
  {
    var alias := LookupAlias(m, e.path);
    chunk := [];
    next := iteration;
    // A path inside a repeat block starts a new iteration.
    if IsRepeat(e.path) {
      next := next + 1;
      chunk := chunk + [Marker(IterationMarker(next))];
    }
    var line := BuildLine(e, alias, render);
    chunk := chunk + [line];
  }

  /** The record-building loop of `process_trace` over the sorted events. */
  method BuildOutput(events: seq<Value>, m: map<string, string>,
                     instant: string -> Option<int>, render: int -> string)
    returns (r: Result<seq<Entry>>)
    ensures r == Output(events, m, instant, render, false)
  {
    var output: seq<Entry> := [];
    var currentIteration := 0;
    ghost var read: seq<Event> := [];
    for k := 0 to |events|
      invariant ParseAll(events[..k], instant, false) == Ok(read)
      invariant output == Records(read, m, render)
      invariant currentIteration == RepeatCount(read)
    {
      var parsed := ParseEvent(events[k], instant, false);
      if parsed.Err? {
        OutputStops(events, k, read, m, instant, render);
        return Err(parsed.failure);
      }
      var e := parsed.value;
      ParseAllStep(events, k, read, instant);
      var chunk;
      chunk, currentIteration := EmitEvent(e, m, render, currentIteration);
      RecordsSnoc(read, e, m, render);
      output := output + chunk;
      read := read + [e];
    }
    assert events[..|events|] == events;
    return Ok(output);
  }

  /** The event at `k` cannot be read after those before it were: the whole
      output is that event's failure. */
  lemma OutputStops(events: seq<Value>, k: nat, read: seq<Event>, m: map<string, string>,
                    instant: string -> Option<int>, render: int -> string)
    requires k < |events| && ParseAll(events[..k], instant, false) == Ok(read)
    requires ParseEvent(events[k], instant, false).Err?
    ensures Output(events, m, instant, render, false) == Err(ParseEvent(events[k], instant, false).failure)
  {
    ParseAllSnoc(events, k, instant, false);
    ParseAllStops(events, k + 1, instant, false);
  }

  /** The event at `k` is read after those before it were. */
  lemma ParseAllStep(events: seq<Value>, k: nat, read: seq<Event>, instant: string -> Option<int>)
    requires k < |events| && ParseAll(events[..k], instant, false) == Ok(read)
    requires ParseEvent(events[k], instant, false).Ok?
    ensures ParseAll(events[..k + 1], instant, false) == Ok(read + [ParseEvent(events[k], instant, false).value])
  {
    ParseAllSnoc(events, k, instant, false);
  }

  lemma ParseAllSnoc(events: seq<Value>, k: nat, instant: string -> Option<int>, lenient: bool)
    requires k < |events|
    ensures ParseAll(events[..k + 1], instant, lenient)
         == match ParseAll(events[..k], instant, lenient)
            case Err(f) => Err(f)
            case Ok(done) =>
              match ParseEvent(events[k], instant, lenient)
              case Err(f) => Err(f)
              case Ok(e) => Ok(done + [e])
  {
    assert events[..k + 1][..k] == events[..k];
  }

  lemma RecordsSnoc(es: seq<Event>, e: Event, m: map<string, string>, render: int -> string)
    ensures RepeatCount(es + [e]) == RepeatCount(es) + (if IsRepeat(e.path) then 1 else 0)
    ensures Records(es + [e], m, render) == Records(es, m, render) + Block(e, RepeatCount(es + [e]), m, render)
  {
    assert (es + [e])[..|es|] == es;
  }

  /** Once a prefix of the events cannot be read, neither can the whole list. */
  lemma {:induction false} ParseAllStops(events: seq<Value>, k: nat, instant: string -> Option<int>, lenient: bool)
    requires k <= |events|
    requires ParseAll(events[..k], instant, lenient).Err?
    ensures ParseAll(events, instant, lenient) == ParseAll(events[..k], instant, lenient)
    decreases |events| - k
  {
    if k < |events| {
      assert events[..k + 1][..k] == events[..k];
      ParseAllStops(events, k + 1, instant, lenient);
    } else {
      assert events[..k] == events;
    }
  }

  // ---------------------------------------------------------------------
  // Properties of the normalizer.

  lemma {:induction false} KeepEventsMembers(group: seq<Value>, ev: Value)
    ensures ev in KeepEvents(group) <==> ev in group && IsEvent(ev)
  {
    if group != [] {
      var prefix := group[..|group| - 1];
      KeepEventsMembers(prefix, ev);
      assert group == prefix + [group[|group| - 1]];
    }
  }

  /** The flat list holds exactly the events (dicts with a `path`) found
      among the table's values, a list value contributing its elements. */
  lemma {:induction false} FlattenMembers(table: seq<(string, Value)>, ev: Value)
    ensures ev in Flatten(table) <==> IsEvent(ev) && exists j :: 0 <= j < |table| && ev in Group(table[j].1)
  {
    if table != [] {
      var prefix := table[..|table| - 1];
      var last := table[|table| - 1];
      FlattenMembers(prefix, ev);
      KeepEventsMembers(Group(last.1), ev);
      assert table == prefix + [last];
      MembersSnoc(ev, prefix, last, Flatten(prefix), KeepEvents(Group(last.1)));
    }
  }

  /** The membership step of `FlattenMembers`, over the two parts of the flat list. */
  lemma MembersSnoc(ev: Value, prefix: seq<(string, Value)>, last: (string, Value), front: seq<Value>, block: seq<Value>)
    requires ev in front <==> IsEvent(ev) && exists j :: 0 <= j < |prefix| && ev in Group(prefix[j].1)
    requires ev in block <==> ev in Group(last.1) && IsEvent(ev)
    ensures ev in front + block <==>
      IsEvent(ev) && exists j :: 0 <= j < |prefix + [last]| && ev in Group((prefix + [last])[j].1)
  {
    var table := prefix + [last];
    if IsEvent(ev) && exists j :: 0 <= j < |table| && ev in Group(table[j].1) {
      var j :| 0 <= j < |table| && ev in Group(table[j].1);
      if j < |prefix| {
        assert prefix[j] == table[j];
      }
    }
    if ev in front {
      var j :| 0 <= j < |prefix| && ev in Group(prefix[j].1);
      assert table[j] == prefix[j];
    }
    if ev in block {
      assert table[|prefix|] == last;
    }
  }

  lemma {:induction false} FlattenConcat(a: seq<(string, Value)>, b: seq<(string, Value)>)
    ensures Flatten(a + b) == Flatten(a) + Flatten(b)
    decreases |b|
  {
    if b == [] {
      assert a + b == a;
    } else {
      var front := b[..|b| - 1];
      var last := b[|b| - 1];
      var block := KeepEvents(Group(last.1));
      assert a + b == (a + front) + [last];
      FlattenSingle(a + front, last);
      FlattenConcat(a, front);
      AppendAssoc(Flatten(a), Flatten(front), block);
    }
  }

  /** The events of each table value form one block of the flat list, in
      their list order, between those of the values before and after it. */
  lemma FlattenBlocks(before: seq<(string, Value)>, item: (string, Value), after: seq<(string, Value)>)
    ensures Flatten(before + [item] + after) == Flatten(before) + KeepEvents(Group(item.1)) + Flatten(after)
  {
    FlattenConcat(before + [item], after);
    FlattenSingle(before, item);
  }

  lemma FlattenSingle(before: seq<(string, Value)>, item: (string, Value))
    ensures Flatten(before + [item]) == Flatten(before) + KeepEvents(Group(item.1))
  {
    assert (before + [item])[..|before|] == before;
  }

  /** The events are all read exactly when each one is readable; the
      events read correspond one to one, in order. */
  lemma {:induction false} ParseAllOk(events: seq<Value>, instant: string -> Option<int>, lenient: bool)
    ensures ParseAll(events, instant, lenient).Ok? <==>
      forall i | 0 <= i < |events| :: ParseEvent(events[i], instant, lenient).Ok?
    ensures ParseAll(events, instant, lenient).Ok? ==>
      var es := ParseAll(events, instant, lenient).value;
      |es| == |events| && forall i | 0 <= i < |es| :: ParseEvent(events[i], instant, lenient) == Ok(es[i])
  {
    if events != [] {
      var prefix := events[..|events| - 1];
      var last := events[|events| - 1];
      ParseAllOk(prefix, instant, lenient);
      match ParseAll(prefix, instant, lenient)
      case Err(_) =>
        var i :| 0 <= i < |prefix| && !ParseEvent(prefix[i], instant, lenient).Ok?;
        assert events[i] == prefix[i];
      case Ok(done) =>
        match ParseEvent(last, instant, lenient)
        case Err(_) =>
        case Ok(e) =>
          forall i | 0 <= i < |events|
            ensures ParseEvent(events[i], instant, lenient) == Ok((done + [e])[i])
          {
            if i < |prefix| {
              assert events[i] == prefix[i];
            }
          }
    }
  }

  /** The normalizer succeeds exactly when every collected event is readable. */
  lemma NormalizeSucceeds(table: seq<(string, Value)>, m: map<string, string>,
                          instant: string -> Option<int>, render: int -> string, lenient: bool)
    ensures NormalizeWith(table, m, instant, render, lenient).Ok? <==>
      forall ev | ev in Flatten(table) :: Readable(ev, instant, lenient)
  {
    var events := Flatten(table);
    if forall ev | ev in events :: Readable(ev, instant, lenient) {
      assert Sortable(events, instant) by {
        forall i | 0 <= i < |events| ensures SortKey(events[i], instant).Some? {
          assert events[i] in events;
        }
      }
      var sorted := SortBy(events, KeyOf(instant));
      SortByPermutes(events, KeyOf(instant));
      forall i | 0 <= i < |sorted| ensures ParseEvent(sorted[i], instant, lenient).Ok? {
        assert sorted[i] in multiset(events);
        ParseEventOk(sorted[i], instant, lenient);
      }
      ParseAllOk(sorted, instant, lenient);
    } else {
      var ev :| ev in events && !Readable(ev, instant, lenient);
      if Sortable(events, instant) {
        var sorted := SortBy(events, KeyOf(instant));
        SortByPermutes(events, KeyOf(instant));
        assert ev in multiset(sorted);
        var i :| 0 <= i < |sorted| && sorted[i] == ev;
        ParseEventOk(ev, instant, lenient);
        ParseAllOk(sorted, instant, lenient);
      }
    }
  }

  /** On success the output is the records of the collected events, read in
      a stable timestamp order: a permutation of the collected events,
      ordered by instant, keeping the collection order among equal instants. */
  lemma NormalizeOrder(table: seq<(string, Value)>, m: map<string, string>,
                       instant: string -> Option<int>, render: int -> string, lenient: bool)
    returns (sorted: seq<Value>, es: seq<Event>)
    requires NormalizeWith(table, m, instant, render, lenient).Ok?
    ensures multiset(sorted) == multiset(Flatten(table))
    ensures forall k :: WithKey(sorted, KeyOf(instant), k) == WithKey(Flatten(table), KeyOf(instant), k)
    ensures |es| == |sorted| && forall i | 0 <= i < |es| :: ParseEvent(sorted[i], instant, lenient) == Ok(es[i])
    ensures forall i, j | 0 <= i < j < |es| :: es[i].instant <= es[j].instant
    ensures NormalizeWith(table, m, instant, render, lenient) == Ok(Records(es, m, render))
  {
    var events := Flatten(table);
    sorted := SortBy(events, KeyOf(instant));
    SortByPermutes(events, KeyOf(instant));
    SortBySorted(events, KeyOf(instant));
    forall k ensures WithKey(sorted, KeyOf(instant), k) == WithKey(events, KeyOf(instant), k) {
      SortByStable(events, KeyOf(instant), k);
    }
    ParseAllOk(sorted, instant, lenient);
    es := ParseAll(sorted, instant, lenient).value;
    forall i, j | 0 <= i < j < |es| ensures es[i].instant <= es[j].instant {
      ParseEventOk(sorted[i], instant, lenient);
      ParseEventOk(sorted[j], instant, lenient);
    }
  }

  /** One marker per event inside a repeat block, one record per event. */
  lemma {:induction false} RecordsLength(es: seq<Event>, m: map<string, string>, render: int -> string)
    ensures |Records(es, m, render)| == |es| + RepeatCount(es)
  {
    if es != [] {
      RecordsLength(es[..|es| - 1], m, render);
    }
  }

  lemma {:induction false} RecordsEndWithLine(es: seq<Event>, m: map<string, string>, render: int -> string)
    requires es != []
    ensures Records(es, m, render) != [] && Records(es, m, render)[|Records(es, m, render)| - 1].Line?
  {
  }

  /** Event `j` of `es` is laid out in `out` as the records promise: its
      record at position `j + n`, where `n` counts the repeat events up to
      and including it; directly before it the marker numbered `n` when its
      path contains `repeat`, and otherwise another record or nothing. */
  predicate LaidOut(out: seq<Entry>, es: seq<Event>, j: nat, m: map<string, string>, render: int -> string)
    requires j < |es|
  {
    PlacedAt(out, es[j], j + RepeatCount(es[..j + 1]), RepeatCount(es[..j + 1]), m, render)
  }

  /** The record of `e` at position `pos` of `out`, preceded by the marker
      numbered `n` when `e` is a repeat event, and otherwise by another record
      or nothing. */
  predicate PlacedAt(out: seq<Entry>, e: Event, pos: nat, n: nat, m: map<string, string>, render: int -> string) {
    && pos < |out|
    && out[pos] == MakeLine(e, ResolveAlias(m, e.path), render)
    && (IsRepeat(e.path) ==> pos >= 1 && out[pos - 1] == Marker(IterationMarker(n)))
    && (!IsRepeat(e.path) ==> pos == 0 || out[pos - 1].Line?)
  }

  /** Where each event lands in the output. */
  lemma {:induction false} RecordsLayout(es: seq<Event>, m: map<string, string>, render: int -> string, j: nat)
    requires j < |es|
    ensures LaidOut(Records(es, m, render), es, j, m, render)
  {
    if j < |es| - 1 {
      var prefix := es[..|es| - 1];
      RecordsLayout(prefix, m, render, j);
      assert prefix[..j + 1] == es[..j + 1];
      LaidOutExtends(Records(prefix, m, render), Block(es[|es| - 1], RepeatCount(es), m, render), es, j, m, render);
    } else {
      RecordsLayoutLast(es, m, render);
    }
  }

  lemma LaidOutExtends(before: seq<Entry>, block: seq<Entry>, es: seq<Event>, j: nat, m: map<string, string>, render: int -> string)
    requires j < |es| - 1
    requires LaidOut(before, es[..|es| - 1], j, m, render)
    ensures LaidOut(before + block, es, j, m, render)
  {
    assert es[..|es| - 1][..j + 1] == es[..j + 1];
    assert es[..|es| - 1][j] == es[j];
  }

  lemma RecordsLayoutLast(es: seq<Event>, m: map<string, string>, render: int -> string)
    requires es != []
    ensures LaidOut(Records(es, m, render), es, |es| - 1, m, render)
  {
    var j := |es| - 1;
    var prefix := es[..j];
    RecordsLength(prefix, m, render);
    if prefix != [] {
      RecordsEndWithLine(prefix, m, render);
    }
    assert es[..j + 1] == es;
    BlockLaidOut(Records(prefix, m, render), es[j], j, RepeatCount(es), m, render);
  }

  /** The block of an event `e`, appended after the records of the `j`
      events before it, puts its record at `j + n` and, when `e` is a repeat
      event, the marker numbered `n` just before it. */
  lemma BlockLaidOut(before: seq<Entry>, e: Event, j: nat, n: nat, m: map<string, string>, render: int -> string)
    requires |before| + (if IsRepeat(e.path) then 1 else 0) == j + n
    requires before == [] || before[|before| - 1].Line?
    ensures PlacedAt(before + Block(e, n, m, render), e, j + n, n, m, render)
  {
    var block := Block(e, n, m, render);
    var out := before + block;
    if IsRepeat(e.path) {
      assert out[j + n] == block[1];
      assert out[j + n - 1] == block[0];
    } else {
      assert out[j + n] == block[0];
      if j + n > 0 {
        assert out[j + n - 1] == before[|before| - 1];
      }
    }
  }

  /** Alias resolution, case by case: a truthy label of the path itself
      wins; otherwise the first rewrite (in the fixed order) that names a
      key decides: its label if truthy, else the path; with no such
      rewrite, the path. */
  lemma ResolveAliasCases(m: map<string, string>, path: string)
    ensures path in m && m[path] != "" ==> ResolveAlias(m, path) == m[path]
    ensures !(path in m && m[path] != "") && (forall i | 0 <= i < |Rewrites| :: Variation(path, i) !in m)
            ==> ResolveAlias(m, path) == path
    ensures forall i | 0 <= i < |Rewrites| && !(path in m && m[path] != "") && Variation(path, i) in m
                       && (forall h | 0 <= h < i :: Variation(path, h) !in m)
            :: ResolveAlias(m, path) == (if m[Variation(path, i)] != "" then m[Variation(path, i)] else path)
  {
    var vs := Variations(path);
    if FirstKnown(vs, m).Some? {
      var f := FirstKnown(vs, m).value;
      forall i | 0 <= i < |Rewrites| && Variation(path, i) in m && (forall h | 0 <= h < i :: Variation(path, h) !in m)
        ensures i == f
      {
        assert vs[i] in m && vs[f] in m;
      }
    }
  }

  /** A path in which none of the six patterns occurs is its own variation
      under every rewrite. */
  lemma VariationsUnchanged(path: string)
    requires forall i | 0 <= i < |Rewrites| :: !Contains(path, Rewrites[i].0)
    ensures forall i | 0 <= i < |Rewrites| :: Variation(path, i) == path
  {
    forall i | 0 <= i < |Rewrites| ensures Variation(path, i) == path {
      ReplaceAllAbsent(path, Rewrites[i].0, Rewrites[i].1);
    }
  }

  /** `str.replace` rewrites every occurrence, not just the first: both
      `action/` segments of `action/<u>action/<v>` become `actions/`. */
  lemma VariationReplacesEvery(u: string, v: string)
    requires forall k | 0 <= k < |u| :: u[k] != 'a'
    requires !Contains(v, "action/")
    ensures Variation("action/" + u + "action/" + v, 0) == "actions/" + u + "actions/" + v
  {
    var pat, rep := "action/", "actions/";
    assert Rewrites[0] == (pat, rep);
    ReplaceAllAbsent(v, pat, rep);
    ReplaceAllFront(pat, rep, v);
    ReplaceAllSkip(pat, rep, u, pat + v);
    ReplaceAllFront(pat, rep, u + (pat + v));
    AppendAssoc(pat + u, pat, v);
    AppendAssoc(pat, u, pat + v);
    AppendAssoc(rep + u, rep, v);
    AppendAssoc(rep, u, rep + v);
  }

  /** A step recorded under the plural key resolves from the singular path. */
  lemma PluralExample()
    ensures ResolveAlias(map["actions/0" := "Turn on light"], "action/0") == "Turn on light"
  {
    var m := map["actions/0" := "Turn on light"];
    assert ReplaceAll("0", "action/", "actions/") == "0";
    assert Variation("action/0", 0) == "actions/0";
    assert Variations("action/0")[0] in m;
  }

  /** Three events, the first and last inside a repeat block: markers 1
      and 2 precede them, the middle one gets none. */
  lemma IterationExample(e0: Event, e1: Event, e2: Event, m: map<string, string>, render: int -> string)
    requires IsRepeat(e0.path) && !IsRepeat(e1.path) && IsRepeat(e2.path)
    ensures Records([e0, e1, e2], m, render) == [
      Marker("\n[ITERATION 1]"), MakeLine(e0, ResolveAlias(m, e0.path), render),
      MakeLine(e1, ResolveAlias(m, e1.path), render),
      Marker("\n[ITERATION 2]"), MakeLine(e2, ResolveAlias(m, e2.path), render)]
  {
    IterationExampleStart(e0, e1, m, render);
    var two := IterationMarker(2);
    assert two == "\n[ITERATION 2]" by {
      assert NatToString(2) == [Digit(2)] == "2";
    }
    var front := [e0, e1];
    RecordsSnoc(front, e2, m, render);
    assert front + [e2] == [e0, e1, e2];
    assert RepeatCount([e0, e1, e2]) == 2;
    var block := Block(e2, 2, m, render);
    assert block == [Marker(two), MakeLine(e2, ResolveAlias(m, e2.path), render)];
    assert Records([e0, e1, e2], m, render) == Records(front, m, render) + block;
  }

  lemma IterationExampleStart(e0: Event, e1: Event, m: map<string, string>, render: int -> string)
    requires IsRepeat(e0.path) && !IsRepeat(e1.path)
    ensures RepeatCount([e0, e1]) == 1
    ensures Records([e0, e1], m, render) == [
      Marker("\n[ITERATION 1]"), MakeLine(e0, ResolveAlias(m, e0.path), render),
      MakeLine(e1, ResolveAlias(m, e1.path), render)]
  {
    assert IterationMarker(1) == "\n[ITERATION 1]" by {
      assert NatToString(1) == [Digit(1)] == "1";
    }
    RecordsSnoc([], e0, m, render);
    assert [] + [e0] == [e0];
    RecordsSnoc([e0], e1, m, render);
    assert [e0] + [e1] == [e0, e1];
  }

  // ---------------------------------------------------------------------
  // An event without a timestamp.

  /** The normalizer with an event that has no timestamp read at the sort
      key's default instant 0. */
  function NormalizeIntended(table: seq<(string, Value)>, m: map<string, string>,
                             instant: string -> Option<int>, render: int -> string): Result<seq<Entry>>
  {
    NormalizeWith(table, m, instant, render, true)
  }

  /** A one-event table whose event has a path and no timestamp. */
  const Untimed: Value := Dict([("path", Str("action/0"))])

  lemma UntimedCollected()
    ensures Flatten([("action/0", Untimed)]) == [Untimed]
  {
    assert IsEvent(Untimed) by { assert Untimed.entries[0].0 == "path"; }
    assert KeepEvents([Untimed]) == [Untimed] by {
      assert [Untimed][..0] == [];
    }
    assert [("action/0", Untimed)][..0] == [];
  }

  lemma UntimedSorted(instant: string -> Option<int>)
    ensures Field(Untimed, "timestamp") == None
    ensures SortKey(Untimed, instant) == Some(0)
    ensures Sortable([Untimed], instant)
    ensures SortBy([Untimed], KeyOf(instant)) == [Untimed]
  {
    assert Untimed.entries[1..] == [];
    assert [Untimed][..0] == [];
  }

  /** As written, the sort accepts the untimed event (key 0) and then the
      record loop raises on it. */
  lemma MissingTimestampRaises(m: map<string, string>, instant: string -> Option<int>, render: int -> string)
    ensures SortKey(Untimed, instant) == Some(0)
    ensures Normalize([("action/0", Untimed)], m, instant, render) == Err(MissingTimestamp)
  {
    UntimedCollected();
    UntimedSorted(instant);
    assert ParseEvent(Untimed, instant, false) == Err(MissingTimestamp);
    assert ParseAll([Untimed], instant, false) == Err(MissingTimestamp) by {
      assert [Untimed][..0] == [];
    }
  }

  /** The reading of `Untimed` at the default instant. */
  const UntimedEvent: Event := Event(0, "action/0", None, EmptyDict, None)

  lemma UntimedRead(instant: string -> Option<int>)
    ensures ParseAll([Untimed], instant, true) == Ok([UntimedEvent])
  {
    assert ParseEvent(Untimed, instant, true) == Ok(UntimedEvent) by {
      assert Untimed.entries[1..] == [];
      assert Field(Untimed, "path") == Some(Str("action/0"));
      assert Field(Untimed, "changed_variables") == None;
      assert Field(Untimed, "error") == None;
      assert LookupOr(Untimed.entries, "result", EmptyDict) == EmptyDict;
    }
    assert [Untimed][..0] == [];
    assert ParseAll([], instant, true) == Ok([]);
    assert [] + [UntimedEvent] == [UntimedEvent];
  }

  lemma UntimedRecord(m: map<string, string>, render: int -> string)
    ensures Records([UntimedEvent], m, render) == [MakeLine(UntimedEvent, ResolveAlias(m, "action/0"), render)]
  {
    assert !IsRepeat("action/0") by {
      assert forall i | 0 <= i < |"action/0"| :: "action/0"[i] != "repeat"[0];
      AbsentFirstChar("action/0", "repeat");
    }
    assert [UntimedEvent][..0] == [];
  }

  /** With the default instant, the untimed event gets its record, rendered
      at instant 0. */
  lemma MissingTimestampIntended(m: map<string, string>, instant: string -> Option<int>, render: int -> string)
    ensures NormalizeIntended([("action/0", Untimed)], m, instant, render)
         == Ok([MakeLine(Event(0, "action/0", None, EmptyDict, None), ResolveAlias(m, "action/0"), render)])
  {
    UntimedCollected();
    UntimedSorted(instant);
    UntimedRead(instant);
    UntimedRecord(m, render);
  }

  /** The intended normalizer fails only on a timestamp that does not parse
      or a path that is not a string. */
  lemma IntendedSucceeds(table: seq<(string, Value)>, m: map<string, string>,
                         instant: string -> Option<int>, render: int -> string)
    ensures NormalizeIntended(table, m, instant, render).Ok? <==>
      forall ev | ev in Flatten(table) :: SortKey(ev, instant).Some? && Field(ev, "path").Some? && Field(ev, "path").value.Str?
  {
    NormalizeSucceeds(table, m, instant, render, true);
  }
}
