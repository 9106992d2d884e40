/** `format_output`: the processed entries as display text, one string per
    entry. An iteration marker is kept as it is; a record becomes a header
    line `timestamp | alias | path`, one indented line per item of its data
    dict, and an indented `[ERROR]` line when it carries an error. */
module Formatter {
  import opened Values
  import opened Strings
  import opened TraceNormalizer

  /** What precedes each detail line and the error line. */
  const Indent: string := "\n  "

  /** One detail: `key: value`, a dict value written by
      `json.dumps(value, indent=2, ensure_ascii=False)` (passed in as
      `dumps`), any other value by `str()`. */
  function Detail(key: string, v: Value, dumps: Value -> string, repr: Value -> string): string {
    key + ": " + (if v.Dict? then dumps(v) else Show(v, repr))
  }

  function Details(items: seq<(string, Value)>, dumps: Value -> string, repr: Value -> string): (r: seq<string>)
    ensures |r| == |items|
  {
    seq(|items|, i requires 0 <= i < |items| => Detail(items[i].0, items[i].1, dumps, repr))
  }

  /** `timestamp | alias | path`. */
  function Header(timestamp: string, alias: string, path: string): string {
    timestamp + " | " + alias + " | " + path
  }

  /** The display text of one entry. */
  function FormatEntry(entry: Entry, dumps: Value -> string, repr: Value -> string): string {
    match entry
    case Marker(text) => text
    case Line(timestamp, alias, path, data, error) =>
      var details := Details(Items(data), dumps, repr);
      var withDetails :=
        if details != [] then Header(timestamp, alias, path) + Indent + Join(Indent, details)
        else Header(timestamp, alias, path);
      if error.Some? then withDetails + Indent + "[ERROR] " + Show(error.value, repr) else withDetails
  }

  /** The loop over `entry['data'].items()`. */
  method FormatDetails(items: seq<(string, Value)>, dumps: Value -> string, repr: Value -> string)
    returns (details: seq<string>)
    ensures details == Details(items, dumps, repr)
  {
    details := [];
    for d := 0 to |items|
      invariant |details| == d
      invariant forall i | 0 <= i < d :: details[i] == Detail(items[i].0, items[i].1, dumps, repr)
    {
      var (key, value) := items[d];
      if value.Dict? {
        details := details + [key + ": " + dumps(value)];
      } else {
        details := details + [key + ": " + Show(value, repr)];
      }
    }
  }

  /** `format_output(processed_data)`: one string per entry, in order. */
  method FormatOutput(entries: seq<Entry>, dumps: Value -> string, repr: Value -> string)
    returns (output: seq<string>)
    ensures |output| == |entries|
    ensures forall i | 0 <= i < |entries| :: output[i] == FormatEntry(entries[i], dumps, repr)
  {
    output := [];
    for k := 0 to |entries|
      invariant |output| == k
      invariant forall i | 0 <= i < k :: output[i] == FormatEntry(entries[i], dumps, repr)
    {
      var entry := entries[k];
      if entry.Marker? {
        output := output + [entry.text];
        continue;
      }
      var line := entry.timestamp + " | " + entry.alias + " | " + entry.path;
      var details := FormatDetails(Items(entry.data), dumps, repr);
      if details != [] {
        line := line + Indent + Join(Indent, details);
      }
      if entry.error.Some? {
        line := line + Indent + "[ERROR] " + Show(entry.error.value, repr);
      }
      output := output + [line];
    }
  }

  // ---------------------------------------------------------------------
  // Layout of the formatted text.

  /** A record's text is its header, then each detail on its own indented
      line in the data dict's order, then the indented error line if any. */
  lemma LineLayout(entry: Entry, dumps: Value -> string, repr: Value -> string)
    requires entry.Line?
    ensures FormatEntry(entry, dumps, repr)
         == Header(entry.timestamp, entry.alias, entry.path)
          + Prefixed(Indent, Details(Items(entry.data), dumps, repr))
          + (if entry.error.Some? then Indent + "[ERROR] " + Show(entry.error.value, repr) else "")
  {
    var details := Details(Items(entry.data), dumps, repr);
    var header := Header(entry.timestamp, entry.alias, entry.path);
    var withDetails := if details != [] then header + Indent + Join(Indent, details) else header;
    if details != [] {
      JoinPrefixed(Indent, details);
      AppendAssoc(header, Indent, Join(Indent, details));
    } else {
      assert header + Prefixed(Indent, details) == header;
    }
    if entry.error.Some? {
      var shown := Show(entry.error.value, repr);
      AppendAssoc(withDetails, Indent, "[ERROR] ");
      AppendAssoc(withDetails, Indent + "[ERROR] ", shown);
    } else {
      assert withDetails + "" == withDetails;
    }
  }

  /** The record of an event, formatted: the rendered time, the alias and
      the path; then `changed_variables` when the event has it, `result`
      when it is truthy, each on its own indented line; then the error line
      when the error is truthy. */
  lemma FormattedRecord(e: Event, alias: string, render: int -> string,
                        dumps: Value -> string, repr: Value -> string)
    ensures FormatEntry(MakeLine(e, alias, render), dumps, repr)
         == Header(render(e.instant), alias, e.path)
          + (if e.changed.Some? then Indent + Detail("changed_variables", e.changed.value, dumps, repr) else "")
          + (if Truthy(e.result) then Indent + Detail("result", e.result, dumps, repr) else "")
          + (if e.error.Some? && Truthy(e.error.value) then Indent + "[ERROR] " + Show(e.error.value, repr) else "")
  {
    LineLayout(MakeLine(e, alias, render), dumps, repr);
    DataLines(e, dumps, repr);
  }

  lemma DataLines(e: Event, dumps: Value -> string, repr: Value -> string)
    ensures Prefixed(Indent, Details(Items(DataBag(e)), dumps, repr))
         == (if e.changed.Some? then Indent + Detail("changed_variables", e.changed.value, dumps, repr) else "")
          + (if Truthy(e.result) then Indent + Detail("result", e.result, dumps, repr) else "")
  {
    var details := Details(Items(DataBag(e)), dumps, repr);
    if e.changed.Some? && Truthy(e.result) {
      var c := Detail("changed_variables", e.changed.value, dumps, repr);
      var r := Detail("result", e.result, dumps, repr);
      assert details == [c, r];
      assert details[1..] == [r] && [r][1..] == [];
      assert Prefixed(Indent, [r]) == Indent + r;
    } else if e.changed.Some? || Truthy(e.result) {
      assert |details| == 1 && details[1..] == [];
    }
  }

  /** A record with an empty data dict and no error is its header alone. */
  lemma BareLine(entry: Entry, dumps: Value -> string, repr: Value -> string)
    requires entry.Line? && entry.data == Data(None, None) && entry.error.None?
    ensures FormatEntry(entry, dumps, repr) == Header(entry.timestamp, entry.alias, entry.path)
  {
    assert Items(entry.data) == [];
  }

  /** The header starts every record's text, and an error line ends it. */
  lemma LineBoundaries(entry: Entry, dumps: Value -> string, repr: Value -> string)
    requires entry.Line?
    ensures StartsWith(FormatEntry(entry, dumps, repr), Header(entry.timestamp, entry.alias, entry.path))
    ensures entry.error.Some? ==>
      var text := FormatEntry(entry, dumps, repr);
      var tail := Indent + "[ERROR] " + Show(entry.error.value, repr);
      |tail| <= |text| && text[|text| - |tail|..] == tail
  {
    var header := Header(entry.timestamp, entry.alias, entry.path);
    var text := FormatEntry(entry, dumps, repr);
    LineLayout(entry, dumps, repr);
    var rest := Prefixed(Indent, Details(Items(entry.data), dumps, repr))
      + (if entry.error.Some? then Indent + "[ERROR] " + Show(entry.error.value, repr) else "");
    assert text == header + rest;
    assert text[..|header|] == header;
  }
}
