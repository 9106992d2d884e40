/** The alias mapper of `load_automation`: a recursive walk over the
    automation definition that writes, into one shared dict, a display label
    for every structural path it reaches. */
module AliasMapper {
  import opened Values
  import opened Strings

  /** The nearest explicit alias above a node, with the path where it was set
      (`nearest_alias`, `nearest_alias_path`); `NoAlias` when there is none. */
  datatype Context = NoAlias | Nearest(alias: string, at: string)

  /** One `mapping[path] = label` assignment. */
  type Write = (string, string)

  /** Path of the list element at index `i`: `base/i`, or `sequence/i` when the base is empty. */
  function IndexPath(base: string, i: nat): (p: string)
    ensures p != ""
  {
    if base != "" then base + "/" + NatToString(i) else "sequence/" + NatToString(i)
  }

  /** Path of the dict value under `key`: `base/key`, or just `key` when the base is empty. */
  function KeyPath(base: string, key: string): string {
    if base != "" then base + "/" + key else key
  }

  /** The text of a node's own truthy `alias`, if it has one. An alias that is
      itself a list or dict is not taken (see README). */
  function OwnAlias(v: Value): Option<string> {
    match v
    case Dict(entries) =>
      (match Lookup(entries, "alias")
       case Some(Str(s)) => if s != "" then Some(s) else None
       case Some(Scalar(text, truthy)) => if truthy then Some(text) else None
       case _ => None)
    case _ => None
  }

  /** Only a dict with an `alias` key has an alias of its own. */
  lemma OwnAliasNeedsKey(v: Value)
    ensures OwnAlias(v).Some? ==> v.Dict? && HasKey(v.entries, "alias")
  {
    if v.Dict? {
      LookupFinds(v.entries, "alias");
    }
  }

  /** The label of a node without an alias of its own: the nearest alias
      followed by `//` and the node's path relative to where that alias was
      set, or the path itself when there is no alias above. */
  function Label(ctx: Context, path: string): string {
    match ctx
    case Nearest(alias, at) =>
      alias + "//" + (if at != "" then LStripSlash(Drop(path, |at|)) else path)
    case NoAlias => path
  }

  // ---------------------------------------------------------------------
  // The nodes the walk reaches, and what it assigns to each.

  /** A node the walk reaches: the value `node` at `path`, inside the
      enclosing nodes `outer`. */
  datatype Visit = Visit(outer: Scope, node: Value, path: string)

  /** The enclosing nodes at a point of the walk: none at a top-level key,
      otherwise the innermost dict or list element. */
  datatype Scope = Top | Within(visit: Visit)

  /** The alias a node sets for what lies below it: its own, which counts
      only under a non-empty path (a dict walked under an empty base ignores
      it). */
  function AliasAt(path: string, node: Value): Option<string> {
    if path != "" then OwnAlias(node) else None
  }

  /** `nearest_alias` and `nearest_alias_path` inside a scope: the alias of
      the innermost enclosing node that sets one, and that node's path. */
  function Inherited(s: Scope): Context
    decreases s
  {
    match s
    case Top => NoAlias
    case Within(Visit(outer, node, path)) =>
      match AliasAt(path, node)
      case Some(alias) => Nearest(alias, path)
      case None => Inherited(outer)
  }

  /** The assignment made for a node: its own alias when it has one,
      otherwise the label that the context around it gives its path. */
  function Assignment(x: Visit): Write {
    match AliasAt(x.path, x.node)
    case Some(alias) => (x.path, alias)
    case None => (x.path, Label(Inherited(x.outer), x.path))
  }

  // ---------------------------------------------------------------------
  // The walk, as the ordered sequence of nodes it assigns a label to.

  /** Every node `map_steps(base, v, ...)` assigns a label to, in order,
      when called inside the scope `outer`. */
  function Entries(base: string, v: Value, outer: Scope): seq<Visit>
    decreases v, 2, 0
  {
    match v
    case List(items) => ListEntries(base, v, |items|, outer)
    case Dict(entries) =>
      var here := Visit(outer, v, base);
      (if base != "" then [here] else []) + FieldEntries(base, v, |entries|, Within(here))
    case _ => []
  }

  /** The nodes labelled for the first `n` elements of a list. */
  function ListEntries(base: string, v: Value, n: nat, outer: Scope): seq<Visit>
    requires v.List? && n <= |v.items|
    decreases v, 1, n
  {
    if n == 0 then []
    else ListEntries(base, v, n - 1, outer) + ElementEntries(base, n - 1, v.items[n - 1], outer)
  }

  /** The nodes labelled for the list element `step` at index `i`: the
      element itself, then, when it is a dict, those below each of its values. */
  function ElementEntries(base: string, i: nat, step: Value, outer: Scope): seq<Visit>
    decreases step, 2, 0
  {
    var here := Visit(outer, step, IndexPath(base, i));
    [here] + (if step.Dict? then FieldEntries(here.path, step, |step.entries|, Within(here)) else [])
  }

  /** The nodes labelled below the values under the first `n` keys of a dict. */
  function FieldEntries(base: string, d: Value, n: nat, scope: Scope): seq<Visit>
    requires d.Dict? && n <= |d.entries|
    decreases d, 1, n
  {
    if n == 0 then []
    else FieldEntries(base, d, n - 1, scope) + Entries(KeyPath(base, d.entries[n - 1].0), d.entries[n - 1].1, scope)
  }

  /** The root loop walks a top-level key when it is named `sequence` or holds a list or dict. */
  predicate Walked(key: string, value: Value) {
    key == "sequence" || value.List? || value.Dict?
  }

  /** The nodes labelled by the root loop over the first `n` top-level keys. */
  function RootEntries(top: seq<(string, Value)>, n: nat): seq<Visit>
    requires n <= |top|
  {
    if n == 0 then []
    else
      var (key, value) := top[n - 1];
      RootEntries(top, n - 1) + (if Walked(key, value) then Entries(key, value, Top) else [])
  }

  /** The dict after performing, in order, the assignments made for `xs`. */
  function Apply(m: map<string, string>, xs: seq<Visit>): map<string, string> {
    if xs == [] then m
    else
      var w := Assignment(xs[|xs| - 1]);
      Apply(m, xs[..|xs| - 1])[w.0 := w.1]
  }

  // ---------------------------------------------------------------------
  // The walk, as the dict it leaves behind.

  /** The dict `m` after `map_steps(base, v, m, ...)` called inside the scope `outer`. */
  function AfterSteps(m: map<string, string>, base: string, v: Value, outer: Scope): map<string, string>
    decreases v, 2, 0
  {
    match v
    case List(items) => AfterList(m, base, v, |items|, outer)
    case Dict(entries) =>
      var here := Visit(outer, v, base);
      AfterFields(if base != "" then m[base := Assignment(here).1] else m, base, v, |entries|, Within(here))
    case _ => m
  }

  /** The dict after the first `n` rounds of the list loop. */
  function AfterList(m: map<string, string>, base: string, v: Value, n: nat, outer: Scope): map<string, string>
    requires v.List? && n <= |v.items|
    decreases v, 1, n
  {
    if n == 0 then m
    else AfterElement(AfterList(m, base, v, n - 1, outer), base, n - 1, v.items[n - 1], outer)
  }

  /** The dict after the round of the list loop for the element `step` at index `i`. */
  function AfterElement(m: map<string, string>, base: string, i: nat, step: Value, outer: Scope): map<string, string>
    decreases step, 2, 0
  {
    var here := Visit(outer, step, IndexPath(base, i));
    var labelled := m[here.path := Assignment(here).1];
    if step.Dict? then AfterFields(labelled, here.path, step, |step.entries|, Within(here)) else labelled
  }

  /** The dict after the first `n` rounds of the loop over a dict's keys. */
  function AfterFields(m: map<string, string>, base: string, d: Value, n: nat, scope: Scope): map<string, string>
    requires d.Dict? && n <= |d.entries|
    decreases d, 1, n
  {
    if n == 0 then m
    else AfterSteps(AfterFields(m, base, d, n - 1, scope), KeyPath(base, d.entries[n - 1].0), d.entries[n - 1].1, scope)
  }

  /** The dict after the first `n` rounds of the root loop, starting from `{}`. */
  function AfterRoot(top: seq<(string, Value)>, n: nat): map<string, string>
    requires n <= |top|
  {
    if n == 0 then map[]
    else
      var (key, value) := top[n - 1];
      if Walked(key, value) then AfterSteps(AfterRoot(top, n - 1), key, value, Top) else AfterRoot(top, n - 1)
  }

  /** The dict `load_automation` returns for the top-level entries `top`. */
  function AliasMapping(top: seq<(string, Value)>): map<string, string> {
    AfterRoot(top, |top|)
  }

  // ---------------------------------------------------------------------
  // The mutable mapping and the walk that fills it.

  /** The shared `mapping` dict that `map_steps` fills by reference. The
      methods carry `nearest_alias` and `nearest_alias_path` as `ctx`, as the
      source does; the ghost `outer` is the scope they stand for. */
  class Mapper {
    var mapping: map<string, string>

    constructor ()
      ensures mapping == map[]
    {
      mapping := map[];
    }

    /** `map_steps(base, steps, mapping, nearest_alias, nearest_alias_path)`:
        lists and dicts are walked, any other value is left alone. */
    method MapSteps(base: string, steps: Value, ctx: Context, ghost outer: Scope)
      requires Inherited(outer) == ctx
      modifies this
      ensures mapping == AfterSteps(old(mapping), base, steps, outer)
      decreases steps, 3
    {
      match steps {
        case List(_) => MapList(base, steps, ctx, outer);
        case Dict(_) => MapDict(base, steps, ctx, outer);
        case _ =>
      }
    }

    /** The list branch: `for idx, step in enumerate(steps)`. */
    method MapList(base: string, steps: Value, ctx: Context, ghost outer: Scope)
      requires steps.List? && Inherited(outer) == ctx
      modifies this
      ensures mapping == AfterList(old(mapping), base, steps, |steps.items|, outer)
      decreases steps, 2
    {
      ghost var m0 := mapping;
      for idx := 0 to |steps.items|
        invariant mapping == AfterList(m0, base, steps, idx, outer)
      {
        MapElement(base, idx, steps.items[idx], ctx, outer);
      }
    }

    /** The body of the list loop for the element `step` at index `idx`: the
        element gets an assignment, and a dict element has each of its values
        walked under the element's path. */
    method MapElement(base: string, idx: nat, step: Value, ctx: Context, ghost outer: Scope)
      requires Inherited(outer) == ctx
      modifies this
      ensures mapping == AfterElement(old(mapping), base, idx, step, outer)
      decreases step, 2
    {
      var path := IndexPath(base, idx);
      var localAlias := OwnAlias(step);
      ghost var here := Visit(outer, step, path);
      var inherited: Context;
      if localAlias.Some? {
        mapping := mapping[path := localAlias.value];
        inherited := Nearest(localAlias.value, path);
      } else {
        mapping := mapping[path := Label(ctx, path)];
        inherited := ctx;
      }
      if step.Dict? {
        MapFields(path, step, inherited, Within(here));
      }
    }

    /** The dict branch: the dict's own assignment (under a non-empty base),
        then each of its values walked under `base/key`. */
    method MapDict(base: string, steps: Value, ctx: Context, ghost outer: Scope)
      requires steps.Dict? && Inherited(outer) == ctx
      modifies this
      ensures mapping == AfterSteps(old(mapping), base, steps, outer)
      decreases steps, 2
    {
      ghost var here := Visit(outer, steps, base);
      var localAlias := if base != "" then OwnAlias(steps) else None;
      var inherited: Context;
      if localAlias.Some? {
        mapping := mapping[base := localAlias.value];
        inherited := Nearest(localAlias.value, base);
      } else {
        if base != "" {
          mapping := mapping[base := Label(ctx, base)];
        }
        inherited := ctx;
      }
      MapFields(base, steps, inherited, Within(here));
    }

    /** `for key, value in d.items(): map_steps(f"{base}/{key}", value, ...)`. */
    method MapFields(base: string, d: Value, ctx: Context, ghost scope: Scope)
      requires d.Dict? && Inherited(scope) == ctx
      modifies this
      ensures mapping == AfterFields(old(mapping), base, d, |d.entries|, scope)
      decreases d, 1
    {
      ghost var m0 := mapping;
      for k := 0 to |d.entries|
        invariant mapping == AfterFields(m0, base, d, k, scope)
      {
        var (key, value) := d.entries[k];
        assert value < d;
        MapSteps(KeyPath(base, key), value, ctx, scope);
      }
    }
  }

  /** `load_automation` after the file is parsed: the root loop over the
      top-level keys. A document that is not a dict makes `.items()` raise. */
  method LoadAutomation(automation: Value) returns (r: Result<map<string, string>>)
    ensures automation.Dict? ==> r == Ok(AliasMapping(automation.entries))
    ensures !automation.Dict? ==> r == Err(NotADict)
  {
    if !automation.Dict? {
      return Err(NotADict);
    }
    var top := automation.entries;
    var mapper := new Mapper();
    for n := 0 to |top|
      invariant mapper.mapping == AfterRoot(top, n)
    {
      var (key, value) := top[n];
      if key == "sequence" || value.List? || value.Dict? {
        mapper.MapSteps(key, value, NoAlias, Top);
      }
    }
    return Ok(mapper.mapping);
  }

  // ---------------------------------------------------------------------
  // The dict the walk leaves is the one its visits assign, in order.

  lemma {:induction false} StepsAssign(m: map<string, string>, base: string, v: Value, outer: Scope)
    ensures AfterSteps(m, base, v, outer) == Apply(m, Entries(base, v, outer))
    decreases v, 2, 0
  {
    match v
    case List(items) =>
      ListAssigns(m, base, v, |items|, outer);
    case Dict(entries) =>
      var here := Visit(outer, v, base);
      var done: seq<Visit> := if base != "" then [here] else [];
      var labelled := if base != "" then m[base := Assignment(here).1] else m;
      assert Apply(m, done) == labelled by {
        if base != "" { ApplySnoc(m, [], here); assert [] + [here] == done; }
      }
      FieldsAssign(labelled, base, v, |entries|, Within(here));
      ApplyConcat(m, done, FieldEntries(base, v, |entries|, Within(here)));
    case _ =>
  }

  lemma {:induction false} ListAssigns(m: map<string, string>, base: string, v: Value, n: nat, outer: Scope)
    requires v.List? && n <= |v.items|
    ensures AfterList(m, base, v, n, outer) == Apply(m, ListEntries(base, v, n, outer))
    decreases v, 1, n
  {
    if n > 0 {
      var before := AfterList(m, base, v, n - 1, outer);
      ListAssigns(m, base, v, n - 1, outer);
      ElementAssigns(before, base, n - 1, v.items[n - 1], outer);
      ApplyConcat(m, ListEntries(base, v, n - 1, outer), ElementEntries(base, n - 1, v.items[n - 1], outer));
    }
  }

  lemma {:induction false} ElementAssigns(m: map<string, string>, base: string, i: nat, step: Value, outer: Scope)
    ensures AfterElement(m, base, i, step, outer) == Apply(m, ElementEntries(base, i, step, outer))
    decreases step, 2, 0
  {
    var here := Visit(outer, step, IndexPath(base, i));
    var labelled := m[here.path := Assignment(here).1];
    ApplySnoc(m, [], here);
    assert [] + [here] == [here];
    if step.Dict? {
      FieldsAssign(labelled, here.path, step, |step.entries|, Within(here));
      ApplyConcat(m, [here], FieldEntries(here.path, step, |step.entries|, Within(here)));
    } else {
      assert ElementEntries(base, i, step, outer) == [here] + [];
    }
  }

  lemma {:induction false} FieldsAssign(m: map<string, string>, base: string, d: Value, n: nat, scope: Scope)
    requires d.Dict? && n <= |d.entries|
    ensures AfterFields(m, base, d, n, scope) == Apply(m, FieldEntries(base, d, n, scope))
    decreases d, 1, n
  {
    if n > 0 {
      var before := AfterFields(m, base, d, n - 1, scope);
      var (key, value) := d.entries[n - 1];
      assert value < d;
      FieldsAssign(m, base, d, n - 1, scope);
      StepsAssign(before, KeyPath(base, key), value, scope);
      ApplyConcat(m, FieldEntries(base, d, n - 1, scope), Entries(KeyPath(base, key), value, scope));
    }
  }

  /** The mapping `load_automation` returns is the one the root loop's visits assign. */
  lemma {:induction false} RootAssigns(top: seq<(string, Value)>, n: nat)
    requires n <= |top|
    ensures AfterRoot(top, n) == Apply(map[], RootEntries(top, n))
  {
    if n > 0 {
      var (key, value) := top[n - 1];
      RootAssigns(top, n - 1);
      if Walked(key, value) {
        StepsAssign(AfterRoot(top, n - 1), key, value, Top);
        ApplyConcat(map[], RootEntries(top, n - 1), Entries(key, value, Top));
      } else {
        assert RootEntries(top, n) == RootEntries(top, n - 1) + [];
        assert RootEntries(top, n - 1) + [] == RootEntries(top, n - 1);
      }
    }
  }

  // ---------------------------------------------------------------------
  // Properties of Apply.

  lemma ApplySnoc(m: map<string, string>, xs: seq<Visit>, x: Visit)
    ensures Apply(m, xs + [x]) == Apply(m, xs)[Assignment(x).0 := Assignment(x).1]
  {
    assert (xs + [x])[..|xs|] == xs;
  }

  /** Performing two batches of assignments one after the other. */
  lemma {:induction false} ApplyConcat(m: map<string, string>, a: seq<Visit>, b: seq<Visit>)
    ensures Apply(m, a + b) == Apply(Apply(m, a), b)
    decreases |b|
  {
    if b == [] {
      assert a + b == a;
    } else {
      var b' := b[..|b| - 1];
      var x := b[|b| - 1];
      assert a + b == (a + b') + [x];
      assert b == b' + [x];
      ApplySnoc(m, a + b', x);
      ApplySnoc(Apply(m, a), b', x);
      ApplyConcat(m, a, b');
    }
  }

  /** The last assignment to a path decides its label. */
  lemma {:induction false} ApplyLastWrite(m: map<string, string>, xs: seq<Visit>, j: nat)
    requires j < |xs|
    requires forall k :: j < k < |xs| ==> xs[k].path != xs[j].path
    ensures xs[j].path in Apply(m, xs) && Apply(m, xs)[xs[j].path] == Assignment(xs[j]).1
    decreases |xs|
  {
    var prefix := xs[..|xs| - 1];
    assert xs == prefix + [xs[|xs| - 1]];
    ApplySnoc(m, prefix, xs[|xs| - 1]);
    if j < |xs| - 1 {
      ApplyLastWrite(m, prefix, j);
    }
  }

  /** When every assignment labels a path with itself, so does the dict built from nothing. */
  lemma {:induction false} ApplyIdentity(xs: seq<Visit>)
    requires forall x | x in xs :: Assignment(x).1 == x.path
    ensures forall k | k in Apply(map[], xs) :: Apply(map[], xs)[k] == k
    decreases |xs|
  {
    if xs != [] {
      var prefix := xs[..|xs| - 1];
      assert xs == prefix + [xs[|xs| - 1]];
      ApplySnoc(map[], prefix, xs[|xs| - 1]);
      ApplyIdentity(prefix);
    }
  }

  /** The dict keeps every key it had, gains the path of every node visited,
      and holds under each key either the label assigned by some node at that
      path or, if there is none, its old label. */
  lemma {:induction false} ApplyContents(m: map<string, string>, xs: seq<Visit>)
    ensures forall k | k in m :: k in Apply(m, xs)
    ensures forall x | x in xs :: x.path in Apply(m, xs)
    ensures forall k | k in Apply(m, xs) ::
      (exists x | x in xs :: Assignment(x) == (k, Apply(m, xs)[k])) || (k in m && Apply(m, xs)[k] == m[k])
    decreases |xs|
  {
    if xs != [] {
      var prefix := xs[..|xs| - 1];
      var last := xs[|xs| - 1];
      assert xs == prefix + [last];
      ApplySnoc(m, prefix, last);
      ApplyContents(m, prefix);
      forall k | k in Apply(m, xs)
        ensures (exists x | x in xs :: Assignment(x) == (k, Apply(m, xs)[k])) || (k in m && Apply(m, xs)[k] == m[k])
      {
        if k == Assignment(last).0 {
          assert Assignment(last) == (k, Apply(m, xs)[k]);
        } else if exists x | x in prefix :: Assignment(x) == (k, Apply(m, prefix)[k]) {
          var x :| x in prefix && Assignment(x) == (k, Apply(m, prefix)[k]);
          assert x in xs;
        }
      }
    }
  }

  // ---------------------------------------------------------------------
  // A reference definition, node by node: the node reached at a given
  // address, independent of the order of the walk.

  /** One step down the tree: the element at an index of a list, or the
      value at a position among a dict's entries. */
  datatype Step = Index(i: nat) | Field(j: nat)

  /** The node reached from `v` (walked as `map_steps(base, v, ...)` inside
      `outer`) by following `addr`, when the walk assigns it a label; `None`
      when it does not: the node is not reached, or it is a list, a leaf
      reached as a dict value, or a dict under an empty base. */
  function EntryAt(base: string, v: Value, outer: Scope, addr: seq<Step>): Option<Visit>
    decreases |addr|, 1
  {
    if addr == [] then
      if v.Dict? && base != "" then Some(Visit(outer, v, base)) else None
    else
      match v
      case List(items) =>
        if addr[0].Index? && addr[0].i < |items| then ElementAt(base, addr[0].i, items[addr[0].i], outer, addr[1..])
        else None
      case Dict(entries) =>
        if addr[0].Field? && addr[0].j < |entries| then
          EntryAt(KeyPath(base, entries[addr[0].j].0), entries[addr[0].j].1, Within(Visit(outer, v, base)), addr[1..])
        else None
      case _ => None
  }

  /** `EntryAt` below the list element `step` at index `i` of a list walked at `base`. */
  function ElementAt(base: string, i: nat, step: Value, outer: Scope, rest: seq<Step>): Option<Visit>
    decreases |rest| + 1, 0
  {
    var here := Visit(outer, step, IndexPath(base, i));
    if rest == [] then Some(here)
    else if step.Dict? && rest[0].Field? && rest[0].j < |step.entries| then
      EntryAt(KeyPath(here.path, step.entries[rest[0].j].0), step.entries[rest[0].j].1, Within(here), rest[1..])
    else None
  }

  /** The walk visits exactly the nodes of the reference definition: every
      node it visits has an address, and every node with an address is visited. */
  lemma WalkIsPerNode(base: string, v: Value, outer: Scope)
    ensures forall x | x in Entries(base, v, outer) :: exists addr :: EntryAt(base, v, outer, addr) == Some(x)
    ensures forall addr | EntryAt(base, v, outer, addr).Some? :: EntryAt(base, v, outer, addr).value in Entries(base, v, outer)
  {
    forall x | x in Entries(base, v, outer) ensures exists addr :: EntryAt(base, v, outer, addr) == Some(x) {
      EntriesVisits(base, v, outer, x);
      var addr := VisitAddress(base, v, outer, x);
      assert EntryAt(base, v, outer, addr) == Some(x);
    }
    assert forall x | x in Entries(base, v, outer) :: exists addr :: EntryAt(base, v, outer, addr) == Some(x);
    forall addr | EntryAt(base, v, outer, addr).Some?
      ensures EntryAt(base, v, outer, addr).value in Entries(base, v, outer)
    {
      AddressVisited(base, v, outer, addr);
      EntriesVisits(base, v, outer, EntryAt(base, v, outer, addr).value);
    }
  }

  // Membership in the walk, as predicates that follow its structure.

  /** `x` is among `Entries(base, v, outer)`. */
  predicate Visits(x: Visit, base: string, v: Value, outer: Scope)
    decreases v, 2, 0
  {
    match v
    case List(items) => ListVisits(x, base, v, |items|, outer)
    case Dict(entries) =>
      var here := Visit(outer, v, base);
      (base != "" && x == here) || FieldVisits(x, base, v, |entries|, Within(here))
    case _ => false
  }

  /** `x` is among `ListEntries(base, v, n, outer)`. */
  predicate ListVisits(x: Visit, base: string, v: Value, n: nat, outer: Scope)
    requires v.List? && n <= |v.items|
    decreases v, 1, n
  {
    n > 0 && (ListVisits(x, base, v, n - 1, outer) || ElementVisits(x, base, n - 1, v.items[n - 1], outer))
  }

  /** `x` is among `ElementEntries(base, i, step, outer)`. */
  predicate ElementVisits(x: Visit, base: string, i: nat, step: Value, outer: Scope)
    decreases step, 2, 0
  {
    var here := Visit(outer, step, IndexPath(base, i));
    x == here || (step.Dict? && FieldVisits(x, here.path, step, |step.entries|, Within(here)))
  }

  /** `x` is among `FieldEntries(base, d, n, scope)`. */
  predicate FieldVisits(x: Visit, base: string, d: Value, n: nat, scope: Scope)
    requires d.Dict? && n <= |d.entries|
    decreases d, 1, n
  {
    n > 0 && (FieldVisits(x, base, d, n - 1, scope) || Visits(x, KeyPath(base, d.entries[n - 1].0), d.entries[n - 1].1, scope))
  }

  /** `x` is among `RootEntries(top, n)`. */
  predicate RootVisits(x: Visit, top: seq<(string, Value)>, n: nat)
    requires n <= |top|
  {
    n > 0 && (RootVisits(x, top, n - 1) || (Walked(top[n - 1].0, top[n - 1].1) && Visits(x, top[n - 1].0, top[n - 1].1, Top)))
  }

  lemma {:induction false} EntriesVisits(base: string, v: Value, outer: Scope, x: Visit)
    ensures x in Entries(base, v, outer) <==> Visits(x, base, v, outer)
    decreases v, 2, 0
  {
    match v
    case List(items) =>
      ListEntriesVisits(base, v, |items|, outer, x);
    case Dict(entries) =>
      FieldEntriesVisits(base, v, |entries|, Within(Visit(outer, v, base)), x);
    case _ =>
  }

  lemma {:induction false} ListEntriesVisits(base: string, v: Value, n: nat, outer: Scope, x: Visit)
    requires v.List? && n <= |v.items|
    ensures x in ListEntries(base, v, n, outer) <==> ListVisits(x, base, v, n, outer)
    decreases v, 1, n
  {
    if n > 0 {
      ListEntriesVisits(base, v, n - 1, outer, x);
      ElementEntriesVisits(base, n - 1, v.items[n - 1], outer, x);
    }
  }

  lemma {:induction false} ElementEntriesVisits(base: string, i: nat, step: Value, outer: Scope, x: Visit)
    ensures x in ElementEntries(base, i, step, outer) <==> ElementVisits(x, base, i, step, outer)
    decreases step, 2, 0
  {
    if step.Dict? {
      var here := Visit(outer, step, IndexPath(base, i));
      FieldEntriesVisits(here.path, step, |step.entries|, Within(here), x);
    }
  }

  lemma {:induction false} FieldEntriesVisits(base: string, d: Value, n: nat, scope: Scope, x: Visit)
    requires d.Dict? && n <= |d.entries|
    ensures x in FieldEntries(base, d, n, scope) <==> FieldVisits(x, base, d, n, scope)
    decreases d, 1, n
  {
    if n > 0 {
      assert d.entries[n - 1].1 < d;
      FieldEntriesVisits(base, d, n - 1, scope, x);
      EntriesVisits(KeyPath(base, d.entries[n - 1].0), d.entries[n - 1].1, scope, x);
    }
  }

  lemma {:induction false} RootEntriesVisits(top: seq<(string, Value)>, n: nat, x: Visit)
    requires n <= |top|
    ensures x in RootEntries(top, n) <==> RootVisits(x, top, n)
  {
    if n > 0 {
      RootEntriesVisits(top, n - 1, x);
      EntriesVisits(top[n - 1].0, top[n - 1].1, Top, x);
    }
  }

  /** A visited node has an address that reaches it. */
  lemma {:induction false} VisitAddress(base: string, v: Value, outer: Scope, x: Visit)
    returns (addr: seq<Step>)
    requires Visits(x, base, v, outer)
    ensures EntryAt(base, v, outer, addr) == Some(x)
    decreases v, 2, 0
  {
    match v
    case List(items) =>
      var i := ListWhich(base, v, |items|, outer, x);
      var rest := ElementVisitAddress(base, i, items[i], outer, x);
      addr := [Index(i)] + rest;
      assert addr[1..] == rest;
    case Dict(entries) =>
      var here := Visit(outer, v, base);
      if base != "" && x == here {
        addr := [];
      } else {
        var j := FieldWhich(base, v, |entries|, Within(here), x);
        assert entries[j].1 < v;
        var rest := VisitAddress(KeyPath(base, entries[j].0), entries[j].1, Within(here), x);
        addr := [Field(j)] + rest;
        assert addr[1..] == rest;
      }
  }

  lemma {:induction false} ElementVisitAddress(base: string, i: nat, step: Value, outer: Scope, x: Visit)
    returns (rest: seq<Step>)
    requires ElementVisits(x, base, i, step, outer)
    ensures ElementAt(base, i, step, outer, rest) == Some(x)
    decreases step, 2, 0
  {
    var here := Visit(outer, step, IndexPath(base, i));
    if x == here {
      rest := [];
    } else {
      var j := FieldWhich(here.path, step, |step.entries|, Within(here), x);
      assert step.entries[j].1 < step;
      var rest' := VisitAddress(KeyPath(here.path, step.entries[j].0), step.entries[j].1, Within(here), x);
      rest := [Field(j)] + rest';
      assert rest[1..] == rest';
    }
  }

  /** A node visited for the first `n` elements of a list is visited for one of them. */
  lemma {:induction false} ListWhich(base: string, v: Value, n: nat, outer: Scope, x: Visit) returns (i: nat)
    requires v.List? && n <= |v.items| && ListVisits(x, base, v, n, outer)
    ensures i < n && ElementVisits(x, base, i, v.items[i], outer)
  {
    if ListVisits(x, base, v, n - 1, outer) {
      i := ListWhich(base, v, n - 1, outer, x);
    } else {
      i := n - 1;
    }
  }

  /** A node visited below the values under the first `n` keys of a dict is
      visited below one of them. */
  lemma {:induction false} FieldWhich(base: string, d: Value, n: nat, scope: Scope, x: Visit) returns (j: nat)
    requires d.Dict? && n <= |d.entries| && FieldVisits(x, base, d, n, scope)
    ensures j < n && Visits(x, KeyPath(base, d.entries[j].0), d.entries[j].1, scope)
  {
    if FieldVisits(x, base, d, n - 1, scope) {
      j := FieldWhich(base, d, n - 1, scope, x);
    } else {
      j := n - 1;
    }
  }

  /** The node an address reaches is visited. */
  lemma {:induction false} AddressVisited(base: string, v: Value, outer: Scope, addr: seq<Step>)
    requires EntryAt(base, v, outer, addr).Some?
    ensures Visits(EntryAt(base, v, outer, addr).value, base, v, outer)
    decreases |addr|, 1
  {
    if addr != [] {
      var x := EntryAt(base, v, outer, addr).value;
      match v
      case List(items) =>
        var i := addr[0].i;
        ElementAddressVisited(base, i, items[i], outer, addr[1..]);
        ListIncludes(base, v, |items|, outer, i, x);
      case Dict(entries) =>
        var j := addr[0].j;
        var inner := Within(Visit(outer, v, base));
        AddressVisited(KeyPath(base, entries[j].0), entries[j].1, inner, addr[1..]);
        FieldIncludes(base, v, |entries|, inner, j, x);
    }
  }

  lemma {:induction false} ElementAddressVisited(base: string, i: nat, step: Value, outer: Scope, rest: seq<Step>)
    requires ElementAt(base, i, step, outer, rest).Some?
    ensures ElementVisits(ElementAt(base, i, step, outer, rest).value, base, i, step, outer)
    decreases |rest| + 1, 0
  {
    if rest != [] {
      var here := Visit(outer, step, IndexPath(base, i));
      var j := rest[0].j;
      AddressVisited(KeyPath(here.path, step.entries[j].0), step.entries[j].1, Within(here), rest[1..]);
      FieldIncludes(here.path, step, |step.entries|, Within(here), j, ElementAt(base, i, step, outer, rest).value);
    }
  }

  /** A node visited for one of the first `n` elements of a list is visited for the first `n`. */
  lemma {:induction false} ListIncludes(base: string, v: Value, n: nat, outer: Scope, i: nat, x: Visit)
    requires v.List? && i < n <= |v.items|
    requires ElementVisits(x, base, i, v.items[i], outer)
    ensures ListVisits(x, base, v, n, outer)
  {
    if i < n - 1 {
      ListIncludes(base, v, n - 1, outer, i, x);
    }
  }

  /** A node visited below one of the first `n` keys of a dict is visited
      below the first `n`. */
  lemma {:induction false} FieldIncludes(base: string, d: Value, n: nat, scope: Scope, j: nat, x: Visit)
    requires d.Dict? && j < n <= |d.entries|
    requires Visits(x, KeyPath(base, d.entries[j].0), d.entries[j].1, scope)
    ensures FieldVisits(x, base, d, n, scope)
  {
    if j < n - 1 {
      FieldIncludes(base, d, n - 1, scope, j, x);
    }
  }

  // ---------------------------------------------------------------------
  // Labels.

  /** No dict anywhere in `v` carries a truthy `alias`. */
  predicate NoAliases(v: Value)
    decreases v
  {
    match v
    case List(items) => forall i | 0 <= i < |items| :: NoAliases(items[i])
    case Dict(entries) => OwnAlias(v).None? && forall j | 0 <= j < |entries| :: NoAliases(entries[j].1)
    case _ => true
  }

  /** Inside a scope, a subtree without aliases of its own labels every node
      by the scope's context: `alias//relative-path` under an alias, the path
      itself when there is none. */
  lemma {:induction false} LabelWithoutAliases(base: string, v: Value, outer: Scope, addr: seq<Step>)
    requires NoAliases(v) && EntryAt(base, v, outer, addr).Some?
    ensures var x := EntryAt(base, v, outer, addr).value;
      Assignment(x) == (x.path, Label(Inherited(outer), x.path))
    decreases |addr|, 1
  {
    if addr != [] {
      match v
      case List(items) =>
        ElementLabelWithoutAliases(base, addr[0].i, items[addr[0].i], outer, addr[1..]);
      case Dict(entries) =>
        var j := addr[0].j;
        assert NoAliases(entries[j].1);
        assert Inherited(Within(Visit(outer, v, base))) == Inherited(outer);
        LabelWithoutAliases(KeyPath(base, entries[j].0), entries[j].1, Within(Visit(outer, v, base)), addr[1..]);
    }
  }

  lemma {:induction false} ElementLabelWithoutAliases(base: string, i: nat, step: Value, outer: Scope, rest: seq<Step>)
    requires NoAliases(step) && ElementAt(base, i, step, outer, rest).Some?
    ensures var x := ElementAt(base, i, step, outer, rest).value;
      Assignment(x) == (x.path, Label(Inherited(outer), x.path))
    decreases |rest| + 1, 0
  {
    var here := Visit(outer, step, IndexPath(base, i));
    if rest != [] {
      var j := rest[0].j;
      assert NoAliases(step.entries[j].1);
      assert Inherited(Within(here)) == Inherited(outer);
      LabelWithoutAliases(KeyPath(here.path, step.entries[j].0), step.entries[j].1, Within(here), rest[1..]);
    }
  }

  /** A list element with its own alias is labelled with that alias, and
      becomes the context of everything below it: a node in an alias-free
      child subtree of the element is labelled `alias//relative-path`.
      Other children may hold aliases of their own. */
  lemma ElementAliasScope(base: string, i: nat, step: Value, outer: Scope, rest: seq<Step>)
    requires OwnAlias(step).Some? && step.Dict?
    requires rest != [] && rest[0].Field? && rest[0].j < |step.entries| ==> NoAliases(step.entries[rest[0].j].1)
    requires ElementAt(base, i, step, outer, rest).Some?
    ensures var path, alias, x := IndexPath(base, i), OwnAlias(step).value, ElementAt(base, i, step, outer, rest).value;
      if rest == [] then Assignment(x) == (path, alias)
      else Assignment(x).1 == alias + "//" + LStripSlash(Drop(x.path, |path|))
  {
    var here := Visit(outer, step, IndexPath(base, i));
    if rest != [] {
      var j := rest[0].j;
      assert Inherited(Within(here)) == Nearest(OwnAlias(step).value, here.path);
      LabelWithoutAliases(KeyPath(here.path, step.entries[j].0), step.entries[j].1, Within(here), rest[1..]);
    }
  }

  /** Under the alias `alias` set at `at`, a node at `at/rel` (with `rel` not
      starting with '/') is labelled `alias//rel`. */
  lemma RelativeLabel(alias: string, at: string, rel: string)
    requires at != "" && (rel == [] || rel[0] != '/')
    ensures Label(Nearest(alias, at), at + "/" + rel) == alias + "//" + rel
  {
    var path := at + "/" + rel;
    assert path[|at|..] == "/" + rel;
    var slashed := "/" + rel;
    assert slashed[0] == '/' && slashed[1..] == rel;
    assert LStripSlash(slashed) == LStripSlash(rel);
    assert LStripSlash(rel) == rel;
  }

  // ---------------------------------------------------------------------
  // The mapping `load_automation` returns.

  /** A node visited by the root loop over the first `n` keys is visited by
      the walk of one of them. */
  lemma {:induction false} RootWhich(top: seq<(string, Value)>, n: nat, x: Visit) returns (j: nat)
    requires n <= |top| && RootVisits(x, top, n)
    ensures j < n && Walked(top[j].0, top[j].1) && Visits(x, top[j].0, top[j].1, Top)
  {
    if RootVisits(x, top, n - 1) {
      j := RootWhich(top, n - 1, x);
    } else {
      j := n - 1;
    }
  }

  /** A node visited by the walk of one of the first `n` top-level keys is
      visited by the root loop over them. */
  lemma {:induction false} RootIncludes(top: seq<(string, Value)>, n: nat, j: nat, x: Visit)
    requires j < n <= |top| && Walked(top[j].0, top[j].1) && Visits(x, top[j].0, top[j].1, Top)
    ensures RootVisits(x, top, n)
  {
    if j < n - 1 {
      RootIncludes(top, n - 1, j, x);
    }
  }

  /** Completeness: every node that the walk of a walked top-level key
      assigns a label to has its path in the mapping. */
  lemma MappingComplete(top: seq<(string, Value)>, j: nat, addr: seq<Step>)
    requires j < |top| && Walked(top[j].0, top[j].1)
    requires EntryAt(top[j].0, top[j].1, Top, addr).Some?
    ensures EntryAt(top[j].0, top[j].1, Top, addr).value.path in AliasMapping(top)
  {
    var x := EntryAt(top[j].0, top[j].1, Top, addr).value;
    AddressVisited(top[j].0, top[j].1, Top, addr);
    RootIncludes(top, |top|, j, x);
    RootEntriesVisits(top, |top|, x);
    ApplyContents(map[], RootEntries(top, |top|));
    RootAssigns(top, |top|);
  }

  /** Soundness: every entry of the mapping is the assignment made for some
      node below a walked top-level key; nothing else gets in. */
  lemma MappingSound(top: seq<(string, Value)>, k: string)
    requires k in AliasMapping(top)
    ensures exists j: nat, addr ::
              && j < |top| && Walked(top[j].0, top[j].1)
              && EntryAt(top[j].0, top[j].1, Top, addr).Some?
              && Assignment(EntryAt(top[j].0, top[j].1, Top, addr).value) == (k, AliasMapping(top)[k])
  {
    var xs := RootEntries(top, |top|);
    RootAssigns(top, |top|);
    ApplyContents(map[], xs);
    var x :| x in xs && Assignment(x) == (k, AliasMapping(top)[k]);
    RootEntriesVisits(top, |top|, x);
    var j := RootWhich(top, |top|, x);
    var addr := VisitAddress(top[j].0, top[j].1, Top, x);
    assert EntryAt(top[j].0, top[j].1, Top, addr) == Some(x);
  }

  /** Identity fallback: a definition without aliases maps every path to itself. */
  lemma MappingIdentity(top: seq<(string, Value)>)
    requires forall j | 0 <= j < |top| :: NoAliases(top[j].1)
    ensures forall k | k in AliasMapping(top) :: AliasMapping(top)[k] == k
  {
    var xs := RootEntries(top, |top|);
    forall x | x in xs ensures Assignment(x).1 == x.path {
      RootEntriesVisits(top, |top|, x);
      var j := RootWhich(top, |top|, x);
      var addr := VisitAddress(top[j].0, top[j].1, Top, x);
      LabelWithoutAliases(top[j].0, top[j].1, Top, addr);
    }
    ApplyIdentity(xs);
    RootAssigns(top, |top|);
  }

  /** The walk only adds: every key present before `map_steps` is still there after. */
  lemma WalkOnlyAdds(m: map<string, string>, base: string, v: Value, outer: Scope)
    ensures m.Keys <= Apply(m, Entries(base, v, outer)).Keys
  {
    ApplyContents(m, Entries(base, v, outer));
  }

  /** `action: [{alias: A, then: [{}, {alias: B}]}]`: the step is labelled
      `A`, its first inner step inherits `A//then/0`, its second keeps `B`. */
  lemma InheritanceExample()
    ensures AliasMapping([("action", List([ExampleStep()]))])
         == map["action/0" := "A", "action/0/then/0" := "A//then/0", "action/0/then/1" := "B"]
  {
    var top := [("action", List([ExampleStep()]))];
    var here := Visit(Top, ExampleStep(), "action/0");
    var xs := [here] + ThenVisits(here);
    ExampleElement();
    assert ListEntries("action", List([ExampleStep()]), 1, Top) == [] + xs;
    assert Entries("action", List([ExampleStep()]), Top) == xs;
    assert RootEntries(top, 1) == [] + xs;
    RootAssigns(top, 1);
    ExampleLabels(here);
  }

  /** The step of the example. */
  function ExampleStep(): Value {
    Dict([("alias", Str("A")), ("then", List([Dict([]), Dict([("alias", Str("B"))])]))])
  }

  /** The two inner steps of the example, as visited below the step `here`. */
  function ThenVisits(here: Visit): seq<Visit> {
    [Visit(Within(here), Dict([]), "action/0/then/0"), Visit(Within(here), Dict([("alias", Str("B"))]), "action/0/then/1")]
  }

  lemma ExampleElement()
    ensures var here := Visit(Top, ExampleStep(), "action/0");
      ElementEntries("action", 0, ExampleStep(), Top) == [here] + ThenVisits(here)
  {
    var step := ExampleStep();
    var here := Visit(Top, step, "action/0");
    assert IndexPath("action", 0) == "action/0" by { assert NatToString(0) == "0"; }
    ExampleThen(here);
    assert KeyPath("action/0", "then") == "action/0/then";
    assert FieldEntries("action/0", step, 1, Within(here)) == [];
    assert FieldEntries("action/0", step, 2, Within(here)) == [] + ThenVisits(here);
  }

  lemma ExampleThen(here: Visit)
    ensures Entries("action/0/then", List([Dict([]), Dict([("alias", Str("B"))])]), Within(here)) == ThenVisits(here)
  {
    var inner := List([Dict([]), Dict([("alias", Str("B"))])]);
    var b := Dict([("alias", Str("B"))]);
    var xs := ThenVisits(here);
    assert IndexPath("action/0/then", 0) == "action/0/then/0" by { assert NatToString(0) == "0"; }
    assert IndexPath("action/0/then", 1) == "action/0/then/1" by { assert NatToString(1) == "1"; }
    assert ElementEntries("action/0/then", 0, Dict([]), Within(here)) == [xs[0]] + [];
    assert FieldEntries("action/0/then/1", b, 1, Within(xs[1])) == [];
    assert ElementEntries("action/0/then", 1, b, Within(here)) == [xs[1]] + [];
    assert ListEntries("action/0/then", inner, 1, Within(here)) == [] + [xs[0]];
    assert ListEntries("action/0/then", inner, 2, Within(here)) == [xs[0]] + [xs[1]];
  }

  /** The labels of the example's three nodes. */
  lemma ExampleLabels(here: Visit)
    requires here == Visit(Top, ExampleStep(), "action/0")
    ensures Apply(map[], [here] + ThenVisits(here))
         == map["action/0" := "A", "action/0/then/0" := "A//then/0", "action/0/then/1" := "B"]
  {
    var a, b, c := here, ThenVisits(here)[0], ThenVisits(here)[1];
    ExampleOwnLabels(here);
    ExampleInheritedLabel(here);
    ApplySnoc(map[], [], a);
    ApplySnoc(map[], [a], b);
    ApplySnoc(map[], [a, b], c);
    assert [] + [a] == [a] && [a] + [b] == [a, b] && [a, b] + [c] == [here] + ThenVisits(here);
  }

  /** The step and the second inner step are labelled with their own aliases. */
  lemma ExampleOwnLabels(here: Visit)
    requires here == Visit(Top, ExampleStep(), "action/0")
    ensures Assignment(here) == ("action/0", "A")
    ensures Assignment(ThenVisits(here)[1]) == ("action/0/then/1", "B")
  {
    assert OwnAlias(ExampleStep()) == Some("A");
    assert OwnAlias(Dict([("alias", Str("B"))])) == Some("B");
  }

  /** The first inner step inherits the step's alias. */
  lemma ExampleInheritedLabel(here: Visit)
    requires here == Visit(Top, ExampleStep(), "action/0")
    ensures Assignment(ThenVisits(here)[0]) == ("action/0/then/0", "A//then/0")
  {
    var b := ThenVisits(here)[0];
    assert OwnAlias(ExampleStep()) == Some("A");
    assert Inherited(Within(here)) == Nearest("A", "action/0");
    assert OwnAlias(Dict([])) == None;
    RelativeLabel("A", "action/0", "then/0");
    assert "action/0" + "/" + "then/0" == "action/0/then/0";
    assert "A" + "//" + "then/0" == "A//then/0";
    assert AliasAt(b.path, b.node) == None;
  }
}
