/**
 * A DTO seen as a value: the state of each of its properties, by name. The
 * methods of both DTO classes are specified on it: `toArray`, the dotted
 * `getProperty`, `get`, `has`, `hasProperty`, the entry `set` stores when it
 * has to map the data again, and the flag arithmetic of `HasFlags`.
 */
module DtoStates {
  import opened Wrappers
  import opened PhpArrays
  import opened Strings
  import opened DtoFlags
  import DtoFlagsHandler
  import opened Values
  import opened PropertyTypes
  import opened Property
  import opened PropertiesMapper
  import opened Listeners
  import opened DtoData

  /** What a property holds: its raw value, the flags it was set with, and what its declared types imply. */
  datatype CellState = CellState(raw: Value, flags: Flags, facts: Summary)

  /** `value()` of a property in that state. */
  function Processed(env: Env, c: CellState): Result<Value>
  {
    CastRawValue(env, c.raw, c.flags, c.facts)
  }

  /** `process` gives what `value()` gives. */
  ghost predicate ProcessesAs(env: Env, process: CellState -> Result<Value>)
  {
    forall c {:trigger Processed(env, c)} :: process(c) == Processed(env, c)
  }

  /** The properties `map` creates from what it planned, all set with `flags`. */
  function Built(planned: seq<Mapped>, flags: Flags): (r: PhpArray<CellState>)
    ensures Keys(r) == seq(|planned|, i requires 0 <= i < |planned| => planned[i].name)
  {
    seq(|planned|, i requires 0 <= i < |planned| => (planned[i].name, CellState(planned[i].raw, flags, Summarize(planned[i].atoms))))
  }

  // ---------------------------------------------------------------- flags

  /** `hasFlags`: every bit of `f` is set. */
  predicate Includes(flags: Flags, f: Flags)
  {
    flags & f == f
  }

  /** What `removeFlags` passes on: the current flags with the bits of `f` cleared. */
  function Remaining(current: Flags, f: Flags): (r: Flags)
    ensures r & f == 0
    ensures r == current & !f
  {
    current ^ (current & f)
  }

  /** Every flag word includes NONE. */
  lemma IncludesNone(current: Flags)
    ensures Includes(current, NONE)
  {
  }

  /** Adding bits includes them, and keeps the bits there were. */
  lemma IncludesAdded(current: Flags, f: Flags)
    ensures Includes(current | f, f) && Includes(current | f, current)
  {
  }

  /** Removing bits keeps only bits there were. */
  lemma IncludesRemaining(current: Flags, f: Flags)
    ensures Includes(current, Remaining(current, f))
  {
  }

  lemma IncludesTransitive(r: Flags, t: Flags, f: Flags)
    requires Includes(r, t) && Includes(t, f)
    ensures Includes(r, f)
  {
    calc {
      r & f;
      r & (t & f);
      (r & t) & f;
    }
  }

  /** A merge keeps every bit of the flags merged in. */
  lemma MergeIncludes(initial: Flags, toMerge: Flags, f: Flags)
    requires DtoFlagsHandler.Merge(initial, toMerge).Success? && Includes(toMerge, f)
    ensures Includes(DtoFlagsHandler.Merge(initial, toMerge).value, f)
  {
    IncludesTransitive(DtoFlagsHandler.Merge(initial, toMerge).value, toMerge, f);
  }

  // ---------------------------------------------------------------- toArray

  /**
   * `toArray` after the first `n` properties: each processed value, passed
   * through the array converter, stored under the property's name; the first
   * `value()` that fails stops it. `S` is what the converter remembers
   * between calls, and `convert` is one call of it.
   */
  function Exported<S>(process: CellState -> Result<Value>, convert: (S, Value) -> (Value, S), s: S, cells: PhpArray<CellState>, n: nat)
    : (r: (Result<PhpArray<Value>>, S))
    requires n <= |cells|
    ensures n == 0 ==> r == (Success([]), s)
  {
    if n == 0 then (Success([]), s)
    else
      var prev := Exported(process, convert, s, cells, n - 1);
      if prev.0.Failure? then prev
      else
        match process(cells[n - 1].1)
        case Failure(e) => (Failure(e), prev.1)
        case Success(v) =>
          var next := convert(prev.1, v);
          (Success(Put(prev.0.value, cells[n - 1].0, next.0)), next.1)
  }

  /** One more property (`n` is `m + 1`) whose value is processed: its converted value is stored under its name. */
  lemma ExportedNext<S>(process: CellState -> Result<Value>, convert: (S, Value) -> (Value, S), s: S,
                        cells: PhpArray<CellState>, m: nat, n: nat, v: Value)
    requires n == m + 1 <= |cells| && Exported(process, convert, s, cells, m).0.Success? && process(cells[m].1) == Success(v)
    ensures var prev := Exported(process, convert, s, cells, m);
      Exported(process, convert, s, cells, n) == (Success(Put(prev.0.value, cells[m].0, convert(prev.1, v).0)), convert(prev.1, v).1)
  {
  }

  /** One more property (`n` is `m + 1`) whose `value()` fails: `toArray` fails with its error. */
  lemma ExportedStops<S>(process: CellState -> Result<Value>, convert: (S, Value) -> (Value, S), s: S,
                         cells: PhpArray<CellState>, m: nat, n: nat, e: Error)
    requires n == m + 1 <= |cells| && Exported(process, convert, s, cells, m).0.Success? && process(cells[m].1) == Failure(e)
    ensures Exported(process, convert, s, cells, n) == (Failure(e), Exported(process, convert, s, cells, m).1)
  {
  }

  /** One more property (`n` is `m + 1`) after a failure: nothing changes. */
  lemma ExportedFailed<S>(process: CellState -> Result<Value>, convert: (S, Value) -> (Value, S), s: S,
                          cells: PhpArray<CellState>, m: nat, n: nat)
    requires n == m + 1 <= |cells| && Exported(process, convert, s, cells, m).0.Failure?
    ensures Exported(process, convert, s, cells, n) == Exported(process, convert, s, cells, m)
  {
  }

  /** The first failure (`n` is `m + 1`) is the failure of `value()` of the property at `m`. */
  lemma ExportedFailsAt<S>(process: CellState -> Result<Value>, convert: (S, Value) -> (Value, S), s: S,
                           cells: PhpArray<CellState>, m: nat, n: nat)
    requires n == m + 1 <= |cells| && Exported(process, convert, s, cells, m).0.Success?
    requires Exported(process, convert, s, cells, n).0.Failure?
    ensures process(cells[m].1) == Failure(Exported(process, convert, s, cells, n).0.error)
  {
  }

  /** Once a `value()` has failed, `toArray` fails with that error and the converter is not called again. */
  lemma {:induction false} ExportedFailureSticks<S>(process: CellState -> Result<Value>, convert: (S, Value) -> (Value, S), s: S,
                                                   cells: PhpArray<CellState>, k: nat, n: nat)
    requires k <= n <= |cells| && Exported(process, convert, s, cells, k).0.Failure?
    ensures Exported(process, convert, s, cells, n) == Exported(process, convert, s, cells, k)
    decreases n
  {
    if n > k {
      var m := n - 1;
      ExportedFailureSticks(process, convert, s, cells, k, m);
      ExportedFailed(process, convert, s, cells, m, n);
    }
  }

  /** The keys stored after the first `n` properties: their names, each stored in turn. */
  lemma {:induction false} ExportedPrefixKeys<S>(process: CellState -> Result<Value>, convert: (S, Value) -> (Value, S), s: S,
                                                 cells: PhpArray<CellState>, n: nat)
    requires n <= |cells| && Exported(process, convert, s, cells, n).0.Success?
    ensures Keys(Exported(process, convert, s, cells, n).0.value) == PutKeys([], Keys(cells)[..n])
    decreases n
  {
    if n > 0 {
      var m := n - 1;
      ExportedStep(process, convert, s, cells, m, n);
      ExportedPrefixKeys(process, convert, s, cells, m);
      PutKeysAfter(Exported(process, convert, s, cells, m).0.value, cells[m].0, ExportedEntry(process, convert, s, cells, m));
      KeysTakeStep(cells, m, n);
      PutKeysSnoc([], Keys(cells)[..m], cells[m].0);
    }
  }

  /** `toArray` has exactly the names of the properties, in their order. */
  lemma ExportedKeys<S>(process: CellState -> Result<Value>, convert: (S, Value) -> (Value, S), s: S, cells: PhpArray<CellState>)
    requires DistinctKeys(cells) && Exported(process, convert, s, cells, |cells|).0.Success?
    ensures Keys(Exported(process, convert, s, cells, |cells|).0.value) == Keys(cells)
  {
    ExportedPrefixKeys(process, convert, s, cells, |cells|);
    PutKeysOfDistinct(cells, |cells|);
    assert Keys(cells)[..|cells|] == Keys(cells);
  }

  /** What `toArray` stores for the property at `i`: its processed value, converted after the properties before it. */
  function ExportedEntry<S>(process: CellState -> Result<Value>, convert: (S, Value) -> (Value, S), s: S,
                            cells: PhpArray<CellState>, i: nat): Value
    requires i < |cells| && process(cells[i].1).Success?
  {
    convert(Exported(process, convert, s, cells, i).1, process(cells[i].1).value).0
  }

  /** The property at `m` (`n` is `m + 1`) was processed and its entry stored under its name. */
  lemma ExportedStep<S>(process: CellState -> Result<Value>, convert: (S, Value) -> (Value, S), s: S,
                        cells: PhpArray<CellState>, m: nat, n: nat)
    requires n == m + 1 <= |cells| && Exported(process, convert, s, cells, n).0.Success?
    ensures Exported(process, convert, s, cells, m).0.Success?
    ensures process(cells[m].1).Success?
    ensures Exported(process, convert, s, cells, n).0.value ==
      Put(Exported(process, convert, s, cells, m).0.value, cells[m].0, ExportedEntry(process, convert, s, cells, m))
  {
  }

  lemma ExportedLast<S>(process: CellState -> Result<Value>, convert: (S, Value) -> (Value, S), s: S,
                        cells: PhpArray<CellState>, m: nat, n: nat)
    requires n == m + 1 <= |cells| && Exported(process, convert, s, cells, n).0.Success?
    ensures process(cells[m].1).Success?
    ensures Get(Exported(process, convert, s, cells, n).0.value, cells[m].0) == Some(ExportedEntry(process, convert, s, cells, m))
  {
    ExportedStep(process, convert, s, cells, m, n);
    PutGet(Exported(process, convert, s, cells, m).0.value, cells[m].0, ExportedEntry(process, convert, s, cells, m), cells[m].0);
  }

  lemma ExportedKept<S>(process: CellState -> Result<Value>, convert: (S, Value) -> (Value, S), s: S,
                        cells: PhpArray<CellState>, m: nat, n: nat, k: string)
    requires n == m + 1 <= |cells| && Exported(process, convert, s, cells, n).0.Success? && k != cells[m].0
    ensures Exported(process, convert, s, cells, m).0.Success?
    ensures Get(Exported(process, convert, s, cells, n).0.value, k) == Get(Exported(process, convert, s, cells, m).0.value, k)
  {
    ExportedStep(process, convert, s, cells, m, n);
    PutGet(Exported(process, convert, s, cells, m).0.value, cells[m].0, ExportedEntry(process, convert, s, cells, m), k);
  }

  /**
   * When `toArray` succeeds, every property's value was processed, and its
   * entry is what the converter made of it, in the state the properties
   * before it left the converter in.
   */
  lemma {:induction false} ExportedGet<S>(process: CellState -> Result<Value>, convert: (S, Value) -> (Value, S), s: S,
                                         cells: PhpArray<CellState>, n: nat, i: nat)
    requires DistinctKeys(cells) && i < n <= |cells|
    requires Exported(process, convert, s, cells, n).0.Success?
    ensures process(cells[i].1).Success?
    ensures Get(Exported(process, convert, s, cells, n).0.value, cells[i].0) == Some(ExportedEntry(process, convert, s, cells, i))
    decreases n
  {
    var m := n - 1;
    if i == m {
      ExportedLast(process, convert, s, cells, i, n);
    } else {
      ExportedKept(process, convert, s, cells, m, n, cells[i].0);
      ExportedGet(process, convert, s, cells, m, i);
    }
  }

  /** A `toArray` that fails reports the error of a property whose `value()` failed. */
  lemma {:induction false} ExportedFailure<S>(process: CellState -> Result<Value>, convert: (S, Value) -> (Value, S), s: S,
                                             cells: PhpArray<CellState>, n: nat)
    requires n <= |cells| && Exported(process, convert, s, cells, n).0.Failure?
    ensures exists i :: 0 <= i < n && process(cells[i].1) == Failure(Exported(process, convert, s, cells, n).0.error)
    decreases n
  {
    var m := n - 1;
    var prev := Exported(process, convert, s, cells, m);
    if prev.0.Failure? {
      ExportedFailed(process, convert, s, cells, m, n);
      ExportedFailure(process, convert, s, cells, m);
    } else {
      ExportedFailsAt(process, convert, s, cells, m, n);
    }
  }

  // ---------------------------------------------------------------- getProperty

  /**
   * What `getProperty` finds: a property of the DTO itself, by name, or the
   * property `key` of a nested DTO `owner`, with its value.
   */
  datatype Found = Own(name: string) | Inside(owner: Value, key: string, value: Value)

  /**
   * `getProperty` on a DTO of class `dtoClass` whose properties are `cells`,
   * with the listener in state `st`: an exact name wins; a name without a
   * dot is unknown; otherwise the first segment is read with `get` and must
   * hold a DTO, in which the rest of the path is looked up.
   */
  function Lookup(env: Env, st: Listening, dtoClass: string, cells: PhpArray<CellState>, path: string)
    : (r: (Result<Found>, Listening))
    ensures r.1.listeners == st.listeners
    ensures r.0.Success? && r.0.value.Own? ==> r.0.value.name == path && Get(cells, path).Some?
    ensures r.0.Success? && r.0.value.Inside? ==>
      IsDtoInstance(r.0.value.owner) && Get(r.0.value.owner.fields, r.0.value.key) == Some(r.0.value.value)
    decreases |path|, 0
  {
    if Get(cells, path).Some? then (Success(Own(path)), st)
    else if '.' !in path then (Failure(UnknownProperty(dtoClass, path)), st)
    else
      var (head, rest) := SplitFirst(path, '.');
      var (presumed, st1) := Getting(env, st, dtoClass, cells, head);
      if presumed.Failure? then (Failure(presumed.error), st1)
      else if IsDtoInstance(presumed.value) then
        var (found, st2) := NestedProperty(env, st1, presumed.value, rest);
        (if found.Success? then Success(Inside(found.value.0, found.value.1, found.value.2)) else Failure(found.error), st2)
      else (Failure(UnknownProperty(dtoClass, rest)), st1)
  }

  /** `getProperty($path)->value()`: a property of the nested DTO holds its processed value already. */
  function FoundValue(env: Env, cells: PhpArray<CellState>, found: Found): Result<Value>
    requires found.Own? ==> Get(cells, found.name).Some?
  {
    match found
    case Own(name) => Processed(env, Get(cells, name).value)
    case Inside(_, _, v) => Success(v)
  }

  /** `get`: the value `getProperty` leads to, passed through the listener's getter. */
  function Getting(env: Env, st: Listening, dtoClass: string, cells: PhpArray<CellState>, path: string)
    : (r: (Result<Value>, Listening))
    ensures r.1.listeners == st.listeners
    decreases |path|, 1
  {
    var (found, st1) := Lookup(env, st, dtoClass, cells, path);
    if found.Failure? then (Failure(found.error), st1)
    else
      match FoundValue(env, cells, found.value)
      case Failure(e) => (Failure(e), st1)
      case Success(v) =>
        var (heard, st2) := GettingOutcome(env, st1, dtoClass, path, v);
        (Success(heard), st2)
  }

  /** `hasProperty`: whether `getProperty` finds something; only an unknown property is caught. */
  function HasPropertyOutcome(env: Env, st: Listening, dtoClass: string, cells: PhpArray<CellState>, path: string)
    : (r: (Result<bool>, Listening))
  {
    var (found, st1) := Lookup(env, st, dtoClass, cells, path);
    if found.Success? then (Success(true), st1)
    else if found.error.UnknownProperty? then (Success(false), st1)
    else (Failure(found.error), st1)
  }

  /** `has`: whether `get` gives something other than null; only an unknown property is caught. */
  function HasOutcome(env: Env, st: Listening, dtoClass: string, cells: PhpArray<CellState>, path: string)
    : (r: (Result<bool>, Listening))
  {
    var (v, st1) := Getting(env, st, dtoClass, cells, path);
    if v.Success? then (Success(v.value != Null), st1)
    else if v.error.UnknownProperty? then (Success(false), st1)
    else (Failure(v.error), st1)
  }

  /** A name the DTO maps is found as it is, even when it contains a dot, and nobody is asked. */
  lemma ExactNameWins(env: Env, st: Listening, dtoClass: string, cells: PhpArray<CellState>, path: string)
    requires Get(cells, path).Some?
    ensures Lookup(env, st, dtoClass, cells, path) == (Success(Own(path)), st)
    ensures HasPropertyOutcome(env, st, dtoClass, cells, path) == (Success(true), st)
  {
  }

  /** An unmapped name without a dot is unknown, under that name. */
  lemma PlainUnknownName(env: Env, st: Listening, dtoClass: string, cells: PhpArray<CellState>, path: string)
    requires Get(cells, path).None? && '.' !in path
    ensures Lookup(env, st, dtoClass, cells, path) == (Failure(UnknownProperty(dtoClass, path)), st)
    ensures HasPropertyOutcome(env, st, dtoClass, cells, path) == (Success(false), st)
    ensures HasOutcome(env, st, dtoClass, cells, path) == (Success(false), st)
  {
  }

  /** A dotted path whose first segment is not mapped is unknown under that segment. */
  lemma UnknownHead(env: Env, st: Listening, dtoClass: string, cells: PhpArray<CellState>, head: string, rest: string)
    requires '.' !in head && Get(cells, head + "." + rest).None? && Get(cells, head).None?
    ensures Lookup(env, st, dtoClass, cells, head + "." + rest) == (Failure(UnknownProperty(dtoClass, head)), st)
  {
    assert head + "." + rest == head + ['.'] + rest;
    SplitFirstOf(head, rest, '.');
    assert Lookup(env, st, dtoClass, cells, head) == (Failure(UnknownProperty(dtoClass, head)), st);
  }

  /** A dotted path whose first segment holds something other than a DTO is unknown under the rest of the path. */
  lemma NotADto(env: Env, cache: map<string, string>, dtoClass: string, cells: PhpArray<CellState>, head: string, rest: string)
    requires '.' !in head && Get(cells, head + "." + rest).None? && Get(cells, head).Some?
    requires Processed(env, Get(cells, head).value).Success? && !IsDtoInstance(Processed(env, Get(cells, head).value).value)
    ensures Lookup(env, Listening([], cache), dtoClass, cells, head + "." + rest).0 == Failure(UnknownProperty(dtoClass, rest))
  {
    assert head + "." + rest == head + ['.'] + rest;
    SplitFirstOf(head, rest, '.');
    assert Getting(env, Listening([], cache), dtoClass, cells, head).0 == Processed(env, Get(cells, head).value);
  }

  /**
   * With nobody listening, "head.key" finds the property `key` of the DTO
   * the property `head` holds.
   */
  lemma NestedName(env: Env, cache: map<string, string>, dtoClass: string, cells: PhpArray<CellState>,
                   head: string, key: string, inner: Value)
    requires '.' !in head && '.' !in key && Get(cells, head + "." + key).None? && Get(cells, head).Some?
    requires Processed(env, Get(cells, head).value) == Success(inner) && IsDtoInstance(inner)
    requires Get(inner.fields, key).Some?
    ensures Lookup(env, Listening([], cache), dtoClass, cells, head + "." + key).0 ==
      Success(Inside(inner, key, Get(inner.fields, key).value))
  {
    assert head + "." + key == head + ['.'] + key;
    SplitFirstOf(head, key, '.');
    assert Getting(env, Listening([], cache), dtoClass, cells, head) == (Success(inner), Listening([], cache));
  }

  /** `hasProperty` fails only when `getProperty` fails with something other than an unknown property. */
  lemma HasPropertyIsLookup(env: Env, st: Listening, dtoClass: string, cells: PhpArray<CellState>, path: string)
    ensures var (has, _) := HasPropertyOutcome(env, st, dtoClass, cells, path);
      var (found, _) := Lookup(env, st, dtoClass, cells, path);
      && (has == Success(true) <==> found.Success?)
      && (has == Success(false) <==> found.Failure? && found.error.UnknownProperty?)
  {
  }

  // ---------------------------------------------------------------- set

  /** What `setPropertyValueOrMap` does with a path: set a property of this DTO, set one of a nested DTO, or map the data again. */
  datatype SetPlan = SetOwn(name: string) | SetInside(owner: Value, key: string) | Remap

  /**
   * How `setPropertyValueOrMap` decides: `hasProperty` first, and when it
   * holds, `getProperty` again for the property to set; both consult the
   * listener.
   */
  function SetPlanOf(env: Env, st: Listening, dtoClass: string, cells: PhpArray<CellState>, path: string)
    : (r: (Result<SetPlan>, Listening))
    ensures r.1.listeners == st.listeners
    ensures r.0.Success? && r.0.value.SetOwn? ==> Get(cells, r.0.value.name).Some?
    ensures r.0.Success? && r.0.value.SetInside? ==> IsDtoInstance(r.0.value.owner) && Get(r.0.value.owner.fields, r.0.value.key).Some?
  {
    var (has, st1) := HasPropertyOutcome(env, st, dtoClass, cells, path);
    if has.Failure? then (Failure(has.error), st1)
    else if !has.value then (Success(Remap), st1)
    else
      var (found, st2) := Lookup(env, st1, dtoClass, cells, path);
      if found.Failure? then (Failure(found.error), st2)
      else
        match found.value
        case Own(name) => (Success(SetOwn(name)), st2)
        case Inside(owner, key, _) => (Success(SetInside(owner, key)), st2)
  }

  /** A name the DTO maps is set in place, even when it contains a dot. */
  lemma SetPlanExactName(env: Env, st: Listening, dtoClass: string, cells: PhpArray<CellState>, path: string)
    requires Get(cells, path).Some?
    ensures SetPlanOf(env, st, dtoClass, cells, path) == (Success(SetOwn(path)), st)
  {
    ExactNameWins(env, st, dtoClass, cells, path);
  }

  /** An unmapped name without a dot makes the DTO map its data again. */
  lemma SetPlanNewName(env: Env, st: Listening, dtoClass: string, cells: PhpArray<CellState>, path: string)
    requires Get(cells, path).None? && '.' !in path
    ensures SetPlanOf(env, st, dtoClass, cells, path) == (Success(Remap), st)
  {
    PlainUnknownName(env, st, dtoClass, cells, path);
  }

  /** The properties after `setValue($raw, $flags)` on the one named `name`: its raw value and flags replaced, its types kept. */
  function SetCell(cells: PhpArray<CellState>, name: string, raw: Value, flags: Flags): (r: PhpArray<CellState>)
    requires Get(cells, name).Some?
  {
    Put(cells, name, CellState(raw, flags, Get(cells, name).value.facts))
  }

  /** Setting a property keeps the names, and changes nothing but that property's raw value and flags. */
  lemma SetCellChangesOne(cells: PhpArray<CellState>, name: string, raw: Value, flags: Flags, x: string)
    requires Get(cells, name).Some?
    ensures Keys(SetCell(cells, name, raw, flags)) == Keys(cells)
    ensures Get(SetCell(cells, name, raw, flags), x) ==
      if x == name then Some(CellState(raw, flags, Get(cells, name).value.facts)) else Get(cells, x)
  {
    var c := CellState(raw, flags, Get(cells, name).value.facts);
    PutKeysAfter(cells, name, c);
    PutGet(cells, name, c, x);
  }

  /**
   * The data `setPropertyValueOrMap` maps again for a name the DTO does not
   * have: the exported data with the value stored under the name, or, for a
   * dotted name, the nesting of the rest of the path under its first segment.
   */
  function WithEntry(data: PhpArray<Value>, path: string, v: Value): (r: PhpArray<Value>)
    ensures '.' !in path ==> Get(r, path) == Some(v)
    ensures '.' in path ==> Get(r, SplitFirst(path, '.').0) == Some(ResolveNestedValue(SplitFirst(path, '.').1, v))
    ensures forall x :: x in Keys(data) ==> x in Keys(r)
  {
    var (key, stored) := if '.' !in path then (path, v) else (SplitFirst(path, '.').0, ResolveNestedValue(SplitFirst(path, '.').1, v));
    PutGet(data, key, stored, key);
    PutKeysAfter(data, key, stored);
    Put(data, key, stored)
  }

  /** Only the one entry changes. */
  lemma WithEntryKeepsOthers(data: PhpArray<Value>, path: string, v: Value, x: string)
    requires '.' !in path && x != path
    ensures Get(WithEntry(data, path, v), x) == Get(data, x)
  {
    PutGet(data, path, v, x);
  }

  /** A dotted name stores the value along the path: digging it out gives the value back. */
  lemma WithEntryDig(data: PhpArray<Value>, path: string, v: Value)
    requires '.' in path
    ensures Dig(Arr(WithEntry(data, path, v)), path) == Some(v)
  {
    var (head, rest) := SplitFirst(path, '.');
    DigResolved(rest, v);
  }
}
