/**
 * The DTO of the first generation of the library (src/Dto.php): the same
 * object as the trait generation (its flags and a map from property names
 * to property objects), without a listener, with the older array converter
 * and with a `set` that never maps the data again.
 *
 * The process-wide singletons (the mapper of the class, the array converter)
 * are passed in explicitly.
 */
module LegacyDtos {
  import opened Wrappers
  import opened PhpArrays
  import opened Strings
  import opened DtoFlags
  import DtoFlagsHandler
  import opened Values
  import opened PropertyType
  import opened PropertyTypes
  import opened Property
  import opened PropertiesMapper
  import opened Listeners
  import opened DtoData
  import opened DtoStates
  import Dtos
  import LegacyConverters

  /** Nobody listening: this generation has no listener. */
  const Quiet: Listening := Listening([], map[])

  /**
   * `getProperty`: an exact name wins; a name without a dot is unknown;
   * otherwise the first segment is read with `get` and must hold a DTO, in
   * which the rest of the path is looked up.
   */
  function Finding(env: Env, dtoClass: string, cells: PhpArray<CellState>, path: string): (r: Result<Found>)
    ensures r.Success? && r.value.Own? ==> r.value.name == path && Get(cells, path).Some?
    ensures r.Success? && r.value.Inside? ==>
      IsDtoInstance(r.value.owner) && Get(r.value.owner.fields, r.value.key) == Some(r.value.value)
    decreases |path|, 0
  {
    if Get(cells, path).Some? then Success(Own(path))
    else if '.' !in path then Failure(UnknownProperty(dtoClass, path))
    else
      var (head, rest) := SplitFirst(path, '.');
      match Reading(env, dtoClass, cells, head)
      case Failure(e) => Failure(e)
      case Success(presumed) =>
        if IsDtoInstance(presumed) then
          var found := NestedProperty(env, Quiet, presumed, rest).0;
          if found.Success? then Success(Inside(found.value.0, found.value.1, found.value.2)) else Failure(found.error)
        else Failure(UnknownProperty(dtoClass, rest))
  }

  /** `get`: `value()` of the property `getProperty` finds. */
  function Reading(env: Env, dtoClass: string, cells: PhpArray<CellState>, path: string): Result<Value>
    decreases |path|, 1
  {
    match Finding(env, dtoClass, cells, path)
    case Failure(e) => Failure(e)
    case Success(found) => FoundValue(env, cells, found)
  }

  /** `hasProperty`: whether `getProperty` finds something; only an unknown property is caught. */
  function HasPropertyOf(env: Env, dtoClass: string, cells: PhpArray<CellState>, path: string): Result<bool>
  {
    match Finding(env, dtoClass, cells, path)
    case Success(_) => Success(true)
    case Failure(e) => if e.UnknownProperty? then Success(false) else Failure(e)
  }

  /** `has`: whether `get` gives something other than null; only an unknown property is caught. */
  function HasOf(env: Env, dtoClass: string, cells: PhpArray<CellState>, path: string): Result<bool>
  {
    match Reading(env, dtoClass, cells, path)
    case Success(v) => Success(v != Null)
    case Failure(e) => if e.UnknownProperty? then Success(false) else Failure(e)
  }

  /** Looking inside a nested DTO with nobody listening leaves nobody listening. */
  lemma {:induction false} NestedQuiet(env: Env, dto: Value, path: string)
    requires IsDtoInstance(dto)
    ensures NestedProperty(env, Quiet, dto, path).1 == Quiet
    decreases |path|
  {
    if Get(dto.fields, path).None? && '.' in path {
      var (head, rest) := SplitFirst(path, '.');
      if Get(dto.fields, head).Some? {
        var hv := Get(dto.fields, head).value;
        NoListeners(env, map[], dto.cls, head, hv);
        if IsDtoInstance(hv) {
          NestedQuiet(env, hv, rest);
        }
      }
    }
  }

  /**
   * This generation's `getProperty` and `get` are the trait generation's
   * with nobody listening, which then stays so.
   */
  lemma {:induction false} QuietLookup(env: Env, dtoClass: string, cells: PhpArray<CellState>, path: string)
    ensures Lookup(env, Quiet, dtoClass, cells, path) == (Finding(env, dtoClass, cells, path), Quiet)
    ensures Getting(env, Quiet, dtoClass, cells, path) == (Reading(env, dtoClass, cells, path), Quiet)
    decreases |path|
  {
    if Get(cells, path).None? && '.' in path {
      var (head, rest) := SplitFirst(path, '.');
      QuietLookup(env, dtoClass, cells, head);
      var presumed := Reading(env, dtoClass, cells, head);
      if presumed.Success? && IsDtoInstance(presumed.value) {
        NestedQuiet(env, presumed.value, rest);
      }
    }
    var found := Finding(env, dtoClass, cells, path);
    if found.Success? {
      var v := FoundValue(env, cells, found.value);
      if v.Success? {
        NoListeners(env, map[], dtoClass, path, v.value);
      }
    }
  }

  /** This generation's `hasProperty` and `has` are the trait generation's with nobody listening. */
  lemma QuietHas(env: Env, dtoClass: string, cells: PhpArray<CellState>, path: string)
    ensures HasPropertyOutcome(env, Quiet, dtoClass, cells, path) == (HasPropertyOf(env, dtoClass, cells, path), Quiet)
    ensures HasOutcome(env, Quiet, dtoClass, cells, path) == (HasOf(env, dtoClass, cells, path), Quiet)
  {
    QuietLookup(env, dtoClass, cells, path);
  }

  /**
   * `getProperty($path)->setValue($v, $flags)` on a DTO whose properties are
   * `cells`, declared with `types`: the error raised on the way, if any,
   * and the properties' states afterwards. A property of a nested DTO is
   * set by `nestedSet`.
   */
  function Setting(env: Env, nestedSet: (Value, string, Value, Flags) -> Option<Error>, dtoClass: string, flags: Flags,
                   cells: PhpArray<CellState>, types: PhpArray<seq<AtomInfo>>, path: string, v: Value)
    : (r: (Option<Error>, PhpArray<CellState>))
    requires Keys(types) == Keys(cells)
    ensures r.0.None? ==> Finding(env, dtoClass, cells, path).Success?
    ensures Finding(env, dtoClass, cells, path).Failure? ==> r.1 == cells
  {
    match Finding(env, dtoClass, cells, path)
    case Failure(e) => (Some(e), cells)
    case Success(Own(name)) => (Validation(env, name, v, flags, Get(types, name).value), SetCell(cells, name, v, flags))
    case Success(Inside(owner, key, _)) => (nestedSet(owner, key, v, flags), cells)
  }

  /** Setting a property the DTO maps changes its raw value and flags, and no other property's state. */
  lemma SettingOwn(env: Env, nestedSet: (Value, string, Value, Flags) -> Option<Error>, dtoClass: string, flags: Flags,
                   cells: PhpArray<CellState>, types: PhpArray<seq<AtomInfo>>, path: string, v: Value, x: string)
    requires Keys(types) == Keys(cells) && Get(cells, path).Some?
    ensures var after := Setting(env, nestedSet, dtoClass, flags, cells, types, path, v).1;
      && Get(after, path) == Some(CellState(v, flags, Get(cells, path).value.facts))
      && (x != path ==> Get(after, x) == Get(cells, x))
  {
    SetCellChangesOne(cells, path, v, flags, x);
    SetCellChangesOne(cells, path, v, flags, path);
  }

  /** A path the DTO does not know fails with an unknown property and changes nothing. */
  lemma SettingUnknown(env: Env, nestedSet: (Value, string, Value, Flags) -> Option<Error>, dtoClass: string, flags: Flags,
                       cells: PhpArray<CellState>, types: PhpArray<seq<AtomInfo>>, path: string, v: Value)
    requires Keys(types) == Keys(cells) && Get(cells, path).None? && '.' !in path
    ensures Setting(env, nestedSet, dtoClass, flags, cells, types, path, v) == (Some(UnknownProperty(dtoClass, path)), cells)
  {
  }

  /** `convert` of the older array converter, which remembers nothing between calls. */
  function LegacyConversion(env: Env, conversions: PhpArray<nat>): ((), Value) -> (Value, ())
  {
    (u, v) => (LegacyConverters.Converted(env, conversions, v), u)
  }

  /** `toArray`: each property's processed value, passed through the older array converter, under its name. */
  function Exporting(env: Env, conversions: PhpArray<nat>, cells: PhpArray<CellState>): Result<PhpArray<Value>>
  {
    Exported(Dtos.Processing(env), LegacyConversion(env, conversions), (), cells, |cells|).0
  }

  /**
   * What `merge` computes before it builds: the data (the exported data
   * with the converted input replaced into it recursively) and the merged
   * flags, or the first error.
   */
  function Merging(env: Env, conversions: PhpArray<nat>, cells: PhpArray<CellState>, flags: Flags, data: Value, f: Flags)
    : Result<(PhpArray<Value>, Flags)>
  {
    if !IsIterable(data) then Failure(TypeError(Dtos.NotIterable))
    else
      var replacements := LegacyConverters.Converted(env, conversions, data);
      match Exporting(env, conversions, cells)
      case Failure(e) => Failure(e)
      case Success(exported) =>
        if !replacements.Arr? then Failure(TypeError(Dtos.NotAnArray))
        else
          match DtoFlagsHandler.Merge(flags, f)
          case Failure(e) => Failure(e)
          case Success(merged) => Success((ReplaceRecursive(exported, replacements.entries), merged))
  }

  /** `merge` on a DTO that is not MUTABLE: the construction of a DTO of the class from what `merge` computes. */
  ghost function MergeMade(env: Env, m: DtoPropertiesMapper, defaultFlags: Flags, conversions: PhpArray<nat>,
                           cells: PhpArray<CellState>, flags: Flags, data: Value, f: Flags)
    : Result<(Flags, seq<Mapped>)>
    reads m
  {
    match Merging(env, conversions, cells, flags, data, f)
    case Failure(e) => Failure(e)
    case Success(p) => Dtos.Making(env, m, defaultFlags, p.0, p.1)
  }

  /**
   * `merge` on a MUTABLE DTO: the error, the flags and the properties'
   * states it leaves (the merged flags are taken before the data is mapped,
   * so they stay when the mapping fails).
   */
  ghost function MergeInPlace(env: Env, m: DtoPropertiesMapper, conversions: PhpArray<nat>,
                              cells: PhpArray<CellState>, flags: Flags, data: Value, f: Flags)
    : (Option<Error>, Flags, PhpArray<CellState>)
    reads m
  {
    match Merging(env, conversions, cells, flags, data, f)
    case Failure(e) => (Some(e), flags, cells)
    case Success(p) =>
      var (e, cells') := Dtos.MappedInto(m.Outcome(env, p.0, p.1), p.1, cells);
      (e, p.1, cells')
  }

  /**
   * `offsetUnset`: refused unless MUTABLE, then unless PARTIAL, then unless
   * `hasProperty`; then the entry under exactly that name goes, if there is one.
   */
  function Unsetting(env: Env, dtoClass: string, flags: Flags, cells: PhpArray<CellState>, path: string)
    : (r: (Option<Error>, PhpArray<CellState>))
    ensures r.0.Some? ==> r.1 == cells
    ensures r.0.None? ==> r.1 == Remove(cells, path)
  {
    if !IsSet(flags, MUTABLE) then (Some(ImmutableDto(dtoClass)), cells)
    else if !IsSet(flags, PARTIAL) then (Some(UnsetProperty(dtoClass, path)), cells)
    else
      match HasPropertyOf(env, dtoClass, cells, path)
      case Failure(e) => (Some(e), cells)
      case Success(has) => if !has then (Some(UnknownProperty(dtoClass, path)), cells) else (None, Remove(cells, path))
  }

  /**
   * A dotted path that leads into a nested DTO passes every check of
   * `offsetUnset`, but no entry has that name, so nothing is removed.
   */
  lemma UnsettingNestedKeepsAll(env: Env, dtoClass: string, flags: Flags, cells: PhpArray<CellState>, path: string)
    requires IsSet(flags, MUTABLE) && IsSet(flags, PARTIAL)
    requires Finding(env, dtoClass, cells, path).Success? && Finding(env, dtoClass, cells, path).value.Inside?
    ensures Unsetting(env, dtoClass, flags, cells, path) == (None, cells)
  {
    RemoveAbsent(cells, path);
  }

  /** Removing a name that is not there changes nothing. */
  lemma RemoveAbsent<V>(a: PhpArray<V>, k: string)
    requires Get(a, k).None?
    ensures Remove(a, k) == a
  {
  }

  /** The loop of `toArray`. */
  method Export(env: Env, converter: LegacyConverters.ArrayConverter, cells: PhpArray<CellState>)
    returns (r: Result<PhpArray<Value>>)
    ensures r == Exporting(env, converter.conversions, cells)
  {
    ghost var process, convert := Dtos.Processing(env), LegacyConversion(env, converter.conversions);
    var data: PhpArray<Value> := [];
    var i := 0;
    while i < |cells|
      invariant i <= |cells|
      invariant Exported(process, convert, (), cells, i) == (Success(data), ())
    {
      var v := Processed(env, cells[i].1);
      if v.Failure? {
        ExportedStops(process, convert, (), cells, i, i + 1, v.error);
        ExportedFailureSticks(process, convert, (), cells, i + 1, |cells|);
        return Failure(v.error);
      }
      var converted := converter.Convert(env, v.value);
      ExportedNext(process, convert, (), cells, i, i + 1, v.value);
      data := Put(data, cells[i].0, converted);
      i := i + 1;
    }
    r := Success(data);
  }

  class Dto {
    const dtoClass: string
    /** `static::$defaultFlags`. */
    const defaultFlags: Flags
    /** `DtoPropertiesMapper::for(static::class)`. */
    const mapper: DtoPropertiesMapper
    var flags: Flags
    var propertiesMap: PhpArray<DtoProperty>

    function Cells(): set<DtoProperty>
      reads this
    {
      set i | 0 <= i < |propertiesMap| :: propertiesMap[i].1
    }

    function Unions(): set<DtoPropertyTypes>
      reads this
    {
      set i | 0 <= i < |propertiesMap| :: propertiesMap[i].1.types
    }

    function TypeObjects(): set<DtoPropertyType>
      reads this, Unions()
    {
      set i, j | 0 <= i < |propertiesMap| && 0 <= j < |propertiesMap[i].1.types.all| :: propertiesMap[i].1.types.all[j]
    }

    /** The mapper is the one of the class, and every property is keyed by its own name and keeps its invariant. */
    ghost predicate Valid(env: Env)
      reads this, Cells(), Unions(), TypeObjects()
    {
      mapper.dtoClass == dtoClass && Dtos.WellKeyed(env, propertiesMap)
    }

    /** What the properties hold, by name. */
    function Snapshot(): PhpArray<CellState>
      reads this, Cells(), Unions()
    {
      Dtos.States(propertiesMap)
    }

    /** The declared types of the properties, by name. */
    ghost function DeclaredTypes(): (r: PhpArray<seq<AtomInfo>>)
      reads this, Unions()
      ensures Keys(r) == Keys(propertiesMap)
    {
      Dtos.TypesOf(propertiesMap)
    }

    /** Nothing this DTO's properties depend on has changed, so they are as they were. */
    twostate lemma Kept(env: Env)
      requires old(Valid(env)) && propertiesMap == old(propertiesMap)
      requires forall o :: o in old(Cells()) ==> unchanged(o)
      requires forall o :: o in old(Unions()) ==> unchanged(o)
      requires forall o :: o in old(TypeObjects()) ==> unchanged(o)
      ensures Valid(env) && Snapshot() == old(Snapshot()) && DeclaredTypes() == old(DeclaredTypes())
    {
      forall i | 0 <= i < |propertiesMap|
        ensures propertiesMap[i].1.Valid(env)
        ensures Snapshot()[i] == old(Snapshot()[i]) && DeclaredTypes()[i] == old(DeclaredTypes()[i])
      {
        var p := propertiesMap[i].1;
        assert p in old(Cells()) && p.types in old(Unions());
        forall j | 0 <= j < |p.types.all| ensures unchanged(p.types.all[j]) {
          assert p.types.all[j] in old(TypeObjects());
        }
      }
    }

    constructor Of(dtoClass: string, defaultFlags: Flags, mapper: DtoPropertiesMapper, flags: Flags, propertiesMap: PhpArray<DtoProperty>)
      ensures this.dtoClass == dtoClass && this.defaultFlags == defaultFlags && this.mapper == mapper
      ensures this.flags == flags && this.propertiesMap == propertiesMap
    {
      this.dtoClass := dtoClass;
      this.defaultFlags := defaultFlags;
      this.mapper := mapper;
      this.flags := flags;
      this.propertiesMap := propertiesMap;
    }

    /**
     * The constructor (and `make`): the flags are `mergeFlags` of the
     * class's defaults and the given ones, and the properties are `mapData`
     * of the data under them.
     */
    static method Make(env: Env, dtoClass: string, defaultFlags: Flags, mapper: DtoPropertiesMapper,
                       data: PhpArray<Value>, flags: Flags) returns (r: Result<Dto>)
      requires mapper.Valid() && mapper.dtoClass == dtoClass
      modifies mapper
      ensures mapper.Valid()
      ensures var made := old(Dtos.Making(env, mapper, defaultFlags, data, flags));
        && (r.Failure? <==> made.Failure?)
        && (r.Failure? ==> r.error == made.error)
        && (r.Success? ==>
              && fresh(r.value) && r.value.Valid(env)
              && r.value.dtoClass == dtoClass && r.value.defaultFlags == defaultFlags && r.value.mapper == mapper
              && r.value.flags == made.value.0 && r.value.Snapshot() == Built(made.value.1, made.value.0))
    {
      var merged := DtoFlagsHandler.Merge(defaultFlags, flags);
      if merged.Failure? {
        return Failure(merged.error);
      }
      var cells := mapper.Map(env, data, merged.value);
      if cells.Failure? {
        return Failure(cells.error);
      }
      Dtos.MadeStates(env, merged.value, mapper.Repr, cells.value, old(mapper.Outcome(env, data, merged.value)).value);
      var dto := new Dto.Of(dtoClass, defaultFlags, mapper, merged.value, cells.value);
      r := Success(dto);
    }

    /** What a DTO of this one's class, built by `new static`, is when it was built as `made` says. */
    ghost predicate Remade(env: Env, r: Result<Dto>, made: Result<(Flags, seq<Mapped>)>)
      reads if r.Success? then {r.value} + r.value.Cells() + r.value.Unions() + r.value.TypeObjects() else {}
    {
      && (r.Failure? <==> made.Failure?)
      && (r.Failure? ==> r.error == made.error)
      && (r.Success? ==>
            && r.value.Valid(env) && r.value.dtoClass == dtoClass && r.value.defaultFlags == defaultFlags && r.value.mapper == mapper
            && r.value.flags == made.value.0 && r.value.Snapshot() == Built(made.value.1, made.value.0))
    }

    /** `new static($data, $f)` from inside this DTO, which stays as it is. */
    method Remake(env: Env, data: PhpArray<Value>, f: Flags) returns (r: Result<Dto>)
      requires Valid(env) && mapper.Valid()
      modifies mapper
      ensures mapper.Valid() && Valid(env) && Snapshot() == old(Snapshot())
      ensures Remade(env, r, old(Dtos.Making(env, mapper, defaultFlags, data, f))) && (r.Success? ==> fresh(r.value))
    {
      r := Make(env, dtoClass, defaultFlags, mapper, data, f);
      Kept(env);
    }

    /** `getPropertyNames`: the names of the map, in map order. */
    function PropertyNames(): (r: seq<string>)
      reads this
      ensures |r| == |propertiesMap| && forall i :: 0 <= i < |r| ==> r[i] == propertiesMap[i].0
    {
      Keys(propertiesMap)
    }

    /** `getProperties`: the property objects of the map, in map order. */
    function Properties(): (r: seq<DtoProperty>)
      reads this
      ensures |r| == |propertiesMap| && forall i :: 0 <= i < |r| ==> r[i] == propertiesMap[i].1
    {
      PhpArrays.Values(propertiesMap)
    }

    /** The property object mapped under `name`. */
    function PropertyAt(name: string): DtoProperty
      reads this
      requires PhpArrays.Get(propertiesMap, name).Some?
    {
      PhpArrays.Get(propertiesMap, name).value
    }

    /** `getProperty`: an exact name first, then a dotted path whose first segment must hold a DTO. */
    method GetProperty(env: Env, path: string) returns (r: Result<Found>)
      requires Valid(env)
      modifies Cells()
      ensures Valid(env) && propertiesMap == old(propertiesMap) && flags == old(flags) && Snapshot() == old(Snapshot())
      ensures r == Finding(env, dtoClass, Snapshot(), path)
      decreases |path|, 0
    {
      Dtos.StatesGet(propertiesMap, path);
      if PhpArrays.Get(propertiesMap, path).Some? {
        return Success(Own(path));
      }
      if '.' !in path {
        return Failure(UnknownProperty(dtoClass, path));
      }
      var (head, rest) := SplitFirst(path, '.');
      var presumed := Get(env, head);
      if presumed.Failure? {
        return Failure(presumed.error);
      }
      if !IsDtoInstance(presumed.value) {
        return Failure(UnknownProperty(dtoClass, rest));
      }
      var (found, _) := NestedProperty(env, Quiet, presumed.value, rest);
      r := if found.Success? then Success(Inside(found.value.0, found.value.1, found.value.2)) else Failure(found.error);
    }

    /** `get`: `value()` of the property `getProperty` finds. */
    method Get(env: Env, path: string) returns (r: Result<Value>)
      requires Valid(env)
      modifies Cells()
      ensures Valid(env) && propertiesMap == old(propertiesMap) && flags == old(flags) && Snapshot() == old(Snapshot())
      ensures r == Reading(env, dtoClass, Snapshot(), path)
      decreases |path|, 1
    {
      var found := GetProperty(env, path);
      if found.Failure? {
        return Failure(found.error);
      }
      match found.value {
        case Own(name) =>
          Dtos.StatesGet(propertiesMap, name);
          r := ReadProperty(env, name);
        case Inside(_, _, value) =>
          r := Success(value);
      }
    }

    /** `$property->value()` of a property of this DTO: computed, and remembered by the property. */
    method ReadProperty(env: Env, name: string) returns (r: Result<Value>)
      requires Valid(env) && PhpArrays.Get(propertiesMap, name).Some?
      modifies PropertyAt(name)
      ensures Valid(env) && Snapshot() == old(Snapshot())
      ensures r == Processed(env, Dtos.StateOf(PropertyAt(name)))
    {
      var p := PropertyAt(name);
      ghost var states := Snapshot();
      r := p.Value(env);
      assert Snapshot() == states;
    }

    /** `hasProperty`. */
    method HasProperty(env: Env, path: string) returns (r: Result<bool>)
      requires Valid(env)
      modifies Cells()
      ensures Valid(env) && propertiesMap == old(propertiesMap) && flags == old(flags) && Snapshot() == old(Snapshot())
      ensures r == HasPropertyOf(env, dtoClass, Snapshot(), path)
    {
      var found := GetProperty(env, path);
      if found.Success? {
        return Success(true);
      }
      r := if found.error.UnknownProperty? then Success(false) else Failure(found.error);
    }

    /** `has` (and `offsetExists`). */
    method Has(env: Env, path: string) returns (r: Result<bool>)
      requires Valid(env)
      modifies Cells()
      ensures Valid(env) && propertiesMap == old(propertiesMap) && flags == old(flags) && Snapshot() == old(Snapshot())
      ensures r == HasOf(env, dtoClass, Snapshot(), path)
    {
      var v := Get(env, path);
      if v.Success? {
        return Success(v.value != Null);
      }
      r := if v.error.UnknownProperty? then Success(false) else Failure(v.error);
    }

    /**
     * `clone()`, with `__clone`: a new DTO with the same flags whose map
     * holds a copy of every property, so changing the copy's properties
     * leaves this DTO's untouched.
     */
    method Clone(env: Env) returns (c: Dto)
      requires Valid(env)
      ensures fresh(c) && c.Valid(env)
      ensures c.dtoClass == dtoClass && c.defaultFlags == defaultFlags && c.mapper == mapper && c.flags == flags
      ensures c.Snapshot() == Snapshot() && c.DeclaredTypes() == DeclaredTypes() && Keys(c.propertiesMap) == Keys(propertiesMap)
      ensures forall i :: 0 <= i < |c.propertiesMap| ==> fresh(c.propertiesMap[i].1) && fresh(c.propertiesMap[i].1.types)
      ensures Cells() !! c.Cells()
    {
      var cells := Dtos.CloneProperties(env, propertiesMap);
      ghost var states := Dtos.States(cells);
      ghost var types := Dtos.TypesOf(cells);
      c := new Dto.Of(dtoClass, defaultFlags, mapper, flags, cells);
      assert c.Snapshot() == states && c.DeclaredTypes() == types;
    }

    /**
     * `setValue($v, $f)` on the property this DTO maps under `name`: that
     * property's raw value and flags change, every other property keeps
     * its state, and the outcome is the property's validation of the value.
     */
    method SetOwnValue(env: Env, name: string, v: Value, f: Flags) returns (e: Option<Error>)
      requires Valid(env) && PhpArrays.Get(propertiesMap, name).Some?
      modifies PropertyAt(name)
      ensures Valid(env) && Snapshot() == SetCell(old(Snapshot()), name, v, f)
      ensures e == Validation(env, name, v, f, PropertyAt(name).types.Atoms)
    {
      GetFound(propertiesMap, name);
      var i :| 0 <= i < |propertiesMap| && propertiesMap[i].0 == name && propertiesMap[i].1 == PropertyAt(name);
      Dtos.StatesGet(propertiesMap, name);
      PutExisting(Snapshot(), i, CellState(v, f, Snapshot()[i].1.facts));
      e := Dtos.SetAt(env, propertiesMap, i, v, f);
    }

    /** The body of the `try` in `set`, on this DTO: `getProperty($path)->setValue($v, $f)`. */
    method SetIn(env: Env, nestedSet: (Value, string, Value, Flags) -> Option<Error>, path: string, v: Value, f: Flags)
      returns (e: Option<Error>)
      requires Valid(env)
      modifies Cells()
      ensures Valid(env) && propertiesMap == old(propertiesMap) && flags == old(flags)
      ensures (e, Snapshot()) == old(Setting(env, nestedSet, dtoClass, f, Snapshot(), DeclaredTypes(), path, v))
    {
      ghost var cells, types := Snapshot(), DeclaredTypes();
      var found := GetProperty(env, path);
      if found.Failure? {
        return Some(found.error);
      }
      assert Snapshot() == cells && DeclaredTypes() == types;
      e := SetFound(env, nestedSet, found.value, v, f);
    }

    /** `setValue($v, $f)` on what `getProperty` found. */
    method SetFound(env: Env, nestedSet: (Value, string, Value, Flags) -> Option<Error>, found: Found, v: Value, f: Flags)
      returns (e: Option<Error>)
      requires Valid(env)
      requires found.Own? ==> PhpArrays.Get(Snapshot(), found.name).Some?
      modifies Cells()
      ensures Valid(env) && propertiesMap == old(propertiesMap) && flags == old(flags)
      ensures found.Own? ==>
        (e, Snapshot()) == old((Validation(env, found.name, v, f, PhpArrays.Get(DeclaredTypes(), found.name).value),
                                SetCell(Snapshot(), found.name, v, f)))
      ensures found.Inside? ==> e == nestedSet(found.owner, found.key, v, f) && Snapshot() == old(Snapshot())
    {
      match found {
        case Own(name) =>
          Dtos.StatesGet(propertiesMap, name);
          Dtos.TypesGet(propertiesMap, name);
          e := SetOwnValue(env, name, v, f);
        case Inside(owner, key, _) =>
          e := nestedSet(owner, key, v, f);
      }
    }

    /** `set` on a copy of this DTO, which stays as it is. */
    method SetInClone(env: Env, nestedSet: (Value, string, Value, Flags) -> Option<Error>, path: string, v: Value)
      returns (c: Dto, e: Option<Error>)
      requires Valid(env)
      ensures Valid(env) && Snapshot() == old(Snapshot())
      ensures fresh(c) && c.Valid(env) && c.flags == flags
      ensures c.dtoClass == dtoClass && c.defaultFlags == defaultFlags && c.mapper == mapper
      ensures (e, c.Snapshot()) == old(Setting(env, nestedSet, dtoClass, flags, Snapshot(), DeclaredTypes(), path, v))
    {
      ghost var cells, types := Snapshot(), DeclaredTypes();
      c := Clone(env);
      assert c.Snapshot() == cells && c.DeclaredTypes() == types;
      e := c.SetIn(env, nestedSet, path, v, flags);
      Kept(env);
    }

    /**
     * `set`: a MUTABLE DTO sets the property itself and is returned; any
     * other DTO sets it on a clone, which is returned, and stays as it is.
     * An unknown property is ignored under IGNORE_UNKNOWN_PROPERTIES.
     */
    method Set(env: Env, nestedSet: (Value, string, Value, Flags) -> Option<Error>, path: string, v: Value)
      returns (r: Result<Dto>)
      requires Valid(env)
      modifies Cells()
      ensures Valid(env) && propertiesMap == old(propertiesMap) && flags == old(flags)
      ensures var (e, cells) := old(Setting(env, nestedSet, dtoClass, flags, Snapshot(), DeclaredTypes(), path, v));
        && (r.Failure? <==> Dtos.Raised(e, flags)) && (r.Failure? ==> Some(r.error) == e)
        && (IsSet(flags, MUTABLE) ==> Snapshot() == cells && (r.Success? ==> r.value == this))
        && (!IsSet(flags, MUTABLE) ==>
              && Snapshot() == old(Snapshot())
              && (r.Success? ==> fresh(r.value) && r.value.Valid(env) && r.value.Snapshot() == cells && r.value.flags == flags
                                 && r.value.dtoClass == dtoClass && r.value.defaultFlags == defaultFlags && r.value.mapper == mapper))
    {
      if IsSet(flags, MUTABLE) {
        var e := SetIn(env, nestedSet, path, v, flags);
        r := if Dtos.Raised(e, flags) then Failure(e.value) else Success(this);
      } else {
        var c, e := SetInClone(env, nestedSet, path, v);
        r := if Dtos.Raised(e, flags) then Failure(e.value) else Success(c);
      }
    }

    /** `toArray`: each property's processed value, passed through the older array converter, under its name. */
    method ToArray(env: Env, converter: LegacyConverters.ArrayConverter) returns (r: Result<PhpArray<Value>>)
      requires Valid(env)
      ensures r == Exporting(env, converter.conversions, Snapshot())
      ensures r.Success? ==> Keys(r.value) == Keys(propertiesMap)
    {
      var cells := Snapshot();
      r := Export(env, converter, cells);
      if r.Success? {
        SameKeysDistinct(propertiesMap, cells);
        ExportedKeys(Dtos.Processing(env), LegacyConversion(env, converter.conversions), (), cells);
      }
    }

    /** What `merge` computes before it builds: the merged data and the merged flags. */
    method MergePlan(env: Env, converter: LegacyConverters.ArrayConverter, data: Value, f: Flags)
      returns (r: Result<(PhpArray<Value>, Flags)>)
      requires Valid(env) && mapper.Valid()
      ensures mapper.Valid() && Valid(env) && Snapshot() == old(Snapshot())
      ensures r == Merging(env, converter.conversions, Snapshot(), flags, data, f)
    {
      if !IsIterable(data) {
        return Failure(TypeError(Dtos.NotIterable));
      }
      var replacements := converter.Convert(env, data);
      var exported := ToArray(env, converter);
      Kept(env);
      mapper.ValidKept();
      if exported.Failure? {
        return Failure(exported.error);
      }
      if !replacements.Arr? {
        return Failure(TypeError(Dtos.NotAnArray));
      }
      var merged := DtoFlagsHandler.Merge(flags, f);
      if merged.Failure? {
        return Failure(merged.error);
      }
      r := Success((ReplaceRecursive(exported.value, replacements.entries), merged.value));
    }

    /**
     * `merge`: the converted input replaces, recursively, into the exported
     * data, and the flags are merged with the given ones; a DTO that is not
     * MUTABLE makes a new one of that, a MUTABLE one takes the flags and maps
     * the data itself.
     */
    method Merge(env: Env, converter: LegacyConverters.ArrayConverter, data: Value, f: Flags) returns (r: Result<Dto>)
      requires Valid(env) && mapper.Valid()
      modifies this, mapper
      ensures mapper.Valid() && Valid(env)
      ensures !old(IsSet(flags, MUTABLE)) ==>
        && flags == old(flags) && propertiesMap == old(propertiesMap) && Snapshot() == old(Snapshot())
        && Remade(env, r, old(MergeMade(env, mapper, defaultFlags, converter.conversions, Snapshot(), flags, data, f)))
        && (r.Success? ==> fresh(r.value))
      ensures old(IsSet(flags, MUTABLE)) ==>
        var (e, merged, cells) := old(MergeInPlace(env, mapper, converter.conversions, Snapshot(), flags, data, f));
        && flags == merged && Snapshot() == cells
        && r == if e.Some? then Failure(e.value) else Success(this)
    {
      var plan := MergePlan(env, converter, data, f);
      if plan.Failure? {
        return Failure(plan.error);
      }
      var (mergedData, merged) := plan.value;
      if !IsSet(flags, MUTABLE) {
        r := Remake(env, mergedData, merged);
        return;
      }
      flags := merged;
      Kept(env);
      mapper.ValidKept();
      var e := MapData(env, mergedData);
      r := if e.Some? then Failure(e.value) else Success(this);
    }

    /**
     * `$this->propertiesMap = $this->mapData($data)`: the properties the
     * mapper makes of the data under the DTO's flags; when it fails, the
     * error, and the map stays as it was.
     */
    method MapData(env: Env, data: PhpArray<Value>) returns (e: Option<Error>)
      requires Valid(env) && mapper.Valid()
      modifies this, mapper
      ensures mapper.Valid() && Valid(env) && flags == old(flags)
      ensures (e, Snapshot()) == Dtos.MappedInto(old(mapper.Outcome(env, data, flags)), flags, old(Snapshot()))
    {
      var cells := mapper.Map(env, data, flags);
      if cells.Failure? {
        return Some(cells.error);
      }
      Adopt(env, cells.value, mapper.Repr, old(mapper.Outcome(env, data, flags)).value);
      e := None;
    }

    /** The map replaced by properties the mapper made as planned. */
    method Adopt(env: Env, cells: PhpArray<DtoProperty>, ghost repr: set<object>, ghost planned: seq<Mapped>)
      requires mapper.dtoClass == dtoClass && DistinctKeys(cells) && AllMade(env, flags, repr, cells, planned)
      modifies this
      ensures propertiesMap == cells && flags == old(flags)
      ensures Valid(env) && Snapshot() == Built(planned, flags)
    {
      Dtos.MadeStates(env, flags, repr, cells, planned);
      propertiesMap := cells;
    }

    /** The map replaced by one of well-keyed properties, none of them changed. */
    method Replace(env: Env, cells: PhpArray<DtoProperty>)
      requires mapper.dtoClass == dtoClass && Dtos.WellKeyed(env, cells)
      modifies this
      ensures propertiesMap == cells && flags == old(flags)
      ensures Valid(env) && Snapshot() == old(Dtos.States(cells))
    {
      propertiesMap := cells;
      Dtos.StatesUnchanged(cells);
    }

    /** `offsetExists` (`isset($dto[$path])`): `has`. */
    method OffsetExists(env: Env, path: string) returns (r: Result<bool>)
      requires Valid(env)
      modifies Cells()
      ensures Valid(env) && propertiesMap == old(propertiesMap) && flags == old(flags) && Snapshot() == old(Snapshot())
      ensures r == HasOf(env, dtoClass, Snapshot(), path)
    {
      r := Has(env, path);
    }

    /** `offsetSet` (`$dto[$path] = $v`): refused unless MUTABLE, then `set`, which works in place. */
    method OffsetSet(env: Env, nestedSet: (Value, string, Value, Flags) -> Option<Error>, path: string, v: Value)
      returns (e: Option<Error>)
      requires Valid(env)
      modifies Cells()
      ensures Valid(env) && propertiesMap == old(propertiesMap) && flags == old(flags)
      ensures !IsSet(flags, MUTABLE) ==> e == Some(ImmutableDto(dtoClass)) && Snapshot() == old(Snapshot())
      ensures IsSet(flags, MUTABLE) ==>
        var (e', cells) := old(Setting(env, nestedSet, dtoClass, flags, Snapshot(), DeclaredTypes(), path, v));
        && Snapshot() == cells && (e.Some? <==> Dtos.Raised(e', flags)) && (e.Some? ==> e == e')
    {
      if !IsSet(flags, MUTABLE) {
        return Some(ImmutableDto(dtoClass));
      }
      var r := Set(env, nestedSet, path, v);
      e := if r.Failure? then Some(r.error) else None;
    }

    /**
     * `offsetUnset` (`unset($dto[$path])`): refused unless MUTABLE, then
     * unless PARTIAL, then unless `hasProperty`; then the entry under exactly
     * that name is removed.
     */
    method OffsetUnset(env: Env, path: string) returns (e: Option<Error>)
      requires Valid(env)
      modifies this, Cells()
      ensures Valid(env) && flags == old(flags)
      ensures (e, Snapshot()) == old(Unsetting(env, dtoClass, flags, Snapshot(), path))
      ensures propertiesMap == if e.None? then Remove(old(propertiesMap), path) else old(propertiesMap)
    {
      if !IsSet(flags, MUTABLE) {
        return Some(ImmutableDto(dtoClass));
      }
      if !IsSet(flags, PARTIAL) {
        return Some(UnsetProperty(dtoClass, path));
      }
      var has := HasProperty(env, path);
      if has.Failure? {
        return Some(has.error);
      }
      if !has.value {
        return Some(UnknownProperty(dtoClass, path));
      }
      DropProperty(env, path);
      e := None;
    }

    /** `unset($this->propertiesMap[$path])`. */
    method DropProperty(env: Env, path: string)
      requires Valid(env)
      modifies this
      ensures Valid(env) && flags == old(flags)
      ensures propertiesMap == Remove(old(propertiesMap), path) && Snapshot() == Remove(old(Snapshot()), path)
    {
      Dtos.StatesRemove(propertiesMap, path);
      Dtos.RemovedWellKeyed(env, propertiesMap, path);
      Replace(env, Remove(propertiesMap, path));
    }
  }
}
