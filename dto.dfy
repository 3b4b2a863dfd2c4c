/**
 * The DTO of the trait generation of the library (Traits/HasFlags.php,
 * HasProperties.php, HasValues.php, ManipulatesData.php and
 * TurnsIntoArray.php): an object holding its flags and a map from property
 * names to property objects, which it changes in place when MUTABLE is set
 * and copies otherwise.
 *
 * The process-wide singletons (the mapper of the class, the array converter,
 * the listener) are passed in explicitly.
 */
module Dtos {
  import opened Wrappers
  import opened PhpArrays
  import opened Strings
  import opened DtoFlags
  import DtoFlagsHandler
  import opened Values
  import opened PropertyType
  import opened PropertyTypes
  import opened Property
  import opened PropertiesMapper
  import opened Listeners
  import opened DtoData
  import opened DtoStates
  import Converters

  /** `value()` of a property in a given state. */
  function Processing(env: Env): CellState -> Result<Value>
  {
    c => Processed(env, c)
  }

  /** One call of the array converter's `convert` with its default (keys kept as they are), cache threaded through. */
  function Conversion(env: Env, conversions: PhpArray<string>): (PhpArray<string>, Value) -> (Value, PhpArray<string>)
  {
    (cache, v) => Converters.Converted(env, conversions, cache, v, false, false)
  }

  /** The state of each property object, by name. */
  function States(cells: PhpArray<DtoProperty>): (r: PhpArray<CellState>)
    reads set i | 0 <= i < |cells| :: cells[i].1
    reads set i | 0 <= i < |cells| :: cells[i].1.types
    ensures Keys(r) == Keys(cells)
  {
    seq(|cells|, i requires 0 <= i < |cells| reads if 0 <= i < |cells| then {cells[i].1 as object, cells[i].1.types} else {} =>
      (cells[i].0, CellState(cells[i].1.rawValue, cells[i].1.flags, cells[i].1.types.Facts())))
  }

  /** The property objects `map` returns are in the states it planned. */
  lemma MadeStates(env: Env, flags: Flags, repr: set<object>, cells: PhpArray<DtoProperty>, planned: seq<Mapped>)
    requires AllMade(env, flags, repr, cells, planned)
    ensures States(cells) == Built(planned, flags)
  {
  }

  /**
   * What `new static($data, $flags)` builds: the class's default flags
   * merged with the given ones, and the properties `map` plans under them.
   */
  ghost function Making(env: Env, m: DtoPropertiesMapper, defaultFlags: Flags, data: PhpArray<Value>, flags: Flags)
    : Result<(Flags, seq<Mapped>)>
    reads m
  {
    match DtoFlagsHandler.Merge(defaultFlags, flags)
    case Failure(e) => Failure(e)
    case Success(merged) =>
      match m.Outcome(env, data, merged)
      case Failure(e) => Failure(e)
      case Success(planned) => Success((merged, planned))
  }

  class Dto {
    const dtoClass: string
    /** `static::$defaultFlags`. */
    const defaultFlags: Flags
    /** `DtoPropertiesMapper::for(static::class)`. */
    const mapper: DtoPropertiesMapper
    var flags: Flags
    var propertiesMap: PhpArray<DtoProperty>

    function Cells(): set<DtoProperty>
      reads this
    {
      set i | 0 <= i < |propertiesMap| :: propertiesMap[i].1
    }

    function Unions(): set<DtoPropertyTypes>
      reads this
    {
      set i | 0 <= i < |propertiesMap| :: propertiesMap[i].1.types
    }

    function TypeObjects(): set<DtoPropertyType>
      reads this, Unions()
    {
      set i, j | 0 <= i < |propertiesMap| && 0 <= j < |propertiesMap[i].1.types.all| :: propertiesMap[i].1.types.all[j]
    }

    /**
     * The DTO's invariant: its mapper is the one of its class, and every
     * property is keyed by its own name and keeps its invariant. (The mapper,
     * shared by all the DTOs of the class, keeps its own.)
     */
    ghost predicate Valid(env: Env)
      reads this, Cells(), Unions(), TypeObjects()
    {
      mapper.dtoClass == dtoClass && WellKeyed(env, propertiesMap)
    }

    /** What the properties hold, by name. */
    function Snapshot(): PhpArray<CellState>
      reads this, Cells(), Unions()
    {
      States(propertiesMap)
    }

    /** The declared types of the properties, by name. */
    ghost function DeclaredTypes(): (r: PhpArray<seq<AtomInfo>>)
      reads this, Unions()
      ensures Keys(r) == Keys(propertiesMap)
    {
      TypesOf(propertiesMap)
    }

    /** Nothing this DTO's properties depend on has changed, so they are as they were. */
    twostate lemma Kept(env: Env)
      requires old(Valid(env)) && propertiesMap == old(propertiesMap)
      requires forall o :: o in old(Cells()) ==> unchanged(o)
      requires forall o :: o in old(Unions()) ==> unchanged(o)
      requires forall o :: o in old(TypeObjects()) ==> unchanged(o)
      ensures Valid(env) && Snapshot() == old(Snapshot()) && DeclaredTypes() == old(DeclaredTypes())
    {
      forall i | 0 <= i < |propertiesMap|
        ensures propertiesMap[i].1.Valid(env)
        ensures Snapshot()[i] == old(Snapshot()[i]) && DeclaredTypes()[i] == old(DeclaredTypes()[i])
      {
        var p := propertiesMap[i].1;
        assert p in old(Cells()) && p.types in old(Unions());
        forall j | 0 <= j < |p.types.all| ensures unchanged(p.types.all[j]) {
          assert p.types.all[j] in old(TypeObjects());
        }
      }
    }

    constructor Of(dtoClass: string, defaultFlags: Flags, mapper: DtoPropertiesMapper, flags: Flags, propertiesMap: PhpArray<DtoProperty>)
      ensures this.dtoClass == dtoClass && this.defaultFlags == defaultFlags && this.mapper == mapper
      ensures this.flags == flags && this.propertiesMap == propertiesMap
    {
      this.dtoClass := dtoClass;
      this.defaultFlags := defaultFlags;
      this.mapper := mapper;
      this.flags := flags;
      this.propertiesMap := propertiesMap;
    }

    /**
     * `new static($data, $flags)` (and `make`): the flags are the class's
     * defaults merged with the given ones, and the properties are what the
     * mapper makes of the data under them.
     */
    static method Make(env: Env, dtoClass: string, defaultFlags: Flags, mapper: DtoPropertiesMapper,
                       data: PhpArray<Value>, flags: Flags) returns (r: Result<Dto>)
      requires mapper.Valid() && mapper.dtoClass == dtoClass
      modifies mapper
      ensures mapper.Valid()
      ensures var made := old(Making(env, mapper, defaultFlags, data, flags));
        && (r.Failure? <==> made.Failure?)
        && (r.Failure? ==> r.error == made.error)
        && (r.Success? ==>
              && fresh(r.value) && r.value.Valid(env)
              && r.value.dtoClass == dtoClass && r.value.defaultFlags == defaultFlags && r.value.mapper == mapper
              && r.value.flags == made.value.0 && r.value.Snapshot() == Built(made.value.1, made.value.0))
    {
      var merged := DtoFlagsHandler.Merge(defaultFlags, flags);
      if merged.Failure? {
        return Failure(merged.error);
      }
      var cells := mapper.Map(env, data, merged.value);
      if cells.Failure? {
        return Failure(cells.error);
      }
      MadeStates(env, merged.value, mapper.Repr, cells.value, old(mapper.Outcome(env, data, merged.value)).value);
      var dto := new Dto.Of(dtoClass, defaultFlags, mapper, merged.value, cells.value);
      r := Success(dto);
    }

    /**
     * `toArray`: each property's processed value, passed through the array
     * converter, under the property's name.
     */
    method ToArray(env: Env, converter: Converters.ArrayConverter) returns (r: Result<PhpArray<Value>>)
      requires Valid(env)
      modifies converter
      ensures converter.conversions == old(converter.conversions)
      ensures (r, converter.Cache()) ==
        Exported(Processing(env), Conversion(env, converter.conversions), old(converter.Cache()), Snapshot(), |propertiesMap|)
      ensures r.Success? ==> Keys(r.value) == Keys(propertiesMap)
    {
      var cells := Snapshot();
      r := Export(env, converter, cells, Processing(env), Conversion(env, converter.conversions), converter.conversions, converter.Cache());
      if r.Success? {
        ExportedKeys(Processing(env), Conversion(env, converter.conversions), old(converter.Cache()), cells);
      }
    }

    /** The property object mapped under `name`. */
    function PropertyAt(name: string): DtoProperty
      reads this
      requires PhpArrays.Get(propertiesMap, name).Some?
    {
      PhpArrays.Get(propertiesMap, name).value
    }

    /**
     * `clone()`, with `__clone`: a new DTO with the same flags whose map
     * holds a copy of every property, each with its own copy of its types,
     * so changing the copy's properties leaves this DTO's untouched.
     */
    method Clone(env: Env) returns (c: Dto)
      requires Valid(env)
      ensures fresh(c) && c.Valid(env)
      ensures c.dtoClass == dtoClass && c.defaultFlags == defaultFlags && c.mapper == mapper && c.flags == flags
      ensures c.Snapshot() == Snapshot() && c.DeclaredTypes() == DeclaredTypes() && Keys(c.propertiesMap) == Keys(propertiesMap)
      ensures forall i :: 0 <= i < |c.propertiesMap| ==> fresh(c.propertiesMap[i].1) && fresh(c.propertiesMap[i].1.types)
      ensures Cells() !! c.Cells()
    {
      var cells := CloneProperties(env, propertiesMap);
      ghost var states := States(cells);
      ghost var types := TypesOf(cells);
      c := new Dto.Of(dtoClass, defaultFlags, mapper, flags, cells);
      assert c.Snapshot() == states && c.DeclaredTypes() == types;
    }

    /**
     * `getProperty`: an exact name first, then a dotted path whose first
     * segment must hold a DTO; the listener is consulted on the way.
     */
    method GetProperty(env: Env, listener: Listener, path: string) returns (r: Result<Found>)
      requires Valid(env)
      modifies listener, Cells()
      ensures Valid(env) && propertiesMap == old(propertiesMap) && flags == old(flags) && Snapshot() == old(Snapshot())
      ensures (r, listener.State()) == Lookup(env, old(listener.State()), dtoClass, Snapshot(), path)
      decreases |path|, 0
    {
      StatesGet(propertiesMap, path);
      if PhpArrays.Get(propertiesMap, path).Some? {
        return Success(Own(path));
      }
      if '.' !in path {
        return Failure(UnknownProperty(dtoClass, path));
      }
      var (head, rest) := SplitFirst(path, '.');
      var presumed := Get(env, listener, head);
      if presumed.Failure? {
        return Failure(presumed.error);
      }
      if !IsDtoInstance(presumed.value) {
        return Failure(UnknownProperty(dtoClass, rest));
      }
      var found := LookupInside(env, listener, presumed.value, rest);
      if found.Failure? {
        return Failure(found.error);
      }
      r := Success(Inside(found.value.0, found.value.1, found.value.2));
    }

    /** `get`: the value of the property `getProperty` finds, passed through the listener's getter. */
    method Get(env: Env, listener: Listener, path: string) returns (r: Result<Value>)
      requires Valid(env)
      modifies listener, Cells()
      ensures Valid(env) && propertiesMap == old(propertiesMap) && flags == old(flags) && Snapshot() == old(Snapshot())
      ensures (r, listener.State()) == Getting(env, old(listener.State()), dtoClass, Snapshot(), path)
      decreases |path|, 1
    {
      var found := GetProperty(env, listener, path);
      if found.Failure? {
        return Failure(found.error);
      }
      var v: Result<Value>;
      match found.value {
        case Own(name) =>
          StatesGet(propertiesMap, name);
          v := ReadProperty(env, name);
        case Inside(_, _, value) =>
          v := Success(value);
      }
      if v.Failure? {
        return Failure(v.error);
      }
      var heard := Hear(env, listener, path, v.value);
      r := Success(heard);
    }

    /** The listener's getter called on a value read from this DTO, which it leaves as it is. */
    method Hear(env: Env, listener: Listener, path: string, v: Value) returns (heard: Value)
      requires Valid(env)
      modifies listener
      ensures Valid(env) && Snapshot() == old(Snapshot())
      ensures (heard, listener.State()) == GettingOutcome(env, old(listener.State()), dtoClass, path, v)
    {
      heard := listener.Getting(env, dtoClass, path, v);
    }

    /** `getProperty` inside a DTO this one holds, which leaves this one as it is. */
    method LookupInside(env: Env, listener: Listener, dto: Value, path: string) returns (r: Result<(Value, string, Value)>)
      requires Valid(env) && IsDtoInstance(dto)
      modifies listener
      ensures Valid(env) && Snapshot() == old(Snapshot())
      ensures (r, listener.State()) == NestedProperty(env, old(listener.State()), dto, path)
    {
      r := NestedLookup(env, listener, dto, path);
    }

    /** `$property->value()` of a property of this DTO: computed, and remembered by the property. */
    method ReadProperty(env: Env, name: string) returns (r: Result<Value>)
      requires Valid(env) && PhpArrays.Get(propertiesMap, name).Some?
      modifies PropertyAt(name)
      ensures Valid(env) && Snapshot() == old(Snapshot())
      ensures r == Processed(env, StateOf(PropertyAt(name)))
    {
      var p := PropertyAt(name);
      ghost var states := Snapshot();
      r := p.Value(env);
      assert Snapshot() == states;
    }

    /**
     * `setValue($v, $f)` on the property this DTO maps under `name`: that
     * property's raw value and flags change, every other property keeps
     * its state, and the outcome is the property's validation of the value.
     */
    method SetOwnValue(env: Env, name: string, v: Value, f: Flags) returns (e: Option<Error>)
      requires Valid(env) && PhpArrays.Get(propertiesMap, name).Some?
      modifies PropertyAt(name)
      ensures Valid(env) && Snapshot() == SetCell(old(Snapshot()), name, v, f)
      ensures e == Validation(env, name, v, f, PropertyAt(name).types.Atoms)
    {
      GetFound(propertiesMap, name);
      var i :| 0 <= i < |propertiesMap| && propertiesMap[i].0 == name && propertiesMap[i].1 == PropertyAt(name);
      StatesGet(propertiesMap, name);
      PutExisting(Snapshot(), i, CellState(v, f, Snapshot()[i].1.facts));
      e := SetAt(env, propertiesMap, i, v, f);
    }

    /**
     * `$this->propertiesMap = $this->mapData($data)`: the properties the
     * mapper makes of the data under the DTO's flags; when it fails, the
     * error, and the map stays as it was.
     */
    method MapData(env: Env, data: PhpArray<Value>) returns (e: Option<Error>)
      requires Valid(env) && mapper.Valid()
      modifies this, mapper
      ensures mapper.Valid() && Valid(env) && flags == old(flags)
      ensures (e, Snapshot()) == MappedInto(old(mapper.Outcome(env, data, flags)), flags, old(Snapshot()))
    {
      var cells := mapper.Map(env, data, flags);
      if cells.Failure? {
        return Some(cells.error);
      }
      Adopt(env, cells.value, mapper.Repr, old(mapper.Outcome(env, data, flags)).value);
      e := None;
    }

    /** The map replaced by properties the mapper made as planned. */
    method Adopt(env: Env, cells: PhpArray<DtoProperty>, ghost repr: set<object>, ghost planned: seq<Mapped>)
      requires mapper.dtoClass == dtoClass && DistinctKeys(cells) && AllMade(env, flags, repr, cells, planned)
      modifies this
      ensures propertiesMap == cells && flags == old(flags)
      ensures Valid(env) && Snapshot() == Built(planned, flags)
    {
      MadeStates(env, flags, repr, cells, planned);
      propertiesMap := cells;
    }

    /** How `setPropertyValueOrMap` decides: `hasProperty`, then `getProperty` for the property to set. */
    method PlanSet(env: Env, listener: Listener, path: string) returns (r: Result<SetPlan>)
      requires Valid(env)
      modifies listener, Cells()
      ensures Valid(env) && propertiesMap == old(propertiesMap) && flags == old(flags) && Snapshot() == old(Snapshot())
      ensures (r, listener.State()) == SetPlanOf(env, old(listener.State()), dtoClass, Snapshot(), path)
    {
      var has := HasProperty(env, listener, path);
      if has.Failure? {
        return Failure(has.error);
      }
      if !has.value {
        return Success(Remap);
      }
      var found := GetProperty(env, listener, path);
      if found.Failure? {
        return Failure(found.error);
      }
      match found.value {
        case Own(name) =>
          r := Success(SetOwn(name));
        case Inside(owner, key, _) =>
          r := Success(SetInside(owner, key));
      }
    }

    /**
     * `set`: the listener's setter transforms the value, which is then set
     * in this DTO when it is MUTABLE (and the DTO returned), otherwise in a
     * clone, leaving this DTO as it was. An unknown property is ignored under
     * IGNORE_UNKNOWN_PROPERTIES; any other error is raised.
     */
    method Set(env: Env, listener: Listener, converter: Converters.ArrayConverter,
               nestedSet: (Value, string, Value, Flags) -> Option<Error>, path: string, v: Value)
      returns (r: Result<Dto>)
      requires Valid(env) && mapper.Valid()
      modifies this, Cells(), listener, converter, mapper
      ensures mapper.Valid() && Valid(env) && flags == old(flags) && converter.conversions == old(converter.conversions)
      ensures var (e, st, cache, cells) := old(SetOutcome(env, mapper, nestedSet, listener.State(), converter.conversions,
                                                          converter.Cache(), dtoClass, flags, Snapshot(), DeclaredTypes(), path, v));
        && listener.State() == st && converter.Cache() == cache
        && (r.Failure? <==> Raised(e, flags)) && (r.Failure? ==> Some(r.error) == e)
        && (IsSet(flags, MUTABLE) ==> Snapshot() == cells && (r.Success? ==> r.value == this))
        && (!IsSet(flags, MUTABLE) ==>
              && propertiesMap == old(propertiesMap) && Snapshot() == old(Snapshot())
              && (r.Success? ==> fresh(r.value) && r.value.Valid(env) && r.value.Snapshot() == cells && r.value.flags == flags
                                 && r.value.dtoClass == dtoClass && r.value.defaultFlags == defaultFlags && r.value.mapper == mapper))
    {
      var e: Option<Error>;
      var target := this;
      if IsSet(flags, MUTABLE) {
        e := SetInPlace(env, listener, converter, nestedSet, path, v);
      } else {
        target, e := SetInClone(env, listener, converter, nestedSet, path, v);
      }
      if e.Some? && !(e.value.UnknownProperty? && IsSet(flags, IGNORE_UNKNOWN_PROPERTIES)) {
        return Failure(e.value);
      }
      r := Success(target);
    }

    /** The body of `set` on the DTO it works on: the listener's setter, then `setPropertyValueOrMap`. */
    method SetInPlace(env: Env, listener: Listener, converter: Converters.ArrayConverter,
                      nestedSet: (Value, string, Value, Flags) -> Option<Error>, path: string, v: Value)
      returns (e: Option<Error>)
      requires Valid(env) && mapper.Valid()
      modifies this, Cells(), listener, converter, mapper
      ensures mapper.Valid() && Valid(env) && flags == old(flags) && converter.conversions == old(converter.conversions)
      ensures (e, listener.State(), converter.Cache(), Snapshot()) ==
        old(SetOutcome(env, mapper, nestedSet, listener.State(), converter.conversions, converter.Cache(),
                       dtoClass, flags, Snapshot(), DeclaredTypes(), path, v))
    {
      ghost var cache, cells, types := converter.Cache(), Snapshot(), DeclaredTypes();
      var transformed := listener.Setting(env, dtoClass, path, v);
      mapper.ValidKept();
      assert converter.Cache() == cache && Snapshot() == cells && DeclaredTypes() == types;
      e := SetPropertyValueOrMap(env, listener, converter, nestedSet, path, transformed);
    }

    /** `set` on a DTO that is not MUTABLE: the same steps on a clone, which is returned; this DTO is left as it was. */
    method SetInClone(env: Env, listener: Listener, converter: Converters.ArrayConverter,
                      nestedSet: (Value, string, Value, Flags) -> Option<Error>, path: string, v: Value)
      returns (c: Dto, e: Option<Error>)
      requires Valid(env) && mapper.Valid()
      modifies listener, converter, mapper
      ensures mapper.Valid() && converter.conversions == old(converter.conversions)
      ensures Valid(env) && Snapshot() == old(Snapshot())
      ensures fresh(c) && c.Valid(env) && c.flags == flags
      ensures c.dtoClass == dtoClass && c.defaultFlags == defaultFlags && c.mapper == mapper
      ensures (e, listener.State(), converter.Cache(), c.Snapshot()) ==
        old(SetOutcome(env, mapper, nestedSet, listener.State(), converter.conversions, converter.Cache(),
                       dtoClass, flags, Snapshot(), DeclaredTypes(), path, v))
    {
      ghost var st, cache, cells, types := listener.State(), converter.Cache(), Snapshot(), DeclaredTypes();
      c := Clone(env);
      assert listener.State() == st && converter.Cache() == cache && c.Snapshot() == cells && c.DeclaredTypes() == types;
      e := c.SetInPlace(env, listener, converter, nestedSet, path, v);
      Kept(env);
    }

    /**
     * `setPropertyValueOrMap`: a property `getProperty` finds in this DTO is
     * given the value with the DTO's flags, one it finds in a nested DTO is
     * set there, and a path it does not know is added to the exported data,
     * which is then mapped again.
     */
    method SetPropertyValueOrMap(env: Env, listener: Listener, converter: Converters.ArrayConverter,
                                 nestedSet: (Value, string, Value, Flags) -> Option<Error>, path: string, v: Value)
      returns (e: Option<Error>)
      requires Valid(env) && mapper.Valid()
      modifies this, Cells(), listener, converter, mapper
      ensures mapper.Valid() && Valid(env) && flags == old(flags) && converter.conversions == old(converter.conversions)
      ensures (e, listener.State(), converter.Cache(), Snapshot()) ==
        old(SetValueOrMapOutcome(env, mapper, nestedSet, listener.State(), converter.conversions, converter.Cache(),
                                 dtoClass, flags, Snapshot(), DeclaredTypes(), path, v))
    {
      ghost var before := Snapshot();
      ghost var types := DeclaredTypes();
      ghost var outcome := SetValueOrMapOutcome(env, mapper, nestedSet, listener.State(), converter.conversions,
                                                converter.Cache(), dtoClass, flags, before, types, path, v);
      var plan := PlanSet(env, listener, path);
      mapper.ValidKept();
      if plan.Failure? {
        return Some(plan.error);
      }
      assert Snapshot() == before && DeclaredTypes() == types;
      ghost var expected := Applied(env, mapper, nestedSet, converter.conversions, converter.Cache(), flags, before, types, plan.value, path, v);
      assert outcome == (expected.0, listener.State(), expected.1, expected.2);
      e := Apply(env, converter, nestedSet, plan.value, path, v);
      assert (e, converter.Cache(), Snapshot()) == expected;
    }

    /** What `setPropertyValueOrMap` does once it has decided what to set. */
    method Apply(env: Env, converter: Converters.ArrayConverter, nestedSet: (Value, string, Value, Flags) -> Option<Error>,
                 plan: SetPlan, path: string, v: Value)
      returns (e: Option<Error>)
      requires Valid(env) && mapper.Valid()
      requires plan.SetOwn? ==> PhpArrays.Get(Snapshot(), plan.name).Some?
      modifies this, Cells(), converter, mapper
      ensures mapper.Valid() && Valid(env) && flags == old(flags) && converter.conversions == old(converter.conversions)
      ensures (e, converter.Cache(), Snapshot()) ==
        old(Applied(env, mapper, nestedSet, converter.conversions, converter.Cache(), flags, Snapshot(), DeclaredTypes(), plan, path, v))
    {
      match plan {
        case SetOwn(name) =>
          StatesGet(propertiesMap, name);
          TypesGet(propertiesMap, name);
          e := SetOwnValue(env, name, v, flags);
          mapper.ValidKept();
        case SetInside(owner, key) =>
          e := nestedSet(owner, key, v, flags);
        case Remap =>
          e := RemapWith(env, converter, path, v);
      }
    }

    /** A path this DTO does not have: the exported data with the value stored under it, mapped again. */
    method RemapWith(env: Env, converter: Converters.ArrayConverter, path: string, v: Value) returns (e: Option<Error>)
      requires Valid(env) && mapper.Valid()
      modifies this, mapper, converter
      ensures mapper.Valid() && Valid(env) && flags == old(flags) && converter.conversions == old(converter.conversions)
      ensures (e, converter.Cache(), Snapshot()) ==
        old(Remapping(env, mapper, converter.conversions, converter.Cache(), flags, Snapshot(), path, v))
    {
      var data := ToArray(env, converter);
      Kept(env);
      mapper.ValidKept();
      if data.Failure? {
        return Some(data.error);
      }
      e := MapData(env, WithEntry(data.value, path, v));
    }

    /** `hasProperty`: whether `getProperty` finds the property; only an unknown property is caught. */
    method HasProperty(env: Env, listener: Listener, path: string) returns (r: Result<bool>)
      requires Valid(env)
      modifies listener, Cells()
      ensures Valid(env) && propertiesMap == old(propertiesMap) && flags == old(flags) && Snapshot() == old(Snapshot())
      ensures (r, listener.State()) == HasPropertyOutcome(env, old(listener.State()), dtoClass, Snapshot(), path)
    {
      var found := GetProperty(env, listener, path);
      if found.Success? {
        return Success(true);
      }
      if found.error.UnknownProperty? {
        return Success(false);
      }
      r := Failure(found.error);
    }

    /** `has`: whether `get` gives something other than null; only an unknown property is caught. */
    method Has(env: Env, listener: Listener, path: string) returns (r: Result<bool>)
      requires Valid(env)
      modifies listener, Cells()
      ensures Valid(env) && propertiesMap == old(propertiesMap) && flags == old(flags) && Snapshot() == old(Snapshot())
      ensures (r, listener.State()) == HasOutcome(env, old(listener.State()), dtoClass, Snapshot(), path)
    {
      var v := Get(env, listener, path);
      if v.Success? {
        return Success(v.value != Null);
      }
      if v.error.UnknownProperty? {
        return Success(false);
      }
      r := Failure(v.error);
    }

    /**
     * `r` is what `new static($data, $flags)` gives when its construction
     * comes to `made`: the same error, or a DTO of this class holding the
     * flags and the properties planned.
     */
    ghost predicate Remade(env: Env, r: Result<Dto>, made: Result<(Flags, seq<Mapped>)>)
      reads if r.Success? then {r.value} + r.value.Cells() + r.value.Unions() + r.value.TypeObjects() else {}
    {
      && (r.Failure? <==> made.Failure?)
      && (r.Failure? ==> r.error == made.error)
      && (r.Success? ==>
            && r.value.Valid(env) && r.value.dtoClass == dtoClass && r.value.defaultFlags == defaultFlags && r.value.mapper == mapper
            && r.value.flags == made.value.0 && r.value.Snapshot() == Built(made.value.1, made.value.0))
    }

    /** `new static($data, $flags)` from inside a DTO; this one is left as it is. */
    method Remake(env: Env, data: PhpArray<Value>, f: Flags) returns (r: Result<Dto>)
      requires Valid(env) && mapper.Valid()
      modifies mapper
      ensures mapper.Valid() && Valid(env) && Snapshot() == old(Snapshot())
      ensures Remade(env, r, old(Making(env, mapper, defaultFlags, data, f))) && (r.Success? ==> fresh(r.value))
    {
      r := Make(env, dtoClass, defaultFlags, mapper, data, f);
      Kept(env);
    }

    /**
     * A new DTO of this class from this one's exported data, with the
     * property `drop` unset first when one is given, under the flags `f`.
     */
    method Rebuild(env: Env, converter: Converters.ArrayConverter, drop: Option<string>, f: Flags) returns (r: Result<Dto>)
      requires Valid(env) && mapper.Valid()
      modifies converter, mapper
      ensures mapper.Valid() && Valid(env) && Snapshot() == old(Snapshot()) && converter.conversions == old(converter.conversions)
      ensures var (made, cache) := old(Rebuilding(env, mapper, defaultFlags, converter.conversions, converter.Cache(), Snapshot(), drop, f));
        converter.Cache() == cache && Remade(env, r, made) && (r.Success? ==> fresh(r.value))
    {
      var data := ToArray(env, converter);
      Kept(env);
      if data.Failure? {
        return Failure(data.error);
      }
      r := Remake(env, if drop.Some? then Remove(data.value, drop.value) else data.value, f);
    }

    /**
     * `unset`: refused without PARTIAL; a dotted path is unset inside the
     * value of its first segment, which is then set back; otherwise a MUTABLE
     * DTO drops the property in place, and any other DTO is rebuilt from its
     * exported data without it, under the same flags.
     */
    method Unset(env: Env, listener: Listener, converter: Converters.ArrayConverter,
                 nestedSet: (Value, string, Value, Flags) -> Option<Error>, path: string)
      returns (r: Result<Dto>)
      requires Valid(env) && mapper.Valid()
      modifies this, Cells(), listener, converter, mapper
      ensures mapper.Valid() && Valid(env) && flags == old(flags) && converter.conversions == old(converter.conversions)
      ensures !IsSet(flags, PARTIAL) ==>
        && r == Failure(UnsetProperty(dtoClass, path))
        && propertiesMap == old(propertiesMap) && Snapshot() == old(Snapshot())
        && listener.State() == old(listener.State()) && converter.Cache() == old(converter.Cache())
      ensures IsSet(flags, PARTIAL) && '.' in path ==>
        var (outcome, st, cache, cells) := old(UnsetNestedOutcome(env, mapper, nestedSet, listener.State(), converter.conversions,
                                                                  converter.Cache(), dtoClass, flags, Snapshot(), DeclaredTypes(), path));
        && listener.State() == st && converter.Cache() == cache
        && (outcome.Failure? ==> r == Failure(outcome.error))
        && (outcome.Success? ==> (r.Failure? <==> Raised(outcome.value, flags)) && (r.Failure? ==> Some(r.error) == outcome.value))
        && (IsSet(flags, MUTABLE) ==> Snapshot() == cells && (r.Success? ==> r.value == this))
        && (!IsSet(flags, MUTABLE) ==>
              && propertiesMap == old(propertiesMap) && Snapshot() == old(Snapshot())
              && (r.Success? ==> fresh(r.value) && r.value.Valid(env) && r.value.Snapshot() == cells && r.value.flags == flags
                                 && r.value.dtoClass == dtoClass && r.value.defaultFlags == defaultFlags && r.value.mapper == mapper))
      ensures IsSet(flags, PARTIAL) && '.' !in path && IsSet(flags, MUTABLE) ==>
        && r == Success(this)
        && propertiesMap == Remove(old(propertiesMap), path) && Snapshot() == Remove(old(Snapshot()), path)
        && listener.State() == old(listener.State()) && converter.Cache() == old(converter.Cache())
      ensures IsSet(flags, PARTIAL) && '.' !in path && !IsSet(flags, MUTABLE) ==>
        && propertiesMap == old(propertiesMap) && Snapshot() == old(Snapshot()) && listener.State() == old(listener.State())
        && var (made, cache) := old(Rebuilding(env, mapper, defaultFlags, converter.conversions, converter.Cache(), Snapshot(), Some(path), flags));
        && converter.Cache() == cache && Remade(env, r, made) && (r.Success? ==> fresh(r.value))
    {
      if !IsSet(flags, PARTIAL) {
        return Failure(UnsetProperty(dtoClass, path));
      }
      if '.' in path {
        r := UnsetNested(env, listener, converter, nestedSet, path);
      } else if IsSet(flags, MUTABLE) {
        DropProperty(env, path);
        mapper.ValidKept();
        r := Success(this);
      } else {
        r := Rebuild(env, converter, Some(path), flags);
      }
    }

    /** A dotted `unset`: `get` of the first segment, `unset` of the rest on what it gives, and `set` of the result. */
    method UnsetNested(env: Env, listener: Listener, converter: Converters.ArrayConverter,
                       nestedSet: (Value, string, Value, Flags) -> Option<Error>, path: string)
      returns (r: Result<Dto>)
      requires Valid(env) && mapper.Valid() && '.' in path
      modifies this, Cells(), listener, converter, mapper
      ensures mapper.Valid() && Valid(env) && flags == old(flags) && converter.conversions == old(converter.conversions)
      ensures var (outcome, st, cache, cells) := old(UnsetNestedOutcome(env, mapper, nestedSet, listener.State(), converter.conversions,
                                                                        converter.Cache(), dtoClass, flags, Snapshot(), DeclaredTypes(), path));
        && listener.State() == st && converter.Cache() == cache
        && (outcome.Failure? ==> r == Failure(outcome.error))
        && (outcome.Success? ==> (r.Failure? <==> Raised(outcome.value, flags)) && (r.Failure? ==> Some(r.error) == outcome.value))
        && (IsSet(flags, MUTABLE) ==> Snapshot() == cells && (r.Success? ==> r.value == this))
        && (!IsSet(flags, MUTABLE) ==>
              && propertiesMap == old(propertiesMap) && Snapshot() == old(Snapshot())
              && (r.Success? ==> fresh(r.value) && r.value.Valid(env) && r.value.Snapshot() == cells && r.value.flags == flags
                                 && r.value.dtoClass == dtoClass && r.value.defaultFlags == defaultFlags && r.value.mapper == mapper))
    {
      var unset := UnsetInsideOf(env, listener, path);
      mapper.ValidKept();
      if unset.Failure? {
        return Failure(unset.error);
      }
      var (head, _) := SplitFirst(path, '.');
      r := Set(env, listener, converter, nestedSet, head, unset.value);
    }

    /** The first step of a dotted `unset`: `get` of the first segment, then `unset` of the rest called on what it gives. */
    method UnsetInsideOf(env: Env, listener: Listener, path: string) returns (r: Result<Value>)
      requires Valid(env) && '.' in path
      modifies listener, Cells()
      ensures Valid(env) && propertiesMap == old(propertiesMap) && flags == old(flags) && Snapshot() == old(Snapshot())
      ensures DeclaredTypes() == old(DeclaredTypes())
      ensures (r, listener.State()) == UnsetInside(env, old(listener.State()), dtoClass, Snapshot(), path)
    {
      var (head, rest) := SplitFirst(path, '.');
      var got := Get(env, listener, head);
      if got.Failure? {
        return Failure(got.error);
      }
      r := env.nestedUnset(got.value, rest);
    }

    /** `unset($this->propertiesMap[$path])`: that property goes, the others stay in order. */
    method DropProperty(env: Env, path: string)
      requires Valid(env)
      modifies this
      ensures Valid(env) && flags == old(flags)
      ensures propertiesMap == Remove(old(propertiesMap), path) && Snapshot() == Remove(old(Snapshot()), path)
    {
      StatesRemove(propertiesMap, path);
      RemovedWellKeyed(env, propertiesMap, path);
      Replace(env, Remove(propertiesMap, path));
    }

    /**
     * `merge`: the converted input replaces, recursively, into the exported
     * data, and the flags are merged with the given ones; a DTO that is not
     * MUTABLE makes a new one of that, a MUTABLE one takes the flags and maps
     * the data itself.
     */
    method Merge(env: Env, converter: Converters.ArrayConverter, data: Value, f: Flags) returns (r: Result<Dto>)
      requires Valid(env) && mapper.Valid()
      modifies this, converter, mapper
      ensures mapper.Valid() && Valid(env) && converter.conversions == old(converter.conversions)
      ensures !old(IsSet(flags, MUTABLE)) ==>
        && flags == old(flags) && propertiesMap == old(propertiesMap) && Snapshot() == old(Snapshot())
        && var (made, cache) := old(MergeMade(env, mapper, defaultFlags, converter.conversions, converter.Cache(), Snapshot(), flags, data, f));
        && converter.Cache() == cache && Remade(env, r, made) && (r.Success? ==> fresh(r.value))
      ensures old(IsSet(flags, MUTABLE)) ==>
        var (e, merged, cells, cache) := old(MergeInPlace(env, mapper, converter.conversions, converter.Cache(), Snapshot(), flags, data, f));
        && converter.Cache() == cache && flags == merged && Snapshot() == cells
        && r == if e.Some? then Failure(e.value) else Success(this)
    {
      var plan := MergePlan(env, converter, data, f);
      if plan.Failure? {
        return Failure(plan.error);
      }
      var (mergedData, merged) := plan.value;
      if !IsSet(flags, MUTABLE) {
        r := Remake(env, mergedData, merged);
        return;
      }
      flags := merged;
      Kept(env);
      mapper.ValidKept();
      var e := MapData(env, mergedData);
      r := if e.Some? then Failure(e.value) else Success(this);
    }

    /** What `merge` computes before it builds: the merged data and the merged flags. */
    method MergePlan(env: Env, converter: Converters.ArrayConverter, data: Value, f: Flags)
      returns (r: Result<(PhpArray<Value>, Flags)>)
      requires Valid(env) && mapper.Valid()
      modifies converter
      ensures mapper.Valid() && Valid(env) && Snapshot() == old(Snapshot()) && converter.conversions == old(converter.conversions)
      ensures (r, converter.Cache()) == old(Merging(env, converter.conversions, converter.Cache(), Snapshot(), flags, data, f))
    {
      if !IsIterable(data) {
        return Failure(TypeError(NotIterable));
      }
      var replacements := converter.Convert(env, data, false);
      var exported := ToArray(env, converter);
      Kept(env);
      mapper.ValidKept();
      if exported.Failure? {
        return Failure(exported.error);
      }
      if !replacements.Arr? {
        return Failure(TypeError(NotAnArray));
      }
      var merged := DtoFlagsHandler.Merge(flags, f);
      if merged.Failure? {
        return Failure(merged.error);
      }
      r := Success((ReplaceRecursive(exported.value, replacements.entries), merged.value));
    }

    /**
     * `only`: the flags become the DTO's own (without its class defaults)
     * merged with the given ones and PARTIAL; a MUTABLE DTO drops, in place,
     * every property not listed, and any other DTO makes a new one from the
     * processed values of the listed properties.
     */
    method Only(env: Env, names: seq<string>, f: Flags) returns (r: Result<Dto>)
      requires Valid(env) && mapper.Valid()
      modifies this, mapper
      ensures mapper.Valid() && Valid(env)
      ensures old(IsSet(flags, MUTABLE)) ==>
        var merged := DtoFlagsHandler.Merge(env.withoutDefaults(old(flags)), f | PARTIAL);
        && (merged.Failure? ==> r == Failure(merged.error) && flags == old(flags) && propertiesMap == old(propertiesMap) && Snapshot() == old(Snapshot()))
        && (merged.Success? ==>
              && r == Success(this) && flags == merged.value
              && propertiesMap == Listed(old(propertiesMap), names) && Snapshot() == Listed(old(Snapshot()), names))
      ensures !old(IsSet(flags, MUTABLE)) ==>
        && flags == old(flags) && propertiesMap == old(propertiesMap) && Snapshot() == old(Snapshot())
        && Remade(env, r, old(OnlyMade(env, mapper, defaultFlags, Snapshot(), names, env.withoutDefaults(flags), f)))
        && (r.Success? ==> fresh(r.value))
    {
      var isMutable := IsSet(flags, MUTABLE);
      var merged := DtoFlagsHandler.Merge(env.withoutDefaults(flags), f | PARTIAL);
      if merged.Failure? {
        return Failure(merged.error);
      }
      if isMutable {
        OnlyInPlace(env, names, merged.value);
        return Success(this);
      }
      var cells := Snapshot();
      SameKeysDistinct(propertiesMap, cells);
      var data := PickListed(env, cells, names);
      if data.Failure? {
        return Failure(data.error);
      }
      r := Remake(env, data.value, merged.value);
    }

    /** `only` on a MUTABLE DTO: the properties not listed are unset, then the DTO takes the merged flags. */
    method OnlyInPlace(env: Env, names: seq<string>, merged: Flags)
      requires Valid(env) && mapper.Valid()
      modifies this
      ensures mapper.Valid() && Valid(env) && flags == merged
      ensures propertiesMap == Listed(old(propertiesMap), names) && Snapshot() == Listed(old(Snapshot()), names)
    {
      KeepListed(env, names);
      label kept:
      flags := merged;
      Kept@kept(env);
      mapper.ValidKept();
    }

    /** The loop of `only` on a MUTABLE DTO: every property not listed is unset, in map order. */
    method KeepListed(env: Env, names: seq<string>)
      requires Valid(env)
      modifies this
      ensures Valid(env) && flags == old(flags)
      ensures propertiesMap == Listed(old(propertiesMap), names) && Snapshot() == Listed(old(Snapshot()), names)
    {
      var kept := KeepListedEntries(propertiesMap, names);
      Kept(env);
      ListedWellKeyed(env, propertiesMap, names);
      StatesListed(propertiesMap, names);
      Replace(env, kept);
    }

    /** The map replaced by one of well-keyed properties, none of them changed. */
    method Replace(env: Env, cells: PhpArray<DtoProperty>)
      requires mapper.dtoClass == dtoClass && WellKeyed(env, cells)
      modifies this
      ensures propertiesMap == cells && flags == old(flags)
      ensures Valid(env) && Snapshot() == old(States(cells))
    {
      propertiesMap := cells;
      StatesUnchanged(cells);
    }

    /** `except`: `only` of the property names not given, in map order; so exactly the others are kept. */
    method Except(env: Env, names: seq<string>, f: Flags) returns (r: Result<Dto>)
      requires Valid(env) && mapper.Valid()
      modifies this, mapper
      ensures mapper.Valid() && Valid(env)
      ensures old(IsSet(flags, MUTABLE)) ==>
        var merged := DtoFlagsHandler.Merge(env.withoutDefaults(old(flags)), f | PARTIAL);
        var kept := Difference(Keys(old(propertiesMap)), names);
        && (merged.Failure? ==> r == Failure(merged.error) && flags == old(flags) && propertiesMap == old(propertiesMap) && Snapshot() == old(Snapshot()))
        && (merged.Success? ==>
              && r == Success(this) && flags == merged.value
              && propertiesMap == Listed(old(propertiesMap), kept) && Snapshot() == Listed(old(Snapshot()), kept)
              && forall x :: x in Keys(propertiesMap) <==> x in Keys(old(propertiesMap)) && x !in names)
      ensures !old(IsSet(flags, MUTABLE)) ==>
        && flags == old(flags) && propertiesMap == old(propertiesMap) && Snapshot() == old(Snapshot())
        && Remade(env, r, old(OnlyMade(env, mapper, defaultFlags, Snapshot(), Difference(Keys(propertiesMap), names), env.withoutDefaults(flags), f)))
        && (r.Success? ==> fresh(r.value))
    {
      r := Only(env, Difference(Keys(propertiesMap), names), f);
    }

    /** `hasFlags`: every bit of `f` is set; NONE always is. */
    function HasFlags(f: Flags): (r: bool)
      reads this
      ensures f == NONE ==> r
      ensures r && IsSet(f, MUTABLE) ==> IsSet(flags, MUTABLE)
    {
      Includes(flags, f)
    }

    /**
     * `setFlags`: a MUTABLE DTO takes exactly the given flags; any other DTO
     * makes a new one from its exported data with them (so the class's
     * defaults are merged back in).
     */
    method SetFlags(env: Env, converter: Converters.ArrayConverter, f: Flags) returns (r: Result<Dto>)
      requires Valid(env) && mapper.Valid()
      modifies this, converter, mapper
      ensures mapper.Valid() && Valid(env) && converter.conversions == old(converter.conversions)
      ensures propertiesMap == old(propertiesMap) && Snapshot() == old(Snapshot())
      ensures old(IsSet(flags, MUTABLE)) ==> r == Success(this) && flags == f && converter.Cache() == old(converter.Cache())
      ensures !old(IsSet(flags, MUTABLE)) ==>
        && flags == old(flags)
        && var (made, cache) := old(Rebuilding(env, mapper, defaultFlags, converter.conversions, converter.Cache(), Snapshot(), None, f));
        && converter.Cache() == cache && Remade(env, r, made) && (r.Success? ==> fresh(r.value))
    {
      if !IsSet(flags, MUTABLE) {
        r := Rebuild(env, converter, None, f);
        return;
      }
      flags := f;
      Kept(env);
      mapper.ValidKept();
      r := Success(this);
    }

    /** `addFlags`: `setFlags` of the current flags with the given ones added; a MUTABLE DTO then has them and its own. */
    method AddFlags(env: Env, converter: Converters.ArrayConverter, f: Flags) returns (r: Result<Dto>)
      requires Valid(env) && mapper.Valid()
      modifies this, converter, mapper
      ensures mapper.Valid() && Valid(env) && converter.conversions == old(converter.conversions)
      ensures propertiesMap == old(propertiesMap) && Snapshot() == old(Snapshot())
      ensures old(IsSet(flags, MUTABLE)) ==>
        && r == Success(this) && flags == old(flags) | f
        && converter.Cache() == old(converter.Cache())
      ensures !old(IsSet(flags, MUTABLE)) ==>
        && flags == old(flags)
        && var (made, cache) := old(Rebuilding(env, mapper, defaultFlags, converter.conversions, converter.Cache(), Snapshot(), None, flags | f));
        && converter.Cache() == cache && Remade(env, r, made) && (r.Success? ==> fresh(r.value))
    {
      r := SetFlags(env, converter, flags | f);
    }

    /** `removeFlags`: `setFlags` of the current flags with the given ones cleared; a MUTABLE DTO then has none of them. */
    method RemoveFlags(env: Env, converter: Converters.ArrayConverter, f: Flags) returns (r: Result<Dto>)
      requires Valid(env) && mapper.Valid()
      modifies this, converter, mapper
      ensures mapper.Valid() && Valid(env) && converter.conversions == old(converter.conversions)
      ensures propertiesMap == old(propertiesMap) && Snapshot() == old(Snapshot())
      ensures old(IsSet(flags, MUTABLE)) ==>
        && r == Success(this) && flags == old(flags) & !f && flags & f == NONE
        && converter.Cache() == old(converter.Cache())
      ensures !old(IsSet(flags, MUTABLE)) ==>
        && flags == old(flags)
        && var (made, cache) := old(Rebuilding(env, mapper, defaultFlags, converter.conversions, converter.Cache(), Snapshot(), None, Remaining(flags, f)));
        && converter.Cache() == cache && Remade(env, r, made) && (r.Success? ==> fresh(r.value))
    {
      r := SetFlags(env, converter, Remaining(flags, f));
    }

    /** `getPropertyNames`: the names of the map, in map order. */
    function PropertyNames(): (r: seq<string>)
      reads this
      ensures |r| == |propertiesMap| && forall i :: 0 <= i < |r| ==> r[i] == propertiesMap[i].0
    {
      Keys(propertiesMap)
    }

    /** `getProperties`: the property objects of the map, in map order. */
    function Properties(): (r: seq<DtoProperty>)
      reads this
      ensures |r| == |propertiesMap| && forall i :: 0 <= i < |r| ==> r[i] == propertiesMap[i].1
    {
      PhpArrays.Values(propertiesMap)
    }

    /** `offsetExists` (`isset($dto[$path])`): `has`. */
    method OffsetExists(env: Env, listener: Listener, path: string) returns (r: Result<bool>)
      requires Valid(env)
      modifies listener, Cells()
      ensures Valid(env) && propertiesMap == old(propertiesMap) && flags == old(flags) && Snapshot() == old(Snapshot())
      ensures (r, listener.State()) == HasOutcome(env, old(listener.State()), dtoClass, Snapshot(), path)
    {
      r := Has(env, listener, path);
    }

    /** `offsetSet` (`$dto[$path] = $v`): refused unless MUTABLE, then `set`, which works in place. */
    method OffsetSet(env: Env, listener: Listener, converter: Converters.ArrayConverter,
                     nestedSet: (Value, string, Value, Flags) -> Option<Error>, path: string, v: Value)
      returns (e: Option<Error>)
      requires Valid(env) && mapper.Valid()
      modifies this, Cells(), listener, converter, mapper
      ensures mapper.Valid() && Valid(env) && flags == old(flags) && converter.conversions == old(converter.conversions)
      ensures !IsSet(flags, MUTABLE) ==>
        && e == Some(ImmutableDto(dtoClass))
        && propertiesMap == old(propertiesMap) && Snapshot() == old(Snapshot())
        && listener.State() == old(listener.State()) && converter.Cache() == old(converter.Cache())
      ensures IsSet(flags, MUTABLE) ==>
        var (e', st, cache, cells) := old(SetOutcome(env, mapper, nestedSet, listener.State(), converter.conversions,
                                                     converter.Cache(), dtoClass, flags, Snapshot(), DeclaredTypes(), path, v));
        && listener.State() == st && converter.Cache() == cache && Snapshot() == cells
        && (e.Some? <==> Raised(e', flags)) && (e.Some? ==> e == e')
    {
      if !IsSet(flags, MUTABLE) {
        return Some(ImmutableDto(dtoClass));
      }
      var r := Set(env, listener, converter, nestedSet, path, v);
      e := if r.Failure? then Some(r.error) else None;
    }

    /** `offsetUnset` (`unset($dto[$path])`): refused unless MUTABLE, then `unset`, which works in place. */
    method OffsetUnset(env: Env, listener: Listener, converter: Converters.ArrayConverter,
                       nestedSet: (Value, string, Value, Flags) -> Option<Error>, path: string)
      returns (e: Option<Error>)
      requires Valid(env) && mapper.Valid()
      modifies this, Cells(), listener, converter, mapper
      ensures mapper.Valid() && Valid(env) && flags == old(flags) && converter.conversions == old(converter.conversions)
      ensures !IsSet(flags, MUTABLE) || !IsSet(flags, PARTIAL) ==>
        && e == Some(if !IsSet(flags, MUTABLE) then ImmutableDto(dtoClass) else UnsetProperty(dtoClass, path))
        && propertiesMap == old(propertiesMap) && Snapshot() == old(Snapshot())
        && listener.State() == old(listener.State()) && converter.Cache() == old(converter.Cache())
      ensures IsSet(flags, MUTABLE) && IsSet(flags, PARTIAL) && '.' !in path ==>
        && e == None
        && propertiesMap == Remove(old(propertiesMap), path) && Snapshot() == Remove(old(Snapshot()), path)
        && listener.State() == old(listener.State()) && converter.Cache() == old(converter.Cache())
      ensures IsSet(flags, MUTABLE) && IsSet(flags, PARTIAL) && '.' in path ==>
        var (outcome, st, cache, cells) := old(UnsetNestedOutcome(env, mapper, nestedSet, listener.State(), converter.conversions,
                                                                  converter.Cache(), dtoClass, flags, Snapshot(), DeclaredTypes(), path));
        && listener.State() == st && converter.Cache() == cache && Snapshot() == cells
        && (outcome.Failure? ==> e == Some(outcome.error))
        && (outcome.Success? ==> (e.Some? <==> Raised(outcome.value, flags)) && (e.Some? ==> e == outcome.value))
    {
      if !IsSet(flags, MUTABLE) {
        return Some(ImmutableDto(dtoClass));
      }
      var r := Unset(env, listener, converter, nestedSet, path);
      e := if r.Failure? then Some(r.error) else None;
    }
  }

  /**
   * What assigning `mapData` leaves: the mapper's error and the properties
   * as they were, or no error and the properties it planned, under the flags.
   */
  function MappedInto(planned: Result<seq<Mapped>>, flags: Flags, before: PhpArray<CellState>): (Option<Error>, PhpArray<CellState>)
  {
    match planned
    case Failure(e) => (Some(e), before)
    case Success(p) => (None, Built(p, flags))
  }

  /**
   * What `setPropertyValueOrMap` leaves for a path the DTO does not have:
   * the error, the converter's cache and the properties' states after
   * exporting the data, storing the value under the path, and mapping again.
   */
  ghost function Remapping(env: Env, m: DtoPropertiesMapper, conversions: PhpArray<string>, cache: PhpArray<string>,
                           flags: Flags, cells: PhpArray<CellState>, path: string, v: Value)
    : (Option<Error>, PhpArray<string>, PhpArray<CellState>)
    reads m
  {
    var (data, cache') := Exported(Processing(env), Conversion(env, conversions), cache, cells, |cells|);
    match data
    case Failure(err) => (Some(err), cache', cells)
    case Success(d) =>
      var (e, after) := MappedInto(m.Outcome(env, WithEntry(d, path, v), flags), flags, cells);
      (e, cache', after)
  }

  /** The declared types of each property object, by name. */
  ghost function TypesOf(cells: PhpArray<DtoProperty>): (r: PhpArray<seq<AtomInfo>>)
    reads set i | 0 <= i < |cells| :: cells[i].1.types
    ensures Keys(r) == Keys(cells)
  {
    seq(|cells|, i requires 0 <= i < |cells| reads if 0 <= i < |cells| then {cells[i].1.types} else {} =>
      (cells[i].0, cells[i].1.types.Atoms))
  }

  /** The types `DeclaredTypes` records under a name are those of the property object mapped under it. */
  lemma {:induction false} TypesGet(cells: PhpArray<DtoProperty>, name: string)
    ensures PhpArrays.Get(TypesOf(cells), name) ==
      if PhpArrays.Get(cells, name).Some? then Some(PhpArrays.Get(cells, name).value.types.Atoms) else None
  {
    if cells != [] {
      assert TypesOf(cells) == [(cells[0].0, cells[0].1.types.Atoms)] + TypesOf(cells[1..]);
      TypesGet(cells[1..], name);
    }
  }

  /** `set`: the listener's setter first, then `setPropertyValueOrMap` with what it returns. */
  ghost function SetOutcome(env: Env, m: DtoPropertiesMapper, nestedSet: (Value, string, Value, Flags) -> Option<Error>,
                            st: Listening, conversions: PhpArray<string>, cache: PhpArray<string>,
                            dtoClass: string, flags: Flags, cells: PhpArray<CellState>,
                            types: PhpArray<seq<AtomInfo>>, path: string, v: Value)
    : (Option<Error>, Listening, PhpArray<string>, PhpArray<CellState>)
    requires Keys(types) == Keys(cells)
    reads m
  {
    var (transformed, st') := SettingOutcome(env, st, dtoClass, path, v);
    SetValueOrMapOutcome(env, m, nestedSet, st', conversions, cache, dtoClass, flags, cells, types, path, transformed)
  }

  /** Whether `set` lets an error out: all but an unknown property under IGNORE_UNKNOWN_PROPERTIES. */
  predicate Raised(e: Option<Error>, flags: Flags)
  {
    e.Some? && !(e.value.UnknownProperty? && IsSet(flags, IGNORE_UNKNOWN_PROPERTIES))
  }

  /**
   * What `setPropertyValueOrMap` does once it has decided, given the
   * properties' states and declared types: the error, the converter's cache
   * and the properties' states afterwards.
   */
  ghost function Applied(env: Env, m: DtoPropertiesMapper, nestedSet: (Value, string, Value, Flags) -> Option<Error>,
                         conversions: PhpArray<string>, cache: PhpArray<string>, flags: Flags,
                         cells: PhpArray<CellState>, types: PhpArray<seq<AtomInfo>>, plan: SetPlan, path: string, v: Value)
    : (Option<Error>, PhpArray<string>, PhpArray<CellState>)
    requires Keys(types) == Keys(cells)
    requires plan.SetOwn? ==> Get(cells, plan.name).Some?
    reads m
  {
    match plan
    case SetOwn(name) =>
      (Validation(env, name, v, flags, Get(types, name).value), cache, SetCell(cells, name, v, flags))
    case SetInside(owner, key) =>
      (nestedSet(owner, key, v, flags), cache, cells)
    case Remap =>
      Remapping(env, m, conversions, cache, flags, cells, path, v)
  }

  /** `setPropertyValueOrMap`: the decision, with the listener's state, then what it does. */
  ghost function SetValueOrMapOutcome(env: Env, m: DtoPropertiesMapper, nestedSet: (Value, string, Value, Flags) -> Option<Error>,
                                      st: Listening, conversions: PhpArray<string>, cache: PhpArray<string>,
                                      dtoClass: string, flags: Flags, cells: PhpArray<CellState>,
                                      types: PhpArray<seq<AtomInfo>>, path: string, v: Value)
    : (Option<Error>, Listening, PhpArray<string>, PhpArray<CellState>)
    requires Keys(types) == Keys(cells)
    reads m
  {
    var (plan, st') := SetPlanOf(env, st, dtoClass, cells, path);
    match plan
    case Failure(e) => (Some(e), st', cache, cells)
    case Success(p) =>
      var (e, cache', cells') := Applied(env, m, nestedSet, conversions, cache, flags, cells, types, p, path, v);
      (e, st', cache', cells')
  }

  /** Every property is keyed by its own name, once, and keeps its invariant. */
  ghost predicate WellKeyed(env: Env, properties: PhpArray<DtoProperty>)
    reads set i | 0 <= i < |properties| :: properties[i].1
    reads set i | 0 <= i < |properties| :: properties[i].1.types
    reads set i, j | 0 <= i < |properties| && 0 <= j < |properties[i].1.types.all| :: properties[i].1.types.all[j]
  {
    && DistinctKeys(properties)
    && forall i :: 0 <= i < |properties| ==> properties[i].1.name == properties[i].0 && properties[i].1.Valid(env)
  }

  /** `setValue($v, $f)` on the `i`-th property of a well-keyed map; the others keep their state. */
  method SetAt(env: Env, properties: PhpArray<DtoProperty>, i: nat, v: Value, f: Flags) returns (e: Option<Error>)
    requires WellKeyed(env, properties) && i < |properties|
    modifies properties[i].1
    ensures WellKeyed(env, properties)
    ensures States(properties) == old(States(properties))[i := (properties[i].0, CellState(v, f, old(StateOf(properties[i].1)).facts))]
    ensures e == Validation(env, properties[i].0, v, f, properties[i].1.types.Atoms)
  {
    var p := properties[i].1;
    ghost var before := States(properties);
    e := p.SetValue(env, v, f);
    forall j | 0 <= j < |properties| && j != i
      ensures properties[j].1 != p
    {
      assert properties[j].1.name == properties[j].0;
    }
  }

  /** The state of one property object. */
  function StateOf(p: DtoProperty): CellState
    reads p, p.types
  {
    CellState(p.rawValue, p.flags, p.types.Facts())
  }

  /** The state `Snapshot` records under a name is the state of the property object mapped under it. */
  lemma {:induction false} StatesGet(cells: PhpArray<DtoProperty>, name: string)
    ensures PhpArrays.Get(States(cells), name) ==
      if PhpArrays.Get(cells, name).Some? then Some(StateOf(PhpArrays.Get(cells, name).value)) else None
  {
    if cells != [] {
      assert States(cells) == [(cells[0].0, StateOf(cells[0].1))] + States(cells[1..]);
      StatesGet(cells[1..], name);
    }
  }

  /** `getProperty` inside a nested DTO value, consulting the listener for every segment it reads with `get`. */
  method NestedLookup(env: Env, listener: Listener, dto: Value, path: string) returns (r: Result<(Value, string, Value)>)
    requires IsDtoInstance(dto)
    modifies listener
    ensures (r, listener.State()) == NestedProperty(env, old(listener.State()), dto, path)
    decreases |path|
  {
    var exact := PhpArrays.Get(dto.fields, path);
    if exact.Some? {
      return Success((dto, path, exact.value));
    }
    if '.' !in path {
      return Failure(UnknownProperty(dto.cls, path));
    }
    var (head, rest) := SplitFirst(path, '.');
    var hv := PhpArrays.Get(dto.fields, head);
    if hv.None? {
      return Failure(UnknownProperty(dto.cls, head));
    }
    var presumed := listener.Getting(env, dto.cls, head, hv.value);
    if !IsDtoInstance(presumed) {
      return Failure(UnknownProperty(dto.cls, rest));
    }
    r := NestedLookup(env, listener, presumed, rest);
  }

  /** One more copy keeps the names, states and declared types of the copied prefix. */
  lemma CloneStep(properties: PhpArray<DtoProperty>, copies: PhpArray<DtoProperty>, i: nat, copy: DtoProperty,
                  states: PhpArray<CellState>, types: PhpArray<seq<AtomInfo>>)
    requires i < |properties| && states == States(properties) && types == TypesOf(properties)
    requires Keys(copies) == Keys(properties)[..i] && States(copies) == states[..i] && TypesOf(copies) == types[..i]
    requires StateOf(copy) == StateOf(properties[i].1) && copy.types.Atoms == properties[i].1.types.Atoms
    ensures Keys(copies + [(properties[i].0, copy)]) == Keys(properties)[..i + 1]
    ensures States(copies + [(properties[i].0, copy)]) == states[..i + 1]
    ensures TypesOf(copies + [(properties[i].0, copy)]) == types[..i + 1]
  {
    StatesSnoc(copies, properties[i].0, copy);
    TypesSnoc(copies, properties[i].0, copy);
    assert states[..i + 1] == states[..i] + [states[i]];
    assert types[..i + 1] == types[..i] + [types[i]];
    KeysCons2(copies, properties, i, copy);
  }

  lemma StatesSnoc(cells: PhpArray<DtoProperty>, name: string, p: DtoProperty)
    ensures States(cells + [(name, p)]) == States(cells) + [(name, StateOf(p))]
  {
  }

  /** The loop of `__clone`: every property replaced by a copy of it. */
  method CloneProperties(env: Env, properties: PhpArray<DtoProperty>) returns (copies: PhpArray<DtoProperty>)
    requires WellKeyed(env, properties)
    ensures Keys(copies) == Keys(properties) && States(copies) == States(properties) && TypesOf(copies) == TypesOf(properties)
    ensures forall j :: 0 <= j < |copies| ==> fresh(copies[j].1) && fresh(copies[j].1.types)
    ensures WellKeyed(env, copies)
  {
    copies := [];
    ghost var states := States(properties);
    ghost var types := TypesOf(properties);
    var i := 0;
    while i < |properties|
      invariant i <= |properties| && |copies| == i
      invariant Keys(copies) == Keys(properties)[..i] && States(copies) == states[..i] && TypesOf(copies) == types[..i]
      invariant forall j :: 0 <= j < i ==> fresh(copies[j].1) && fresh(copies[j].1.types)
      invariant forall j :: 0 <= j < i ==> copies[j].1.name == copies[j].0 && copies[j].1.Valid(env)
    {
      var copy := properties[i].1.Clone(env);
      assert properties[i].1.name == properties[i].0;
      CloneStep(properties, copies, i, copy, states, types);
      copies := copies + [(properties[i].0, copy)];
      i := i + 1;
    }
    assert states[..i] == states && types[..i] == types;
    assert Keys(properties)[..i] == Keys(properties);
    SameKeysDistinct(properties, copies);
  }

  lemma TypesSnoc(cells: PhpArray<DtoProperty>, name: string, p: DtoProperty)
    ensures TypesOf(cells + [(name, p)]) == TypesOf(cells) + [(name, p.types.Atoms)]
  {
  }

  lemma KeysCons2(copies: PhpArray<DtoProperty>, properties: PhpArray<DtoProperty>, i: nat, copy: DtoProperty)
    requires i < |properties| && Keys(copies) == Keys(properties)[..i]
    ensures Keys(copies + [(properties[i].0, copy)]) == Keys(properties)[..i + 1]
  {
  }

  /** `$property->value()` of a property in state `c`, seen through any `process` that does what it does. */
  method ValueOf(env: Env, c: CellState, ghost process: CellState -> Result<Value>) returns (v: Result<Value>)
    ensures ProcessesAs(env, process) ==> v == process(c)
  {
    v := Processed(env, c);
  }

  /** The loop of `toArray` over the properties' states, for any `process` and `convert` that do what `value()` and the converter do. */
  method Export(env: Env, converter: Converters.ArrayConverter, cells: PhpArray<CellState>,
                ghost process: CellState -> Result<Value>, ghost convert: (PhpArray<string>, Value) -> (Value, PhpArray<string>),
                ghost conversions: PhpArray<string>, ghost cache0: PhpArray<string>)
    returns (r: Result<PhpArray<Value>>)
    requires converter.conversions == conversions && converter.Cache() == cache0
    requires ProcessesAs(env, process) && Converters.ConvertsAs(env, conversions, convert)
    modifies converter
    ensures converter.conversions == conversions
    ensures (r, converter.Cache()) == Exported(process, convert, cache0, cells, |cells|)
  {
    var data: PhpArray<Value> := [];
    var i := 0;
    while i < |cells|
      invariant i <= |cells| && converter.conversions == conversions
      invariant Exported(process, convert, cache0, cells, i) == (Success(data), converter.Cache())
    {
      var v := ValueOf(env, cells[i].1, process);
      if v.Failure? {
        ExportedStops(process, convert, cache0, cells, i, i + 1, v.error);
        ExportedFailureSticks(process, convert, cache0, cells, i + 1, |cells|);
        return Failure(v.error);
      }
      var converted := converter.ConvertWith(env, v.value, conversions, convert);
      ExportedNext(process, convert, cache0, cells, i, i + 1, v.value);
      data := Put(data, cells[i].0, converted);
      i := i + 1;
    }
    r := Success(data);
  }

  /** The first step of a dotted `unset`: `get` of the first segment, then `unset` of the rest called on what it gives. */
  function UnsetInside(env: Env, st: Listening, dtoClass: string, cells: PhpArray<CellState>, path: string)
    : (Result<Value>, Listening)
    requires '.' in path
  {
    var (head, rest) := SplitFirst(path, '.');
    var (got, st1) := Getting(env, st, dtoClass, cells, head);
    if got.Failure? then (Failure(got.error), st1)
    else (env.nestedUnset(got.value, rest), st1)
  }

  /**
   * A dotted `unset`: the error of its first step, raised as it is; or what
   * `set` of the first segment to the unset value does (its error, which
   * `set` itself may swallow), with the listener's state, the converter's
   * cache and the properties' states afterwards.
   */
  ghost function UnsetNestedOutcome(env: Env, m: DtoPropertiesMapper, nestedSet: (Value, string, Value, Flags) -> Option<Error>,
                                    st: Listening, conversions: PhpArray<string>, cache: PhpArray<string>,
                                    dtoClass: string, flags: Flags, cells: PhpArray<CellState>,
                                    types: PhpArray<seq<AtomInfo>>, path: string)
    : (Result<Option<Error>>, Listening, PhpArray<string>, PhpArray<CellState>)
    requires '.' in path && Keys(types) == Keys(cells)
    reads m
  {
    var (head, _) := SplitFirst(path, '.');
    var (unset, st1) := UnsetInside(env, st, dtoClass, cells, path);
    if unset.Failure? then (Failure(unset.error), st1, cache, cells)
    else
      var (e, st2, cache', cells') := SetOutcome(env, m, nestedSet, st1, conversions, cache, dtoClass, flags, cells, types, head, unset.value);
      (Success(e), st2, cache', cells')
  }

  /**
   * What a DTO that rebuilds itself from its exported data computes (with
   * `drop` unset first, when given): the construction of a DTO of its class
   * under `f`, or the error of the export; with the converter's cache afterwards.
   */
  ghost function Rebuilding(env: Env, m: DtoPropertiesMapper, defaultFlags: Flags, conversions: PhpArray<string>,
                            cache: PhpArray<string>, cells: PhpArray<CellState>, drop: Option<string>, f: Flags)
    : (Result<(Flags, seq<Mapped>)>, PhpArray<string>)
    reads m
  {
    var (data, cache') := Exported(Processing(env), Conversion(env, conversions), cache, cells, |cells|);
    match data
    case Failure(e) => (Failure(e), cache')
    case Success(d) => (Making(env, m, defaultFlags, if drop.Some? then Remove(d, drop.value) else d, f), cache')
  }

  /** The error PHP raises when `merge` is given something that is not iterable. */
  const NotIterable: string := "merge(): Argument #1 ($data) must be of type iterable"

  /** The error PHP raises when `array_replace_recursive` is given replacements that are not an array. */
  const NotAnArray: string := "array_replace_recursive(): Argument #2 must be of type array"

  /**
   * What `merge` computes before it builds: the data (the exported data
   * with the converted input replaced into it recursively) and the merged
   * flags, or the first error; with the converter's cache afterwards.
   */
  function Merging(env: Env, conversions: PhpArray<string>, cache: PhpArray<string>, cells: PhpArray<CellState>,
                   flags: Flags, data: Value, f: Flags)
    : (Result<(PhpArray<Value>, Flags)>, PhpArray<string>)
  {
    if !IsIterable(data) then (Failure(TypeError(NotIterable)), cache)
    else
      var (replacements, cache1) := Conversion(env, conversions)(cache, data);
      var (exported, cache2) := Exported(Processing(env), Conversion(env, conversions), cache1, cells, |cells|);
      if exported.Failure? then (Failure(exported.error), cache2)
      else if !replacements.Arr? then (Failure(TypeError(NotAnArray)), cache2)
      else
        match DtoFlagsHandler.Merge(flags, f)
        case Failure(e) => (Failure(e), cache2)
        case Success(merged) => (Success((ReplaceRecursive(exported.value, replacements.entries), merged)), cache2)
  }

  /** `merge` on a DTO that is not MUTABLE: the construction of a DTO of the class from what `merge` computes. */
  ghost function MergeMade(env: Env, m: DtoPropertiesMapper, defaultFlags: Flags, conversions: PhpArray<string>,
                           cache: PhpArray<string>, cells: PhpArray<CellState>, flags: Flags, data: Value, f: Flags)
    : (Result<(Flags, seq<Mapped>)>, PhpArray<string>)
    reads m
  {
    var (plan, cache') := Merging(env, conversions, cache, cells, flags, data, f);
    match plan
    case Failure(e) => (Failure(e), cache')
    case Success(p) => (Making(env, m, defaultFlags, p.0, p.1), cache')
  }

  /**
   * `merge` on a MUTABLE DTO: the error, the flags and the properties'
   * states it leaves (the merged flags are taken before the data is mapped,
   * so they stay when the mapping fails), and the converter's cache.
   */
  ghost function MergeInPlace(env: Env, m: DtoPropertiesMapper, conversions: PhpArray<string>, cache: PhpArray<string>,
                              cells: PhpArray<CellState>, flags: Flags, data: Value, f: Flags)
    : (Option<Error>, Flags, PhpArray<CellState>, PhpArray<string>)
    reads m
  {
    var (plan, cache') := Merging(env, conversions, cache, cells, flags, data, f);
    match plan
    case Failure(e) => (Some(e), flags, cells, cache')
    case Success(p) =>
      var (e, cells') := MappedInto(m.Outcome(env, p.0, p.1), p.1, cells);
      (e, p.1, cells', cache')
  }

  /**
   * `only` on a DTO that is not MUTABLE: the flags merged as `only` merges
   * them, then the construction of a DTO of the class from the processed
   * values of the listed properties.
   */
  ghost function OnlyMade(env: Env, m: DtoPropertiesMapper, defaultFlags: Flags, cells: PhpArray<CellState>,
                          names: seq<string>, withoutDefaults: Flags, f: Flags)
    : Result<(Flags, seq<Mapped>)>
    reads m
  {
    match DtoFlagsHandler.Merge(withoutDefaults, f | PARTIAL)
    case Failure(e) => Failure(e)
    case Success(merged) =>
      match ProcessedAll(env, Listed(cells, names))
      case Failure(e) => Failure(e)
      case Success(d) => Making(env, m, defaultFlags, d, merged)
  }

  /** The flags `only` computes always include PARTIAL, and so do those of the DTO it makes from them. */
  lemma OnlyIsPartial(withoutDefaults: Flags, f: Flags, defaultFlags: Flags)
    requires DtoFlagsHandler.Merge(withoutDefaults, f | PARTIAL).Success?
    ensures IsSet(DtoFlagsHandler.Merge(withoutDefaults, f | PARTIAL).value, PARTIAL)
    ensures var merged := DtoFlagsHandler.Merge(withoutDefaults, f | PARTIAL).value;
      DtoFlagsHandler.Merge(defaultFlags, merged).Success? ==> IsSet(DtoFlagsHandler.Merge(defaultFlags, merged).value, PARTIAL)
  {
    var merged := DtoFlagsHandler.Merge(withoutDefaults, f | PARTIAL).value;
    IncludesAdded(f, PARTIAL);
    MergeIncludes(withoutDefaults, f | PARTIAL, PARTIAL);
    if DtoFlagsHandler.Merge(defaultFlags, merged).Success? {
      MergeIncludes(defaultFlags, merged, PARTIAL);
    }
  }

  /** The loop of `only` on a MUTABLE DTO: every entry not listed is unset, in order. */
  method KeepListedEntries<V>(entries: PhpArray<V>, names: seq<string>) returns (kept: PhpArray<V>)
    requires DistinctKeys(entries)
    ensures kept == Listed(entries, names)
  {
    kept := entries;
    var i := 0;
    while i < |entries|
      invariant i <= |entries|
      invariant kept == Listed(entries[..i], names) + entries[i..]
      invariant DistinctKeys(kept)
    {
      if entries[i].0 in names {
        KeepStep(entries, i, names);
      } else {
        DropStep(entries, i, names);
        kept := Remove(kept, entries[i].0);
      }
      i := i + 1;
    }
    assert entries[..i] == entries && entries[i..] == [];
  }

  /** One round of the loop of `only` on a MUTABLE DTO, for a listed property: it stays. */
  lemma KeepStep<V>(entries: PhpArray<V>, i: nat, names: seq<string>)
    requires i < |entries| && entries[i].0 in names
    ensures Listed(entries[..i], names) + entries[i..] == Listed(entries[..i + 1], names) + entries[i + 1..]
  {
    var done, e, rest := Listed(entries[..i], names), entries[i], entries[i + 1..];
    assert Listed(entries[..i + 1], names) == done + [e] by {
      assert entries[..i + 1] == entries[..i] + [e];
      ListedSnoc(entries[..i], e, names);
    }
    assert entries[i..] == [e] + rest;
  }

  /** One round of the loop of `only` on a MUTABLE DTO, for a property not listed: it goes. */
  lemma DropStep<V>(entries: PhpArray<V>, i: nat, names: seq<string>)
    requires i < |entries| && entries[i].0 !in names && DistinctKeys(Listed(entries[..i], names) + entries[i..])
    ensures Remove(Listed(entries[..i], names) + entries[i..], entries[i].0) == Listed(entries[..i + 1], names) + entries[i + 1..]
  {
    var done, e, rest := Listed(entries[..i], names), entries[i], entries[i + 1..];
    assert Listed(entries[..i + 1], names) == done by {
      assert entries[..i + 1] == entries[..i] + [e];
      ListedSnoc(entries[..i], e, names);
      assert done + [] == done;
    }
    assert Remove(done + entries[i..], e.0) == done + rest by {
      assert entries[i..][1..] == rest;
      RemoveAhead(done, entries[i..]);
    }
  }

  /** `only`'s filter on one more entry keeps it exactly when it is listed. */
  lemma ListedSnoc<V>(a: PhpArray<V>, e: (string, V), names: seq<string>)
    ensures Listed(a + [e], names) == Listed(a, names) + if e.0 in names then [e] else []
  {
    assert (a + [e])[..|a|] == a;
  }

  /**
   * The processed value of each property state, under its name, in order;
   * or the error of the first that fails.
   */
  function ProcessedAll(env: Env, cells: PhpArray<CellState>): (r: Result<PhpArray<Value>>)
    ensures r.Success? ==> Keys(r.value) == Keys(cells)
  {
    if cells == [] then Success([])
    else
      var init, last := cells[..|cells| - 1], cells[|cells| - 1];
      match ProcessedAll(env, init)
      case Failure(e) => Failure(e)
      case Success(acc) =>
        match Processed(env, last.1)
        case Failure(e) => Failure(e)
        case Success(v) =>
          assert Keys(cells) == Keys(init) + [last.0];
          Success(acc + [(last.0, v)])
  }

  /** Once a property fails to process, so does the whole, with that error. */
  lemma {:induction false} ProcessedAllSticks(env: Env, a: PhpArray<CellState>, b: PhpArray<CellState>)
    requires ProcessedAll(env, a).Failure?
    ensures ProcessedAll(env, a + b) == ProcessedAll(env, a)
    decreases |b|
  {
    if b == [] {
      assert a + b == a;
    } else {
      assert (a + b)[..|a + b| - 1] == a + b[..|b| - 1];
      ProcessedAllSticks(env, a, b[..|b| - 1]);
    }
  }

  /** The loop of `only` on a DTO that is not MUTABLE: the processed value of each listed property, in map order. */
  method PickListed(env: Env, cells: PhpArray<CellState>, names: seq<string>) returns (r: Result<PhpArray<Value>>)
    requires DistinctKeys(cells)
    ensures r == ProcessedAll(env, Listed(cells, names))
  {
    var data: PhpArray<Value> := [];
    var i := 0;
    while i < |cells|
      invariant i <= |cells|
      invariant ProcessedAll(env, Listed(cells[..i], names)) == Success(data)
    {
      PickStep(cells, i, names);
      if cells[i].0 in names {
        var v := Processed(env, cells[i].1);
        ProcessedAllSnoc(env, Listed(cells[..i], names), cells[i]);
        if v.Failure? {
          PickedFails(env, cells, i, names);
          return Failure(v.error);
        }
        FreshKey(data, Listed(cells[..i], names), cells[i].0);
        PutAppends(data, cells[i].0, v.value);
        data := Put(data, cells[i].0, v.value);
      } else {
        assert Listed(cells[..i], names) + [] == Listed(cells[..i], names);
      }
      i := i + 1;
    }
    assert cells[..i] == cells;
    r := Success(data);
  }

  /** A key not among those of `b` is not among those of `a`, whose keys are the same. */
  lemma FreshKey<V, W>(a: PhpArray<V>, b: PhpArray<W>, k: string)
    requires Keys(a) == Keys(b) && k !in Keys(b)
    ensures forall j :: 0 <= j < |a| ==> a[j].0 != k
  {
    forall j | 0 <= j < |a| ensures a[j].0 != k {
      assert Keys(a)[j] == a[j].0;
    }
  }

  /** Processing one more property state: its value is appended, or its error is the whole's. */
  lemma ProcessedAllSnoc(env: Env, a: PhpArray<CellState>, e: (string, CellState))
    requires ProcessedAll(env, a).Success?
    ensures Processed(env, e.1).Failure? ==> ProcessedAll(env, a + [e]) == Failure(Processed(env, e.1).error)
    ensures Processed(env, e.1).Success? ==>
      ProcessedAll(env, a + [e]) == Success(ProcessedAll(env, a).value + [(e.0, Processed(env, e.1).value)])
  {
    assert (a + [e])[..|a|] == a;
  }

  /** When the listed property at `i` fails to process, so do all the listed ones. */
  lemma PickedFails(env: Env, cells: PhpArray<CellState>, i: nat, names: seq<string>)
    requires i < |cells| && ProcessedAll(env, Listed(cells[..i + 1], names)).Failure?
    ensures ProcessedAll(env, Listed(cells, names)) == ProcessedAll(env, Listed(cells[..i + 1], names))
  {
    ProcessedAllSticks(env, Listed(cells[..i + 1], names), Listed(cells[i + 1..], names));
    ListedAppend(cells[..i + 1], cells[i + 1..], names);
    assert cells[..i + 1] + cells[i + 1..] == cells;
  }

  /** One round of the loop of `only` on a DTO that is not MUTABLE. */
  lemma PickStep(cells: PhpArray<CellState>, i: nat, names: seq<string>)
    requires DistinctKeys(cells) && i < |cells|
    ensures Listed(cells[..i + 1], names) == Listed(cells[..i], names) + if cells[i].0 in names then [cells[i]] else []
    ensures cells[i].0 !in Keys(Listed(cells[..i], names))
  {
    assert cells[..i + 1] == cells[..i] + [cells[i]];
    ListedSnoc(cells[..i], cells[i], names);
    forall k | 0 <= k < i ensures cells[k].0 != cells[i].0 {
      assert cells[..i][k] == cells[k];
    }
    assert cells[i].0 !in Keys(cells[..i]);
  }

  /** The states of property objects none of which changed are as they were. */
  twostate lemma StatesUnchanged(cells: PhpArray<DtoProperty>)
    requires forall i :: 0 <= i < |cells| ==> unchanged(cells[i].1) && unchanged(cells[i].1.types)
    ensures States(cells) == old(States(cells))
  {
    forall i | 0 <= i < |cells| ensures States(cells)[i] == old(States(cells))[i] {
    }
  }

  /** The states of the properties `only` keeps are the kept states. */
  lemma {:induction false} StatesListed(cells: PhpArray<DtoProperty>, names: seq<string>)
    ensures States(Listed(cells, names)) == Listed(States(cells), names)
    decreases |cells|
  {
    if cells != [] {
      var init, last := cells[..|cells| - 1], cells[|cells| - 1];
      assert States(cells)[..|cells| - 1] == States(init);
      StatesListed(init, names);
      StatesSnoc(Listed(init, names), last.0, last.1);
    }
  }

  lemma StatesCons(e: (string, DtoProperty), rest: PhpArray<DtoProperty>)
    ensures States([e] + rest) == [(e.0, StateOf(e.1))] + States(rest)
  {
  }

  /** The states of the properties left after `unset` are the states left. */
  lemma {:induction false} StatesRemove(cells: PhpArray<DtoProperty>, k: string)
    ensures States(Remove(cells, k)) == Remove(States(cells), k)
    decreases |cells|
  {
    if cells != [] {
      assert [cells[0]] + cells[1..] == cells;
      StatesCons(cells[0], cells[1..]);
      StatesRemove(cells[1..], k);
      if cells[0].0 != k {
        StatesCons(cells[0], Remove(cells[1..], k));
      }
    }
  }

  lemma {:induction false} RemoveKeepsEntries<V>(a: PhpArray<V>, k: string)
    ensures forall e :: e in Remove(a, k) ==> e in a
    decreases |a|
  {
    if a != [] {
      RemoveKeepsEntries(a[1..], k);
    }
  }

  lemma RemovedWellKeyed(env: Env, cells: PhpArray<DtoProperty>, k: string)
    requires WellKeyed(env, cells)
    ensures WellKeyed(env, Remove(cells, k))
  {
    var r := Remove(cells, k);
    RemoveKeepsEntries(cells, k);
    forall i | 0 <= i < |r| ensures r[i].1.name == r[i].0 && r[i].1.Valid(env) {
      assert r[i] in cells;
    }
  }

  lemma ListedWellKeyed(env: Env, cells: PhpArray<DtoProperty>, names: seq<string>)
    requires WellKeyed(env, cells)
    ensures WellKeyed(env, Listed(cells, names))
  {
    var r := Listed(cells, names);
    forall i | 0 <= i < |r| ensures r[i].1.name == r[i].0 && r[i].1.Valid(env) {
      assert r[i] in cells;
    }
  }
}
