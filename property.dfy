/**
 * A DTO property (DtoProperty.php): its raw value, the union of its declared
 * types, the flags it was set with, and the processed value, computed once
 * and remembered until the raw value changes.
 */
module Property {
  import opened Wrappers
  import opened PhpArrays
  import opened Values
  import opened DtoFlags
  import opened PropertyTypes
  import UnexpectedValue

  /** `isNullable`: NOT_NULLABLE forbids null; otherwise NULLABLE or a declared null type allows it. */
  predicate Nullable(flags: Flags, includeNull: bool)
  {
    if IsSet(flags, NOT_NULLABLE) then false else IsSet(flags, NULLABLE) || includeNull
  }

  /** The cast of one item: kept when already an instance of the DTO class, otherwise built with `make`. */
  function CastItem(env: Env, dto: string, data: Value, flags: Flags): (r: Result<Value>)
    ensures IsA(env, data, dto) ==> r == Success(data)
  {
    if IsA(env, data, dto) then Success(data) else env.make(dto, data, flags)
  }

  /** `array_map` of CastItem: the keys are kept, and the first failing item's error is raised. */
  function CastItems(env: Env, dto: string, items: PhpArray<Value>, flags: Flags): (r: Result<PhpArray<Value>>)
    ensures r.Success? ==> Keys(r.value) == Keys(items)
    ensures r.Success? ==> forall i :: 0 <= i < |items| ==> CastItem(env, dto, items[i].1, flags) == Success(r.value[i].1)
    ensures r.Failure? ==> exists i :: 0 <= i < |items| && CastItem(env, dto, items[i].1, flags) == Failure(r.error)
  {
    if items == [] then Success([])
    else
      match CastItem(env, dto, items[0].1, flags)
      case Failure(e) => Failure(e)
      case Success(v) =>
        match CastItems(env, dto, items[1..], flags)
        case Failure(e) =>
          var i :| 0 <= i < |items[1..]| && CastItem(env, dto, items[1..][i].1, flags) == Failure(e);
          assert CastItem(env, dto, items[i + 1].1, flags) == Failure(e);
          Failure(e)
        case Success(rest) =>
          assert Keys([(items[0].0, v)] + rest) == [items[0].0] + Keys(rest);
          assert Keys(items) == [items[0].0] + Keys(items[1..]);
          Success([(items[0].0, v)] + rest)
  }

  /** Whether the union names a DTO class (`$types->expectedDto` is truthy). */
  predicate ExpectsDto(s: Summary)
  {
    s.expectedDto.Some? && Truthy(s.expectedDto.value)
  }

  /**
   * The processed value (`value` and `castRawValueIntoDto`): the raw value
   * itself unless a DTO is expected; null stays null; otherwise the raw
   * value, or each item of it for a collection, becomes an instance of the
   * expected DTO.
   */
  function CastRawValue(env: Env, raw: Value, flags: Flags, s: Summary): (r: Result<Value>)
    ensures !ExpectsDto(s) || raw == Null ==> r == Success(raw)
    ensures ExpectsDto(s) && s.expectCollection && raw != Null && r.Success? ==> raw.Arr? && r.value.Arr? && Keys(r.value.entries) == Keys(raw.entries)
    ensures ExpectsDto(s) && s.expectCollection && !raw.Arr? && raw != Null ==> r.Failure? && r.error.TypeError?
  {
    if !ExpectsDto(s) then Success(raw)
    else if raw == Null then Success(Null)
    else if !s.expectCollection then CastItem(env, s.expectedDto.value, raw, flags)
    else if !raw.Arr? then Failure(TypeError("array_map(): Argument #2 ($array) must be of type array"))
    else
      match CastItems(env, s.expectedDto.value, raw.entries, flags)
      case Failure(e) => Failure(e)
      case Success(items) => Success(Arr(items))
  }

  /**
   * The outcome of `validate`: null passes exactly when the property is
   * nullable; any other value passes when its processed value matches one
   * of the declared types. A failure to build a nested DTO is raised as is.
   */
  function Validation(env: Env, name: string, raw: Value, flags: Flags, atoms: seq<AtomInfo>): (r: Option<Error>)
    ensures raw == Null ==> (r.None? <==> Nullable(flags, Summarize(atoms).includeNull))
    ensures raw != Null && CastRawValue(env, raw, flags, Summarize(atoms)).Success? ==>
      (r.None? <==> UnionAccepts(env, atoms, CastRawValue(env, raw, flags, Summarize(atoms)).value))
    ensures raw != Null && CastRawValue(env, raw, flags, Summarize(atoms)).Failure? ==>
      r == Some(CastRawValue(env, raw, flags, Summarize(atoms)).error)
    ensures r.Some? && (raw == Null || CastRawValue(env, raw, flags, Summarize(atoms)).Success?) ==>
      r.value == UnexpectedValue(UnexpectedValue.Message(name, Summarize(atoms).declaredNames, raw))
  {
    var s := Summarize(atoms);
    var failed := UnexpectedValue(UnexpectedValue.Message(name, s.declaredNames, raw));
    if raw == Null then
      if Nullable(flags, s.includeNull) then None else Some(failed)
    else
      match CastRawValue(env, raw, flags, s)
      case Failure(e) => Some(e)
      case Success(v) => if UnionAccepts(env, atoms, v) then None else Some(failed)
  }

  /** Under NOT_NULLABLE null is rejected even when a null type is declared; under NULLABLE it is accepted without one. */
  lemma NullableFlagsDecide(env: Env, name: string, atoms: seq<AtomInfo>, flags: Flags)
    ensures IsSet(flags, NOT_NULLABLE) ==> Validation(env, name, Null, flags, atoms).Some?
    ensures !IsSet(flags, NOT_NULLABLE) && IsSet(flags, NULLABLE) ==> Validation(env, name, Null, flags, atoms).None?
  {
  }

  class DtoProperty {
    const name: string
    const types: DtoPropertyTypes
    var rawValue: Value
    var flags: Flags
    var processedValue: Value
    var valueIsProcessed: bool

    /** A remembered processed value is the one the raw value gives. */
    ghost predicate Valid(env: Env)
      reads this, types, types.all
    {
      types.Valid()
      && (valueIsProcessed ==> CastRawValue(env, rawValue, flags, types.Facts()) == Success(processedValue))
    }

    /** The outcome `validate` would have now. */
    ghost function Outcome(env: Env): Option<Error>
      reads this, types
    {
      Validation(env, name, rawValue, flags, types.Atoms)
    }

    constructor(name: string, rawValue: Value, types: DtoPropertyTypes, flags: Flags)
      ensures this.name == name && this.rawValue == rawValue && this.types == types && this.flags == flags
      ensures !valueIsProcessed
    {
      this.name := name;
      this.rawValue := rawValue;
      this.types := types;
      this.flags := flags;
      this.processedValue := Null;
      this.valueIsProcessed := false;
    }

    /** `create`: a new property, returned only when its value validates. */
    static method Create(env: Env, name: string, rawValue: Value, types: DtoPropertyTypes, flags: Flags)
      returns (r: Result<DtoProperty>)
      requires types.Valid()
      ensures r.Failure? ==> Some(r.error) == Validation(env, name, rawValue, flags, types.Atoms)
      ensures r.Success? ==> Validation(env, name, rawValue, flags, types.Atoms).None?
      ensures r.Success? ==> fresh(r.value) && r.value.Valid(env)
      ensures r.Success? ==> r.value.name == name && r.value.rawValue == rawValue && r.value.types == types && r.value.flags == flags
    {
      var p := new DtoProperty(name, rawValue, types, flags);
      var e := p.Validate(env);
      if e.Some? {
        return Failure(e.value);
      }
      r := Success(p);
    }

    /** `validate`. */
    method Validate(env: Env) returns (e: Option<Error>)
      requires Valid(env)
      modifies this
      ensures Valid(env)
      ensures rawValue == old(rawValue) && flags == old(flags)
      ensures e == Validation(env, name, rawValue, flags, types.Atoms)
    {
      if rawValue == Null {
        if Nullable(flags, types.includeNull) {
          return None;
        }
        return Some(UnexpectedValue(UnexpectedValue.Message(name, types.declaredNames, rawValue)));
      }
      var v := Value(env);
      if v.Failure? {
        return Some(v.error);
      }
      var matched := types.Match(env, v.value);
      if matched {
        return None;
      }
      e := Some(UnexpectedValue(UnexpectedValue.Message(name, types.declaredNames, rawValue)));
    }

    /** `value`: the processed value, computed on first use and remembered. */
    method Value(env: Env) returns (r: Result<Value>)
      requires Valid(env)
      modifies this
      ensures Valid(env)
      ensures rawValue == old(rawValue) && flags == old(flags)
      ensures r == CastRawValue(env, rawValue, flags, types.Facts())
      ensures old(valueIsProcessed) ==> unchanged(this)
    {
      if valueIsProcessed {
        return Success(processedValue);
      }
      r := CastRawValue(env, rawValue, flags, types.Facts());
      if r.Success? {
        processedValue := r.value;
        valueIsProcessed := true;
      }
    }

    /** `setValue`: the new raw value and flags are kept even when they do not validate. */
    method SetValue(env: Env, rawValue: Value, flags: Flags) returns (e: Option<Error>)
      requires Valid(env)
      modifies this
      ensures Valid(env)
      ensures this.rawValue == rawValue && this.flags == flags
      ensures e == Validation(env, name, rawValue, flags, types.Atoms)
    {
      this.rawValue := rawValue;
      this.flags := flags;
      valueIsProcessed := false;
      e := Validate(env);
    }

    /** `__clone`: a copy with its own copy of the type union, which still shares the type objects. */
    method Clone(env: Env) returns (c: DtoProperty)
      requires Valid(env)
      ensures fresh(c) && fresh(c.types) && c.Valid(env)
      ensures c.name == name && c.rawValue == rawValue && c.flags == flags
      ensures c.valueIsProcessed == valueIsProcessed && c.processedValue == processedValue
      ensures c.types.all == types.all && c.types.Atoms == types.Atoms && c.types.Facts() == types.Facts()
    {
      var t := types.Clone();
      c := new DtoProperty(name, rawValue, t, flags);
      c.processedValue := processedValue;
      c.valueIsProcessed := valueIsProcessed;
    }
  }
}
