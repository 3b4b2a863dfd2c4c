/**
 * The property value processor (DtoPropertyValueProcessor.php): turns a raw
 * value into what the property should hold, through a value converter, a
 * nested DTO or a primitive cast, item by item for a collection.
 *
 * The processor reads two facts of the type union that the union of this
 * generation does not record (`expectedConverter` and `expectedPrimitive`);
 * they are given to the processor when it is built.
 */
module ValueProcessor {
  import opened Wrappers
  import opened PhpArrays
  import opened Values
  import opened DtoFlags
  import opened PropertyTypes
  import opened Property
  import Strings

  /** What the processing of one value depends on. */
  datatype Expectations = Expectations(
    converter: Option<string>,
    dto: Option<string>,
    primitive: Option<string>,
    flags: Flags)

  /**
   * `processValue`: a converter wins, then a DTO, then (under CAST_PRIMITIVES)
   * a primitive cast; otherwise the value is kept. Only the DTO cast can fail.
   */
  function ProcessValue(env: Env, ex: Expectations, v: Value): (r: Result<Value>)
    ensures r.Failure? ==> ex.converter.None? && ex.dto.Some? && Truthy(ex.dto.value) && !IsA(env, v, ex.dto.value)
    ensures ex.converter.None? && ex.dto.Some? && Truthy(ex.dto.value) && IsA(env, v, ex.dto.value) ==> r == Success(v)
    ensures ex.converter.None? && (ex.dto.None? || !Truthy(ex.dto.value)) && !IsSet(ex.flags, CAST_PRIMITIVES) ==> r == Success(v)
  {
    if ex.converter.Some? then Success(env.toDto(ex.converter.value, v))
    else if ex.dto.Some? && Truthy(ex.dto.value) then CastItem(env, ex.dto.value, v, ex.flags)
    else if IsSet(ex.flags, CAST_PRIMITIVES) && ex.primitive.Some? && Truthy(ex.primitive.value) then
      Success(env.settype(v, ex.primitive.value))
    else Success(v)
  }

  /** `processed` is the list (keys "0", "1", …) of the processed items. */
  ghost predicate ProcessedList(env: Env, ex: Expectations, items: PhpArray<Value>, processed: PhpArray<Value>)
  {
    |processed| == |items|
    && forall i :: 0 <= i < |items| ==>
         processed[i].0 == Strings.NatToString(i) && ProcessValue(env, ex, items[i].1) == Success(processed[i].1)
  }

  /** The error raised is that of the first item that fails. */
  ghost predicate FirstFailure(env: Env, ex: Expectations, items: PhpArray<Value>, e: Error)
  {
    exists i :: 0 <= i < |items| && ProcessValue(env, ex, items[i].1) == Failure(e)
      && forall j :: 0 <= j < i ==> ProcessValue(env, ex, items[j].1).Success?
  }

  class DtoPropertyValueProcessor {
    const property: DtoProperty
    const expectedConverter: Option<string>
    const expectedPrimitive: Option<string>

    constructor(property: DtoProperty, expectedConverter: Option<string>, expectedPrimitive: Option<string>)
      ensures this.property == property
      ensures this.expectedConverter == expectedConverter && this.expectedPrimitive == expectedPrimitive
    {
      this.property := property;
      this.expectedConverter := expectedConverter;
      this.expectedPrimitive := expectedPrimitive;
    }

    function Expected(): Expectations
      reads property, property.types
    {
      Expectations(expectedConverter, property.types.expectedDto, expectedPrimitive, property.flags)
    }

    /** `processCollection`: a list of the processed items, in order. */
    method ProcessCollection(env: Env, collection: Value) returns (r: Result<PhpArray<Value>>)
      requires IsIterable(collection)
      ensures r.Success? ==> ProcessedList(env, Expected(), Items(collection), r.value) && DistinctKeys(r.value)
      ensures r.Failure? ==> FirstFailure(env, Expected(), Items(collection), r.error)
    {
      var items := Items(collection);
      var processed: PhpArray<Value> := [];
      var i := 0;
      while i < |items|
        invariant 0 <= i <= |items|
        invariant ProcessedList(env, Expected(), items[..i], processed)
        invariant DistinctKeys(processed)
      {
        var v := ProcessValue(env, Expected(), items[i].1);
        if v.Failure? {
          assert ProcessValue(env, Expected(), items[i].1) == Failure(v.error);
          assert forall j :: 0 <= j < i ==> ProcessValue(env, Expected(), items[j].1).Success? by {
            forall j | 0 <= j < i ensures ProcessValue(env, Expected(), items[j].1).Success? {
              assert items[..i][j] == items[j];
            }
          }
          return Failure(v.error);
        }
        forall j | 0 <= j < |processed| ensures processed[j].0 != Strings.NatToString(|processed|) {
          if processed[j].0 == Strings.NatToString(|processed|) {
            Strings.NatToStringInjective(j, |processed|);
          }
        }
        processed := processed + [(Strings.NatToString(|processed|), v.value)];
        i := i + 1;
        assert items[..i] == items[..i - 1] + [items[i - 1]];
      }
      assert items[..i] == items;
      r := Success(processed);
    }

    /** `process`: null stays null; a collection is processed item by item, anything else as one value. */
    method Process(env: Env) returns (r: Result<Value>)
      ensures property.rawValue == Null ==> r == Success(Null)
      ensures property.rawValue != Null && !property.types.expectCollection ==> r == ProcessValue(env, Expected(), property.rawValue)
      ensures property.rawValue != Null && property.types.expectCollection && !IsIterable(property.rawValue) ==> r.Failure? && r.error.TypeError?
      ensures property.rawValue != Null && property.types.expectCollection && IsIterable(property.rawValue) ==>
        (r.Success? ==> r.value.Arr? && ProcessedList(env, Expected(), Items(property.rawValue), r.value.entries))
        && (r.Failure? ==> FirstFailure(env, Expected(), Items(property.rawValue), r.error))
    {
      var raw := property.rawValue;
      if raw == Null {
        return Success(Null);
      }
      if property.types.expectCollection {
        if !IsIterable(raw) {
          return Failure(TypeError("processCollection(): Argument #1 ($collection) must be of type iterable"));
        }
        var items := ProcessCollection(env, raw);
        if items.Failure? {
          return Failure(items.error);
        }
        return Success(Arr(items.value));
      }
      r := ProcessValue(env, Expected(), raw);
    }
  }
}
