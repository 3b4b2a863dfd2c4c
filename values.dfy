/**
 * PHP values as the library sees them, and the parts of the PHP runtime the
 * library calls into but does not define (class hierarchy, nested DTO
 * construction, converters, listeners), gathered in one `Env` value.
 */
module Values {
  import opened Wrappers
  import opened PhpArrays
  import Strings
  import opened DtoFlags

  /**
   * A PHP value. A float is kept only as the text PHP prints for it.
   * `fields` means something only when `isDto` holds: it then holds the
   * processed values of the DTO's properties, which is what reading nested
   * properties of it sees. PHP iterates a DTO through `getIterator()`, that
   * is over its `toArray()`; the model iterates `fields` instead (see Items).
   */
  datatype Value =
    | Null
    | Bool(b: bool)
    | Int(i: int)
    | Float(text: string)
    | Str(s: string)
    | Arr(entries: PhpArray<Value>)
    | Obj(cls: string, id: nat, isDto: bool, fields: PhpArray<Value>)

  /** The fully qualified name of the DTO base class. */
  const DtoBaseClass: string := "Cerbero\\Dto\\Dto"

  /** The foreign behaviour the library depends on, as given total functions. */
  datatype Env = Env(
    /** `is_subclass_of($class, $parent)`, interfaces included. */
    subclassOf: (string, string) -> bool,
    /** `class_exists($class)`. */
    classExists: (string) -> bool,
    /** `$dtoClass::make($data, $flags)` for a nested DTO class. */
    make: (string, Value, Flags) -> Result<Value>,
    /** `settype($value, $type)`. */
    settype: (Value, string) -> Value,
    /** `toDto` of a value converter class. */
    toDto: (string, Value) -> Value,
    /** `fromDto` of a value converter class. */
    fromDto: (string, Value) -> Value,
    /** Calling a callback registered with the legacy array converter. */
    callback: (nat, Value) -> Value,
    /** `method_exists($listenerClass, $method)`. */
    methodExists: (string, string) -> bool,
    /** Calling `$method` of an instance of a listener class. */
    callListener: (string, string, Value) -> Value,
    /** `getFlagsWithoutDefaults()` of a DTO. */
    withoutDefaults: (Flags) -> Flags,
    /** `unset($path)` called on a nested DTO object. */
    nestedUnset: (Value, string) -> Result<Value>
  )

  /** `gettype($v)`. */
  function GetType(v: Value): (t: string)
    ensures t in {"NULL", "boolean", "integer", "double", "string", "array", "object"}
  {
    match v
    case Null => "NULL"
    case Bool(_) => "boolean"
    case Int(_) => "integer"
    case Float(_) => "double"
    case Str(_) => "string"
    case Arr(_) => "array"
    case Obj(_, _, _, _) => "object"
  }

  /**
   * `is_iterable($v)` for the values the model has: arrays and DTOs (which are
   * iterator aggregates). Other `Traversable` objects are not modelled: every
   * object that is not a DTO counts as not iterable.
   */
  predicate IsIterable(v: Value)
  {
    v.Arr? || (v.Obj? && v.isDto)
  }

  predicate IsDtoInstance(v: Value)
  {
    v.Obj? && v.isDto
  }

  /**
   * What the model visits for `foreach ($v as $key => $item)`: an array's
   * entries, or a DTO's processed property values. PHP visits a DTO's
   * `toArray()` instead, where a nested DTO is already an array.
   */
  function Items(v: Value): PhpArray<Value>
    requires IsIterable(v)
  {
    if v.Arr? then v.entries else v.fields
  }

  /** `is_a($v, $class)`: only objects are instances of a class. */
  predicate IsA(env: Env, v: Value, className: string)
  {
    v.Obj? && (v.cls == className || env.subclassOf(v.cls, className))
  }

  /** `is_subclass_of($class, Dto::class)`. */
  predicate IsDtoClass(env: Env, className: string)
  {
    env.subclassOf(className, DtoBaseClass)
  }

  /** The text string interpolation gives a scalar. */
  function ScalarText(v: Value): string
  {
    match v
    case Null => ""
    case Bool(b) => if b then "1" else ""
    case Int(i) => Strings.IntToString(i)
    case Float(t) => t
    case Str(s) => s
    case Arr(_) => "Array"
    case Obj(c, _, _, _) => c
  }
}
