/**
 * The message of UnexpectedValueException, raised when a property's value
 * does not match its declared types.
 */
module UnexpectedValue {
  import opened Values
  import Strings

  /** The value as the message shows it: null, array, the class of an object, or the scalar's text. */
  function ShownValue(v: Value): string
  {
    match v
    case Null => "null"
    case Arr(_) => "array"
    case Obj(c, _, _, _) => c
    case _ => ScalarText(v)
  }

  /** How the message names the declared types: one type, or the list of them. */
  function TypesText(declaredNames: seq<string>): string
  {
    var typeNames := Strings.Join(declaredNames, "', '");
    if |declaredNames| == 1 then "of type '" + typeNames + "'" else "one of these types: '" + typeNames + "'"
  }

  lemma PrefixOfConcat(a: string, b: string)
    ensures Strings.StartsWith(a + b, a)
  {
    assert (a + b)[..|a|] == a;
  }

  /** The message naming the property, its declared types and the offending raw value with its PHP type. */
  function Message(name: string, declaredNames: seq<string>, raw: Value): (m: string)
    ensures Strings.StartsWith(m, "Invalid type: expected '" + name + "' to be " + TypesText(declaredNames))
  {
    var head := "Invalid type: expected '" + name + "' to be " + TypesText(declaredNames);
    var tail := ". Got `" + ShownValue(raw) + "` (" + GetType(raw) + ") instead";
    PrefixOfConcat(head, tail);
    head + tail
  }

  /** A single declared type is named on its own; several are listed. */
  lemma TypesTextCases(declaredNames: seq<string>)
    ensures |declaredNames| == 1 ==> TypesText(declaredNames) == "of type '" + declaredNames[0] + "'"
    ensures |declaredNames| == 2 ==> TypesText(declaredNames) == "one of these types: '" + declaredNames[0] + "', '" + declaredNames[1] + "'"
  {
    if |declaredNames| == 2 {
      assert Strings.Join(declaredNames[1..], "', '") == declaredNames[1];
      assert Strings.Join(declaredNames, "', '") == declaredNames[0] + "', '" + declaredNames[1];
    }
  }
}
