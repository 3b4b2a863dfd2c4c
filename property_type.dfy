/**
 * One declared type of a DTO property (DtoPropertyType.php): a type name,
 * possibly suffixed with `[]` to mean "a collection of that type".
 */
module PropertyType {
  import opened PhpArrays
  import opened Values

  /** Doc-comment spellings whose `gettype` name differs. */
  const TypesMap: map<string, string> := map["int" := "integer", "bool" := "boolean", "float" := "double"]

  /** `TYPES_MAP[$name] ?? $name`. */
  function GettypeName(name: string): string
  {
    if name in TypesMap then TypesMap[name] else name
  }

  /** What a single (non-collection) type accepts: anything for `mixed`, instances, or values of that primitive type. */
  predicate ScalarMatches(env: Env, name: string, v: Value)
  {
    name == "mixed" || IsA(env, v, name) || GetType(v) == GettypeName(name)
  }

  predicate ItemsMatch(env: Env, name: string, items: PhpArray<Value>)
  {
    forall i :: 0 <= i < |items| ==> ScalarMatches(env, name, items[i].1)
  }

  /** What a type declared as `name`, or as `name[]` when `isCollection`, accepts. */
  predicate Accepts(env: Env, name: string, isCollection: bool, v: Value)
  {
    if isCollection then IsIterable(v) && ItemsMatch(env, name, Items(v)) else ScalarMatches(env, name, v)
  }

  class DtoPropertyType {
    const name: string
    var isCollection: bool

    constructor(name: string, isCollection: bool)
      ensures this.name == name && this.isCollection == isCollection
    {
      this.name := name;
      this.isCollection := isCollection;
    }

    /** `isDto`: whether the type names a subclass of the DTO base class. */
    predicate IsDto(env: Env)
    {
      IsDtoClass(env, name)
    }

    /**
     * `matches` as written: a collection type delegates to MatchesCollection,
     * which switches the type to non-collection while it checks the items and
     * switches it back only when every item matched.
     */
    method Matches(env: Env, v: Value) returns (r: bool)
      modifies this
      decreases if isCollection then 2 else 0
      ensures r == Accepts(env, name, old(isCollection), v)
      ensures isCollection == if old(isCollection) && IsIterable(v) then r else old(isCollection)
    {
      if isCollection {
        r := MatchesCollection(env, v);
        return;
      }
      r := name == "mixed" || IsA(env, v, name) || GetType(v) == GettypeName(name);
    }

    /** `matchesCollection` as written: after an item fails, the type is left as a non-collection. */
    method MatchesCollection(env: Env, v: Value) returns (r: bool)
      modifies this
      decreases 1
      ensures !IsIterable(v) ==> !r && isCollection == old(isCollection)
      ensures IsIterable(v) ==> r == ItemsMatch(env, name, Items(v)) && isCollection == r
    {
      if !IsIterable(v) {
        return false;
      }
      isCollection := false;
      var items := Items(v);
      var i := 0;
      while i < |items|
        invariant 0 <= i <= |items|
        invariant !isCollection
        invariant forall j :: 0 <= j < i ==> ScalarMatches(env, name, items[j].1)
      {
        var m := Matches(env, items[i].1);
        if !m {
          return false;
        }
        i := i + 1;
      }
      isCollection := true;
      r := true;
    }

    /** The match the rest of the library relies on: same answer as Matches, and the type is left as declared. */
    method MatchesStable(env: Env, v: Value) returns (r: bool)
      ensures r == Accepts(env, name, isCollection, v)
    {
      if !isCollection {
        return name == "mixed" || IsA(env, v, name) || GetType(v) == GettypeName(name);
      }
      if !IsIterable(v) {
        return false;
      }
      var items := Items(v);
      var i := 0;
      while i < |items|
        invariant 0 <= i <= |items|
        invariant forall j :: 0 <= j < i ==> ScalarMatches(env, name, items[j].1)
      {
        if !ScalarMatches(env, name, items[i].1) {
          return false;
        }
        i := i + 1;
      }
      r := true;
    }
  }

  /**
   * A `string[]` type that has rejected `['a', 1]` goes on to accept the plain
   * string 'x', which its declaration excludes.
   */
  method CollectionTypeAfterFailedMatch(env: Env) returns (first: bool, second: bool, declaredAccepts: bool)
    ensures !first && second && !declaredAccepts
  {
    var t := new DtoPropertyType("string", true);
    var rejected := Arr([("0", Str("a")), ("1", Int(1))]);
    assert !ScalarMatches(env, "string", rejected.entries[1].1);
    first := t.Matches(env, rejected);
    second := t.Matches(env, Str("x"));
    declaredAccepts := Accepts(env, "string", true, Str("x"));
  }

  /** The same two values given to MatchesStable: the plain string stays rejected. */
  method CollectionTypeStableMatch(env: Env) returns (first: bool, second: bool)
    ensures !first && !second
  {
    var t := new DtoPropertyType("string", true);
    var rejected := Arr([("0", Str("a")), ("1", Int(1))]);
    assert !ScalarMatches(env, "string", rejected.entries[1].1);
    first := t.MatchesStable(env, rejected);
    second := t.MatchesStable(env, Str("x"));
  }

  /** Examples from DtoPropertyTypeTest. */
  lemma AcceptsExamples(env: Env)
    ensures Accepts(env, "int", false, Int(1)) && !Accepts(env, "int", false, Str("1"))
    ensures Accepts(env, "bool", false, Bool(false)) && Accepts(env, "float", false, Float("1.5"))
    ensures Accepts(env, "mixed", false, Null) && Accepts(env, "array", false, Arr([]))
    ensures Accepts(env, "int", true, Arr([("0", Int(1)), ("1", Int(2))]))
    ensures !Accepts(env, "int", true, Arr([("0", Int(1)), ("1", Str("2"))]))
    ensures !Accepts(env, "int", true, Int(1))
  {
    assert !ScalarMatches(env, "int", Arr([("0", Int(1)), ("1", Str("2"))]).entries[1].1);
  }
}
