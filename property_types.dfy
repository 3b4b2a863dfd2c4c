/**
 * The union of types declared for one DTO property (DtoPropertyTypes.php),
 * with the facts the rest of the library asks of it, accumulated as each
 * type is added.
 */
module PropertyTypes {
  import opened Wrappers
  import opened PhpArrays
  import opened Values
  import opened DtoFlags
  import opened PropertyType

  /** A type as it was when added to the union. */
  datatype AtomInfo = AtomInfo(name: string, isCollection: bool, isDto: bool)

  /** The facts `addType` accumulates. */
  datatype Summary = Summary(
    includeNull: bool,
    includeArray: bool,
    includeBool: bool,
    expectCollection: bool,
    expectedDto: Option<string>,
    declaredNames: seq<string>)

  const EmptySummary := Summary(false, false, false, false, None, [])

  /** PHP truthiness of a string. */
  predicate Truthy(s: string)
  {
    s != "" && s != "0"
  }

  /** The declared spelling of a type: its name, with `[]` for a collection. */
  function DeclaredName(a: AtomInfo): string
  {
    a.name + (if a.isCollection then "[]" else "")
  }

  /** The accumulation step of `addType`. */
  function Add(s: Summary, a: AtomInfo): Summary
  {
    Summary(
      s.includeNull || a.name == "null",
      s.includeArray || a.name == "array",
      s.includeBool || a.name == "bool",
      s.expectCollection || a.isCollection,
      if s.expectedDto.Some? && Truthy(s.expectedDto.value) then s.expectedDto
      else if a.isDto then Some(a.name) else None,
      s.declaredNames + [DeclaredName(a)])
  }

  function Summarize(atoms: seq<AtomInfo>): Summary
  {
    if atoms == [] then EmptySummary else Add(Summarize(atoms[..|atoms| - 1]), atoms[|atoms| - 1])
  }

  predicate Names(atoms: seq<AtomInfo>, name: string)
  {
    exists i :: 0 <= i < |atoms| && atoms[i].name == name
  }

  /** The first DTO type declared, if any. */
  function FirstDto(atoms: seq<AtomInfo>): Option<string>
  {
    if atoms == [] then None else if atoms[0].isDto then Some(atoms[0].name) else FirstDto(atoms[1..])
  }

  lemma {:induction false} FirstDtoSnoc(atoms: seq<AtomInfo>, a: AtomInfo)
    ensures FirstDto(atoms + [a]) == if FirstDto(atoms).Some? then FirstDto(atoms) else if a.isDto then Some(a.name) else None
  {
    if atoms != [] {
      assert (atoms + [a])[1..] == atoms[1..] + [a];
      FirstDtoSnoc(atoms[1..], a);
    }
  }

  lemma NamesSnoc(init: seq<AtomInfo>, last: AtomInfo, name: string)
    ensures Names(init + [last], name) <==> Names(init, name) || last.name == name
  {
    var atoms := init + [last];
    if Names(atoms, name) {
      var i :| 0 <= i < |atoms| && atoms[i].name == name;
      if i < |init| { assert init[i].name == name; }
    }
    if Names(init, name) {
      var i :| 0 <= i < |init| && init[i].name == name;
      assert atoms[i].name == name;
    }
    if last.name == name {
      assert atoms[|init|].name == name;
    }
  }

  predicate HasCollection(atoms: seq<AtomInfo>)
  {
    exists i :: 0 <= i < |atoms| && atoms[i].isCollection
  }

  /** The union records whether it names null, array or bool, and whether any type is a collection. */
  lemma {:induction false} SummarizeIncludes(atoms: seq<AtomInfo>)
    ensures Summarize(atoms).includeNull <==> Names(atoms, "null")
    ensures Summarize(atoms).includeArray <==> Names(atoms, "array")
    ensures Summarize(atoms).includeBool <==> Names(atoms, "bool")
    ensures Summarize(atoms).expectCollection <==> HasCollection(atoms)
  {
    if atoms != [] {
      var init := atoms[..|atoms| - 1];
      var last := atoms[|atoms| - 1];
      SummarizeIncludes(init);
      assert atoms == init + [last];
      NamesSnoc(init, last, "null");
      NamesSnoc(init, last, "array");
      NamesSnoc(init, last, "bool");
      assert HasCollection(atoms) <==> HasCollection(init) || last.isCollection by {
        if HasCollection(atoms) {
          var i :| 0 <= i < |atoms| && atoms[i].isCollection;
          if i < |init| { assert init[i].isCollection; }
        }
        if HasCollection(init) {
          var i :| 0 <= i < |init| && init[i].isCollection;
          assert atoms[i].isCollection;
        }
      }
    }
  }

  /** The declared spelling of every type, in order. */
  lemma {:induction false} SummarizeDeclaredNames(atoms: seq<AtomInfo>)
    ensures |Summarize(atoms).declaredNames| == |atoms|
    ensures forall i :: 0 <= i < |atoms| ==> Summarize(atoms).declaredNames[i] == DeclaredName(atoms[i])
  {
    if atoms != [] {
      SummarizeDeclaredNames(atoms[..|atoms| - 1]);
    }
  }

  /** The expected DTO is the first DTO type declared (DTO class names are never "" or "0"). */
  lemma {:induction false} SummarizeExpectedDto(atoms: seq<AtomInfo>)
    requires forall i :: 0 <= i < |atoms| && atoms[i].isDto ==> Truthy(atoms[i].name)
    ensures Summarize(atoms).expectedDto == FirstDto(atoms)
  {
    if atoms != [] {
      var init := atoms[..|atoms| - 1];
      var last := atoms[|atoms| - 1];
      SummarizeExpectedDto(init);
      assert atoms == init + [last];
      FirstDtoSnoc(init, last);
      FirstDtoIsDeclared(init);
    }
  }

  lemma {:induction false} FirstDtoIsDeclared(atoms: seq<AtomInfo>)
    ensures FirstDto(atoms).Some? ==> exists i :: 0 <= i < |atoms| && atoms[i].isDto && atoms[i].name == FirstDto(atoms).value
  {
    if atoms != [] && !atoms[0].isDto {
      FirstDtoIsDeclared(atoms[1..]);
      if FirstDto(atoms).Some? {
        var i :| 0 <= i < |atoms[1..]| && atoms[1..][i].isDto && atoms[1..][i].name == FirstDto(atoms).value;
        assert atoms[i + 1].isDto;
      }
    }
  }

  /** Whether any declared type accepts the value. */
  predicate UnionAccepts(env: Env, atoms: seq<AtomInfo>, v: Value)
  {
    exists i :: 0 <= i < |atoms| && Accepts(env, atoms[i].name, atoms[i].isCollection, v)
  }

  /** `haveDefaultValue`. */
  predicate HasDefault(s: Summary, flags: Flags)
  {
    ((s.includeArray || s.expectCollection) && IsSet(flags, ARRAY_DEFAULT_TO_EMPTY_ARRAY))
    || (s.includeBool && IsSet(flags, BOOL_DEFAULT_TO_FALSE))
    || (s.includeNull && IsSet(flags, NULLABLE_DEFAULT_TO_NULL))
  }

  /** `getDefaultValue`: an empty array, then false, otherwise null. */
  function DefaultOf(s: Summary, flags: Flags): Value
  {
    if (s.includeArray || s.expectCollection) && IsSet(flags, ARRAY_DEFAULT_TO_EMPTY_ARRAY) then Arr([])
    else if s.includeBool && IsSet(flags, BOOL_DEFAULT_TO_FALSE) then Bool(false)
    else Null
  }

  /**
   * A default value is one the union accepts, except the null default, which
   * the union's `null` type stands for. A `bool[]` type is left out: it
   * also enables the false default, which it does not accept itself.
   */
  lemma DefaultIsAccepted(env: Env, atoms: seq<AtomInfo>, flags: Flags)
    requires forall i :: 0 <= i < |atoms| && atoms[i].name == "bool" ==> !atoms[i].isCollection
    requires HasDefault(Summarize(atoms), flags)
    ensures UnionAccepts(env, atoms, DefaultOf(Summarize(atoms), flags))
      || (DefaultOf(Summarize(atoms), flags) == Null && Summarize(atoms).includeNull)
  {
    var s := Summarize(atoms);
    SummarizeIncludes(atoms);
    if (s.includeArray || s.expectCollection) && IsSet(flags, ARRAY_DEFAULT_TO_EMPTY_ARRAY) {
      ArrayDefaultAccepted(env, atoms);
    } else if s.includeBool && IsSet(flags, BOOL_DEFAULT_TO_FALSE) {
      BoolDefaultAccepted(env, atoms);
    }
  }

  lemma BoolDefaultAccepted(env: Env, atoms: seq<AtomInfo>)
    requires forall i :: 0 <= i < |atoms| && atoms[i].name == "bool" ==> !atoms[i].isCollection
    requires Names(atoms, "bool")
    ensures UnionAccepts(env, atoms, Bool(false))
  {
    var i :| 0 <= i < |atoms| && atoms[i].name == "bool";
    assert Accepts(env, atoms[i].name, atoms[i].isCollection, Bool(false));
  }

  lemma ArrayDefaultAccepted(env: Env, atoms: seq<AtomInfo>)
    requires Names(atoms, "array") || HasCollection(atoms)
    ensures UnionAccepts(env, atoms, Arr([]))
  {
    if Names(atoms, "array") {
      var i :| 0 <= i < |atoms| && atoms[i].name == "array";
      assert Accepts(env, atoms[i].name, atoms[i].isCollection, Arr([])) by {
        if atoms[i].isCollection { assert ItemsMatch(env, atoms[i].name, Items(Arr([]))); }
      }
    } else {
      var i :| 0 <= i < |atoms| && atoms[i].isCollection;
      assert Accepts(env, atoms[i].name, atoms[i].isCollection, Arr([]));
    }
  }

  /** A lone `bool[]` type with BOOL_DEFAULT_TO_FALSE: the default is false, which the type rejects. */
  lemma BoolCollectionDefaultRejected(env: Env)
    ensures var atoms := [AtomInfo("bool", true, false)];
      HasDefault(Summarize(atoms), BOOL_DEFAULT_TO_FALSE)
      && DefaultOf(Summarize(atoms), BOOL_DEFAULT_TO_FALSE) == Bool(false)
      && !UnionAccepts(env, atoms, Bool(false))
  {
  }

  class DtoPropertyTypes {
    var all: seq<DtoPropertyType>
    var includeNull: bool
    var includeArray: bool
    var includeBool: bool
    var expectCollection: bool
    var expectedDto: Option<string>
    var declaredNames: seq<string>
    /** The types as they were when added. */
    ghost var Atoms: seq<AtomInfo>

    function Facts(): Summary
      reads this
    {
      Summary(includeNull, includeArray, includeBool, expectCollection, expectedDto, declaredNames)
    }

    ghost predicate Valid()
      reads this, all
    {
      |all| == |Atoms|
      && (forall i :: 0 <= i < |all| ==> all[i].name == Atoms[i].name && all[i].isCollection == Atoms[i].isCollection)
      && Facts() == Summarize(Atoms)
    }

    constructor()
      ensures Valid() && all == [] && Atoms == []
    {
      all := [];
      includeNull, includeArray, includeBool, expectCollection := false, false, false, false;
      expectedDto := None;
      declaredNames := [];
      Atoms := [];
    }

    /** `addType`: appends the type and folds its facts into the union's. */
    method AddType(env: Env, t: DtoPropertyType)
      requires Valid()
      modifies this
      ensures Valid()
      ensures all == old(all) + [t]
      ensures Atoms == old(Atoms) + [AtomInfo(t.name, t.isCollection, t.IsDto(env))]
      ensures Facts() == Add(old(Facts()), AtomInfo(t.name, t.isCollection, t.IsDto(env)))
    {
      var a := AtomInfo(t.name, t.isCollection, t.IsDto(env));
      var s := Add(Facts(), a);
      all := all + [t];
      includeNull, includeArray, includeBool, expectCollection := s.includeNull, s.includeArray, s.includeBool, s.expectCollection;
      expectedDto := s.expectedDto;
      declaredNames := s.declaredNames;
      Atoms := Atoms + [a];
      assert Atoms[..|Atoms| - 1] == old(Atoms);
    }

    /** `match`: whether at least one of the types accepts the value. */
    method Match(env: Env, v: Value) returns (r: bool)
      requires Valid()
      ensures r == UnionAccepts(env, Atoms, v)
    {
      var i := 0;
      while i < |all|
        invariant 0 <= i <= |all|
        invariant forall j :: 0 <= j < i ==> !Accepts(env, Atoms[j].name, Atoms[j].isCollection, v)
      {
        var m := all[i].MatchesStable(env, v);
        if m {
          return true;
        }
        i := i + 1;
      }
      r := false;
    }

    /**
     * `match` as written: each type is asked through its own `matches`, so a
     * collection type that is handed an iterable and rejects it is left as a
     * non-collection, up to the first type that accepts. The type objects are
     * distinct, as parseTypes always creates one per part.
     */
    method MatchAsWritten(env: Env, v: Value) returns (r: bool)
      requires forall i, j :: 0 <= i < j < |all| ==> all[i] != all[j]
      modifies set i | 0 <= i < |all| :: all[i]
      ensures r <==> exists i :: 0 <= i < |all| && Accepts(env, all[i].name, old(all[i].isCollection), v)
      ensures forall i :: 0 <= i < |all| ==>
        all[i].isCollection == (old(all[i].isCollection) &&
          (!IsIterable(v) || exists j :: 0 <= j <= i && Accepts(env, all[j].name, old(all[j].isCollection), v)))
    {
      var i := 0;
      while i < |all|
        invariant 0 <= i <= |all|
        invariant forall j :: 0 <= j < i ==> !Accepts(env, all[j].name, old(all[j].isCollection), v)
        invariant forall j :: 0 <= j < i ==> all[j].isCollection == (old(all[j].isCollection) && !IsIterable(v))
        invariant forall j :: i <= j < |all| ==> all[j].isCollection == old(all[j].isCollection)
      {
        var m := all[i].Matches(env, v);
        if m {
          return true;
        }
        i := i + 1;
      }
      r := false;
    }

    predicate HaveDefaultValue(flags: Flags)
      reads this
    {
      HasDefault(Facts(), flags)
    }

    function GetDefaultValue(flags: Flags): Value
      reads this
    {
      DefaultOf(Facts(), flags)
    }

    /** `clone`: a new union sharing the same type objects. */
    method Clone() returns (c: DtoPropertyTypes)
      requires Valid()
      ensures fresh(c) && c.Valid()
      ensures c.all == all && c.Atoms == Atoms && c.Facts() == Facts()
    {
      c := new DtoPropertyTypes();
      c.all := all;
      c.includeNull, c.includeArray, c.includeBool, c.expectCollection := includeNull, includeArray, includeBool, expectCollection;
      c.expectedDto := expectedDto;
      c.declaredNames := declaredNames;
      c.Atoms := Atoms;
    }
  }

  /** A union holding one fresh `string[]` type, as parseTypes builds it for `@property string[] $tags`. */
  method StringCollectionUnion(env: Env) returns (u: DtoPropertyTypes, t: DtoPropertyType)
    ensures fresh(u) && fresh(t) && u.all == [t] && t.name == "string" && t.isCollection
  {
    t := new DtoPropertyType("string", true);
    u := new DtoPropertyTypes();
    u.AddType(env, t);
  }

  /**
   * Through the union, as written: a `string[]` property whose value `['a', 1]`
   * was rejected goes on to accept the plain string 'x'.
   */
  method UnionAfterFailedMatch(env: Env) returns (first: bool, second: bool)
    ensures !first && second
  {
    var u, t := StringCollectionUnion(env);
    var rejected := Arr([("0", Str("a")), ("1", Int(1))]);
    StringSampleAnswers(env, rejected);
    first := u.MatchAsWritten(env, rejected);
    assert u.all[0] == t && !Accepts(env, u.all[0].name, true, rejected);
    assert !t.isCollection;
    second := u.MatchAsWritten(env, Str("x"));
  }

  lemma StringSampleAnswers(env: Env, rejected: Value)
    requires rejected == Arr([("0", Str("a")), ("1", Int(1))])
    ensures IsIterable(rejected) && !Accepts(env, "string", true, rejected)
    ensures Accepts(env, "string", false, Str("x"))
  {
    assert !ScalarMatches(env, "string", rejected.entries[1].1);
  }
}
