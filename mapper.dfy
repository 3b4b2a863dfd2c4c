/**
 * `DtoPropertiesMapper`: turns the `@property` tags of a DTO class into
 * property type unions and maps input data onto validated properties.
 * Reflection and the reading of the class file are outside the model: what
 * they yield for a class is given as a `ClassSource`.
 */
module PropertiesMapper {
  import opened Wrappers
  import opened PhpArrays
  import opened Strings
  import opened DtoFlags
  import opened Values
  import opened PropertyType
  import opened PropertyTypes
  import opened Property

  /**
   * What reflection and the class file yield for a DTO class: its namespace,
   * the `(types, name)` pair of every `@property` tag (None when the class has
   * no doc comment) and the `(class, alias)` pair of every `use` clause.
   */
  datatype ClassSource = ClassSource(
    namespace: string,
    propertyTags: Option<seq<(string, string)>>,
    useClauses: seq<(string, Option<string>)>)

  /** `cacheRawProperties`: tag names keyed to their raw types; a repeated name keeps its first position and its last types. */
  function RawProperties(tags: seq<(string, string)>): (r: PhpArray<string>)
    ensures DistinctKeys(r)
    ensures forall x :: x in Keys(r) <==> exists i :: 0 <= i < |tags| && tags[i].1 == x
  {
    if tags == [] then []
    else
      var init := RawProperties(tags[..|tags| - 1]);
      var last := tags[|tags| - 1];
      assert forall i :: 0 <= i < |tags| - 1 ==> tags[..|tags| - 1][i] == tags[i];
      PutDistinct(init, last.1, last.0);
      PutKeysAfter(init, last.1, last.0);
      Put(init, last.1, last.0)
  }

  /** The name a `use` clause binds: its alias, or else the last segment of the class name. */
  function UseName(clause: (string, Option<string>)): (name: string)
    ensures clause.1.None? ==> '\\' !in name
    ensures clause.1.Some? ==> name == clause.1.value
  {
    match clause.1
    case Some(alias) => alias
    case None =>
      var segments := Explode(clause.0, '\\');
      segments[|segments| - 1]
  }

  /** `cacheUseStatements`: bound names keyed to fully qualified classes. */
  function UseStatements(clauses: seq<(string, Option<string>)>): PhpArray<string>
  {
    if clauses == [] then []
    else
      var last := clauses[|clauses| - 1];
      Put(UseStatements(clauses[..|clauses| - 1]), UseName(last), last.0)
  }

  /** The names the clauses bind, in order. */
  function BoundNames(clauses: seq<(string, Option<string>)>): (names: seq<string>)
    ensures |names| == |clauses| && forall i :: 0 <= i < |clauses| ==> names[i] == UseName(clauses[i])
  {
    seq(|clauses|, i requires 0 <= i < |clauses| => UseName(clauses[i]))
  }

  /** Exactly the names the clauses bind are keys. */
  lemma {:induction false} UseStatementsBind(clauses: seq<(string, Option<string>)>)
    ensures forall x :: x in Keys(UseStatements(clauses)) <==> x in BoundNames(clauses)
  {
    if clauses != [] {
      var prefix := clauses[..|clauses| - 1];
      var last := clauses[|clauses| - 1];
      UseStatementsBind(prefix);
      PutKeysAfter(UseStatements(prefix), UseName(last), last.0);
      assert BoundNames(clauses) == BoundNames(prefix) + [UseName(last)];
    }
  }

  /** Of two clauses binding the same name, the later one wins. */
  lemma LaterUseClauseWins(clauses: seq<(string, Option<string>)>, clause: (string, Option<string>))
    ensures Get(UseStatements(clauses + [clause]), UseName(clause)) == Some(clause.0)
  {
    assert (clauses + [clause])[..|clauses + [clause]| - 1] == clauses;
    PutGet(UseStatements(clauses), UseName(clause), clause.0, UseName(clause));
  }

  /** The class one alternative of a `@property` type names, in `parseTypes`' order of preference. */
  function ResolveName(env: Env, uses: PhpArray<string>, namespace: string, rawType: string): string
  {
    var bare := RemoveBrackets(rawType).0;
    if StartsWith(rawType, "\\") && env.classExists(bare) then
      if |bare| >= 1 then bare[1..] else ""
    else if Get(uses, bare).Some? then Get(uses, bare).value
    else if env.classExists(namespace + "\\" + bare) then namespace + "\\" + bare
    else bare
  }

  /** A name written with a leading backslash that names an existing class loses the backslash and nothing else. */
  lemma FullyQualifiedName(env: Env, uses: PhpArray<string>, namespace: string, rawType: string)
    requires !ContainsBrackets(rawType) && StartsWith(rawType, "\\") && env.classExists(rawType)
    ensures "\\" + ResolveName(env, uses, namespace, rawType) == rawType
  {
    assert rawType == rawType[..1] + rawType[1..];
  }

  /** An imported name shadows a class of the same name in the DTO's namespace. */
  lemma ImportShadowsNamespace(env: Env, uses: PhpArray<string>, namespace: string, rawType: string)
    requires !StartsWith(rawType, "\\")
    requires Get(uses, RemoveBrackets(rawType).0).Some?
    ensures ResolveName(env, uses, namespace, rawType) == Get(uses, RemoveBrackets(rawType).0).value
  {
  }

  /** A name neither imported nor found in the namespace is kept as written, without its brackets. */
  lemma UnresolvedNameKept(env: Env, uses: PhpArray<string>, namespace: string, rawType: string)
    requires !StartsWith(rawType, "\\")
    requires Get(uses, RemoveBrackets(rawType).0).None?
    requires !env.classExists(namespace + "\\" + RemoveBrackets(rawType).0)
    ensures ResolveName(env, uses, namespace, rawType) == RemoveBrackets(rawType).0
  {
  }

  /** The type one alternative of a `@property` type stands for. */
  function ParseAtom(env: Env, uses: PhpArray<string>, namespace: string, rawType: string): AtomInfo
  {
    var name := ResolveName(env, uses, namespace, rawType);
    AtomInfo(name, RemoveBrackets(rawType).1 > 0, IsDtoClass(env, name))
  }

  /** An alternative is a collection exactly when it contains "[]". */
  lemma ParseAtomCollection(env: Env, uses: PhpArray<string>, namespace: string, rawType: string)
    ensures ParseAtom(env, uses, namespace, rawType).isCollection <==> ContainsBrackets(rawType)
  {
  }

  /** The union `parseTypes` builds: one type per `|`-separated alternative, in order. */
  function ParseAtoms(env: Env, uses: PhpArray<string>, namespace: string, rawTypes: string): (r: seq<AtomInfo>)
    ensures |r| == |Explode(rawTypes, '|')|
  {
    var parts := Explode(rawTypes, '|');
    seq(|parts|, i requires 0 <= i < |parts| => ParseAtom(env, uses, namespace, parts[i]))
  }

  /** One step of `parseTypes`' reduction: a new type for one alternative, added to the union. */
  method AddParsed(env: Env, uses: PhpArray<string>, namespace: string, rawType: string, t: DtoPropertyTypes)
    requires t.Valid()
    modifies t
    ensures t.Valid()
    ensures t.Atoms == old(t.Atoms) + [ParseAtom(env, uses, namespace, rawType)]
  {
    var atom := ParseAtom(env, uses, namespace, rawType);
    var a := new DtoPropertyType(atom.name, atom.isCollection);
    t.AddType(env, a);
  }

  /** `parseTypes`: the union of the alternatives, each a new type object. */
  method ParseTypes(env: Env, uses: PhpArray<string>, namespace: string, rawTypes: string) returns (t: DtoPropertyTypes)
    ensures fresh(t) && t.Valid()
    ensures t.Atoms == ParseAtoms(env, uses, namespace, rawTypes)
  {
    var parts := Explode(rawTypes, '|');
    ghost var target := ParseAtoms(env, uses, namespace, rawTypes);
    t := new DtoPropertyTypes();
    var i := 0;
    while i < |parts|
      invariant 0 <= i <= |parts|
      invariant fresh(t) && t.Valid()
      invariant t.Atoms == target[..i]
    {
      AddParsed(env, uses, namespace, parts[i], t);
      assert target[..i + 1] == target[..i] + [target[i]];
      i := i + 1;
    }
    assert target[..i] == target;
  }

  /** A property `map` creates: its name, the raw value it gets and its type union. */
  datatype Mapped = Mapped(name: string, raw: Value, atoms: seq<AtomInfo>)

  /** The names of the first `k` declared properties. */
  function DeclaredNames(props: PhpArray<string>, k: nat): (names: set<string>)
    requires k <= |props|
    ensures forall x :: x in names <==> exists i :: 0 <= i < k && props[i].0 == x
  {
    set i | 0 <= i < k :: props[i].0
  }

  /** How `DtoProperty::create` judges a raw value for a named property with a type union. */
  type Check = (string, Value, seq<AtomInfo>) -> Option<Error>

  /**
   * One turn of the loop of `map`: the declared property `name`, with the
   * union `atoms`, gets the value `present` in the data, or else the union's
   * default; without either it is skipped under PARTIAL, or else missing.
   */
  function Turn(check: Check, dtoClass: string, name: string, atoms: seq<AtomInfo>, flags: Flags,
                present: Option<Value>): Result<Option<Mapped>>
  {
    var raw :=
      if present.Some? then Some(present.value)
      else if HasDefault(Summarize(atoms), flags) then Some(DefaultOf(Summarize(atoms), flags))
      else None;
    if raw.None? then
      if IsSet(flags, PARTIAL) then Success(None) else Failure(MissingValue(dtoClass, name))
    else
      match check(name, raw.value, atoms)
      case Some(e) => Failure(e)
      case None => Success(Some(Mapped(name, raw.value, atoms)))
  }

  /** The properties created once the loop of `map` has visited the first `k` declared properties. */
  function Plan(check: Check, dtoClass: string, props: PhpArray<string>, atomsOf: seq<seq<AtomInfo>>,
                data: PhpArray<Value>, flags: Flags, k: nat): Result<seq<Mapped>>
    requires |atomsOf| == |props| && k <= |props|
  {
    if k == 0 then Success([])
    else
      var done :- Plan(check, dtoClass, props, atomsOf, data, flags, k - 1);
      var m :- Turn(check, dtoClass, props[k - 1].0, atomsOf[k - 1], flags, Get(data, props[k - 1].0));
      Success(if m.Some? then done + [m.value] else done)
  }

  /**
   * What `map` returns: the properties, or the first error; data left over
   * once every declared name is unset is an error unless ignored.
   */
  function MapResult(check: Check, dtoClass: string, props: PhpArray<string>, atomsOf: seq<seq<AtomInfo>>,
                     data: PhpArray<Value>, flags: Flags): Result<seq<Mapped>>
    requires |atomsOf| == |props|
  {
    var done :- Plan(check, dtoClass, props, atomsOf, data, flags, |props|);
    var left := Without(data, DeclaredNames(props, |props|));
    if left != [] && !IsSet(flags, IGNORE_UNKNOWN_PROPERTIES) then Failure(UnknownProperty(dtoClass, left[0].0))
    else Success(done)
  }

  /** Once the loop has failed, it fails with the same error. */
  lemma {:induction false} PlanFailureSticks(check: Check, dtoClass: string, props: PhpArray<string>, atomsOf: seq<seq<AtomInfo>>,
                                             data: PhpArray<Value>, flags: Flags, k: nat, n: nat)
    requires |atomsOf| == |props| && k <= n <= |props|
    requires Plan(check, dtoClass, props, atomsOf, data, flags, k).Failure?
    ensures Plan(check, dtoClass, props, atomsOf, data, flags, n) == Plan(check, dtoClass, props, atomsOf, data, flags, k)
  {
    if n > k {
      PlanFailureSticks(check, dtoClass, props, atomsOf, data, flags, k, n - 1);
    }
  }

  /**
   * Every property created passes the check, and its raw value is the one
   * the data gives or else the union's default.
   */
  lemma {:induction false} PlanValidates(check: Check, dtoClass: string, props: PhpArray<string>, atomsOf: seq<seq<AtomInfo>>,
                                         data: PhpArray<Value>, flags: Flags, k: nat)
    requires |atomsOf| == |props| && k <= |props|
    requires Plan(check, dtoClass, props, atomsOf, data, flags, k).Success?
    ensures var done := Plan(check, dtoClass, props, atomsOf, data, flags, k).value;
      forall j :: 0 <= j < |done| ==>
        && check(done[j].name, done[j].raw, done[j].atoms).None?
        && done[j].raw == match Get(data, done[j].name)
                          case Some(v) => v
                          case None => DefaultOf(Summarize(done[j].atoms), flags)
  {
    if k > 0 {
      PlanValidates(check, dtoClass, props, atomsOf, data, flags, k - 1);
    }
  }

  /** Without PARTIAL, a successful loop creates every declared property, in declaration order. */
  lemma {:induction false} PlanComplete(check: Check, dtoClass: string, props: PhpArray<string>, atomsOf: seq<seq<AtomInfo>>,
                                        data: PhpArray<Value>, flags: Flags, k: nat)
    requires |atomsOf| == |props| && k <= |props|
    requires !IsSet(flags, PARTIAL)
    requires Plan(check, dtoClass, props, atomsOf, data, flags, k).Success?
    ensures var done := Plan(check, dtoClass, props, atomsOf, data, flags, k).value;
      |done| == k && forall j :: 0 <= j < k ==> done[j].name == props[j].0 && done[j].atoms == atomsOf[j]
  {
    if k > 0 {
      PlanComplete(check, dtoClass, props, atomsOf, data, flags, k - 1);
    }
  }

  /** The properties the loop creates are declared ones. */
  lemma {:induction false} PlanNames(check: Check, dtoClass: string, props: PhpArray<string>, atomsOf: seq<seq<AtomInfo>>,
                                     data: PhpArray<Value>, flags: Flags, k: nat)
    requires |atomsOf| == |props| && k <= |props|
    requires Plan(check, dtoClass, props, atomsOf, data, flags, k).Success?
    ensures var done := Plan(check, dtoClass, props, atomsOf, data, flags, k).value;
      forall j :: 0 <= j < |done| ==> done[j].name in DeclaredNames(props, k)
  {
    if k > 0 {
      PlanNames(check, dtoClass, props, atomsOf, data, flags, k - 1);
    }
  }

  /** The properties the loop creates have distinct names, since declared names are distinct. */
  lemma {:induction false} PlanDistinct(check: Check, dtoClass: string, props: PhpArray<string>, atomsOf: seq<seq<AtomInfo>>,
                                        data: PhpArray<Value>, flags: Flags, k: nat)
    requires |atomsOf| == |props| && k <= |props| && DistinctKeys(props)
    requires Plan(check, dtoClass, props, atomsOf, data, flags, k).Success?
    ensures var done := Plan(check, dtoClass, props, atomsOf, data, flags, k).value;
      forall j, m :: 0 <= j < m < |done| ==> done[j].name != done[m].name
  {
    if k > 0 {
      PlanDistinct(check, dtoClass, props, atomsOf, data, flags, k - 1);
      PlanNames(check, dtoClass, props, atomsOf, data, flags, k - 1);
      NotYetDeclared(props, k - 1);
    }
  }

  /** Without IGNORE_UNKNOWN_PROPERTIES, data that `map` accepts has only declared keys. */
  lemma MapRejectsUnknown(check: Check, dtoClass: string, props: PhpArray<string>, atomsOf: seq<seq<AtomInfo>>,
                          data: PhpArray<Value>, flags: Flags)
    requires |atomsOf| == |props|
    requires !IsSet(flags, IGNORE_UNKNOWN_PROPERTIES)
    requires MapResult(check, dtoClass, props, atomsOf, data, flags).Success?
    ensures forall x :: x in Keys(data) ==> x in Keys(props)
  {
    forall x | x in Keys(data) ensures x in Keys(props) {
      assert x !in Keys(Without(data, DeclaredNames(props, |props|)));
      var i :| 0 <= i < |props| && props[i].0 == x;
      assert Keys(props)[i] == x;
    }
  }

  /** Declared names are distinct, so the next one has not been visited yet. */
  lemma NotYetDeclared(props: PhpArray<string>, i: nat)
    requires DistinctKeys(props) && i < |props|
    ensures props[i].0 !in DeclaredNames(props, i)
  {
  }

  /** One turn of the loop of `map`, on values: how the plan grows and what data is left. */
  lemma Advance(check: Check, dtoClass: string, props: PhpArray<string>, atomsOf: seq<seq<AtomInfo>>,
                data: PhpArray<Value>, flags: Flags, i: nat, planned: seq<Mapped>, rest: PhpArray<Value>,
                turn: Result<Option<Mapped>>)
    requires |atomsOf| == |props| && i < |props| && DistinctKeys(props)
    requires Plan(check, dtoClass, props, atomsOf, data, flags, i) == Success(planned)
    requires rest == Without(data, DeclaredNames(props, i))
    requires turn == Turn(check, dtoClass, props[i].0, atomsOf[i], flags, Get(rest, props[i].0))
    ensures Plan(check, dtoClass, props, atomsOf, data, flags, i + 1) ==
      if turn.Failure? then Failure(turn.error)
      else Success(if turn.value.Some? then planned + [turn.value.value] else planned)
    ensures Remove(rest, props[i].0) == Without(data, DeclaredNames(props, i + 1))
  {
    NotYetDeclared(props, i);
    WithoutGet(data, DeclaredNames(props, i), props[i].0);
    Unvisit(data, props, i, rest);
  }

  lemma WithoutNothing<V>(a: PhpArray<V>)
    ensures Without(a, {}) == a
  {
    if a != [] {
      WithoutNothing(a[1..]);
    }
  }

  lemma RemoveAbsent<V>(a: PhpArray<V>, k: string)
    requires k !in Keys(a)
    ensures Remove(a, k) == a
  {
  }

  /** Unsetting a declared name from the data left keeps it equal to the data without the names visited so far. */
  lemma Unvisit<V>(data: PhpArray<V>, props: PhpArray<string>, k: nat, rest: PhpArray<V>)
    requires k < |props| && rest == Without(data, DeclaredNames(props, k))
    ensures Remove(rest, props[k].0) == Without(data, DeclaredNames(props, k + 1))
  {
    assert DeclaredNames(props, k + 1) == DeclaredNames(props, k) + {props[k].0};
    RemoveIsWithout(data, DeclaredNames(props, k), props[k].0);
  }

  lemma {:induction false} WithoutGet<V>(a: PhpArray<V>, drop: set<string>, k: string)
    requires k !in drop
    ensures Get(Without(a, drop), k) == Get(a, k)
  {
    if a != [] {
      WithoutGet(a[1..], drop, k);
      if a[0].0 !in drop {
        GetCons(a[0], Without(a[1..], drop), k);
      }
    }
  }

  /** `DtoProperty::create`'s judgement under the given flags. */
  function Validator(env: Env, flags: Flags): Check
  {
    (name, raw, atoms) => Validation(env, name, raw, flags, atoms)
  }

  /** The union a declared property gets: the one cached under its name, or else a freshly parsed one. */
  function AtomsFor(env: Env, uses: PhpArray<string>, namespace: string, cache: PhpArray<seq<AtomInfo>>,
                    name: string, rawTypes: string): seq<AtomInfo>
  {
    match Get(cache, name)
    case Some(atoms) => atoms
    case None => ParseAtoms(env, uses, namespace, rawTypes)
  }

  function DeclaredAtoms(env: Env, uses: PhpArray<string>, namespace: string, cache: PhpArray<seq<AtomInfo>>,
                         props: PhpArray<string>): (r: seq<seq<AtomInfo>>)
    ensures |r| == |props|
  {
    seq(|props|, i requires 0 <= i < |props| => AtomsFor(env, uses, namespace, cache, props[i].0, props[i].1))
  }

  /** The unions of the created properties, keyed by name. */
  function UnionsOf(planned: seq<Mapped>): (r: PhpArray<seq<AtomInfo>>)
    ensures |r| == |planned|
  {
    seq(|planned|, j requires 0 <= j < |planned| => (planned[j].name, planned[j].atoms))
  }

  /** A union is owned by `repr` when it and its types are, and it is well formed. */
  ghost predicate Owns(repr: set<object>, t: DtoPropertyTypes)
    reads repr
  {
    t in repr && (forall j :: 0 <= j < |t.all| ==> t.all[j] in repr) && t.Valid()
  }

  /**
   * The property object `cell`, owned by `repr` with its union, is the
   * planned property `m`, created under `flags`.
   */
  ghost predicate Made(env: Env, flags: Flags, repr: set<object>, cell: DtoProperty, m: Mapped)
    reads repr
  {
    && cell in repr && Owns(repr, cell.types) && cell.Valid(env)
    && cell.name == m.name && cell.rawValue == m.raw && cell.flags == flags && cell.types.Atoms == m.atoms
  }

  /** The properties `cells` are the planned ones, in order, keyed by their names. */
  ghost predicate AllMade(env: Env, flags: Flags, repr: set<object>, cells: PhpArray<DtoProperty>, planned: seq<Mapped>)
    reads repr
  {
    |cells| == |planned|
    && forall j :: 0 <= j < |cells| ==> cells[j].0 == planned[j].name && Made(env, flags, repr, cells[j].1, planned[j])
  }

  lemma MadeGrows(env: Env, flags: Flags, repr: set<object>, bigger: set<object>, cell: DtoProperty, m: Mapped)
    requires repr <= bigger && Made(env, flags, repr, cell, m)
    ensures Made(env, flags, bigger, cell, m)
  {
  }

  lemma AllMadeGrows(env: Env, flags: Flags, repr: set<object>, bigger: set<object>, cells: PhpArray<DtoProperty>, planned: seq<Mapped>)
    requires repr <= bigger && AllMade(env, flags, repr, cells, planned)
    ensures AllMade(env, flags, bigger, cells, planned)
  {
    forall j | 0 <= j < |cells| ensures Made(env, flags, bigger, cells[j].1, planned[j]) {
      MadeGrows(env, flags, repr, bigger, cells[j].1, planned[j]);
    }
  }

  lemma AllMadeSnoc(env: Env, flags: Flags, repr: set<object>, cells: PhpArray<DtoProperty>, planned: seq<Mapped>,
                    cell: DtoProperty, m: Mapped)
    requires AllMade(env, flags, repr, cells, planned) && Made(env, flags, repr, cell, m)
    ensures AllMade(env, flags, repr, cells + [(m.name, cell)], planned + [m])
  {
  }

  /** Where the loop of `map` stands after the first `i` declared properties. */
  ghost predicate Progress(env: Env, check: Check, dtoClass: string, props: PhpArray<string>, atomsOf: seq<seq<AtomInfo>>,
                           data: PhpArray<Value>, flags: Flags, i: nat,
                           mapped: PhpArray<DtoProperty>, rest: PhpArray<Value>, planned: seq<Mapped>, repr: set<object>)
    reads repr
  {
    && |atomsOf| == |props| && i <= |props|
    && Plan(check, dtoClass, props, atomsOf, data, flags, i) == Success(planned)
    && rest == Without(data, DeclaredNames(props, i))
    && AllMade(env, flags, repr, mapped, planned)
  }

  /** Before the first property nothing is mapped and all the data is left. */
  lemma ProgressStart(env: Env, check: Check, dtoClass: string, props: PhpArray<string>, atomsOf: seq<seq<AtomInfo>>,
                      data: PhpArray<Value>, flags: Flags, repr: set<object>)
    requires |atomsOf| == |props|
    ensures Progress(env, check, dtoClass, props, atomsOf, data, flags, 0, [], data, [], repr)
  {
    assert DeclaredNames(props, 0) == {};
    WithoutNothing(data);
  }

  class DtoPropertiesMapper {
    const dtoClass: string
    const source: ClassSource
    /** The properties of the last successful `map`, whose unions the next `map` reuses. */
    var mappedProperties: PhpArray<DtoProperty>
    /** The union of each cached property, as a value. */
    ghost var Unions: PhpArray<seq<AtomInfo>>
    ghost var Repr: set<object>

    ghost predicate Valid()
      reads this, Repr
    {
      && this !in Repr
      && DistinctKeys(mappedProperties) && |Unions| == |mappedProperties|
      && forall i :: 0 <= i < |mappedProperties| ==>
           Owns(Repr, mappedProperties[i].1.types)
           && Unions[i] == (mappedProperties[i].0, mappedProperties[i].1.types.Atoms)
    }

    /**
     * The invariant depends on the unions and their types alone: changing the
     * property objects, or anything outside the mapper's representation,
     * keeps it.
     */
    twostate lemma ValidKept()
      requires old(Valid()) && unchanged(this)
      requires forall o :: o in old(Repr) && (o is DtoPropertyTypes || o is DtoPropertyType) ==> unchanged(o)
      ensures Valid()
    {
      forall i | 0 <= i < |mappedProperties|
        ensures Owns(Repr, mappedProperties[i].1.types)
      {
        var t := mappedProperties[i].1.types;
        assert old(Owns(Repr, t));
        assert unchanged(t);
        forall j | 0 <= j < |t.all| ensures unchanged(t.all[j]) {
          assert t.all[j] in old(Repr);
        }
      }
    }

    function Uses(): PhpArray<string>
    {
      UseStatements(source.useClauses)
    }

    constructor(dtoClass: string, source: ClassSource)
      ensures Valid() && this.dtoClass == dtoClass && this.source == source
      ensures mappedProperties == [] && Unions == [] && Repr == {}
    {
      this.dtoClass := dtoClass;
      this.source := source;
      mappedProperties := [];
      Unions := [];
      Repr := {};
    }

    /** What `map` returns in the current state. */
    ghost function Outcome(env: Env, data: PhpArray<Value>, flags: Flags): Result<seq<Mapped>>
      reads this
    {
      match source.propertyTags
      case None => Failure(InvalidDocComment(dtoClass))
      case Some(tags) =>
        var props := RawProperties(tags);
        MapResult(Validator(env, flags), dtoClass, props, DeclaredAtoms(env, Uses(), source.namespace, Unions, props), data, flags)
    }

    /** The union for a declared property: the cached property's, or else a freshly parsed one. */
    method TypesFor(env: Env, name: string, rawTypes: string) returns (types: DtoPropertyTypes, ghost owned: set<object>)
      requires Valid()
      ensures types.Atoms == AtomsFor(env, Uses(), source.namespace, Unions, name, rawTypes)
      ensures Owns(Repr + owned, types) && this !in owned
      ensures types in Repr || fresh(types)
    {
      var cached := Get(mappedProperties, name);
      assert Keys(Unions) == Keys(mappedProperties);
      if cached.Some? {
        GetFound(mappedProperties, name);
        var k :| 0 <= k < |mappedProperties| && mappedProperties[k].0 == name && mappedProperties[k].1 == cached.value;
        assert Unions[k].0 == name;
        types := cached.value.types;
        owned := {};
      } else {
        types := ParseTypes(env, Uses(), source.namespace, rawTypes);
        owned := {types} + (set j | 0 <= j < |types.all| :: types.all[j] as object);
      }
    }

    /**
     * The body of the loop of `map` for one declared property with the union
     * `atoms`, given the data not consumed yet: the new property, if any, and
     * the data left.
     */
    method Visit(env: Env, name: string, rawTypes: string, rest: PhpArray<Value>, flags: Flags,
                 ghost check: Check, ghost atoms: seq<AtomInfo>)
      returns (outcome: Result<Option<DtoProperty>>, left: PhpArray<Value>, ghost owned: set<object>)
      requires Valid()
      requires check == Validator(env, flags) && atoms == AtomsFor(env, Uses(), source.namespace, Unions, name, rawTypes)
      ensures var turn := Turn(check, dtoClass, name, atoms, flags, Get(rest, name));
        && (outcome.Failure? <==> turn.Failure?)
        && (outcome.Failure? ==> outcome.error == turn.error)
        && (outcome.Success? ==> left == Remove(rest, name) && (outcome.value.None? <==> turn.value.None?))
        && (outcome.Success? && outcome.value.Some? ==>
              var cell := outcome.value.value;
              && fresh(cell) && Made(env, flags, Repr + owned, cell, turn.value.value))
      ensures this !in owned
    {
      var types: DtoPropertyTypes;
      types, owned := TypesFor(env, name, rawTypes);
      left := rest;
      if Get(left, name).None? {
        if types.HaveDefaultValue(flags) {
          PutThenRemoveFresh(left, name, types.GetDefaultValue(flags));
          PutGet(left, name, types.GetDefaultValue(flags), name);
          left := Put(left, name, types.GetDefaultValue(flags));
        } else if IsSet(flags, PARTIAL) {
          RemoveAbsent(left, name);
          return Success(None), left, owned;
        } else {
          return Failure(MissingValue(dtoClass, name)), left, owned;
        }
      }
      var p := DtoProperty.Create(env, name, Get(left, name).value, types, flags);
      if p.Failure? {
        return Failure(p.error), left, owned;
      }
      owned := owned + {p.value};
      left := Remove(left, name);
      outcome := Success(Some(p.value));
    }

    /**
     * One turn of the loop of `map`, for the declared property `props[i]`,
     * given the properties created so far and the data not consumed yet.
     */
    method Step(env: Env, props: PhpArray<string>, data: PhpArray<Value>, flags: Flags,
                ghost check: Check, ghost atomsOf: seq<seq<AtomInfo>>, i: nat,
                mapped: PhpArray<DtoProperty>, rest: PhpArray<Value>, ghost planned: seq<Mapped>, ghost repr: set<object>)
      returns (failed: Option<Error>, mapped': PhpArray<DtoProperty>, rest': PhpArray<Value>,
               ghost planned': seq<Mapped>, ghost repr': set<object>)
      requires Valid() && DistinctKeys(props) && i < |props|
      requires check == Validator(env, flags) && atomsOf == DeclaredAtoms(env, Uses(), source.namespace, Unions, props)
      requires Repr <= repr && this !in repr
      requires Progress(env, check, dtoClass, props, atomsOf, data, flags, i, mapped, rest, planned, repr)
      ensures Repr <= repr' && this !in repr'
      ensures failed.Some? ==> Plan(check, dtoClass, props, atomsOf, data, flags, i + 1) == Failure(failed.value)
      ensures failed.None? ==> Progress(env, check, dtoClass, props, atomsOf, data, flags, i + 1, mapped', rest', planned', repr')
    {
      var name := props[i].0;
      ghost var turn := Turn(check, dtoClass, name, atomsOf[i], flags, Get(rest, name));
      Advance(check, dtoClass, props, atomsOf, data, flags, i, planned, rest, turn);
      var outcome: Result<Option<DtoProperty>>;
      ghost var owned: set<object>;
      outcome, rest', owned := Visit(env, name, props[i].1, rest, flags, check, atomsOf[i]);
      if outcome.Failure? {
        return Some(outcome.error), mapped, rest', planned, repr;
      }
      failed := None;
      repr' := repr + owned;
      AllMadeGrows(env, flags, repr, repr', mapped, planned);
      if outcome.value.Some? {
        var cell := outcome.value.value;
        MadeGrows(env, flags, Repr + owned, repr', cell, turn.value.value);
        AllMadeSnoc(env, flags, repr', mapped, planned, cell, turn.value.value);
        mapped' := mapped + [(name, cell)];
        planned' := planned + [turn.value.value];
      } else {
        mapped' := mapped;
        planned' := planned;
      }
    }

    /**
     * The loop of `map` over the declared properties `props`: the properties
     * created and the data not consumed, or the first error; nothing the
     * mapper holds changes.
     */
    method Collect(env: Env, props: PhpArray<string>, data: PhpArray<Value>, flags: Flags,
                   ghost check: Check, ghost atomsOf: seq<seq<AtomInfo>>)
      returns (r: Result<PhpArray<DtoProperty>>, rest: PhpArray<Value>, ghost planned: seq<Mapped>, ghost repr: set<object>)
      requires Valid() && DistinctKeys(props)
      requires check == Validator(env, flags) && atomsOf == DeclaredAtoms(env, Uses(), source.namespace, Unions, props)
      ensures Repr <= repr && this !in repr
      ensures r.Failure? ==> Plan(check, dtoClass, props, atomsOf, data, flags, |props|) == Failure(r.error)
      ensures r.Success? ==> Progress(env, check, dtoClass, props, atomsOf, data, flags, |props|, r.value, rest, planned, repr)
    {
      var mapped: PhpArray<DtoProperty> := [];
      rest := data;
      planned := [];
      repr := Repr;
      ProgressStart(env, check, dtoClass, props, atomsOf, data, flags, repr);
      var i: nat := 0;
      while i < |props|
        invariant Repr <= repr && this !in repr
        invariant Progress(env, check, dtoClass, props, atomsOf, data, flags, i, mapped, rest, planned, repr)
      {
        var failed: Option<Error>;
        failed, mapped, rest, planned, repr := Step(env, props, data, flags, check, atomsOf, i, mapped, rest, planned, repr);
        if failed.Some? {
          PlanFailureSticks(check, dtoClass, props, atomsOf, data, flags, i + 1, |props|);
          return Failure(failed.value), rest, planned, repr;
        }
        i := i + 1;
      }
      r := Success(mapped);
    }

    /**
     * The loop of `map` and the check for unknown data that follows it, for
     * the declared properties `props`: nothing the mapper holds changes.
     */
    method MapDeclared(env: Env, props: PhpArray<string>, data: PhpArray<Value>, flags: Flags)
      returns (r: Result<PhpArray<DtoProperty>>, ghost repr: set<object>)
      requires Valid() && DistinctKeys(props)
      ensures Repr <= repr && this !in repr
      ensures var planned := MapResult(Validator(env, flags), dtoClass, props, DeclaredAtoms(env, Uses(), source.namespace, Unions, props), data, flags);
        && (r.Failure? <==> planned.Failure?)
        && (r.Failure? ==> r.error == planned.error)
        && (r.Success? ==> DistinctKeys(r.value) && AllMade(env, flags, repr, r.value, planned.value))
    {
      var rest;
      ghost var planned;
      r, rest, planned, repr := Collect(env, props, data, flags, Validator(env, flags), DeclaredAtoms(env, Uses(), source.namespace, Unions, props));
      if r.Failure? {
        return;
      }
      if rest != [] && !IsSet(flags, IGNORE_UNKNOWN_PROPERTIES) {
        return Failure(UnknownProperty(dtoClass, rest[0].0)), repr;
      }
      PlanDistinct(Validator(env, flags), dtoClass, props, DeclaredAtoms(env, Uses(), source.namespace, Unions, props), data, flags, |props|);
    }

    /**
     * `map`: one validated property per declared name, in declaration order;
     * the properties replace the cache only when mapping succeeds.
     */
    method Map(env: Env, data: PhpArray<Value>, flags: Flags) returns (r: Result<PhpArray<DtoProperty>>)
      requires Valid()
      modifies this
      ensures Valid() && old(Repr) <= Repr
      ensures r.Failure? <==> old(Outcome(env, data, flags)).Failure?
      ensures r.Failure? ==> Failure(r.error) == old(Outcome(env, data, flags))
      ensures r.Failure? ==> mappedProperties == old(mappedProperties) && Unions == old(Unions) && Repr == old(Repr)
      ensures r.Success? ==> mappedProperties == r.value && Unions == UnionsOf(old(Outcome(env, data, flags)).value)
      ensures r.Success? ==>
        var planned := old(Outcome(env, data, flags)).value;
        AllMade(env, flags, Repr, r.value, planned)
    {
      if source.propertyTags.None? {
        return Failure(InvalidDocComment(dtoClass));
      }
      var props := RawProperties(source.propertyTags.value);
      ghost var repr: set<object>;
      r, repr := MapDeclared(env, props, data, flags);
      if r.Success? {
        Install(env, flags, r.value, Outcome(env, data, flags).value, repr);
      }
    }

    /** The assignment that ends a successful `map`: the new properties become the cache. */
    method Install(env: Env, flags: Flags, cells: PhpArray<DtoProperty>, ghost planned: seq<Mapped>, ghost repr: set<object>)
      requires this !in repr && DistinctKeys(cells) && AllMade(env, flags, repr, cells, planned)
      modifies this
      ensures Valid() && mappedProperties == cells && Unions == UnionsOf(planned) && Repr == repr
      ensures AllMade(env, flags, Repr, cells, planned)
    {
      mappedProperties := cells;
      Unions := UnionsOf(planned);
      Repr := repr;
    }
  }

  /** `DtoPropertiesMapper::for`: one mapper per DTO class, created on first use. */
  class MapperRegistry {
    /** What reflection finds for a class name; None when there is no such class. */
    const classes: string -> Option<ClassSource>
    var instances: map<string, DtoPropertiesMapper>

    ghost predicate Valid()
      reads this
    {
      forall c :: c in instances ==> instances[c].dtoClass == c && classes(c) == Some(instances[c].source)
    }

    constructor(classes: string -> Option<ClassSource>)
      ensures Valid() && this.classes == classes && instances == map[]
    {
      this.classes := classes;
      instances := map[];
    }

    method For(dtoClass: string) returns (r: Result<DtoPropertiesMapper>)
      requires Valid()
      modifies this
      ensures Valid()
      ensures dtoClass in old(instances) ==> r == Success(old(instances)[dtoClass]) && instances == old(instances)
      ensures dtoClass !in old(instances) && classes(dtoClass).None? ==>
        r == Failure(DtoNotFound(dtoClass)) && instances == old(instances)
      ensures dtoClass !in old(instances) && classes(dtoClass).Some? ==>
        r.Success? && fresh(r.value) && r.value.Valid() && r.value.mappedProperties == []
        && instances == old(instances)[dtoClass := r.value]
      ensures r.Success? ==> r.value.dtoClass == dtoClass && classes(dtoClass) == Some(r.value.source)
    {
      if dtoClass in instances {
        return Success(instances[dtoClass]);
      }
      var source := classes(dtoClass);
      if source.None? {
        return Failure(DtoNotFound(dtoClass));
      }
      var m := new DtoPropertiesMapper(dtoClass, source.value);
      instances := instances[dtoClass := m];
      r := Success(m);
    }
  }
}
