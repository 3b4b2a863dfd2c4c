/**
 * The array converter of the current generation (Manipulators/ArrayConverter.php):
 * turns DTOs and other iterables into nested arrays, optionally snake-casing
 * keys, and hands objects with a registered value converter to that
 * converter. Value converters are instantiated on demand and cached.
 */
module Converters {
  import opened Wrappers
  import opened PhpArrays
  import opened Values
  import opened Strings
  import opened PropertyTypes

  predicate NoUpper(s: string)
  {
    forall i :: 0 <= i < |s| ==> !IsUpper(s[i])
  }

  /** `preg_replace('/(?<=[a-z\d])(?=[A-Z])/', '_', $s)`: an underscore between a lower-case letter or digit and an upper-case letter. */
  function SnakeBoundaries(s: string): (r: string)
    ensures |r| >= |s|
  {
    if |s| < 2 then s
    else if (IsLower(s[0]) || IsDigit(s[0])) && IsUpper(s[1]) then [s[0], '_'] + SnakeBoundaries(s[1..])
    else [s[0]] + SnakeBoundaries(s[1..])
  }

  /** The snake case of a key: boundaries marked, then lower-cased. */
  function SnakeCase(s: string): (r: string)
    ensures NoUpper(r)
  {
    Lowercase(SnakeBoundaries(s))
  }

  /** `formatArrayKey`. */
  function FormatArrayKey(key: string, snakeCase: bool): string
  {
    if snakeCase then SnakeCase(key) else key
  }

  lemma {:induction false} BoundariesNeedUpper(s: string)
    requires NoUpper(s)
    ensures SnakeBoundaries(s) == s
  {
    if |s| >= 2 {
      BoundariesNeedUpper(s[1..]);
    }
  }

  lemma LowercaseNoUpper(s: string)
    requires NoUpper(s)
    ensures Lowercase(s) == s
  {
  }

  /** A snake-cased key has no upper-case letter, so snake-casing it again changes nothing. */
  lemma SnakeCaseIdempotent(s: string)
    ensures SnakeCase(SnakeCase(s)) == SnakeCase(s)
  {
    BoundariesNeedUpper(SnakeCase(s));
    LowercaseNoUpper(SnakeCase(s));
  }

  lemma SnakeCaseKeyOne()
    ensures SnakeCase("keyOne") == "key_one"
  {
    KeyOneBoundaries();
    KeyOneLowercase();
  }

  lemma KeyOneBoundaries()
    ensures SnakeBoundaries("keyOne") == "key_One"
  {
    assert SnakeBoundaries("ne") == "ne";
    assert SnakeBoundaries("One") == "One";
    assert SnakeBoundaries("yOne") == "y_One";
  }

  lemma KeyOneLowercase()
    ensures Lowercase("key_One") == "key_one"
  {
    assert ToLower('O') == 'o';
  }

  /** Consecutive capitals are not split: only a lower-case letter or a digit before a capital makes a boundary. */
  lemma SnakeCaseCapitals()
    ensures SnakeCase("URL") == "url"
  {
    assert SnakeBoundaries("URL") == "URL";
  }

  /** The first registered `(type, converter class)`, from position `i` on, whose type the object is an instance of. */
  function FirstConversion(env: Env, conversions: PhpArray<string>, v: Value, i: nat): (r: Option<(string, string)>)
    requires i <= |conversions|
    decreases |conversions| - i
  {
    if i == |conversions| then None
    else if IsA(env, v, conversions[i].0) then Some(conversions[i])
    else FirstConversion(env, conversions, v, i + 1)
  }

  /** A search from `i` finds nothing exactly when no type from `i` on matches, and otherwise the first match. */
  lemma {:induction false} FirstConversionSpec(env: Env, conversions: PhpArray<string>, v: Value, i: nat)
    requires i <= |conversions|
    ensures var r := FirstConversion(env, conversions, v, i);
      && (r.None? <==> forall j :: i <= j < |conversions| ==> !IsA(env, v, conversions[j].0))
      && (r.Some? ==> exists j :: i <= j < |conversions| && conversions[j] == r.value && IsA(env, v, r.value.0)
                        && (forall l :: i <= l < j ==> !IsA(env, v, conversions[l].0)))
    decreases |conversions| - i
  {
    if i < |conversions| && !IsA(env, v, conversions[i].0) {
      FirstConversionSpec(env, conversions, v, i + 1);
      var r := FirstConversion(env, conversions, v, i + 1);
      if r.Some? {
        var j :| i + 1 <= j < |conversions| && conversions[j] == r.value && IsA(env, v, r.value.0)
          && (forall l :: i + 1 <= l < j ==> !IsA(env, v, conversions[l].0));
        assert forall l :: i <= l < j ==> !IsA(env, v, conversions[l].0);
      }
    }
  }

  /**
   * `getConverterByInstance` on the class names involved: a converter cached
   * under the object's class wins; otherwise the first matching registration
   * is used and cached under its type and under the converter's class.
   */
  function ByInstance(env: Env, conversions: PhpArray<string>, cache: PhpArray<string>, v: Value): (r: (Option<string>, PhpArray<string>))
    requires v.Obj?
    ensures Get(cache, v.cls).Some? ==> r == (Get(cache, v.cls), cache)
    ensures Get(cache, v.cls).None? ==> (r.0.None? <==> FirstConversion(env, conversions, v, 0).None?)
    ensures Get(cache, v.cls).None? && r.0.None? ==> r.1 == cache
  {
    match Get(cache, v.cls)
    case Some(c) => (Some(c), cache)
    case None =>
      match FirstConversion(env, conversions, v, 0)
      case None => (None, cache)
      case Some((t, c)) => (Some(c), Put(Put(cache, t, c), c, c))
  }

  /** A converter found by searching is remembered under its type and under its own class. */
  lemma ByInstanceCaches(env: Env, conversions: PhpArray<string>, cache: PhpArray<string>, v: Value)
    requires v.Obj? && Get(cache, v.cls).None? && FirstConversion(env, conversions, v, 0).Some?
    ensures var (t, c) := FirstConversion(env, conversions, v, 0).value;
      var r := ByInstance(env, conversions, cache, v);
      r.0 == Some(c) && Get(r.1, t) == Some(c) && Get(r.1, c) == Some(c)
  {
    var (t, c) := FirstConversion(env, conversions, v, 0).value;
    PutGet(Put(cache, t, c), c, c, t);
    PutGet(cache, t, c, t);
    PutGet(Put(cache, t, c), c, c, c);
  }

  /** The keys the loop of `convert` writes for the first `n` items, in the order the array keeps them. */
  function WrittenKeys(parent: Value, n: nat, snakeCase: bool): (ks: seq<string>)
    requires IsIterable(parent) && n <= |Items(parent)|
  {
    if n == 0 then []
    else
      var ks := WrittenKeys(parent, n - 1, snakeCase);
      var k := FormatArrayKey(Items(parent)[n - 1].0, snakeCase);
      if k in ks then ks else ks + [k]
  }

  /** How far `convert` may still go into a value, for termination. */
  function Width(v: Value): nat
  {
    if IsIterable(v) then |Items(v)| + 1 else 0
  }

  /**
   * `convert($item, $snakeCase)` with the converter cache threaded through:
   * the converted value and the cache afterwards. `deep` says whether the
   * recursive call passes `$snakeCase` on; the source does not (the call at
   * line 100 uses the default), which is `deep == false`.
   */
  function Converted(env: Env, conversions: PhpArray<string>, cache: PhpArray<string>, item: Value, snakeCase: bool, deep: bool)
    : (r: (Value, PhpArray<string>))
    decreases item, Width(item)
  {
    var (found, cache1) := if item.Obj? then ByInstance(env, conversions, cache, item) else (None, cache);
    if found.Some? then (env.fromDto(found.value, item), cache1)
    else if IsIterable(item) then
      var (entries, cache2) := ConvertedItems(env, conversions, cache1, item, |Items(item)|, snakeCase, deep);
      (Arr(entries), cache2)
    else (item, cache1)
  }

  /** The loop of `convert` over the first `n` items of `parent`. */
  function ConvertedItems(env: Env, conversions: PhpArray<string>, cache: PhpArray<string>, parent: Value, n: nat,
                          snakeCase: bool, deep: bool): (r: (PhpArray<Value>, PhpArray<string>))
    requires IsIterable(parent) && n <= |Items(parent)|
    decreases parent, n
  {
    if n == 0 then ([], cache)
    else
      var (acc, cache1) := ConvertedItems(env, conversions, cache, parent, n - 1, snakeCase, deep);
      var e := Items(parent)[n - 1];
      assert if parent.Arr? then e in parent.entries else e in parent.fields;
      var (v, cache2) := Converted(env, conversions, cache1, e.1, deep && snakeCase, deep);
      (Put(acc, FormatArrayKey(e.0, snakeCase), v), cache2)
  }

  /** The loop of `convert` writes the keys WrittenKeys lists, in that order. */
  lemma {:induction false} ConvertedItemsKeys(env: Env, conversions: PhpArray<string>, cache: PhpArray<string>, parent: Value, n: nat,
                                              snakeCase: bool, deep: bool)
    requires IsIterable(parent) && n <= |Items(parent)|
    ensures Keys(ConvertedItems(env, conversions, cache, parent, n, snakeCase, deep).0) == WrittenKeys(parent, n, snakeCase)
  {
    if n > 0 {
      ConvertedItemsKeys(env, conversions, cache, parent, n - 1, snakeCase, deep);
      var (acc, cache1) := ConvertedItems(env, conversions, cache, parent, n - 1, snakeCase, deep);
      var e := Items(parent)[n - 1];
      var (v, cache2) := Converted(env, conversions, cache1, e.1, deep && snakeCase, deep);
      assert ConvertedItems(env, conversions, cache, parent, n, snakeCase, deep).0 == Put(acc, FormatArrayKey(e.0, snakeCase), v);
      PutKeysAfter(acc, FormatArrayKey(e.0, snakeCase), v);
    }
  }

  /** One more round of the loop of `convert`. */
  lemma ConvertedItemsNext(env: Env, conversions: PhpArray<string>, cache: PhpArray<string>, parent: Value, n: nat,
                           snakeCase: bool, deep: bool)
    requires IsIterable(parent) && n < |Items(parent)|
    ensures var (acc, cache1) := ConvertedItems(env, conversions, cache, parent, n, snakeCase, deep);
      var e := Items(parent)[n];
      var (v, cache2) := Converted(env, conversions, cache1, e.1, deep && snakeCase, deep);
      ConvertedItems(env, conversions, cache, parent, n + 1, snakeCase, deep) == (Put(acc, FormatArrayKey(e.0, snakeCase), v), cache2)
  {
  }

  /** A value that is neither an object nor iterable comes back as it is, and the cache is untouched. */
  lemma ConvertKeepsScalars(env: Env, conversions: PhpArray<string>, cache: PhpArray<string>, item: Value, snakeCase: bool, deep: bool)
    requires !item.Obj? && !item.Arr?
    ensures Converted(env, conversions, cache, item, snakeCase, deep) == (item, cache)
  {
  }

  /** An object with a registered converter is handed to it whole and never iterated. */
  lemma ConverterWins(env: Env, conversions: PhpArray<string>, cache: PhpArray<string>, item: Value, snakeCase: bool, deep: bool)
    requires item.Obj? && Get(cache, item.cls).None? && FirstConversion(env, conversions, item, 0).Some?
    ensures Converted(env, conversions, cache, item, snakeCase, deep).0 == env.fromDto(FirstConversion(env, conversions, item, 0).value.1, item)
  {
  }

  /** Without snake-casing, distinct keys are written once each, in their own order. */
  lemma {:induction false} WrittenKeysKept(parent: Value, n: nat)
    requires IsIterable(parent) && n <= |Items(parent)| && DistinctKeys(Items(parent))
    ensures WrittenKeys(parent, n, false) == Keys(Items(parent))[..n]
  {
    if n > 0 {
      WrittenKeysKept(parent, n - 1);
      KeysPrefixStep(Items(parent), n - 1);
    }
  }

  /** Without snake-casing, an array comes out with the same keys in the same order. */
  lemma ConvertKeepsKeys(env: Env, conversions: PhpArray<string>, cache: PhpArray<string>, item: Value, deep: bool)
    requires item.Arr? && DistinctKeys(item.entries)
    ensures var r := Converted(env, conversions, cache, item, false, deep).0;
      r.Arr? && Keys(r.entries) == Keys(item.entries)
  {
    WrittenKeysKept(item, |item.entries|);
    ConvertedItemsKeys(env, conversions, cache, item, |item.entries|, false, deep);
    assert Keys(item.entries)[..|item.entries|] == Keys(item.entries);
  }

  /** Every key, at every depth of nested arrays, is in snake case. */
  predicate SnakeKeysEverywhere(v: Value)
  {
    match v
    case Arr(es) => forall i :: 0 <= i < |es| ==> NoUpper(es[i].0) && SnakeKeysEverywhere(es[i].1)
    case _ => true
  }

  /** No object occurs in the value, so no converter can step in. */
  predicate PlainData(v: Value)
  {
    match v
    case Arr(es) => forall i :: 0 <= i < |es| ==> PlainData(es[i].1)
    case Obj(_, _, _, _) => false
    case _ => true
  }

  lemma PutKeepsSnakeKeys(acc: PhpArray<Value>, k: string, v: Value)
    requires SnakeKeysEverywhere(Arr(acc)) && NoUpper(k) && SnakeKeysEverywhere(v)
    ensures SnakeKeysEverywhere(Arr(Put(acc, k, v)))
  {
    if acc != [] {
      PutKeepsSnakeKeys(acc[1..], k, v);
      assert SnakeKeysEverywhere(Arr(acc[1..]));
    }
  }

  /** When the flag is passed down, plain data comes out snake-cased at every depth. */
  lemma {:induction false} DeepSnakeCase(env: Env, conversions: PhpArray<string>, cache: PhpArray<string>, item: Value)
    requires PlainData(item)
    ensures SnakeKeysEverywhere(Converted(env, conversions, cache, item, true, true).0)
    decreases item, Width(item)
  {
    if item.Arr? {
      DeepSnakeCaseItems(env, conversions, cache, item, |item.entries|);
    }
  }

  lemma {:induction false} DeepSnakeCaseItems(env: Env, conversions: PhpArray<string>, cache: PhpArray<string>, parent: Value, n: nat)
    requires parent.Arr? && PlainData(parent) && n <= |parent.entries|
    ensures SnakeKeysEverywhere(Arr(ConvertedItems(env, conversions, cache, parent, n, true, true).0))
    decreases parent, n
  {
    if n > 0 {
      DeepSnakeCaseItems(env, conversions, cache, parent, n - 1);
      ConvertedItemsNext(env, conversions, cache, parent, n - 1, true, true);
      var (acc, cache1) := ConvertedItems(env, conversions, cache, parent, n - 1, true, true);
      var e := parent.entries[n - 1];
      assert e in parent.entries;
      assert PlainData(e.1);
      DeepSnakeCase(env, conversions, cache1, e.1);
      PutKeepsSnakeKeys(acc, SnakeCase(e.0), Converted(env, conversions, cache1, e.1, true, true).0);
    }
  }

  /**
   * As written, `convert($data, true)` snake-cases only the outer keys:
   * `['keyTwo' => ['keyOne' => '2020-01-01']]` keeps `keyOne`.
   */
  const NestedSample: Value := Arr([("keyTwo", Arr([("keyOne", Str("2020-01-01"))]))])

  lemma SnakeCaseKeyTwo()
    ensures SnakeCase("keyTwo") == "key_two"
  {
    KeyTwoBoundaries();
    assert ToLower('T') == 't';
  }

  lemma KeyTwoBoundaries()
    ensures SnakeBoundaries("keyTwo") == "key_Two"
  {
    assert SnakeBoundaries("wo") == "wo";
    assert SnakeBoundaries("Two") == "Two";
    assert SnakeBoundaries("yTwo") == "y_Two";
  }

  /** As written, `convert($data, true)` snake-cases only the outer keys: `keyOne` is kept. */
  lemma NestedKeysKeptAsWritten(env: Env)
    ensures Converted(env, [], [], NestedSample, true, false).0 == Arr([("key_two", Arr([("keyOne", Str("2020-01-01"))]))])
  {
    SnakeCaseKeyTwo();
    var inner := Arr([("keyOne", Str("2020-01-01"))]);
    assert ConvertedItems(env, [], [], inner, 1, false, false).0 == [("keyOne", Str("2020-01-01"))];
    assert Converted(env, [], [], inner, false, false).0 == inner;
    assert ConvertedItems(env, [], [], NestedSample, 1, true, false).0 == [("key_two", inner)];
  }

  /** Passing the flag on snake-cases the nested key as well, as the converter's tests expect. */
  lemma NestedKeysSnakeCased(env: Env)
    ensures Converted(env, [], [], NestedSample, true, true).0 == Arr([("key_two", Arr([("key_one", Str("2020-01-01"))]))])
  {
    SnakeCaseKeyTwo();
    SnakeCaseKeyOne();
    var inner := Arr([("keyOne", Str("2020-01-01"))]);
    var converted := Arr([("key_one", Str("2020-01-01"))]);
    assert ConvertedItems(env, [], [], inner, 1, true, true).0 == [("key_one", Str("2020-01-01"))];
    assert Converted(env, [], [], inner, true, true).0 == converted;
    assert ConvertedItems(env, [], [], NestedSample, 1, true, true).0 == [("key_two", converted)];
  }

  /**
   * With snake case off, passing the flag down or not makes no difference:
   * every caller of `convert` inside the DTO uses the default, so the
   * dropped flag never shows there.
   */
  lemma {:induction false} UnformattedIgnoresDepth(env: Env, conversions: PhpArray<string>, cache: PhpArray<string>, item: Value)
    ensures Converted(env, conversions, cache, item, false, true) == Converted(env, conversions, cache, item, false, false)
    decreases item, Width(item)
  {
    var (found, cache1) := if item.Obj? then ByInstance(env, conversions, cache, item) else (None, cache);
    if found.None? && IsIterable(item) {
      UnformattedItemsIgnoreDepth(env, conversions, cache1, item, |Items(item)|);
    }
  }

  lemma {:induction false} UnformattedItemsIgnoreDepth(env: Env, conversions: PhpArray<string>, cache: PhpArray<string>, parent: Value, n: nat)
    requires IsIterable(parent) && n <= |Items(parent)|
    ensures ConvertedItems(env, conversions, cache, parent, n, false, true) == ConvertedItems(env, conversions, cache, parent, n, false, false)
    decreases parent, n
  {
    if n > 0 {
      UnformattedItemsIgnoreDepth(env, conversions, cache, parent, n - 1);
      var (acc, cache1) := ConvertedItems(env, conversions, cache, parent, n - 1, false, false);
      var e := Items(parent)[n - 1];
      assert if parent.Arr? then e in parent.entries else e in parent.fields;
      UnformattedIgnoresDepth(env, conversions, cache1, e.1);
    }
  }

  /** An instantiated value converter: only its class matters. */
  class ValueConverter {
    const cls: string

    constructor(cls: string)
      ensures this.cls == cls
    {
      this.cls := cls;
    }
  }

  /** The converter classes a cache holds, by key. */
  function CacheClasses(cache: PhpArray<ValueConverter>): (r: PhpArray<string>)
    ensures Keys(r) == Keys(cache)
  {
    seq(|cache|, i requires 0 <= i < |cache| => (cache[i].0, cache[i].1.cls))
  }

  lemma {:induction false} CacheClassesGet(cache: PhpArray<ValueConverter>, k: string)
    ensures Get(CacheClasses(cache), k) == if Get(cache, k).Some? then Some(Get(cache, k).value.cls) else None
  {
    if cache != [] {
      CacheClassesGet(cache[1..], k);
      assert CacheClasses(cache)[1..] == CacheClasses(cache[1..]);
    }
  }

  lemma {:induction false} CacheClassesPut(cache: PhpArray<ValueConverter>, k: string, c: ValueConverter)
    ensures CacheClasses(Put(cache, k, c)) == Put(CacheClasses(cache), k, c.cls)
  {
    if cache != [] {
      var classes := CacheClasses(cache);
      CacheClassesCons(cache[0], cache[1..]);
      assert [cache[0]] + cache[1..] == cache;
      assert classes[0] == (cache[0].0, cache[0].1.cls) && classes[1..] == CacheClasses(cache[1..]);
      if cache[0].0 != k {
        CacheClassesPut(cache[1..], k, c);
        CacheClassesCons(cache[0], Put(cache[1..], k, c));
      } else {
        CacheClassesCons((k, c), cache[1..]);
      }
    }
  }

  lemma CacheClassesCons(e: (string, ValueConverter), rest: PhpArray<ValueConverter>)
    ensures CacheClasses([e] + rest) == [(e.0, e.1.cls)] + CacheClasses(rest)
  {
  }

  /** `convert($item)` called from outside, with the default `$snakeCase = false`. */
  function ConvertedTop(env: Env, conversions: PhpArray<string>, cache: PhpArray<string>, item: Value): (Value, PhpArray<string>)
  {
    Converted(env, conversions, cache, item, false, false)
  }

  /** `f` does what `convert` does with these conversions, keys kept as they are and the cache threaded through. */
  ghost predicate ConvertsAs(env: Env, conversions: PhpArray<string>, f: (PhpArray<string>, Value) -> (Value, PhpArray<string>))
  {
    forall cache, v {:trigger ConvertedTop(env, conversions, cache, v)} :: f(cache, v) == ConvertedTop(env, conversions, cache, v)
  }

  class ArrayConverter {
    /** Registered conversions: a type, and the value converter class for instances of it. */
    var conversions: PhpArray<string>
    var cachedConverters: PhpArray<ValueConverter>

    constructor()
      ensures conversions == [] && cachedConverters == []
    {
      conversions := [];
      cachedConverters := [];
    }

    function Cache(): PhpArray<string>
      reads this
    {
      CacheClasses(cachedConverters)
    }

    /** `setConversions`: the cache is kept as it is. */
    method SetConversions(conversions: PhpArray<string>)
      modifies this
      ensures this.conversions == conversions && cachedConverters == old(cachedConverters)
    {
      this.conversions := conversions;
    }

    /** `getConverterByInstance`. */
    method GetConverterByInstance(env: Env, instance: Value) returns (r: Option<ValueConverter>)
      requires instance.Obj?
      modifies this
      ensures conversions == old(conversions)
      ensures (if r.Some? then Some(r.value.cls) else None, Cache()) == ByInstance(env, conversions, old(Cache()), instance)
      ensures Get(old(cachedConverters), instance.cls).Some? ==> r == Get(old(cachedConverters), instance.cls) && cachedConverters == old(cachedConverters)
      ensures Get(old(cachedConverters), instance.cls).None? && r.Some? ==> fresh(r.value)
    {
      CacheClassesGet(cachedConverters, instance.cls);
      var cached := Get(cachedConverters, instance.cls);
      if cached.Some? {
        return cached;
      }
      var i := 0;
      while i < |conversions|
        invariant 0 <= i <= |conversions| && cachedConverters == old(cachedConverters)
        invariant FirstConversion(env, conversions, instance, 0) == FirstConversion(env, conversions, instance, i)
      {
        var (t, c) := conversions[i];
        if IsA(env, instance, t) {
          var converter := new ValueConverter(c);
          CacheClassesPut(cachedConverters, t, converter);
          CacheClassesPut(Put(cachedConverters, t, converter), c, converter);
          cachedConverters := Put(Put(cachedConverters, t, converter), c, converter);
          return Some(converter);
        }
        i := i + 1;
      }
      r := None;
    }

    /** `getConverterByClass`: an exact key, cached on first use. */
    method GetConverterByClass(cls: string) returns (r: Option<ValueConverter>)
      modifies this
      ensures conversions == old(conversions)
      ensures Get(old(cachedConverters), cls).Some? ==> r == Get(old(cachedConverters), cls) && cachedConverters == old(cachedConverters)
      ensures Get(old(cachedConverters), cls).None? ==>
        (r.Some? <==> Get(conversions, cls).Some? && Truthy(Get(conversions, cls).value))
      ensures Get(old(cachedConverters), cls).None? && r.Some? ==>
        fresh(r.value) && r.value.cls == Get(conversions, cls).value && cachedConverters == Put(old(cachedConverters), cls, r.value)
      ensures r.Some? ==> Get(cachedConverters, cls) == r
      ensures r.None? ==> cachedConverters == old(cachedConverters)
    {
      var cached := Get(cachedConverters, cls);
      if cached.Some? {
        return cached;
      }
      var converter := Get(conversions, cls);
      if converter.Some? && Truthy(converter.value) {
        var c := new ValueConverter(converter.value);
        PutGet(cachedConverters, cls, c, cls);
        cachedConverters := Put(cachedConverters, cls, c);
        return Some(c);
      }
      r := None;
    }

    /**
     * `convert`: the recursive call on each item drops the snake-case flag,
     * so only the outer keys are formatted (see NestedKeysKeptAsWritten).
     */
    method Convert(env: Env, item: Value, snakeCase: bool) returns (r: Value)
      modifies this
      decreases item, 2
      ensures conversions == old(conversions)
      ensures (r, Cache()) == Converted(env, conversions, old(Cache()), item, snakeCase, false)
    {
      var found: Option<ValueConverter> := None;
      if item.Obj? {
        found := GetConverterByInstance(env, item);
      }
      if found.Some? {
        return env.fromDto(found.value.cls, item);
      }
      if !IsIterable(item) {
        return item;
      }
      var entries := ConvertItems(env, item, snakeCase);
      r := Arr(entries);
    }

    /** `convert($item)`, seen through any function that does what it does with the conversions `table`. */
    method ConvertWith(env: Env, item: Value, ghost table: PhpArray<string>, ghost f: (PhpArray<string>, Value) -> (Value, PhpArray<string>))
      returns (r: Value)
      requires conversions == table
      modifies this
      ensures conversions == table
      ensures ConvertsAs(env, table, f) ==> (r, Cache()) == f(old(Cache()), item)
    {
      r := Convert(env, item, false);
      assert (r, Cache()) == ConvertedTop(env, table, old(Cache()), item);
    }

    /** The loop of `convert` over the items of an iterable. */
    method ConvertItems(env: Env, item: Value, snakeCase: bool) returns (result: PhpArray<Value>)
      requires IsIterable(item)
      modifies this
      decreases item, 1
      ensures conversions == old(conversions)
      ensures (result, Cache()) == ConvertedItems(env, conversions, old(Cache()), item, |Items(item)|, snakeCase, false)
    {
      ghost var cache1 := Cache();
      result := [];
      var i := 0;
      while i < |Items(item)|
        invariant 0 <= i <= |Items(item)| && conversions == old(conversions)
        invariant (result, Cache()) == ConvertedItems(env, conversions, cache1, item, i, snakeCase, false)
      {
        result := ConvertItem(env, item, i, snakeCase, cache1, result);
        i := i + 1;
      }
    }

    /** One round of the loop of `convert`: the item at `i` converted and stored under its formatted key. */
    method ConvertItem(env: Env, item: Value, i: nat, snakeCase: bool, ghost cache1: PhpArray<string>, result: PhpArray<Value>)
      returns (result': PhpArray<Value>)
      requires IsIterable(item) && i < |Items(item)|
      requires (result, Cache()) == ConvertedItems(env, conversions, cache1, item, i, snakeCase, false)
      modifies this
      decreases item, 0
      ensures conversions == old(conversions)
      ensures (result', Cache()) == ConvertedItems(env, conversions, cache1, item, i + 1, snakeCase, false)
    {
      var e := Items(item)[i];
      assert if item.Arr? then e in item.entries else e in item.fields;
      ConvertedItemsNext(env, conversions, cache1, item, i, snakeCase, false);
      var converted := Convert(env, e.1, false);
      result' := Put(result, FormatArrayKey(e.0, snakeCase), converted);
    }
  }

  /** A second lookup by class hands back the very converter the first one cached. */
  method ByClassTwice(converter: ArrayConverter, cls: string) returns (first: Option<ValueConverter>, second: Option<ValueConverter>)
    modifies converter
    ensures first == second
  {
    first := converter.GetConverterByClass(cls);
    second := converter.GetConverterByClass(cls);
  }
}

/**
 * The array converter of the first generation (ArrayConverter.php):
 * conversions are callbacks registered per type, the most recent first.
 */
module LegacyConverters {
  import opened Wrappers
  import opened PhpArrays
  import opened Values

  /** The callback of the first registered type, from position `i` on, that the target is an instance of. */
  function FirstCallback(env: Env, conversions: PhpArray<nat>, target: Value, i: nat): (r: Option<nat>)
    requires i <= |conversions|
    decreases |conversions| - i
  {
    if i == |conversions| then None
    else if IsA(env, target, conversions[i].0) then Some(conversions[i].1)
    else FirstCallback(env, conversions, target, i + 1)
  }

  /** No callback is found exactly when the target is an instance of none of the registered types; otherwise the first match's. */
  lemma {:induction false} FirstCallbackSpec(env: Env, conversions: PhpArray<nat>, target: Value, i: nat)
    requires i <= |conversions|
    ensures var r := FirstCallback(env, conversions, target, i);
      && (r.None? <==> forall j :: i <= j < |conversions| ==> !IsA(env, target, conversions[j].0))
      && (r.Some? ==> exists j :: i <= j < |conversions| && IsA(env, target, conversions[j].0) && r.value == conversions[j].1
                        && (forall l :: i <= l < j ==> !IsA(env, target, conversions[l].0)))
    decreases |conversions| - i
  {
    if i < |conversions| && !IsA(env, target, conversions[i].0) {
      FirstCallbackSpec(env, conversions, target, i + 1);
      var r := FirstCallback(env, conversions, target, i + 1);
      if r.Some? {
        var j :| i + 1 <= j < |conversions| && IsA(env, target, conversions[j].0) && r.value == conversions[j].1
          && (forall l :: i + 1 <= l < j ==> !IsA(env, target, conversions[l].0));
        assert forall l :: i <= l < j ==> !IsA(env, target, conversions[l].0);
      }
    }
  }

  function Width(v: Value): nat
  {
    if IsIterable(v) then |Items(v)| + 1 else 0
  }

  /** `convert`: a matching callback wins; an iterable is converted item by item under the same keys. */
  function Converted(env: Env, conversions: PhpArray<nat>, item: Value): Value
    decreases item, Width(item)
  {
    match FirstCallback(env, conversions, item, 0)
    case Some(cb) => env.callback(cb, item)
    case None =>
      if IsIterable(item) then Arr(ConvertedItems(env, conversions, item, |Items(item)|)) else item
  }

  function ConvertedItems(env: Env, conversions: PhpArray<nat>, parent: Value, n: nat): PhpArray<Value>
    requires IsIterable(parent) && n <= |Items(parent)|
    decreases parent, n
  {
    if n == 0 then []
    else
      var e := Items(parent)[n - 1];
      assert if parent.Arr? then e in parent.entries else e in parent.fields;
      var v := Converted(env, conversions, e.1);
      Put(ConvertedItems(env, conversions, parent, n - 1), e.0, v)
  }

  /** One more round of the loop of `convert`. */
  lemma ConvertedItemsNext(env: Env, conversions: PhpArray<nat>, parent: Value, n: nat)
    requires IsIterable(parent) && n < |Items(parent)|
    ensures var e := Items(parent)[n];
      ConvertedItems(env, conversions, parent, n + 1) == Put(ConvertedItems(env, conversions, parent, n), e.0, Converted(env, conversions, e.1))
  {
  }

  /** A value that is neither an object nor iterable comes back unchanged. */
  lemma ConvertKeepsScalars(env: Env, conversions: PhpArray<nat>, item: Value)
    requires !item.Obj? && !item.Arr?
    ensures Converted(env, conversions, item) == item
  {
    FirstCallbackSpec(env, conversions, item, 0);
  }

  /** The first `n` items of an iterable, each converted on its own. */
  function ConvertedValues(env: Env, conversions: PhpArray<nat>, parent: Value, n: nat): (r: seq<Value>)
    requires IsIterable(parent) && n <= |Items(parent)|
    ensures |r| == n
    decreases parent, n
  {
    if n == 0 then []
    else
      var e := Items(parent)[n - 1];
      assert if parent.Arr? then e in parent.entries else e in parent.fields;
      ConvertedValues(env, conversions, parent, n - 1) + [Converted(env, conversions, e.1)]
  }

  /** The value at position `i` is the conversion of the item at position `i`. */
  lemma {:induction false} ConvertedValuesAt(env: Env, conversions: PhpArray<nat>, parent: Value, n: nat, i: nat)
    requires IsIterable(parent) && i < n <= |Items(parent)|
    ensures ConvertedValues(env, conversions, parent, n)[i] == Converted(env, conversions, Items(parent)[i].1)
  {
    if i < n - 1 {
      ConvertedValuesAt(env, conversions, parent, n - 1, i);
    }
  }

  /** The loop of `convert` pairs each key, in order, with the conversion of its value. */
  lemma {:induction false} ConvertedItemsInOrder(env: Env, conversions: PhpArray<nat>, parent: Value, n: nat)
    requires IsIterable(parent) && n <= |Items(parent)| && DistinctKeys(Items(parent))
    ensures ConvertedItems(env, conversions, parent, n) == Zip(Keys(Items(parent))[..n], ConvertedValues(env, conversions, parent, n))
  {
    if n > 0 {
      ConvertedItemsInOrder(env, conversions, parent, n - 1);
      ConvertedItemsNext(env, conversions, parent, n - 1);
      KeysPrefixStep(Items(parent), n - 1);
      var e := Items(parent)[n - 1];
      PutZip(Keys(Items(parent))[..n - 1], ConvertedValues(env, conversions, parent, n - 1), e.0, Converted(env, conversions, e.1));
    }
  }

  class ArrayConverter {
    /** Registered conversions: a type, and the callback for instances of it. */
    var conversions: PhpArray<nat>

    constructor()
      ensures conversions == []
    {
      conversions := [];
    }

    /** `conversion`: `[$target => $callback] + $conversions`, so the target moves to the front. */
    method Conversion(target: string, callback: nat)
      modifies this
      ensures conversions == [(target, callback)] + Remove(old(conversions), target)
    {
      conversions := [(target, callback)] + Remove(conversions, target);
    }

    /** `getConversion`: the first registered type, in order, that the target is an instance of. */
    method GetConversion(env: Env, target: Value) returns (r: Option<nat>)
      ensures r == FirstCallback(env, conversions, target, 0)
    {
      var i := 0;
      while i < |conversions|
        invariant 0 <= i <= |conversions|
        invariant FirstCallback(env, conversions, target, 0) == FirstCallback(env, conversions, target, i)
      {
        if IsA(env, target, conversions[i].0) {
          return Some(conversions[i].1);
        }
        i := i + 1;
      }
      r := None;
    }

    /** `convert`. */
    method Convert(env: Env, item: Value) returns (r: Value)
      decreases item, 2
      ensures r == Converted(env, conversions, item)
    {
      var convert := GetConversion(env, item);
      if convert.Some? {
        return env.callback(convert.value, item);
      }
      if !IsIterable(item) {
        return item;
      }
      var entries := ConvertItems(env, item);
      r := Arr(entries);
    }

    /** The loop of `convert` over the items of an iterable. */
    method ConvertItems(env: Env, item: Value) returns (result: PhpArray<Value>)
      requires IsIterable(item)
      decreases item, 1
      ensures result == ConvertedItems(env, conversions, item, |Items(item)|)
    {
      result := [];
      var i := 0;
      while i < |Items(item)|
        invariant 0 <= i <= |Items(item)|
        invariant result == ConvertedItems(env, conversions, item, i)
      {
        result := ConvertItem(env, item, i, result);
        i := i + 1;
      }
    }

    /** One round of the loop of `convert`. */
    method ConvertItem(env: Env, item: Value, i: nat, result: PhpArray<Value>) returns (result': PhpArray<Value>)
      requires IsIterable(item) && i < |Items(item)|
      requires result == ConvertedItems(env, conversions, item, i)
      decreases item, 0
      ensures result' == ConvertedItems(env, conversions, item, i + 1)
    {
      var e := Items(item)[i];
      assert if item.Arr? then e in item.entries else e in item.fields;
      ConvertedItemsNext(env, conversions, item, i);
      var converted := Convert(env, e.1);
      result' := Put(result, e.0, converted);
    }
  }

  /** Registering a type again moves it to the front with its new callback and leaves the others as they were. */
  lemma ConversionReplaces(conversions: PhpArray<nat>, target: string, callback: nat, x: string)
    requires DistinctKeys(conversions)
    ensures var r := [(target, callback)] + Remove(conversions, target);
      && DistinctKeys(r)
      && Get(r, target) == Some(callback)
      && (x != target ==> Get(r, x) == Get(conversions, x))
  {
    var rest := Remove(conversions, target);
    ConsDistinct((target, callback), rest);
    GetCons((target, callback), rest, x);
  }
}
