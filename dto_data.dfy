/**
 * The data manipulations a DTO performs on plain values: dotted property
 * paths, `resolveNestedValue`, `array_replace_recursive`, and the lookup of
 * a dotted path inside nested DTOs (`getProperty` once the first segment
 * named a DTO).
 */
module DtoData {
  import opened Wrappers
  import opened PhpArrays
  import opened Values
  import opened Strings
  import opened Listeners

  lemma {:induction false} FirstIndexOf(a: string, b: string, c: char)
    requires c !in a
    ensures c in a + [c] + b
    ensures FirstIndex(a + [c] + b, c) == |a|
  {
    assert (a + [c] + b)[|a|] == c;
    if a != [] {
      assert a[0] in a;
      assert (a + [c] + b)[1..] == a[1..] + [c] + b;
      assert forall x :: x in a[1..] ==> x in a;
      FirstIndexOf(a[1..], b, c);
    }
  }

  /** `explode('.', $path, 2)` splits at the first '.' when there is one; the rest may contain more dots. */
  lemma SplitFirstOf(a: string, b: string, c: char)
    requires c !in a
    ensures c in a + [c] + b
    ensures SplitFirst(a + [c] + b, c) == (a, b)
  {
    FirstIndexOf(a, b, c);
    var s := a + [c] + b;
    assert s[..|a|] == a && s[|a| + 1..] == b;
  }

  /**
   * `resolveNestedValue`: one single-key array per segment of the path, the
   * value innermost.
   */
  function ResolveNestedValue(path: string, v: Value): (r: Value)
    ensures r.Arr? && |r.entries| == 1
    decreases |path|
  {
    if '.' !in path then Arr([(path, v)])
    else
      var (head, rest) := SplitFirst(path, '.');
      Arr([(head, ResolveNestedValue(rest, v))])
  }

  /** The value stored under a dotted path of nested arrays. */
  function Dig(x: Value, path: string): Option<Value>
    decreases |path|
  {
    if !x.Arr? then None
    else if '.' !in path then Get(x.entries, path)
    else
      var (head, rest) := SplitFirst(path, '.');
      match Get(x.entries, head)
      case None => None
      case Some(inner) => Dig(inner, rest)
  }

  /** Following the path back through the nested arrays finds the value. */
  lemma {:induction false} DigResolved(path: string, v: Value)
    ensures Dig(ResolveNestedValue(path, v), path) == Some(v)
    decreases |path|
  {
    if '.' in path {
      var (head, rest) := SplitFirst(path, '.');
      DigResolved(rest, v);
    }
  }

  /** The nesting `resolveNestedValue` builds for the segments of a path, outermost first. */
  function Nest(segments: seq<string>, v: Value): Value
    requires |segments| >= 1
  {
    if |segments| == 1 then Arr([(segments[0], v)]) else Arr([(segments[0], Nest(segments[1..], v))])
  }

  /** One level per segment: the path "a.b.c" gives ["a" => ["b" => ["c" => v]]]. */
  lemma {:induction false} ResolveSegments(segments: seq<string>, v: Value)
    requires |segments| >= 1 && forall i :: 0 <= i < |segments| ==> '.' !in segments[i]
    ensures ResolveNestedValue(Implode(segments, '.'), v) == Nest(segments, v)
  {
    if |segments| == 1 {
    } else {
      var rest := Implode(segments[1..], '.');
      assert Implode(segments, '.') == segments[0] + ['.'] + rest;
      SplitFirstOf(segments[0], rest, '.');
      ResolveSegments(segments[1..], v);
    }
  }

  lemma ResolveExample(v: Value)
    ensures ResolveNestedValue("a.b.c", v) == Arr([("a", Arr([("b", Arr([("c", v)]))]))])
  {
    assert Implode(["a", "b", "c"], '.') == "a.b.c";
    ResolveSegments(["a", "b", "c"], v);
  }

  /**
   * `array_replace_recursive($base, $replacements)`: every replacement key,
   * in order, overwrites or appends its value, except that an array
   * replacing an array is merged into it key by key.
   */
  function ReplaceRecursive(base: PhpArray<Value>, replacements: PhpArray<Value>): (r: PhpArray<Value>)
    ensures Keys(r) == PutKeys(Keys(base), Keys(replacements))
  {
    assert Keys(replacements)[..|replacements|] == Keys(replacements);
    Replaced(base, Arr(replacements), |replacements|)
  }

  /** The replacement loop after the first `n` replacements. */
  function Replaced(base: PhpArray<Value>, replacements: Value, n: nat): (r: PhpArray<Value>)
    requires replacements.Arr? && n <= |replacements.entries|
    ensures Keys(r) == PutKeys(Keys(base), Keys(replacements.entries)[..n])
    decreases replacements, n
  {
    if n == 0 then base
    else
      var acc := Replaced(base, replacements, n - 1);
      var e := replacements.entries[n - 1];
      assert e in replacements.entries;
      assert Keys(replacements.entries)[..n][..n - 1] == Keys(replacements.entries)[..n - 1];
      PutKeysAfter(acc, e.0, Replacement(Get(acc, e.0), e.1));
      Put(acc, e.0, Replacement(Get(acc, e.0), e.1))
  }

  /** The value `array_replace_recursive` stores for a replaced key. */
  function Replacement(current: Option<Value>, v: Value): Value
    decreases v, if v.Arr? then |v.entries| + 1 else 0
  {
    if current.Some? && current.value.Arr? && v.Arr? then Arr(Replaced(current.value.entries, v, |v.entries|)) else v
  }

  /** The keys of the base keep their places; the new keys follow in order. */
  lemma ReplaceRecursiveKeys(base: PhpArray<Value>, replacements: PhpArray<Value>)
    ensures Keys(base) <= Keys(ReplaceRecursive(base, replacements))
    ensures forall x :: x in Keys(ReplaceRecursive(base, replacements)) <==> x in Keys(base) || x in Keys(replacements)
  {
    PutKeysHas(Keys(base), Keys(replacements));
  }

  lemma {:induction false} ReplacedGet(base: PhpArray<Value>, replacements: Value, n: nat, x: string)
    requires replacements.Arr? && n <= |replacements.entries| && DistinctKeys(replacements.entries)
    ensures Get(Replaced(base, replacements, n), x) ==
      match Get(replacements.entries[..n], x)
      case None => Get(base, x)
      case Some(v) => Some(Replacement(Get(base, x), v))
  {
    if n > 0 {
      var entries := replacements.entries;
      var acc := Replaced(base, replacements, n - 1);
      var e := entries[n - 1];
      assert entries[..n] == entries[..n - 1] + [e];
      ReplacedGet(base, replacements, n - 1, x);
      ReplacedGet(base, replacements, n - 1, e.0);
      KeysPrefixStep(entries, n - 1);
      assert Keys(entries[..n - 1]) == Keys(entries)[..n - 1];
      assert Get(entries[..n - 1], e.0).None?;
      var merged := Replacement(Get(acc, e.0), e.1);
      assert Replaced(base, replacements, n) == Put(acc, e.0, merged);
      PutGet(acc, e.0, merged, x);
      GetSnoc(entries[..n - 1], e, x);
      if x == e.0 {
        assert Get(entries[..n], x) == Some(e.1);
        assert Get(acc, x) == Get(base, x);
      } else {
        assert Get(entries[..n], x) == Get(entries[..n - 1], x);
        assert Get(Replaced(base, replacements, n), x) == Get(acc, x);
      }
    }
  }

  /**
   * Each key reads as the replacements say, merged with the base when both
   * sides hold arrays; the keys the replacements do not mention read as in
   * the base.
   */
  lemma ReplaceRecursiveGet(base: PhpArray<Value>, replacements: PhpArray<Value>, x: string)
    requires DistinctKeys(replacements)
    ensures Get(ReplaceRecursive(base, replacements), x) ==
      match Get(replacements, x)
      case None => Get(base, x)
      case Some(v) => Some(Replacement(Get(base, x), v))
  {
    ReplacedGet(base, Arr(replacements), |replacements|, x);
    assert replacements[..|replacements|] == replacements;
  }

  /** Replacing with nothing leaves the array as it is. */
  lemma ReplaceNothing(base: PhpArray<Value>)
    ensures ReplaceRecursive(base, []) == base
  {
  }

  /**
   * `getProperty` inside a nested DTO value, then `value()` of what it
   * finds: the DTO holding the property, the key in it, and its value. An
   * exact key wins; otherwise the first segment is read with `get` (which
   * consults the listener) and must be a DTO for the rest of the path.
   * The listener state is threaded through every `get`, failed or not.
   */
  function NestedProperty(env: Env, st: Listening, dto: Value, path: string): (r: (Result<(Value, string, Value)>, Listening))
    requires IsDtoInstance(dto)
    ensures r.0.Success? ==> IsDtoInstance(r.0.value.0) && Get(r.0.value.0.fields, r.0.value.1) == Some(r.0.value.2)
    ensures r.0.Failure? ==> r.0.error.UnknownProperty?
    ensures r.1.listeners == st.listeners
    decreases |path|
  {
    match Get(dto.fields, path)
    case Some(v) => (Success((dto, path, v)), st)
    case None =>
      if '.' !in path then (Failure(UnknownProperty(dto.cls, path)), st)
      else
        var (head, rest) := SplitFirst(path, '.');
        match Get(dto.fields, head)
        case None => (Failure(UnknownProperty(dto.cls, head)), st)
        case Some(hv) =>
          var (presumed, st') := GettingOutcome(env, st, dto.cls, head, hv);
          if IsDtoInstance(presumed) then NestedProperty(env, st', presumed, rest)
          else (Failure(UnknownProperty(dto.cls, rest)), st')
  }

  /**
   * Nobody listening: a dotted path finds the value `Dig` finds in the DTO
   * values, provided every segment but the last names a DTO and no segment
   * but the first contains a key with a dot.
   */
  lemma {:induction false} NestedPropertyUnheard(env: Env, cache: map<string, string>, dto: Value, head: string, key: string, inner: Value)
    requires IsDtoInstance(dto) && IsDtoInstance(inner) && '.' !in head
    requires Get(dto.fields, head + "." + key).None?
    requires Get(dto.fields, head) == Some(inner) && Get(inner.fields, key).Some?
    ensures NestedProperty(env, Listening([], cache), dto, head + "." + key).0 == Success((inner, key, Get(inner.fields, key).value))
  {
    assert head + "." + key == head + ['.'] + key;
    SplitFirstOf(head, key, '.');
  }
}
