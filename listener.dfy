/**
 * The DTO listener (Manipulators/Listener.php): a map from DTO classes to
 * listener classes, and the listener instances created so far. Reading or
 * writing a property calls the listener's `get<Property>` or
 * `set<Property>` method when the listener of the DTO class has one.
 */
module Listeners {
  import opened Wrappers
  import opened PhpArrays
  import opened Values
  import opened Strings

  /** `ucwords($s, '_')`: the first character and every character that follows '_' in upper case. */
  function UcWords(s: string): (r: string)
    ensures |r| == |s|
    ensures forall i :: 0 <= i < |s| ==> r[i] == if i == 0 || s[i - 1] == '_' then ToUpper(s[i]) else s[i]
  {
    seq(|s|, i requires 0 <= i < |s| => if i == 0 || s[i - 1] == '_' then ToUpper(s[i]) else s[i])
  }

  /** `str_replace('_', '', $s)`. */
  function RemoveUnderscores(s: string): (r: string)
    ensures '_' !in r
    ensures |r| <= |s|
  {
    if s == [] then []
    else if s[0] == '_' then RemoveUnderscores(s[1..])
    else [s[0]] + RemoveUnderscores(s[1..])
  }

  /** The property name in studly caps, as the listener method names use it. */
  function StudlyName(property: string): string
  {
    RemoveUnderscores(UcWords(property))
  }

  /** A listener method name: the prefix, then the property in studly caps, with no '_' left. */
  function MethodName(prefix: string, property: string): (m: string)
    ensures |m| >= |prefix| && m[..|prefix|] == prefix && '_' !in m[|prefix|..]
  {
    assert (prefix + StudlyName(property))[|prefix|..] == StudlyName(property);
    prefix + StudlyName(property)
  }

  /** The listener method `getting` looks for. */
  function GetterName(property: string): string
  {
    MethodName("get", property)
  }

  /** The listener method `setting` looks for. */
  function SetterName(property: string): string
  {
    MethodName("set", property)
  }

  lemma {:induction false} RemoveUnderscoresAppend(a: string, b: string)
    ensures RemoveUnderscores(a + b) == RemoveUnderscores(a) + RemoveUnderscores(b)
  {
    if a != [] {
      assert (a + b)[0] == a[0] && (a + b)[1..] == a[1..] + b;
      RemoveUnderscoresAppend(a[1..], b);
    } else {
      assert a + b == b;
    }
  }

  /** A word without underscores keeps its letters and gets its first one capitalised. */
  lemma {:induction false} StudlyWord(w: string)
    requires w != [] && '_' !in w
    ensures StudlyName(w) == [ToUpper(w[0])] + w[1..]
  {
    var u := UcWords(w);
    assert u == [ToUpper(w[0])] + w[1..];
    RemoveUnderscoresAppend([ToUpper(w[0])], w[1..]);
    NoUnderscoreKept(w[1..]);
  }

  lemma {:induction false} NoUnderscoreKept(s: string)
    requires '_' !in s
    ensures RemoveUnderscores(s) == s
  {
    if s != [] {
      assert s[0] in s;
      assert forall c :: c in s[1..] ==> c in s;
      NoUnderscoreKept(s[1..]);
    }
  }

  /** Every '_'-separated word is capitalised separately and the underscore dropped. */
  lemma StudlyJoin(a: string, b: string)
    ensures StudlyName(a + "_" + b) == StudlyName(a) + StudlyName(b)
  {
    var s := a + "_" + b;
    var ub := UcWords(b);
    assert UcWords(s) == UcWords(a) + "_" + ub by {
      forall i | 0 <= i < |s| ensures UcWords(s)[i] == (UcWords(a) + "_" + ub)[i] {
        if i > |a| {
          assert s[i] == b[i - |a| - 1];
          if i > |a| + 1 {
            assert s[i - 1] == b[i - |a| - 2];
          }
        } else if i == |a| {
        } else if i > 0 {
          assert s[i - 1] == a[i - 1];
        }
      }
    }
    RemoveUnderscoresAppend(UcWords(a) + "_", ub);
    RemoveUnderscoresAppend(UcWords(a), "_");
  }

  /** The method names of ListenerTest. */
  lemma NullableMethodNames()
    ensures GetterName("nullable") == "getNullable"
    ensures SetterName("nullable") == "setNullable"
  {
    StudlyWord("nullable");
    assert ToUpper('n') == 'N';
  }

  lemma StudlyFirst()
    ensures StudlyName("first") == "First"
  {
    StudlyWord("first");
    assert ToUpper('f') == 'F';
  }

  lemma StudlyNameWord()
    ensures StudlyName("name") == "Name"
  {
    StudlyWord("name");
    assert ToUpper('n') == 'N';
  }

  /** A two-word property: both words are capitalised. */
  lemma FirstNameMethodName()
    ensures GetterName("first_name") == "getFirstName"
  {
    StudlyFirst();
    StudlyNameWord();
    assert "first_name" == "first" + "_" + "name";
    StudlyJoin("first", "name");
  }

  /** What the listener holds: the listeners map, and the class of the instance created for each DTO class. */
  datatype Listening = Listening(listeners: PhpArray<string>, cache: map<string, string>)

  /**
   * `callListenerOrReturnValue`: the value is returned as is unless the
   * listener registered for the DTO class has the method; then the method of
   * the cached instance (created on first use) transforms it.
   */
  function CallOutcome(env: Env, st: Listening, dtoClass: string, name: string, v: Value): (r: (Value, Listening))
    ensures r.1.listeners == st.listeners
    ensures r.1.cache.Keys >= st.cache.Keys && forall c :: c in st.cache ==> r.1.cache[c] == st.cache[c]
    ensures Get(st.listeners, dtoClass).None? ==> r == (v, st)
    ensures Get(st.listeners, dtoClass).Some? && !env.methodExists(Get(st.listeners, dtoClass).value, name) ==> r == (v, st)
  {
    match Get(st.listeners, dtoClass)
    case None => (v, st)
    case Some(listener) =>
      if !env.methodExists(listener, name) then (v, st)
      else
        var cache := if dtoClass in st.cache then st.cache else st.cache[dtoClass := listener];
        (env.callListener(cache[dtoClass], name, v), Listening(st.listeners, cache))
  }

  /** `getting`. */
  function GettingOutcome(env: Env, st: Listening, dtoClass: string, property: string, v: Value): (Value, Listening)
  {
    CallOutcome(env, st, dtoClass, GetterName(property), v)
  }

  /** `setting`. */
  function SettingOutcome(env: Env, st: Listening, dtoClass: string, property: string, v: Value): (Value, Listening)
  {
    CallOutcome(env, st, dtoClass, SetterName(property), v)
  }

  /**
   * The instance created for a DTO class is the one every later call uses,
   * even after `listen` registered another listener class for it.
   */
  lemma InstanceReused(env: Env, st: Listening, dtoClass: string, name: string, v: Value,
                       newListeners: PhpArray<string>, name': string, v': Value)
    requires Get(st.listeners, dtoClass).Some? && env.methodExists(Get(st.listeners, dtoClass).value, name)
    requires Get(newListeners, dtoClass).Some? && env.methodExists(Get(newListeners, dtoClass).value, name')
    ensures var first := CallOutcome(env, st, dtoClass, name, v).1;
      var second := CallOutcome(env, Listening(newListeners, first.cache), dtoClass, name', v');
      && second.0 == env.callListener(first.cache[dtoClass], name', v')
      && second.1.cache == first.cache
      && (dtoClass !in st.cache ==> first.cache[dtoClass] == Get(st.listeners, dtoClass).value)
  {
  }

  /** With nobody listening nothing changes. */
  lemma NoListeners(env: Env, cache: map<string, string>, dtoClass: string, property: string, v: Value)
    ensures GettingOutcome(env, Listening([], cache), dtoClass, property, v) == (v, Listening([], cache))
    ensures SettingOutcome(env, Listening([], cache), dtoClass, property, v) == (v, Listening([], cache))
  {
  }

  class Listener {
    var listenersMap: PhpArray<string>
    /** The class of the instance created for each DTO class. */
    var cachedListeners: map<string, string>

    function State(): Listening
      reads this
    {
      Listening(listenersMap, cachedListeners)
    }

    constructor()
      ensures listenersMap == [] && cachedListeners == map[]
    {
      listenersMap := [];
      cachedListeners := map[];
    }

    /** `listen`: the whole map is replaced; the instances already created are kept. */
    method Listen(listenersMap: PhpArray<string>)
      modifies this
      ensures this.listenersMap == listenersMap && cachedListeners == old(cachedListeners)
    {
      this.listenersMap := listenersMap;
    }

    /** `addListener`: only the entry of that DTO class changes. */
    method AddListener(dtoClass: string, listener: string)
      modifies this
      ensures listenersMap == Put(old(listenersMap), dtoClass, listener) && cachedListeners == old(cachedListeners)
      ensures forall c :: Get(listenersMap, c) == if c == dtoClass then Some(listener) else Get(old(listenersMap), c)
    {
      forall c ensures Get(Put(listenersMap, dtoClass, listener), c) == if c == dtoClass then Some(listener) else Get(listenersMap, c) {
        PutGet(listenersMap, dtoClass, listener, c);
      }
      listenersMap := Put(listenersMap, dtoClass, listener);
    }

    /** `removeListener`: only the entry of that DTO class changes. */
    method RemoveListener(dtoClass: string)
      modifies this
      ensures listenersMap == Remove(old(listenersMap), dtoClass) && cachedListeners == old(cachedListeners)
      ensures forall c :: Get(listenersMap, c) == if c == dtoClass then None else Get(old(listenersMap), c)
    {
      listenersMap := Remove(listenersMap, dtoClass);
    }

    method GetListeners() returns (r: PhpArray<string>)
      ensures r == listenersMap
    {
      r := listenersMap;
    }

    method CallListenerOrReturnValue(env: Env, dtoClass: string, name: string, v: Value) returns (r: Value)
      modifies this
      ensures (r, State()) == CallOutcome(env, old(State()), dtoClass, name, v)
    {
      var listener := Get(listenersMap, dtoClass);
      if listener.None? || !env.methodExists(listener.value, name) {
        return v;
      }
      if dtoClass !in cachedListeners {
        cachedListeners := cachedListeners[dtoClass := listener.value];
      }
      r := env.callListener(cachedListeners[dtoClass], name, v);
    }

    method Getting(env: Env, dtoClass: string, property: string, v: Value) returns (r: Value)
      modifies this
      ensures (r, State()) == GettingOutcome(env, old(State()), dtoClass, property, v)
    {
      r := CallListenerOrReturnValue(env, dtoClass, "get" + StudlyName(property), v);
    }

    method Setting(env: Env, dtoClass: string, property: string, v: Value) returns (r: Value)
      modifies this
      ensures (r, State()) == SettingOutcome(env, old(State()), dtoClass, property, v)
    {
      r := CallListenerOrReturnValue(env, dtoClass, "set" + StudlyName(property), v);
    }
  }
}
