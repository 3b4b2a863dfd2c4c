# cerbero90/dto — a Dafny model

This project models the core of the PHP library cerbero90/dto. The library builds data transfer objects
(DTOs) from arrays. A DTO class declares its properties in `@property` doc-comment tags, with PHP types
such as `int|null` or `SampleDto[]`.

The model covers:

- the flag word (`DtoFlags`) and how flags are merged (`DtoFlagsHandler`);
- property types and unions of types, and how a raw value is matched against them;
- the properties mapper, which turns the doc comment and an input array into property cells;
- property cells: validation, the cast of raw values into nested DTOs, and the value processor;
- the error message of `UnexpectedValueException`;
- the two array converters, both turning DTO values back into arrays:
  - the callback-based `src/ArrayConverter.php`;
  - the class-based `src/Manipulators/ArrayConverter.php`, with snake-cased keys;
- the listener registry that intercepts `get`/`set`;
- the DTO itself, in the two generations the repository holds:
  - the trait-based DTO (`HasFlags`, `HasProperties`, `HasValues`, `ManipulatesData`, `TurnsIntoArray`), as
    module `Dtos`;
  - the self-contained `src/Dto.php`, as module `LegacyDtos`.

Values are a datatype: `Value` is null, bool, int, float, string, array or object. A PHP array is a
`PhpArray<V>`, a sequence of (key, value) pairs that keeps insertion order; `PhpArrays` gives the
behaviour of `$a[$k]`, `$a[$k] = $v`, `unset($a[$k])`, `array_diff` and `in_array`. Objects whose fields
the source updates in place are classes:

- `DtoPropertyType`, `DtoPropertyTypes` and `DtoProperty`;
- the mapper and its per-class registry;
- both converters and the listener;
- the DTO classes.

Their methods are proved against specification functions on values. For example, `Dtos.Dto.Set`
is stated through `Dtos.SetOutcome`, and `Dtos.Dto.ToArray` through `DtoStates.Exported`. A DTO's state
is summarised by `Snapshot()`, the sequence of its cells' raw values, flags and type facts.

The PHP runtime is passed in as an `Env` value. It supplies `is_subclass_of`, `class_exists`, `settype`,
`Dto::make` on a nested class, converter and listener instances, and writes into nested DTO objects.

## Model

| member | source | states |
|---|---|---|
| DtoFlags.FlagsAreDistinctBits | src/DtoFlags.php:15-50 | every declared flag is a single bit and no two flags share a bit |
| DtoFlagsHandler.ValidateFlags | src/DtoFlagsHandler.php:35-42 | fails exactly when both NULLABLE and NOT_NULLABLE are set, with IncompatibleDtoFlags naming both |
| DtoFlagsHandler.OverrideFlags | src/DtoFlagsHandler.php:51-62 | every overriding flag is in the result |
| DtoFlagsHandler.OverrideAddsNothing | src/DtoFlagsHandler.php:51-62 | the result holds no bit that is in neither input |
| DtoFlagsHandler.OverrideKeepsOtherFlags | src/DtoFlagsHandler.php:51-62 | every initial flag other than NULLABLE/NOT_NULLABLE survives |
| DtoFlagsHandler.OverridingNullabilityWins | src/DtoFlagsHandler.php:53-59 | an overriding NOT_NULLABLE drops the initial NULLABLE and vice versa |
| DtoFlagsHandler.InitialNullabilityKept | src/DtoFlagsHandler.php:53-59 | without an overriding nullability flag the initial one is kept |
| DtoFlagsHandler.OverrideIdempotent | src/DtoFlagsHandler.php:51-62 | overriding twice with the same flags changes nothing more |
| DtoFlagsHandler.Merge | src/DtoFlagsHandler.php:20-26 | fails iff either input has both nullability flags; otherwise it is the override of the initial flags |
| DtoFlagsHandler.MergeIsCompatible | src/DtoFlagsHandler.php:20-26 | a successful merge never holds both NULLABLE and NOT_NULLABLE |
| DtoFlagsHandler.MergeNone | src/DtoFlagsHandler.php:20-26 | NONE is a left and right unit of merge |
| DtoFlagsHandler.MergeIdempotent | src/DtoFlagsHandler.php:20-26 | merging compatible flags with themselves returns them |
| DtoFlagsHandler.MergeTwice | src/DtoFlagsHandler.php:20-26 | merging the same flags a second time changes nothing |
| DtoFlagsHandler.HandlerExamples | tests/DtoFlagsHandlerTest.php:33-60 | the validation, override and merge results the handler's tests expect |
| PropertyType.DtoPropertyType.constructor | src/DtoPropertyType.php:41-45 | the type keeps its name and collection flag |
| PropertyType.DtoPropertyType.Matches | src/DtoPropertyType.php:73-84 | the answer is the declared acceptance of the value: mixed, `is_a`, or `gettype` through the alias map, item by item for a collection; it states the collection flag left behind |
| PropertyType.DtoPropertyType.MatchesCollection | src/DtoPropertyType.php:92-107 | a non-iterable value is rejected; otherwise the answer is "every item matches" and the collection flag is left equal to that answer |
| PropertyType.DtoPropertyType.MatchesStable | src/DtoPropertyType.php:73-107 | the same acceptance without writing the collection flag |
| PropertyType.CollectionTypeAfterFailedMatch | src/DtoPropertyType.php:97-104 | a `string[]` type that rejected `['a', 1]` then accepts the plain string 'x', which its declaration excludes |
| PropertyType.CollectionTypeStableMatch | src/DtoPropertyType.php:92-107 | with the stable match the same two values are both rejected |
| PropertyType.AcceptsExamples | tests/DtoPropertyTypeTest.php:30-115 | scalar, mixed, array and collection acceptance on the test suite's kind of inputs |
| PropertyTypes.FirstDtoSnoc | src/DtoPropertyTypes.php:80 | the expected DTO is the first DTO type added and later types never replace it |
| PropertyTypes.SummarizeIncludes | src/DtoPropertyTypes.php:76-79 | includeNull/includeArray/includeBool/expectCollection hold iff some added type is null/array/bool/a collection |
| PropertyTypes.SummarizeDeclaredNames | src/DtoPropertyTypes.php:81 | one declared name per added type, in order, with `[]` for collections |
| PropertyTypes.SummarizeExpectedDto | src/DtoPropertyTypes.php:80 | the expected DTO is the first DTO type's name |
| PropertyTypes.FirstDtoIsDeclared | src/DtoPropertyTypes.php:80 | the expected DTO is one of the added DTO types |
| PropertyTypes.DefaultIsAccepted | src/DtoPropertyTypes.php:109-130 | when a default exists and no `bool[]` is declared, the default is accepted by the union (or is null on a union with null) |
| PropertyTypes.BoolDefaultAccepted | src/DtoPropertyTypes.php:127-128 | false is accepted by a union that names bool |
| PropertyTypes.ArrayDefaultAccepted | src/DtoPropertyTypes.php:125-126 | the empty array is accepted by a union with array or a collection |
| PropertyTypes.BoolCollectionDefaultRejected | src/DtoPropertyTypes.php:109-130 | a lone `bool[]` with BOOL_DEFAULT_TO_FALSE gets the default false, which its own union rejects |
| PropertyTypes.DtoPropertyTypes.constructor | src/DtoPropertyTypes.php:15-66 | a new union holds no types |
| PropertyTypes.DtoPropertyTypes.AddType | src/DtoPropertyTypes.php:73-84 | appends the type and updates every summary field as one step of Summarize |
| PropertyTypes.DtoPropertyTypes.Match | src/DtoPropertyTypes.php:92-101 | with the corrected per-type match: true iff some added type, as declared, accepts the value; no type is changed |
| PropertyTypes.DtoPropertyTypes.MatchAsWritten | src/DtoPropertyTypes.php:92-101 | as written, through each type's `matches`: true iff some type accepts the value in its current state; every collection type before the first accepting one that was handed an iterable is left as a non-collection |
| PropertyTypes.UnionAfterFailedMatch | src/DtoPropertyType.php:97-104 | through the union as written, a `string[]` property that rejected `['a', 1]` then accepts 'x' |
| PropertyTypes.DtoPropertyTypes.Clone | src/DtoProperty.php:225-228 | a fresh union with the same types and the same summary |
| Property.CastItem | src/DtoProperty.php:160 | an item that already is the expected DTO is kept as it is |
| Property.CastItems | src/DtoProperty.php:159-161 | the cast keeps the collection's keys and casts each item; a failure is the failure of some item |
| Property.CastRawValue | src/DtoProperty.php:136-162 | null or no expected DTO keeps the raw value; a collection keeps its keys; a non-array collection is a TypeError |
| Property.Validation | src/DtoProperty.php:94-123 | null passes iff the property is nullable; otherwise it passes iff the union accepts the processed value; the error is UnexpectedValueException with its message |
| Property.NullableFlagsDecide | src/DtoProperty.php:116-123 | NOT_NULLABLE rejects null; otherwise NULLABLE accepts it |
| Property.DtoProperty.constructor | src/DtoProperty.php:63-69 | the cell keeps name, raw value, types and flags, and holds no processed value yet |
| Property.DtoProperty.Create | src/DtoProperty.php:81-86 | succeeds iff validation passes; a failure is the validation error |
| Property.DtoProperty.Validate | src/DtoProperty.php:94-109 | returns the validation outcome and keeps the raw value and flags |
| Property.DtoProperty.Value | src/DtoProperty.php:130-140 | returns the cast of the raw value; once processed, later calls change nothing |
| Property.DtoProperty.SetValue | src/DtoProperty.php:211-218 | stores the raw value and flags, then returns their validation outcome |
| Property.DtoProperty.Clone | src/DtoProperty.php:225-228 | a fresh cell with a fresh copy of its types and the same name, value, flags and memo |
| ValueProcessor.ProcessValue | src/DtoPropertyValueProcessor.php:69-95 | fails only when a DTO is expected and the value is not one; keeps a value that already is the DTO, or any value when there is nothing to cast |
| ValueProcessor.DtoPropertyValueProcessor.constructor | src/DtoPropertyValueProcessor.php:23-26 | the processor keeps its property and expectations |
| ValueProcessor.DtoPropertyValueProcessor.ProcessCollection | src/DtoPropertyValueProcessor.php:52-61 | on success every item is processed under its own key; on failure the error is the first failing item's |
| ValueProcessor.DtoPropertyValueProcessor.Process | src/DtoPropertyValueProcessor.php:33-44 | null stays null; a single value is processed; a collection is processed item by item, and a non-iterable one is a TypeError |
| UnexpectedValue.Message | src/Exceptions/UnexpectedValueException.php:38-56 | the message starts with "Invalid type: expected '<name>' to be " and the types text |
| UnexpectedValue.TypesTextCases | src/Exceptions/UnexpectedValueException.php:40-46 | one type reads "of type 'T'", two read "one of these types: 'T1', 'T2'" |
| Values.GetType | src/DtoPropertyType.php:83 | `gettype` answers one of PHP's seven type names |
| Strings.Explode | src/Traits/HasProperties.php:83 | `explode` gives at least one part and no part holds the separator |
| Strings.RemoveBrackets | src/DtoPropertiesMapper.php:230-231 | `str_replace('[]', '', $t, $count)`: the count is zero iff the type holds no `[]`, and each removal shortens the text by two |
| Strings.Lowercase | src/Manipulators/ArrayConverter.php:157 | `strtolower` lower-cases each character and keeps the length |
| Strings.ParseNatToString | src/Exceptions/UnexpectedValueException.php:55 | the decimal text of a number reads back as that number |
| Strings.ImplodeExplode | src/Traits/HasProperties.php:83 | splitting a path at '.' and joining it back gives the path |
| Strings.SplitFirst | src/Traits/HasProperties.php:83 | `explode('.', $p, 2)` splits at the first '.', the head holds no '.' and the parts rebuild the path |
| PhpArrays.Get | src/Traits/HasProperties.php:75 | a key lookup succeeds iff the key is present and then yields that key's value |
| PhpArrays.PutGet | src/Traits/HasProperties.php:110 | after `$a[$k] = $v`, `$k` reads v and every other key reads as before |
| PhpArrays.PutKeysAfter | src/Traits/TurnsIntoArray.php:30 | an assignment appends a new key and keeps the order of existing keys |
| PhpArrays.Remove | src/Traits/HasValues.php:106 | `unset($a[$k])` removes exactly k and keeps every other entry |
| PhpArrays.RemoveIsWithout | src/Traits/HasValues.php:106 | `unset` on a key-distinct array keeps exactly the other entries, in order |
| PhpArrays.PutThenRemoveFresh | src/Traits/HasProperties.php:110 | assigning a new key and unsetting it again gives back the array |
| PhpArrays.Listed | src/Traits/ManipulatesData.php:51-56 | keeps, in order, exactly the entries whose key is listed |
| PhpArrays.Difference | src/Traits/ManipulatesData.php:76 | `array_diff` keeps exactly the names of the first list that the second does not hold |
| Converters.SnakeCase | src/Manipulators/ArrayConverter.php:151-158 | the formatted key holds no upper-case letter |
| Converters.SnakeCaseIdempotent | src/Manipulators/ArrayConverter.php:157 | formatting a formatted key changes nothing |
| Converters.BoundariesNeedUpper | src/Manipulators/ArrayConverter.php:17 | a key with no upper-case letter gets no underscore |
| Converters.SnakeCaseKeyOne | tests/ArrayConverterTest.php:163-177 | single-input test mirror: 'keyOne' becomes 'key_one' |
| Converters.SnakeCaseKeyTwo | tests/ArrayConverterTest.php:163-177 | single-input test mirror: 'keyTwo' becomes 'key_two' |
| Converters.SnakeCaseCapitals | src/Manipulators/ArrayConverter.php:17 | 'URL' becomes 'url': no boundary between capitals |
| Converters.FirstConversionSpec | src/Manipulators/ArrayConverter.php:123-128 | the chosen conversion is the first one whose type the object is; none iff no type matches |
| Converters.ByInstance | src/Manipulators/ArrayConverter.php:115-131 | a cached class answers from the cache; otherwise the first matching conversion decides, and a miss leaves the cache alone |
| Converters.ByInstanceCaches | src/Manipulators/ArrayConverter.php:126 | a found converter is cached under both the converter class and the matched type |
| Converters.ConvertedItemsKeys | src/Manipulators/ArrayConverter.php:98-101 | the result's keys are the formatted keys of the input in order |
| Converters.ConvertedItemsNext | src/Manipulators/ArrayConverter.php:98-101 | each item is written under its formatted key after the earlier ones |
| Converters.ConvertKeepsScalars | src/Manipulators/ArrayConverter.php:106 | a scalar is returned as it is |
| Converters.ConverterWins | src/Manipulators/ArrayConverter.php:91-93 | an object with a converter is turned into the converter's `fromDto` of it |
| Converters.WrittenKeysKept | src/Manipulators/ArrayConverter.php:153-155 | without snake case the keys are the input's keys |
| Converters.ConvertKeepsKeys | src/Manipulators/ArrayConverter.php:95-104 | converting an array without snake case keeps its keys |
| Converters.DeepSnakeCase | tests/ArrayConverterTest.php:163-177 | with snake case passed down, every key at every depth of plain data is snake-cased |
| Converters.NestedKeysKeptAsWritten | src/Manipulators/ArrayConverter.php:100 | as written, the nested 'keyOne' under 'keyTwo' stays camel-cased |
| Converters.NestedKeysSnakeCased | tests/ArrayConverterTest.php:163-177 | with snake case passed down, the nested key becomes 'key_one' |
| Converters.CacheClasses | src/Manipulators/ArrayConverter.php:38 | the cache of converter instances has the same keys as its class view |
| Converters.ValueConverter.constructor | src/Manipulators/ArrayConverter.php:139-142 | a resolved converter is an instance of the named class |
| Converters.ArrayConverter.constructor | src/Manipulators/ArrayConverter.php:31-47 | a new converter has no conversions and no cache |
| Converters.ArrayConverter.SetConversions | src/Manipulators/ArrayConverter.php:65-70 | replaces the conversions and keeps the cache |
| Converters.ArrayConverter.GetConverterByInstance | src/Manipulators/ArrayConverter.php:115-131 | returns and caches exactly what ByInstance says; a cached class is answered without change |
| Converters.ArrayConverter.GetConverterByClass | src/Manipulators/ArrayConverter.php:166-177 | a cached class is answered from the cache; otherwise a converter exists iff a non-empty conversion is registered, and it is then cached |
| Converters.ArrayConverter.Convert | src/Manipulators/ArrayConverter.php:89-107 | result and cache are the conversion as written: outer keys formatted as asked, nested items converted with snake case off |
| Converters.ArrayConverter.ConvertItems | src/Manipulators/ArrayConverter.php:95-104 | the loop builds the converted items as written: formatted keys, each value converted with snake case off |
| Converters.ArrayConverter.ConvertItem | src/Manipulators/ArrayConverter.php:99-100 | one loop step adds the next item under its formatted key, converted by `convert($value)` with the default flag |
| Converters.UnformattedIgnoresDepth | src/Manipulators/ArrayConverter.php:89-107 | with snake case off, passing the flag down or not gives the same result and cache, so the DTO's own calls of `convert` are unaffected by the dropped flag |
| Converters.ByClassTwice | src/Manipulators/ArrayConverter.php:166-177 | asking twice for the same class gives the same converter |
| LegacyConverters.FirstCallbackSpec | src/ArrayConverter.php:64-73 | the callback is the first registered one whose target the value is; none iff none matches |
| LegacyConverters.ConvertedItemsNext | src/ArrayConverter.php:90-92 | each item is written under its own key after the earlier ones |
| LegacyConverters.ConvertKeepsScalars | src/ArrayConverter.php:97 | a scalar with no conversion is returned as it is |
| LegacyConverters.ConvertedValuesAt | src/ArrayConverter.php:90-92 | the i-th converted value is the conversion of the i-th item |
| LegacyConverters.ConvertedItemsInOrder | src/ArrayConverter.php:87-95 | the result has the input's keys, in order, each with its converted value |
| LegacyConverters.ConversionReplaces | src/ArrayConverter.php:53 | a new conversion comes first, replaces one for the same target and keeps the others |
| LegacyConverters.ArrayConverter.constructor | src/ArrayConverter.php:20-33 | a new converter has no conversions |
| LegacyConverters.ArrayConverter.Conversion | src/ArrayConverter.php:51-56 | the new conversion is put in front of the others, replacing the old one for that target |
| LegacyConverters.ArrayConverter.GetConversion | src/ArrayConverter.php:64-73 | returns the first matching callback |
| LegacyConverters.ArrayConverter.Convert | src/ArrayConverter.php:81-98 | returns the specification's conversion of the item |
| LegacyConverters.ArrayConverter.ConvertItems | src/ArrayConverter.php:87-95 | the loop builds the specification's converted items |
| LegacyConverters.ArrayConverter.ConvertItem | src/ArrayConverter.php:90-92 | one loop step adds the next converted item |
| Listeners.UcWords | src/Manipulators/Listener.php:110 | `ucwords($p, '_')` upper-cases exactly the first letter and each letter after '_' |
| Listeners.RemoveUnderscores | src/Manipulators/Listener.php:110 | no '_' is left |
| Listeners.MethodName | src/Manipulators/Listener.php:110 | a listener method name is its prefix ("get" or "set") followed by the studly property name, with no '_' left |
| Listeners.StudlyJoin | src/Manipulators/Listener.php:110 | the studly name of `a_b` is the studly name of a followed by that of b |
| Listeners.StudlyWord | src/Manipulators/Listener.php:110 | a word without '_' only gets its first letter upper-cased |
| Listeners.NullableMethodNames | tests/ListenerTest.php:47-69 | single-input test mirror: 'nullable' gives getNullable and setNullable |
| Listeners.FirstNameMethodName | src/Manipulators/Listener.php:110 | single-input example: 'first_name' gives getFirstName |
| Listeners.CallOutcome | src/Manipulators/Listener.php:123-134 | the value is returned unchanged when no listener or no such method exists; the map is untouched and cached instances are kept |
| Listeners.InstanceReused | src/Manipulators/Listener.php:129-133 | a listener instance is created once per DTO class and reused by later calls |
| Listeners.NoListeners | src/Manipulators/Listener.php:123-128 | with no listeners registered, getting and setting return the value |
| Listeners.Listener.constructor | src/Manipulators/Listener.php:22-40 | a new listener has no map and no cached instances |
| Listeners.Listener.Listen | src/Manipulators/Listener.php:56-61 | replaces the listeners map |
| Listeners.Listener.AddListener | src/Manipulators/Listener.php:70-75 | maps the DTO class to the listener and keeps every other mapping |
| Listeners.Listener.RemoveListener | src/Manipulators/Listener.php:83-88 | removes the DTO class's listener and keeps every other mapping |
| Listeners.Listener.GetListeners | src/Manipulators/Listener.php:95-98 | returns the map |
| Listeners.Listener.CallListenerOrReturnValue | src/Manipulators/Listener.php:123-134 | result and new state are CallOutcome's |
| Listeners.Listener.Getting | src/Manipulators/Listener.php:108-113 | calls the getter method for the property through the listener, or returns the value |
| Listeners.Listener.Setting | src/Manipulators/Listener.php:155-160 | calls the setter method for the property through the listener, or returns the value |
| PropertiesMapper.RawProperties | src/DtoPropertiesMapper.php:164-184 | one entry per distinct property name of the tags; a later tag for a name replaces the earlier one |
| PropertiesMapper.UseName | src/DtoPropertiesMapper.php:212-213 | a use clause binds its alias, or else the last segment of the class name |
| PropertiesMapper.UseStatementsBind | src/DtoPropertiesMapper.php:211-215 | the use statements bind exactly the clauses' names |
| PropertiesMapper.LaterUseClauseWins | src/DtoPropertiesMapper.php:214 | a later clause for the same name wins |
| PropertiesMapper.FullyQualifiedName | src/DtoPropertiesMapper.php:234-235 | an existing fully qualified class resolves to itself without the leading '\' |
| PropertiesMapper.ImportShadowsNamespace | src/DtoPropertiesMapper.php:238-239 | an imported name resolves to its use statement |
| PropertiesMapper.UnresolvedNameKept | src/DtoPropertiesMapper.php:243-247 | an unknown name outside the namespace is kept as written, without `[]` |
| PropertiesMapper.ParseAtomCollection | src/DtoPropertiesMapper.php:230-231 | a type is a collection iff it was written with `[]` |
| PropertiesMapper.ParseAtoms | src/DtoPropertiesMapper.php:229 | one type per '|'-separated part |
| PropertiesMapper.AddParsed | src/DtoPropertiesMapper.php:229-248 | one reduce step adds the parsed type to the union |
| PropertiesMapper.ParseTypes | src/DtoPropertiesMapper.php:227-249 | a fresh union holding the parsed types of every part, in order |
| PropertiesMapper.DeclaredNames | src/DtoPropertiesMapper.php:133 | the names visited so far |
| PropertiesMapper.PlanFailureSticks | src/DtoPropertiesMapper.php:143-147 | the first exception ends the mapping |
| PropertiesMapper.PlanValidates | src/DtoPropertiesMapper.php:137-147 | every mapped cell passed validation and holds the given value or else the default |
| PropertiesMapper.PlanComplete | src/DtoPropertiesMapper.php:137-145 | without PARTIAL every declared property is mapped, in declaration order |
| PropertiesMapper.PlanNames | src/DtoPropertiesMapper.php:133-147 | only declared properties are mapped |
| PropertiesMapper.PlanDistinct | src/DtoPropertiesMapper.php:147 | no property is mapped twice |
| PropertiesMapper.MapRejectsUnknown | src/DtoPropertiesMapper.php:151-153 | without IGNORE_UNKNOWN_PROPERTIES a successful mapping had no undeclared key in its data |
| PropertiesMapper.Advance | src/DtoPropertiesMapper.php:133-149 | one loop turn extends the plan by that property's outcome and removes its key from the data |
| PropertiesMapper.DeclaredAtoms | src/DtoPropertiesMapper.php:134-135 | one parsed union per declared property |
| PropertiesMapper.UnionsOf | src/DtoPropertiesMapper.php:155 | one cached union per mapped property |
| PropertiesMapper.DtoPropertiesMapper.constructor | src/DtoPropertiesMapper.php:83-87 | a new mapper has mapped nothing |
| PropertiesMapper.DtoPropertiesMapper.TypesFor | src/DtoPropertiesMapper.php:134-135 | reuses the union cached for the name, or else parses the raw types |
| PropertiesMapper.DtoPropertiesMapper.Visit | src/DtoPropertiesMapper.php:134-148 | the outcome for one property is the plan's turn; a success removes the key and builds a fresh validated cell |
| PropertiesMapper.DtoPropertiesMapper.Step | src/DtoPropertiesMapper.php:133-149 | one loop turn keeps the loop invariant or ends with the plan's failure |
| PropertiesMapper.DtoPropertiesMapper.Collect | src/DtoPropertiesMapper.php:129-149 | the loop's outcome is the plan over every declared property |
| PropertiesMapper.DtoPropertiesMapper.MapDeclared | src/DtoPropertiesMapper.php:129-153 | fails iff the plan or the unknown-key check fails; otherwise the cells are the plan's, with distinct keys |
| PropertiesMapper.DtoPropertiesMapper.Map | src/DtoPropertiesMapper.php:127-156 | the result is the mapping outcome; on success the mapper caches exactly the new cells, and on failure it is unchanged |
| PropertiesMapper.DtoPropertiesMapper.Install | src/DtoPropertiesMapper.php:155 | stores the mapped cells |
| PropertiesMapper.MapperRegistry.constructor | src/DtoPropertiesMapper.php:104-114 | a new registry holds no mappers |
| PropertiesMapper.MapperRegistry.For | src/DtoPropertiesMapper.php:83-114 | one mapper per class, created on first use; an unknown class is DtoNotFoundException |
| DtoData.ResolveNestedValue | src/Traits/HasProperties.php:126-135 | the result is a one-entry array |
| DtoData.DigResolved | src/Traits/HasProperties.php:126-135 | following the path back through the nested array finds the value |
| DtoData.ResolveSegments | src/Traits/HasProperties.php:126-135 | a dotted path nests one array per segment |
| DtoData.ResolveExample | src/Traits/HasProperties.php:126-135 | single-input example: "a.b.c" gives `['a' => ['b' => ['c' => v]]]` |
| DtoData.ReplaceRecursive | src/Traits/ManipulatesData.php:25 | `array_replace_recursive` keeps the base keys in order and appends new ones |
| DtoData.ReplaceRecursiveKeys | src/Traits/ManipulatesData.php:25 | the merged keys are the base keys plus the replacement keys |
| DtoData.ReplaceRecursiveGet | src/Traits/ManipulatesData.php:25 | a replaced key holds the recursive replacement of the old value; other keys keep theirs |
| DtoData.ReplaceNothing | src/Traits/ManipulatesData.php:25 | replacing with nothing keeps the data |
| DtoData.NestedProperty | src/Traits/HasProperties.php:73-91 | a found property is a field of a DTO instance; a miss is UnknownDtoPropertyException |
| DtoData.NestedPropertyUnheard | src/Traits/HasProperties.php:83-87 | `head.key` finds key inside the DTO stored under head |
| DtoStates.Built | src/DtoPropertiesMapper.php:147 | the built cells carry the planned names in order |
| DtoStates.Remaining | src/Traits/HasFlags.php:100 | `current ^ (current & f)` is current with f's bits cleared |
| DtoStates.IncludesNone | src/Traits/HasFlags.php:56-59 | every flag word includes NONE |
| DtoStates.IncludesAdded | src/Traits/HasFlags.php:84-89 | after adding f, the word includes f and the old flags |
| DtoStates.MergeIncludes | src/Dto.php:69-72 | a successful merge includes every flag of the merged-in word |
| DtoStates.Exported | src/Traits/TurnsIntoArray.php:25-34 | exporting no cells gives the empty array |
| DtoStates.ExportedNext | src/Traits/TurnsIntoArray.php:29-31 | each cell's converted value is written under its name |
| DtoStates.ExportedStops | src/Traits/TurnsIntoArray.php:30 | a cell whose value fails ends the export with that error |
| DtoStates.ExportedFailureSticks | src/Traits/TurnsIntoArray.php:29-31 | once failed, the export stays failed |
| DtoStates.ExportedKeys | src/Traits/TurnsIntoArray.php:25-34 | the exported array has the DTO's property names, in order |
| DtoStates.ExportedGet | src/Traits/TurnsIntoArray.php:29-31 | each name holds the conversion of its cell's value |
| DtoStates.ExportedFailure | src/Traits/TurnsIntoArray.php:29-31 | a failed export reports the error of one of the cells |
| DtoStates.Lookup | src/Traits/HasProperties.php:73-91 | an own hit names an existing cell; a nested hit is a field of a DTO instance |
| DtoStates.ExactNameWins | src/Traits/HasProperties.php:75-77 | an exact key wins, even one holding '.' |
| DtoStates.PlainUnknownName | src/Traits/HasProperties.php:79-81 | an unknown name without '.' is Unknown and has/hasProperty answer false |
| DtoStates.UnknownHead | src/Traits/HasProperties.php:83-84 | an unknown head of a dotted path is Unknown naming the head |
| DtoStates.NotADto | src/Traits/HasProperties.php:86-90 | a head whose value is not a DTO is Unknown naming the rest of the path |
| DtoStates.NestedName | src/Traits/HasProperties.php:83-87 | a head holding a DTO looks the rest up inside it |
| DtoStates.HasPropertyIsLookup | src/Traits/HasProperties.php:57-64 | hasProperty is true iff the lookup succeeds and false iff it is Unknown |
| DtoStates.Getting | src/Traits/HasValues.php:41-46 | the listener's map is never changed by a read |
| DtoStates.SetPlanOf | src/Traits/HasProperties.php:100-117 | writing an own cell names an existing cell; a nested write names an existing field of a DTO instance |
| DtoStates.SetPlanExactName | src/Traits/HasProperties.php:102-104 | an existing name is written in place |
| DtoStates.SetPlanNewName | src/Traits/HasProperties.php:107-116 | an unknown name without '.' re-maps the data |
| DtoStates.SetCellChangesOne | src/DtoProperty.php:211-218 | setting one cell changes only that cell's value and flags |
| DtoStates.WithEntry | src/Traits/HasProperties.php:107-114 | the new data has the value at the name, or the nested array at the head, and keeps every old key |
| DtoStates.WithEntryKeepsOthers | src/Traits/HasProperties.php:110 | other keys are unchanged |
| DtoStates.WithEntryDig | src/Traits/HasProperties.php:112-113 | the dotted path leads to the value in the new data |
| Dtos.States | src/Traits/HasProperties.php:26-29 | the snapshot has the map's keys |
| Dtos.MadeStates | src/DtoPropertiesMapper.php:147 | the mapped cells are the planned ones |
| Dtos.Dto.Kept | src/Traits/HasProperties.php:26-29 | untouched cells keep the snapshot |
| Dtos.Dto.Of | src/Dto.php:55-59 | the new DTO holds its class, flags and map |
| Dtos.Dto.Make | src/Dto.php:55-59 | fails iff flag merge or mapping fails; otherwise the flags are the merged ones and the cells the mapped ones |
| Dtos.Dto.ToArray | src/Traits/TurnsIntoArray.php:25-34 | the result is the export of the cells, with the DTO's property names as keys |
| Dtos.Dto.Clone | src/Dto.php:489-494 | a fresh DTO with the same flags and snapshot, whose cells and unions are fresh and disjoint from the original's |
| Dtos.Dto.GetProperty | src/Traits/HasProperties.php:73-91 | the result and the listener state are Lookup's; the DTO is unchanged |
| Dtos.Dto.Get | src/Traits/HasValues.php:41-46 | the value and listener state are Getting's |
| Dtos.Dto.Hear | src/Traits/HasValues.php:45 | the listener's getter is applied to the value |
| Dtos.Dto.LookupInside | src/Traits/HasProperties.php:86-87 | the nested lookup is NestedProperty's |
| Dtos.Dto.ReadProperty | src/DtoProperty.php:130-140 | the value of a cell and the snapshot are unchanged |
| Dtos.Dto.SetOwnValue | src/DtoProperty.php:211-218 | only that cell changes, and the error is its validation outcome |
| Dtos.Dto.MapData | src/Dto.php:81-84 | the outcome and the new cells are the mapper's outcome; on failure the cells are unchanged |
| Dtos.Dto.Adopt | src/Traits/ManipulatesData.php:33 | the mapped cells replace the map |
| Dtos.Dto.PlanSet | src/Traits/HasProperties.php:100-117 | the plan and listener state are SetPlanOf's |
| Dtos.Dto.Set | src/Traits/HasValues.php:66-81 | a MUTABLE DTO changes itself and returns itself; an immutable one stays unchanged and returns a changed copy; an error surfaces unless it is Unknown under IGNORE_UNKNOWN_PROPERTIES |
| Dtos.Dto.SetInPlace | src/Traits/HasValues.php:72-73 | the set outcome applied to the receiver |
| Dtos.Dto.SetInClone | src/Traits/HasValues.php:69-73 | the set outcome applied to a fresh clone; the receiver is unchanged |
| Dtos.Dto.SetPropertyValueOrMap | src/Traits/HasProperties.php:100-117 | an existing property is set in place; any other path re-maps the exported data plus the new entry |
| Dtos.Dto.Apply | src/Traits/HasProperties.php:102-116 | carries out the set plan |
| Dtos.Dto.RemapWith | src/Traits/HasProperties.php:107-116 | re-maps the exported data with the new entry |
| Dtos.Dto.HasProperty | src/Traits/HasProperties.php:57-64 | the answer is HasPropertyOutcome's |
| Dtos.Dto.Has | src/Traits/HasValues.php:25-32 | the answer is HasOutcome's: the value is not null, and Unknown answers false |
| Dtos.Dto.Remake | src/Dto.php:93-96 | a fresh DTO of the same class built from the data; the receiver is unchanged |
| Dtos.Dto.Rebuild | src/Traits/HasValues.php:110-113 | the exported data, minus a dropped key, built into a fresh DTO |
| Dtos.Dto.Unset | src/Traits/HasValues.php:91-114 | without PARTIAL it fails with UnsetDtoPropertyException; a dotted path unsets inside the nested DTO and sets it back; MUTABLE removes the key in place; otherwise a fresh DTO is built without it |
| Dtos.Dto.UnsetNested | src/Traits/HasValues.php:99-102 | unsets inside the nested DTO and sets the result back under the head |
| Dtos.Dto.UnsetInsideOf | src/Traits/HasValues.php:100-101 | the nested DTO's unset outcome |
| Dtos.Dto.DropProperty | src/Traits/HasValues.php:106 | removes exactly that key from the map |
| Dtos.Dto.Merge | src/Traits/ManipulatesData.php:22-36 | an immutable DTO is unchanged and a fresh one is built from the merged data and flags; a MUTABLE one takes the merged flags and re-maps the merged data itself |
| Dtos.Dto.MergePlan | src/Traits/ManipulatesData.php:24-26 | the merged data and merged flags are Merging's |
| Dtos.Dto.Only | src/Traits/ManipulatesData.php:45-65 | a MUTABLE DTO keeps exactly the listed properties in order and takes the merged flags with PARTIAL; an immutable one is unchanged and a fresh DTO is built from the listed values |
| Dtos.Dto.OnlyInPlace | src/Traits/ManipulatesData.php:51-61 | keeps exactly the listed properties and takes the merged flags |
| Dtos.Dto.KeepListed | src/Traits/ManipulatesData.php:51-56 | keeps exactly the listed properties, in order |
| Dtos.Dto.Replace | src/Traits/ManipulatesData.php:33 | the given cells become the map |
| Dtos.Dto.Except | src/Traits/ManipulatesData.php:74-79 | only() of the property names that are not given: a MUTABLE DTO keeps exactly the others |
| Dtos.Dto.HasFlags | src/Traits/HasFlags.php:56-59 | NONE is always held, and holding MUTABLE means the DTO is mutable |
| Dtos.Dto.SetFlags | src/Traits/HasFlags.php:67-76 | a MUTABLE DTO takes exactly the given flags; an immutable one is unchanged and a fresh DTO is built from its data with the given flags |
| Dtos.Dto.AddFlags | src/Traits/HasFlags.php:84-89 | setFlags of the current flags or'ed with the given ones |
| Dtos.Dto.RemoveFlags | src/Traits/HasFlags.php:97-103 | setFlags of the current flags with the given bits cleared; in place no given bit remains |
| Dtos.Dto.PropertyNames | src/Traits/HasProperties.php:36-39 | the map's keys, in order |
| Dtos.Dto.Properties | src/Traits/HasProperties.php:46-49 | the map's cells, in order |
| Dtos.Dto.OffsetExists | src/Traits/TurnsIntoArray.php:52-55 | is has() |
| Dtos.Dto.OffsetSet | src/Traits/TurnsIntoArray.php:80-87 | an immutable DTO fails with ImmutableDtoException and is unchanged; a MUTABLE one is set in place |
| Dtos.Dto.OffsetUnset | src/Traits/TurnsIntoArray.php:98-105 | an immutable DTO fails with ImmutableDtoException, one without PARTIAL with UnsetDtoPropertyException; otherwise unset() in place |
| Dtos.TypesOf | src/DtoProperty.php:189-192 | one union per cell, under the cell's name |
| Dtos.SetAt | src/DtoProperty.php:211-218 | setting the i-th cell changes only that cell's state; the error is its validation outcome |
| Dtos.NestedLookup | src/Traits/HasProperties.php:73-91 | the nested lookup follows NestedProperty |
| Dtos.CloneProperties | src/Dto.php:489-494 | fresh copies of every cell with the same names, states and unions |
| Dtos.ValueOf | src/DtoProperty.php:130-140 | a cell's processed value |
| Dtos.Export | src/Traits/TurnsIntoArray.php:25-34 | the loop builds the specification's export |
| Dtos.OnlyIsPartial | src/Traits/ManipulatesData.php:49 | only() always yields PARTIAL flags |
| Dtos.KeepListedEntries | src/Traits/ManipulatesData.php:51-56 | the loop that unsets unlisted entries leaves exactly the listed ones, in order |
| Dtos.ProcessedAll | src/Traits/ManipulatesData.php:51-53 | the values of the listed cells under their names |
| Dtos.PickListed | src/Traits/ManipulatesData.php:51-53 | the loop collects the processed values of exactly the listed cells |
| Dtos.StatesListed | src/Traits/ManipulatesData.php:51-56 | keeping listed cells keeps their states |
| Dtos.StatesRemove | src/Traits/HasValues.php:106 | removing a cell removes its state |
| LegacyDtos.Finding | src/Dto.php:191-209 | an own hit names an existing cell; a nested hit is a field of a DTO instance |
| LegacyDtos.QuietLookup | src/Dto.php:191-236 | the legacy lookup and read are the trait lookup and read with no listener |
| LegacyDtos.QuietHas | src/Dto.php:175-224 | legacy hasProperty and has are the trait ones with no listener |
| LegacyDtos.NestedQuiet | src/Dto.php:202-205 | a nested lookup without listeners leaves the listener state alone |
| LegacyDtos.Setting | src/Dto.php:252 | success needs a found property; an unknown path changes no cell |
| LegacyDtos.SettingOwn | src/Dto.php:252 | setting an own cell changes only that cell's value and flags |
| LegacyDtos.SettingUnknown | src/Dto.php:197-198 | an unknown name without '.' is Unknown and changes nothing |
| LegacyDtos.Unsetting | src/Dto.php:384-397 | an error changes nothing; success removes exactly that key |
| LegacyDtos.UnsettingNestedKeepsAll | src/Dto.php:392-396 | a dotted path inside a nested DTO passes the check and removes nothing |
| LegacyDtos.Export | src/Dto.php:300-309 | the loop builds the specification's export |
| LegacyDtos.Dto.Kept | src/Dto.php:134-137 | untouched cells keep the snapshot |
| LegacyDtos.Dto.Of | src/Dto.php:55-59 | the new DTO holds its class, flags and map |
| LegacyDtos.Dto.Make | src/Dto.php:55-59 | fails iff flag merge or mapping fails; otherwise the flags are the merged ones and the cells the mapped ones |
| LegacyDtos.Dto.Remake | src/Dto.php:93-96 | a fresh DTO of the same class built from the data |
| LegacyDtos.Dto.PropertyNames | src/Dto.php:154-157 | the map's keys, in order |
| LegacyDtos.Dto.Properties | src/Dto.php:164-167 | the map's cells, in order |
| LegacyDtos.Dto.GetProperty | src/Dto.php:191-209 | the result is Finding's; the DTO is unchanged |
| LegacyDtos.Dto.Get | src/Dto.php:233-236 | the result is Reading's |
| LegacyDtos.Dto.ReadProperty | src/DtoProperty.php:130-140 | the value of a cell; the snapshot is unchanged |
| LegacyDtos.Dto.HasProperty | src/Dto.php:175-182 | true iff the lookup succeeds |
| LegacyDtos.Dto.Has | src/Dto.php:217-224 | true iff the value is found and not null |
| LegacyDtos.Dto.Clone | src/Dto.php:267-270 | a fresh DTO with the same flags and snapshot, whose cells are fresh and disjoint from the original's |
| LegacyDtos.Dto.SetOwnValue | src/Dto.php:252 | only that cell changes, and the error is its validation outcome |
| LegacyDtos.Dto.SetIn | src/Dto.php:252 | the error and new cells are Setting's |
| LegacyDtos.Dto.SetFound | src/Dto.php:252 | an own cell is set in place; a nested one is written into its DTO |
| LegacyDtos.Dto.SetInClone | src/Dto.php:249-252 | Setting applied to a fresh clone; the receiver is unchanged |
| LegacyDtos.Dto.Set | src/Dto.php:246-260 | a MUTABLE DTO changes itself and returns itself; an immutable one stays unchanged and returns a changed copy; an error surfaces unless it is Unknown under IGNORE_UNKNOWN_PROPERTIES |
| LegacyDtos.Dto.ToArray | src/Dto.php:300-309 | the result is the legacy export of the cells, with the DTO's property names as keys |
| LegacyDtos.Dto.MergePlan | src/Dto.php:281-283 | the merged data and flags are Merging's |
| LegacyDtos.Dto.Merge | src/Dto.php:279-293 | an immutable DTO is unchanged and a fresh one is built from the merged data and flags; a MUTABLE one takes the merged flags and re-maps the merged data itself |
| LegacyDtos.Dto.MapData | src/Dto.php:81-84 | the outcome and the new cells are the mapper's outcome |
| LegacyDtos.Dto.Adopt | src/Dto.php:290 | the mapped cells replace the map |
| LegacyDtos.Dto.Replace | src/Dto.php:290 | the given cells become the map |
| LegacyDtos.Dto.OffsetExists | src/Dto.php:338-341 | is has() |
| LegacyDtos.Dto.OffsetSet | src/Dto.php:366-373 | an immutable DTO fails with ImmutableDtoException and is unchanged; a MUTABLE one is set in place |
| LegacyDtos.Dto.OffsetUnset | src/Dto.php:384-397 | checks immutability, then PARTIAL, then that the property exists; then it removes only that key |
| LegacyDtos.Dto.DropProperty | src/Dto.php:396 | removes exactly that key from the map |

## Left out

- Integer width: flags are a 16-bit vector. The bits of NULLABLE, NOT_NULLABLE, ARRAY_DEFAULT_TO_EMPTY_ARRAY,
  BOOL_DEFAULT_TO_FALSE and NULLABLE_DEFAULT_TO_NULL are taken as distinct single bits above the declared
  ones. Their exact values are not part of the model.
- Singletons: `Listener::instance()`, `ArrayConverter::instance()` and `DtoPropertiesMapper::for` keep
  static state. Here the listener, the converter and the mapper registry are passed explicitly.
- Runtime and reflection are inputs, not modelled:
  - doc comments, use statements, `class_exists`, `is_subclass_of`, `settype` and `new $class`;
  - the file reading in `cacheUseStatements` (`fopen`/`fgets`);
  - the regular expressions that extract the tags.
- Nested DTOs are values. Writing or unsetting a property inside a nested DTO object is a call into
  that object: `nestedSet` and `env.nestedUnset` are parameters. The in-place change of the nested
  object is not reflected in the outer DTO's cells.
- `getFlagsWithoutDefaults` is the parameter `env.withoutDefaults`.
- Array converters: the trait DTO uses the class-based converter of `src/Manipulators/`, and `src/Dto.php`
  uses the callback-based `src/ArrayConverter.php`. Converter and listener classes are names. Their
  `fromDto` and listener methods are functions of `Env`.
- Not modelled:
  - serialization, JSON, `toJson` and `__toString`;
  - `getIterator()` itself (see the `Values.Items` line below for what iterating a DTO sees);
  - the magic `__get`/`__set`/`__isset` and `offsetGet`, which are thin wrappers of the operations above.
- Memo of `DtoProperty::value()`: `toArray`, `only` and the lookups read the processed value through the
  specification. `Property.DtoProperty.Value` states the memo, but it is not threaded through a DTO's
  cells.
- Comparisons: `in_array` and `array_diff` compare names loosely in PHP. Names are strings here, so the
  comparison is exact equality.
- PropertiesMapper.DtoPropertiesMapper.Map: its postcondition does not state that the new cells and unions
  are fresh or owned. `Visit` and `TypesFor` state that.
- Dtos.Dto.AddFlags: that `hasFlags(f)` holds afterwards is stated by `DtoStates.IncludesAdded`, not by the
  method.
- PropertyTypes.DtoPropertyTypes.Match: the union match the DTO model uses is the corrected one of the first finding. The
  as-written `match` is modelled separately by MatchAsWritten. What is lost: after a failed collection match, the source
  leaves the shared type object as a non-collection. Later validations of that property then differ, on this DTO, its
  clones and later DTOs of the class, because clones and the mapper's cache share the type objects.
- Property.DtoProperty.Validate: states its outcome over the types as declared (Match). It does not reproduce the lasting
  non-collection state a failed collection match leaves on the shared types.
- Property.DtoProperty.SetValue: validates through Validate, so the same lasting change of the types is not reproduced.
- Property.DtoProperty.Create: validates through Validate, so the same lasting change of the types is not reproduced.
- Converters.ArrayConverter.Convert: models line 100 as written. The corrected deep conversion is only the function
  Converted with the flag passed down (DeepSnakeCase, NestedKeysSnakeCased). Every call of `convert` from a DTO uses
  snake case off, and there the two agree (UnformattedIgnoresDepth).
- UnexpectedValue.Message: its postcondition states the message's prefix (name and types text). The tail
  with the shown value and `gettype` is given by the definition only.
- Values.Items: iterating a DTO visits its processed property values (`fields`). PHP iterates a DTO through
  `getIterator()`, which walks `toArray()` (src/Traits/TurnsIntoArray.php:41-44, src/Dto.php:327-330), so a
  nested DTO arrives there as an array. Where a DTO is iterated, the model therefore sees nested DTO objects
  where PHP sees arrays:
  - `matchesCollection`: a property typed `Inner[]` given an `Outer` DTO whose properties hold `Inner` DTOs is
    accepted by the model and rejected by PHP;
  - `processCollection`: the model keeps such an item as it is, where PHP calls `make()` on the array
    (`castRawValueIntoDto` uses `array_map`, which takes only arrays, so it is not affected);
  - the array converters: the model converts the processed values, where PHP converts `toArray()`'s.
- Values.IsIterable: only arrays and DTOs are iterable. PHP's `is_iterable` also holds for every other
  `Traversable` object (ArrayObject, a generator, a collection class). For such an object the model:
  - returns it unchanged from both converters' `convert`, where PHP iterates it;
  - rejects it in `matchesCollection`, where PHP accepts it when its items match;
  - fails `processCollection` with a TypeError, where PHP processes its items;
  - fails `merge` with `TypeError(NotIterable)` (Dtos.Merging, LegacyDtos.Merging), where PHP accepts it as
    `iterable $data`.
- `settype` for CAST_PRIMITIVES is a function of `Env`. Its PHP conversion rules are not modelled.
- Floats are kept as their text. No floating-point arithmetic is modelled.

## Findings

| source | as written | input that shows it | evidently intended | confidence | as-written member | corrected member |
|---|---|---|---|---|---|---|
| src/DtoPropertyType.php:97-104 | `matchesCollection` sets `isCollection` to false before the loop. A failed item match returns early and leaves the type as a non-collection, so later matches treat it as a scalar type | a `string[]` type given `['a', 1]`, then the plain string `'x'`: the second match answers true | the type keeps its declared collection flag, and `'x'` stays rejected | not executed | PropertyType.CollectionTypeAfterFailedMatch | PropertyType.CollectionTypeStableMatch |
| src/Manipulators/ArrayConverter.php:100 | the recursive `convert($value)` drops `$snakeCase`, so nested keys keep their case | `['keyTwo' => ['keyOne' => '2020-01-01']]` with snake case gives the nested key `keyOne` | nested keys are snake-cased too, as the converter's test expects (`key_three`) | not executed | Converters.NestedKeysKeptAsWritten | Converters.NestedKeysSnakeCased |
