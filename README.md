# SirenClient-TS core, modelled in Dafny

This project models the core of SirenClient-TS, a TypeScript client for
Siren hypermedia APIs. The core has six parts:

- **Observable LRU cache** (`LruCache`). It holds the JSON-schema streams of
  action parameters, keyed by schema URL. A read moves the key to the newest
  position. An insertion into a full cache evicts the oldest key. A cache item
  shares its pending stream and, once the stream has produced a truthy value,
  hands out that value directly.
- **Schema simplifier** (`SchemaSimplifier`). It rewrites a fetched JSON
  schema in six passes:
  - resolves local `$ref`s (at most 50 passes);
  - drops the single `"null"` alternative of each property's `oneOf`;
  - flattens one-element `oneOf`s;
  - strips `int32`/`int64` formats;
  - rewrites `anyOf` nodes;
  - deletes `$schema`.
- **Siren deserializer** (`SirenDeserializer`). It turns a raw Siren document
  into a `SirenClientObject`:
  - classes and the title;
  - links;
  - properties, each classified by the JavaScript type of its value;
  - actions, with their HTTP method (GET by default) and their parameter
    convention (none, one JSON object parameter with a schema, or a file
    upload);
  - embedded entities, split into link entities (those with an own `href`)
    and full entities.
- **Hypermedia client service decision logic** (`HypermediaClient`). It covers:
  - the busy-request counter;
  - request headers and the request body of each action type;
  - how an HTTP error becomes a problem-details error;
  - the callbacks an action's response produces;
  - the file name of a download.
- **Reflection helpers** (`ReflectionHelpers`): own-property tests.
- **Siren model defaults** (`SirenModel`): the field initialisers and enums of
  the Siren model classes.

JavaScript values are modelled by `Values.Value`:

- `undefined`, `null`, booleans, integers, strings, arrays, and objects as
  ordered member lists.
- Truthiness, `String(v)`, `Object.assign`, `delete`, property reads that throw
  a `TypeError` on `null`/`undefined`, and `String.prototype.split` are written
  out on it.
- A thrown exception is the `Fail` case of `Values.Result`, and the error says
  which `throw` it is.

The source changes objects in place. Each tree rewrite and each conversion is
modelled as a function from the old value to the new one. Each loop of the
source is a method proved to compute that function.

The cache and the client service keep mutable state, so they are classes:

- `ObservableLruCache` keeps its key order as a `seq` and its items in a `map`.
- `CacheItem` has `value` and `valueSource` fields.
- `HypermediaClientService` has the busy counter, the history of published
  busy flags and the list of requests sent.

RxJS streams are abstract handles (`Streams.Stream`) that say where their
value comes from.

## Model

| member | source | states |
|---|---|---|
| Values.Get | src/siren-deserializer.ts:240-243 | reading a property of `null`/`undefined` throws a TypeError; any other read succeeds, and a defined result is the object's own member under that key |
| Values.Delete | src/schema-simplifier.ts:152 | `delete` throws on `null`/`undefined`, removes exactly the key from an object and leaves other values alone |
| Values.SetMember | src/schema-simplifier.ts:181 | assigning a key gives it the new value, keeps every other key's value, keeps an existing key's position and appends a new key |
| Values.RemoveKey | src/schema-simplifier.ts:182 | after removal the key is absent and every other key keeps its value |
| Values.Assign | src/hypermedia-client.service.ts:271 | `Object.assign(target, src)`: each own key of the source gets the source's last value for it, and every other key keeps the target's value |
| Values.OwnEntries | src/schema-simplifier.ts:167 | the own enumerable entries: an object's members, an array's items under their index keys, nothing for primitives other than strings |
| Values.Split | src/siren-deserializer.ts:276 | `split` on one character: at least one part, no part contains the separator, a string without it gives itself, a string with it gives at least two parts, and every part's characters come from the string |
| Values.JoinSplit | src/siren-model/file-upload-configuration.ts:26-28 | joining the parts of a split with the same separator gives back the string |
| Values.SplitAfterFirst | src/hypermedia-client.service.ts:102-104 | splitting `a;b` where `a` has no separator gives `a` followed by the parts of `b` |
| Values.RemoveFirst | src/schema-simplifier.ts:158-161 | `replace(prefix, '')` removes a leading prefix and leaves a string that lacks the pattern unchanged |
| Values.MapAllEach | src/siren-deserializer.ts:141-159 | a `forEach` that builds one result per element succeeds iff every element succeeds; on success it gives one result per element in order, and on failure it gives the first failing element's error |
| ReflectionHelpers.HasProperty | src/reflection-helpers.ts:3-8 | `hasOwnProperty` throws on `null`/`undefined` and is true exactly for an object owning the key |
| ReflectionHelpers.HasFilledProperty | src/reflection-helpers.ts:10-16 | true exactly when the object owns the key and its value is truthy; throws on `null`/`undefined` |
| ReflectionHelpers.HasFilledArrayProperty | src/reflection-helpers.ts:18-24 | true exactly when the object owns the key and its value is an array; throws on `null`/`undefined` |
| ReflectionHelpers.FilledChain | src/reflection-helpers.ts:10-24 | a filled array property is a filled property, and a filled property is an own property |
| ReflectionHelpers.EmptyArrayIsFilled | src/reflection-helpers.ts:18-24 | an empty array counts as filled, since arrays are truthy |
| SirenModel.MethodByKey | src/siren-model/hypermedia-action.ts:27-33 | looking up `HttpMethodTypes` by key finds exactly the member whose value is that key, and nothing for any other key |
| SirenModel.ActionTypeValuesDistinct | src/siren-model/hypermedia-action.ts:35-39 | the three `ActionType` values are pairwise distinct |
| SirenModel.NewHypermediaAction | src/siren-model/hypermedia-action.ts:4-25 | a new action is a parameterless GET with empty href, title and classes, no files and the default upload configuration, and with every optional field undefined |
| SirenModel.NewFileUploadConfiguration | src/siren-model/file-upload-configuration.ts:6-24 | the default upload configuration has no size limit (-1), allows a single file and accepts any type |
| SirenModel.GetAcceptString | src/siren-model/file-upload-configuration.ts:26-28 | no accepted types give the empty string, and one type gives that type |
| SirenModel.AcceptRoundTrip | src/siren-model/file-upload-configuration.ts:24-28 | setting `Accept` from `s.split(",")` makes `getAcceptString()` return `s` |
| SirenModel.NewEmbeddedLinkEntity | src/siren-model/embedded-link-entity.ts:6-20 | a new link entity has empty href, media type and title, and no relations, classes, links, properties, actions or embedded entities |
| SirenModel.NewSirenClientObject | src/siren-model/siren-client-object.ts:7-17 | a new client object has an empty title and no classes, links, properties, actions or embedded entities |
| LruCache.Remove | src/observable-lru-cache.ts:17 | deleting a key removes exactly that key, shrinks a duplicate-free order by one when the key is present, and keeps the order duplicate-free |
| LruCache.TouchMovesToNewest | src/observable-lru-cache.ts:10-22 | re-inserting a present key makes it the newest, keeps the same keys and length, and keeps every other key's relative order |
| LruCache.RemoveAppend | src/observable-lru-cache.ts:15-21 | removing a key that was just appended gives back the previous order |
| LruCache.AddOrder | src/observable-lru-cache.ts:31-44 | with room left nothing is evicted; at the limit exactly the oldest key is evicted; a key still present keeps its position; otherwise the new key is the newest; the order stays duplicate-free |
| LruCache.AddBounded | src/observable-lru-cache.ts:33-41 | the number of entries never exceeds the capacity after an insertion |
| LruCache.CacheItem.constructor | src/observable-lru-cache.ts:47-49 | a new item has a `null` value and no source stream |
| LruCache.CacheItem.SetValue | src/observable-lru-cache.ts:51-63 | the item's source becomes the shared stream over the given one, which is also returned, and the value is untouched |
| LruCache.CacheItem.Resolve | src/observable-lru-cache.ts:51-71 | when the shared stream emits, the value is recorded and the source dropped, so `getValue` gives `of(value)` for a truthy value and nothing otherwise |
| LruCache.ObservableLruCache.constructor | src/observable-lru-cache.ts:4-6 | a new cache is empty, with 50 entries as the default limit |
| LruCache.ObservableLruCache.GetItem | src/observable-lru-cache.ts:10-29 | a miss returns nothing and changes nothing; a hit returns the item's `getValue()` and moves the key to the newest position; items are never changed |
| LruCache.ObservableLruCache.AddItem | src/observable-lru-cache.ts:31-44 | the order follows the eviction rule, the key maps to a fresh item whose value is the returned shared stream, and every other surviving item is unchanged |
| SchemaSimplifier.RemoveSchemaSpecification | src/schema-simplifier.ts:23-28 | throws only on `null`/`undefined`; removes `$schema` from an object, keeps every other key, and leaves non-objects unchanged |
| SchemaSimplifier.FixUnknownFormats | src/schema-simplifier.ts:30-48 | the recursive walk computes `FixedFormats`, the format-fixed document, whose properties the `FixedFormats…` lemmas state |
| SchemaSimplifier.FixedFormatsRemovesAll | src/schema-simplifier.ts:36-46 | no `format: "int32"` or `format: "int64"` remains anywhere in the result |
| SchemaSimplifier.FixedFormatsMembersRemoveAll | src/schema-simplifier.ts:31-47 | the same for the members of one object |
| SchemaSimplifier.FixedFormatsItemsRemoveAll | src/schema-simplifier.ts:44-46 | the same for the items of one array |
| SchemaSimplifier.FixedFormatsIdentity | src/schema-simplifier.ts:30-48 | a document without such formats is unchanged |
| SchemaSimplifier.FixedFormatsMembersIdentity | src/schema-simplifier.ts:31-47 | the same for the members of one object |
| SchemaSimplifier.FixedFormatsItemsIdentity | src/schema-simplifier.ts:44-46 | the same for the items of one array |
| SchemaSimplifier.FixedFormatsIdempotent | src/schema-simplifier.ts:30-48 | running the pass twice equals running it once |
| SchemaSimplifier.FixedFormatsKeepsKeys | src/schema-simplifier.ts:36-41 | only `format` keys can disappear |
| SchemaSimplifier.LastNullTypeIndex | src/schema-simplifier.ts:107-117 | the scan's index is that of the last `"null"`-typed alternative, and -1 exactly when there is none |
| SchemaSimplifier.RemovedNullType | src/schema-simplifier.ts:106-128 | a `null`/`undefined` alternative throws a TypeError; more than one `"null"` type throws with the count; otherwise the result is the alternatives without the `"null"`-typed one |
| SchemaSimplifier.SpliceIsFilter | src/schema-simplifier.ts:123-127 | splicing out the scan's index is the same as filtering out the `"null"` type |
| SchemaSimplifier.OthersNotNullTyped | src/schema-simplifier.ts:119-127 | with at most one `"null"` type, every alternative other than the spliced one is not `"null"`-typed |
| SchemaSimplifier.ZeroCountNoneNullTyped | src/schema-simplifier.ts:123-125 | a zero count means no alternative is `"null"`-typed |
| SchemaSimplifier.KeptIsSplice | src/schema-simplifier.ts:127 | what the splice keeps is the original list with the spliced position skipped |
| SchemaSimplifier.ScanNullTypes | src/schema-simplifier.ts:107-117 | the counting loop throws exactly when an alternative is `null`/`undefined`; otherwise it returns the number of `"null"` types and the last one's index |
| SchemaSimplifier.RemoveNullType | src/schema-simplifier.ts:106-128 | the method computes `RemovedNullType` |
| SchemaSimplifier.NullablesFixed | src/schema-simplifier.ts:83-104 | throws on a `null`/`undefined` schema; an object stays an object with every key other than `properties` unchanged; a non-object is unchanged |
| SchemaSimplifier.NullablesFixedEachNoNull | src/schema-simplifier.ts:96-101 | recursing into the alternatives that remain keeps every one of them free of the `"null"` type |
| SchemaSimplifier.NullablesFixedPropertyRemovesNull | src/schema-simplifier.ts:94-101 | a property with an array `oneOf` keeps its other keys, and no alternative left in its `oneOf` is `"null"`-typed |
| SchemaSimplifier.FixNullablesInOneOf | src/schema-simplifier.ts:83-104 | the method computes `NullablesFixed` |
| SchemaSimplifier.FixNullablesInProperty | src/schema-simplifier.ts:94-102 | the method computes one property's rewrite |
| SchemaSimplifier.FixNullablesInAlternatives | src/schema-simplifier.ts:99-101 | the `forEach` over the spliced list recurses into each remaining alternative in order |
| SchemaSimplifier.Flattened | src/schema-simplifier.ts:50-81 | throws on a `null`/`undefined` schema; an object stays an object with every key other than `properties` unchanged; a non-object is unchanged |
| SchemaSimplifier.FlattenedPropertyCases | src/schema-simplifier.ts:61-79 | more than one alternative throws; one truthy alternative replaces the property, which is then that alternative with its own `properties` flattened (`Flattened` of it), keeping its other keys; no alternative, or a falsy one, only deletes `oneOf` and keeps every other key |
| SchemaSimplifier.FlatenOneOf | src/schema-simplifier.ts:50-81 | the method computes `Flattened` |
| SchemaSimplifier.FlatenProperty | src/schema-simplifier.ts:61-79 | the method computes one property's rewrite |
| SchemaSimplifier.TypedCountPositive | src/schema-simplifier.ts:178-180 | the filtered list is non-empty iff some alternative has that type |
| SchemaSimplifier.AnyOfCollapses | src/schema-simplifier.ts:176-180 | filtering throws for a non-array `anyOf` or a `null`/`undefined` alternative; otherwise the node collapses iff some alternative is `number` and some is `integer` |
| SchemaSimplifier.AnyOfSimplified | src/schema-simplifier.ts:171-193 | primitives are unchanged; objects and arrays keep their shape and keys; an `anyOf` node becomes `type: "number"` without `anyOf` when it collapses, and `type: "object"` keeping `anyOf` otherwise |
| SchemaSimplifier.AnyOfSimplifiedMembers | src/schema-simplifier.ts:189-192 | recursing into every member keeps the same keys in the same order |
| SchemaSimplifier.AnyOfSimplifiedItems | src/schema-simplifier.ts:189-192 | recursing into every item keeps the length |
| SchemaSimplifier.SimplifyAnyOf | src/schema-simplifier.ts:171-193 | the method computes `AnyOfSimplified` |
| SchemaSimplifier.SimplifyAnyOfMembers | src/schema-simplifier.ts:189-192 | the member loop computes `AnyOfSimplifiedMembers` |
| SchemaSimplifier.AnyOfIdentity | src/schema-simplifier.ts:171-193 | a document without `anyOf` is unchanged |
| SchemaSimplifier.AnyOfIdentityMembers | src/schema-simplifier.ts:189-192 | the same for the members of one object |
| SchemaSimplifier.AnyOfIdentityItems | src/schema-simplifier.ts:189-192 | the same for the items of one array |
| SchemaSimplifier.AnyOfUntouchedMembers | src/schema-simplifier.ts:181-185 | the members the node rewrite has just set are left as they are |
| SchemaSimplifier.AnyOfNode | src/schema-simplifier.ts:176-192 | how an `anyOf` node is rebuilt from its simplified members: `type` becomes `number` and `anyOf` is deleted, or `type` becomes `object` |
| SchemaSimplifier.NumberOrInteger | src/schema-simplifier.ts:180-183 | `anyOf: [number, integer]` becomes `type: "number"` |
| SchemaSimplifier.MixedDoesNotCollapse | src/schema-simplifier.ts:184-186 | the `anyOf` `[integer, {anyOf: [number, integer]}]` does not collapse, since none of its top-level alternatives is a `number` |
| SchemaSimplifier.MixedAnyOfOnce | src/schema-simplifier.ts:171-193 | on that document one run retypes the parent as `object` and collapses the nested `anyOf` |
| SchemaSimplifier.MixedAnyOfTwice | src/schema-simplifier.ts:171-193 | a second run then collapses the parent to `type: "number"` |
| SchemaSimplifier.AnyOfNotIdempotent | src/schema-simplifier.ts:171-193 | so the pass is not idempotent |
| SchemaSimplifier.ResolveRef | src/schema-simplifier.ts:158-165 | a non-string `$ref` or missing `definitions` throws a TypeError; otherwise the prefix-stripped key is looked up, and a falsy definition throws an unresolvable-reference error |
| SchemaSimplifier.ResolveRefByName | src/schema-simplifier.ts:158-165 | `#/definitions/<name>` resolves to the definition named `<name>` |
| SchemaSimplifier.ReplaceRefNode | src/schema-simplifier.ts:166-167 | after `delete $ref` and `Object.assign`, every key of the definition has the definition's value, `$ref` is gone unless the definition has one, and every other key is kept |
| SchemaSimplifier.RefsReplaced | src/schema-simplifier.ts:156-169 | one pass keeps an object an object and leaves a document without `$ref` unchanged |
| SchemaSimplifier.RefsReplacedMembers | src/schema-simplifier.ts:157-168 | members without `$ref` are unchanged |
| SchemaSimplifier.RefsReplacedItems | src/schema-simplifier.ts:157-168 | items without `$ref` are unchanged |
| SchemaSimplifier.ResolveFrom | src/schema-simplifier.ts:132-146 | the loop runs at most 50 passes; stopping early means no `$ref` is left; a document without `$ref` stops at once |
| SchemaSimplifier.ResolvedLocalReferencesOutcome | src/schema-simplifier.ts:130-154 | finishing early leaves no `$ref` and no `definitions`; spending all 50 passes keeps the document as the last pass left it |
| SchemaSimplifier.NoRefsOnlyDropsDefinitions | src/schema-simplifier.ts:139-152 | a schema without `$ref` only loses `definitions` |
| SchemaSimplifier.MissingDefinitionFails | src/schema-simplifier.ts:162-165 | a `$ref` to a definition that does not exist throws an unresolvable-reference error |
| SchemaSimplifier.ResolveLocalReferences | src/schema-simplifier.ts:130-154 | the method computes the resolved document |
| SchemaSimplifier.RunReplaceRefsPasses | src/schema-simplifier.ts:132-146 | the `while` loop computes `ResolveFrom` from pass 0 |
| SchemaSimplifier.ReplaceRefsPass | src/schema-simplifier.ts:143-145 | one pass either throws the loop's error or continues the loop from the next pass |
| SchemaSimplifier.SimplifySchema | src/schema-simplifier.ts:6-21 | the method computes `SimplifiedSchema`: the six passes in source order |
| SchemaSimplifier.SimplifiedSchemaProperties | src/schema-simplifier.ts:6-21 | a schema simplified by `SimplifiedSchema` has no `int32`/`int64` format anywhere and no top-level `$schema` |
| SchemaSimplifier.AnyOfKeepsNoIntFormats | src/schema-simplifier.ts:15-16 | the `anyOf` pass does not bring back a removed format |
| SchemaSimplifier.SetMemberKeepsNoIntFormats | src/schema-simplifier.ts:181 | setting `type` does not bring back a format |
| SchemaSimplifier.RemoveKeyKeepsNoIntFormats | src/schema-simplifier.ts:182 | deleting `anyOf` does not bring back a format |
| SchemaSimplifier.AnyOfMembersKeepNoIntFormats | src/schema-simplifier.ts:189-192 | the same over an object's members |
| SchemaSimplifier.AnyOfItemsKeepNoIntFormats | src/schema-simplifier.ts:189-192 | the same over an array's items |
| SirenDeserializer.PropertyKind | src/siren-deserializer.ts:93-128 | `null` is a null value; numbers, booleans, strings, arrays and other objects get their own kind; exactly `undefined` is skipped |
| SirenDeserializer.PropertyInfosClassified | src/siren-deserializer.ts:87-129 | at most one info per property, and each info carries the kind of its value |
| SirenDeserializer.PropertyInfosComplete | src/siren-deserializer.ts:87-129 | without undefined values, every property gets an info, in order, with its own name and value |
| SirenDeserializer.DeserializedProperties | src/siren-deserializer.ts:79-132 | throws only on a `null`/`undefined` document; no truthy `properties` gives no infos; otherwise the infos of its own entries |
| SirenDeserializer.Link | src/siren-deserializer.ts:73 | a link needs a spreadable `rel` (array or string) and copies its relations, `href` and `type` |
| SirenDeserializer.DeserializedLinks | src/siren-deserializer.ts:64-77 | throws on a `null`/`undefined` document, and gives no links when `links` is not an array |
| SirenDeserializer.GetMethod | src/siren-deserializer.ts:173-182 | the method named by `action.method`, or GET when no member has that name |
| SirenDeserializer.MethodDefaultsToGet | src/siren-deserializer.ts:176-179 | an action without `method` is a GET |
| SirenDeserializer.MethodByName | src/siren-deserializer.ts:174 | an action naming a method gets that method |
| SirenDeserializer.FileUploadInformationRules | src/siren-deserializer.ts:264-278 | the action becomes a file upload; truthy `maxFileSizeBytes`, `allowMultiple` and `accept` replace the defaults; `getAcceptString` then gives back `accept`; a truthy non-string `accept` throws; these are the rules of `FilledFileUploadInformation` |
| SirenDeserializer.FilledJsonParameterInformation | src/siren-deserializer.ts:280-291 | succeeds iff exactly one parameter class is set, and then becomes a JSON-parameter action with the field's `value` as defaults; otherwise it throws the class-count error |
| SirenDeserializer.WaheStyleParameterErrors | src/siren-deserializer.ts:227-238 | the errors in the order the code checks them: unsupported action type, missing `fields` array, a field count other than one |
| SirenDeserializer.WaheStyleParameterResult | src/siren-deserializer.ts:240-260 | on success the action had a supported type and one field with a truthy name; the field's name and type are copied; the type picks the JSON, file-upload or unchanged convention; this is what `ParsedWaheStyleParameters` gives on success |
| SirenDeserializer.WithParameterClasses | src/siren-deserializer.ts:248-250 | a falsy `class` is ignored, an array is copied, and any other truthy non-string throws |
| SirenDeserializer.ActionParameters | src/siren-deserializer.ts:164-171 | a missing or empty `fields` means no parameters; otherwise the parameters are parsed |
| SirenDeserializer.ActionHead | src/siren-deserializer.ts:142-154 | a new action with the raw name, the classes of a filled array, the method, href, title and type |
| SirenDeserializer.ActionParametersKeepSchema | src/siren-deserializer.ts:164-171 | parsing parameters never sets the schema handle, which only the cache lookup does |
| SirenDeserializer.DeserializedActions | src/siren-deserializer.ts:134-162 | throws on a `null`/`undefined` document, and gives no actions when `actions` is not an array |
| SirenDeserializer.IsEmbeddedLinkEntity | src/siren-deserializer.ts:219-225 | throws on `null`/`undefined`, and is true exactly for an object with an own `href` |
| SirenDeserializer.LinkEntitiesIn | src/siren-deserializer.ts:201-204 | the link bucket holds only link entities |
| SirenDeserializer.FullEntitiesIn | src/siren-deserializer.ts:186-189 | the full bucket holds only entities without an own `href` |
| SirenDeserializer.BucketsPartition | src/siren-deserializer.ts:184-217 | the two buckets together hold every embedded entity exactly once |
| SirenDeserializer.LinkEntity | src/siren-deserializer.ts:206-211 | a link entity needs spreadable `rel` and `class`, and copies `href`, relations, classes, `title` and `mediaType` onto a new link entity |
| SirenDeserializer.NullishEntityFails | src/siren-deserializer.ts:184-225 | a `null`/`undefined` embedded entity makes both bucket passes throw |
| SirenDeserializer.LinkBucketContents | src/siren-deserializer.ts:198-217 | the link bucket holds, in source order, `LinkEntity` of each entity with an own `href`, one per such entity |
| SirenDeserializer.FullBucketContents | src/siren-deserializer.ts:184-196 | the entity bucket holds, in source order, `DeserializedEmbeddedEntity` of each entity without an own `href`, one per such entity |
| SirenDeserializer.EmbeddedBuckets | src/siren-deserializer.ts:58-61 | both buckets are empty unless `entities` is an array |
| SirenDeserializer.EntityHead | src/siren-deserializer.ts:44-51 | throws only on `null`/`undefined`; classes come only from a filled array and the title only when truthy; everything else keeps its default |
| SirenDeserializer.NullishDocumentFails | src/siren-deserializer.ts:29-34 | a `null`/`undefined` document throws a TypeError |
| SirenDeserializer.EmptyDocument | src/siren-deserializer.ts:44-62 | an object with none of the Siren keys deserializes to a default client object |
| SirenDeserializer.SirenDeserializer.constructor | src/siren-deserializer.ts:21-27 | the deserializer keeps the schema cache it is given |
| SirenDeserializer.SirenDeserializer.Deserialize | src/siren-deserializer.ts:29-34 | gives the deserialized entity, apart from schema handles, and keeps the cache valid |
| SirenDeserializer.SirenDeserializer.DeserializeEmbeddedEntity | src/siren-deserializer.ts:36-42 | computes `DeserializedEmbeddedEntity`, the relations and the entity, apart from schema handles |
| SirenDeserializer.SirenDeserializer.DeserializeEntity | src/siren-deserializer.ts:44-62 | computes `DeserializedEntity`, apart from schema handles; its head, empty and nullish cases are the `EntityHead`, `EmptyDocument` and `NullishDocumentFails` rows |
| SirenDeserializer.SirenDeserializer.DeserializeLinks | src/siren-deserializer.ts:64-77 | the loop computes `DeserializedLinks` |
| SirenDeserializer.SirenDeserializer.DeserializeProperties | src/siren-deserializer.ts:79-132 | computes `DeserializedProperties` |
| SirenDeserializer.SirenDeserializer.PropertyLoop | src/siren-deserializer.ts:87-129 | the `for…in` loop computes the property infos of the entries |
| SirenDeserializer.SirenDeserializer.DeserializeActions | src/siren-deserializer.ts:134-162 | gives the deserialized actions, apart from schema handles |
| SirenDeserializer.SirenDeserializer.DeserializeActionList | src/siren-deserializer.ts:141-159 | the `forEach` deserializes every action in order and stops at the first that throws |
| SirenDeserializer.SirenDeserializer.DeserializeAction | src/siren-deserializer.ts:142-158 | gives the deserialized action, apart from the schema handle; a JSON-parameter action has exactly one parameter class, and its handle is the one a lookup of that class in the schema cache attached |
| SirenDeserializer.SirenDeserializer.DeserializeActionParameters | src/siren-deserializer.ts:164-171 | computes `ActionParameters`, apart from the schema handle; when it makes the action a JSON-parameter action, the action has one parameter class and the handle the cache gives for it |
| SirenDeserializer.SirenDeserializer.ParseWaheStyleParameters | src/siren-deserializer.ts:227-262 | computes `ParsedWaheStyleParameters`, apart from the schema handle; when it makes the action a JSON-parameter action, the action has one parameter class and the handle the cache gives for it |
| SirenDeserializer.SirenDeserializer.FillJsonParameterInformation | src/siren-deserializer.ts:280-291 | computes `FilledJsonParameterInformation`, apart from the handle; on success the action is a JSON-parameter action with its classes unchanged, exactly one class, and the schema handle for that class: the cached stream on a hit, and the shared fetch-and-simplify stream on a miss |
| SirenDeserializer.SirenDeserializer.GetActionParameterJsonSchema | src/siren-deserializer.ts:294-311 | only the schema handle changes, and it becomes the handle for the URL: a cached stream is reused and its key refreshed; otherwise the shared stream that fetches and simplifies the schema is added under the URL in a new item and used, the oldest key is evicted at capacity, and every other key that stays keeps its item |
| SirenDeserializer.SirenDeserializer.DeserializeEmbeddedLinkEntities | src/siren-deserializer.ts:198-217 | the loop computes `EmbeddedLinkEntities` |
| SirenDeserializer.SirenDeserializer.DeserializeEmbeddedEntities | src/siren-deserializer.ts:184-196 | the loop computes `EmbeddedEntities`, apart from schema handles |
| HypermediaClient.CreateHeaders | src/hypermedia-client.service.ts:118-127 | `Accept` is the Siren media type; `Content-Type` is present iff the argument is truthy and then holds it; there are no other headers |
| HypermediaClient.ClientProblemFields | src/hypermedia-client.service.ts:234-263 | a client-side problem carries its type, detail and status |
| HypermediaClient.ApiErrorFields | src/hypermedia-client.service.ts:285-291 | a generic API error carries type `ApiError`, the status and the raw object |
| HypermediaClient.ProblemDetailsOfAsWritten | src/hypermedia-client.service.ts:230-292 | the classifier as written throws exactly for a `null`/`undefined` payload at status 0, and otherwise agrees with the corrected classifier |
| HypermediaClient.ClientSideProblems | src/hypermedia-client.service.ts:231-264 | the corrected classifier `ProblemDetailsOf`: an unparsable body is a 406 content error; an `Error` payload is a status-0 request error; status 0 is the unreachable-server error; none of these depends on the headers |
| HypermediaClient.ServerProblemDetails | src/hypermedia-client.service.ts:267-272 | a `problem+json` response carries every member of its payload, the last one when a key repeats, and `rawObject` is the payload unless the payload has its own, in `ProblemDetailsOf` |
| HypermediaClient.GenericApiError | src/hypermedia-client.service.ts:275-291 | any other error is an `ApiError` with the transport status and the serialized payload, or `null` for a falsy payload, in `ProblemDetailsOf` |
| HypermediaClient.NullPayloadAtStatusZero | src/hypermedia-client.service.ts:255-264 | a `null` payload at status 0 throws as written and gives the unreachable-server problem once corrected |
| HypermediaClient.ActionErrorCallbacks | src/hypermedia-client.service.ts:294-298 | as written: a `null`/`undefined` payload at status 0 throws and nothing is called back; any other error response produces one error callback with no location or content, carrying the problem details |
| HypermediaClient.ActionErrorCallbacksCorrected | src/hypermedia-client.service.ts:294-298 | corrected: every error response produces exactly one error callback with no location or content, carrying the corrected problem details |
| HypermediaClient.ActionResponseCallbacksAsWritten | src/hypermedia-client.service.ts:129-137 | missing headers throw; otherwise every callback is `ok` with the `Location` header and the body, twice when `Location` is absent and once otherwise |
| HypermediaClient.ActionResponseCallbacks | src/hypermedia-client.service.ts:129-137 | corrected: exactly one `ok` callback with the `Location` header, or `null`, and the body |
| HypermediaClient.ActionResponseDoubleCallback | src/hypermedia-client.service.ts:130-136 | the code as written agrees with the corrected version iff `Location` is present or there are no headers; without `Location` it reports the same callback twice |
| HypermediaClient.ActionCallbacksCorrected | src/hypermedia-client.service.ts:202-206 | corrected: every outcome gives exactly one callback, and only a response without headers throws |
| HypermediaClient.ActionCallbacksAgree | src/hypermedia-client.service.ts:202-206 | the callbacks as written (`ActionCallbacks`) equal the corrected ones iff a response has a `Location` header or no headers, or an error response is not a `null`/`undefined` payload at status 0 |
| HypermediaClient.WaheStyleActionParameters | src/hypermedia-client.service.ts:158-169 | `null` parameters throw; otherwise the body is an array of one object whose only member maps the parameter name to the parameters |
| HypermediaClient.WaheStyleRoundTrip | src/hypermedia-client.service.ts:163-166 | reading the parameter name out of the wrapped body gives back the parameters |
| HypermediaClient.FormParts | src/hypermedia-client.service.ts:217-218 | one `files` form part per file, in order |
| HypermediaClient.FileUploadRules | src/hypermedia-client.service.ts:209-228 | an upload succeeds iff there is at least one file and the type is multipart, or octet-stream with exactly one file; each refused input gets its own error; the body carries exactly the action's files; these are the rules of `FileUploadBody` |
| HypermediaClient.RequestBodyRules | src/hypermedia-client.service.ts:178-197 | `RequestBody`: no body for a parameterless action; the upload body for a file upload; for JSON, the raw parameters, or the wrapped ones (which fail only for `null`) when embedding is on |
| HypermediaClient.DownloadFileName | src/hypermedia-client.service.ts:101-105 | no `Content-Disposition` gives no name; a header without `;` throws; a name never contains `;` or `=` |
| HypermediaClient.DownloadFileNameOf | src/hypermedia-client.service.ts:101-105 | `type;key=name` gives `name`, with or without further `;`-separated parameters after it |
| HypermediaClient.DownloadFileNameWithoutValue | src/hypermedia-client.service.ts:101-105 | `type;param` without `=` gives no name, with or without further `;`-separated parameters after it |
| HypermediaClient.HypermediaClientService.constructor | src/hypermedia-client.service.ts:24-35 | a new service is idle with counter 0, has published `false` and has sent nothing |
| HypermediaClient.HypermediaClientService.AddBusyRequest | src/hypermedia-client.service.ts:109-112 | the counter goes up by one and `true` is published |
| HypermediaClient.HypermediaClientService.RemoveBusyRequest | src/hypermedia-client.service.ts:113-116 | the counter goes down by one and whether it is non-zero is published |
| HypermediaClient.HypermediaClientService.ExecuteRequest | src/hypermedia-client.service.ts:139-156 | sends the action's method and href with the headers and body; the counter is back where it was once the response arrives, after publishing `true` and then the old busy state |
| HypermediaClient.HypermediaClientService.Navigate | src/hypermedia-client.service.ts:62-90 | as written: a GET with the Siren `Accept` header that raises the counter and never lowers it |
| HypermediaClient.HypermediaClientService.NavigateCorrected | src/hypermedia-client.service.ts:62-90 | corrected: the same GET, with the counter and the published busy state back where they were |
| HypermediaClient.HypermediaClientService.BuildBodyForFileUpload | src/hypermedia-client.service.ts:209-228 | the method, with its `forEach` over the files, computes `FileUploadBody` |
| HypermediaClient.HypermediaClientService.ExecuteAction | src/hypermedia-client.service.ts:171-207 | a body that cannot be built (`RequestBody` fails) throws before anything is sent; otherwise one request goes out with `createHeaders(action.type)` and that body, and the outcome gives its callbacks, `ActionCallbacks`, as the code is written (a response without `Location` is reported twice, and a `null` payload at status 0 throws without a callback); the counter ends where it started, after `true` and then the old busy state are published |
| HypermediaClient.HypermediaClientService.DownloadAsFile | src/hypermedia-client.service.ts:92-107 | a GET that is not counted as busy; missing headers throw; otherwise the result is the body and the file name from `Content-Disposition` |

## Left out

- Aliasing: the source mutates shared objects in place, and the model passes values. A schema object reachable from two places is rewritten once per place here. A document whose passes see each other's writes through shared references is not modelled.
- Numbers are integers. Fractional JSON numbers and their `String()` form are not modelled.
- Objects are ordered member lists. Inherited properties and the reordering of integer-like keys in `for…in` and `Object.keys` are not modelled. Duplicate keys are allowed, and the first one wins on reads.
- Property reads on strings and arrays by index key are not modelled: they give `undefined`.
- RxJS is not modelled. This covers `share`, `map`, `subscribe`, `BehaviorSubject.next` of the current object, raw object and navigation paths, `tap`, and scheduling. Streams are abstract handles. `CacheItem.Resolve` stands for the moment the shared stream emits.
- Navigate's second subscription and the mapping of its result to `Success`/`Failure` are not modelled. `navigateToEntryPoint`, `NavigateToApiPath`, the stream getters and `MapResponse` are not modelled. The latter is `SirenDeserializer.Deserialize`.
- `ApiPath` is not part of this model, and neither are `HypermediaSettings`, `FileService` or `ProblemDetailsError`'s own constructor. A problem-details error is the list of members it is built from, and `Object.assign` onto it is `Values.Assign`.
- `HttpHeaders` is a map with exact-case names, and `set` is taken to update it in place. The Angular-style immutable `HttpHeaders` would make `createHeaders` return headers without `Content-Type` and `Accept`.
- `JSON.stringify(_, null, 4)` is a parameter of the client service (`stringify`), as is the HTTP response an action receives. The network, the HTTP client and console logging are left out.
- `FormData`, `File` and `Blob` are modelled as lists of `(name, file)` parts and as file names.
- Error messages are the `Values.Error` variant and the action's raw `name`. The interpolated text is not modelled.
- `SchemaSimplifier.RefsReplaced` resolves every `$ref` of a pass against `definitions` as they were when the pass began, where the source reads `schema.definitions` live and so can see a definition already rewritten earlier in the same pass. Below the 50-pass budget only the number of passes differs. A chain of more than 50 definitions that each refer to the next is resolved by the source in one pass, while the model spends the budget and returns the document with its `$ref`s and `definitions` still in place.
- `SchemaSimplifier.ResolveFrom`: the `find` from `simple-object-query` is modelled as a walk of the whole tree for own `$ref` keys, and the nodes it returns as those it rewrites.
- `SirenDeserializer.SirenDeserializer.Deserialize` and the deserializer methods that handle several actions (`DeserializeEntity`, `DeserializeEmbeddedEntity`, `DeserializeActions`, `DeserializeActionList`, `DeserializeEmbeddedEntities`) are proved equal to their functions only once the schema handles are erased. Each handle depends on what the cache held when its action was met, so on the actions met before it. For one action, `DeserializeAction` and the methods it calls state the handle exactly: the cache's answer for the action's single parameter class at the time of the call.
- The cache is generic in its key type `K`, where the source uses `string`.

## Findings

| source | as written | input that shows it | evidently intended | confidence | as-written member | corrected member |
|---|---|---|---|---|---|---|
| src/hypermedia-client.service.ts:62-90 | `Navigate` calls `AddBusyRequest` but never `RemoveBusyRequest`, so `isBusy$` stays `true` after every navigation | any `Navigate(url)` from an idle service | lower the counter when the response or the error arrives, as `ExecuteRequest` does | not executed | HypermediaClient.HypermediaClientService.Navigate | HypermediaClient.HypermediaClientService.NavigateCorrected |
| src/hypermedia-client.service.ts:129-137 | without a `Location` header the callback runs with `null` and then, with no `return`, a second time | a response whose headers have no `Location` | exactly one `ok` callback | not executed | HypermediaClient.ActionResponseCallbacksAsWritten | HypermediaClient.ActionResponseCallbacks |
| src/hypermedia-client.service.ts:255-264 | at status 0 the code reads `errorResponse.error.message`, which throws a TypeError when the payload is `null` | `HttpErrorResponse` with status 0 and error `null` | the unreachable-server problem details | not executed | HypermediaClient.ProblemDetailsOfAsWritten | HypermediaClient.ProblemDetailsOf |
